/**
 * The rules of the `concept_query` tool that do not involve the network:
 * turning the tool's parameters into ConceptNet URIs, building the query
 * filters from them, and the counting part of the analysis of the edges
 * a query returns.
 */
module ConceptQuery {
  import opened JsonValues
  import opened Strings
  import opened Errors
  import opened Filtering
  import opened TextUtils
  import opened QueryModels

  // ---------------------------------------------------------------------
  // Parameter conversion
  // ---------------------------------------------------------------------

  /** The tool's optional filter parameters as given. */
  datatype ToolParams = ToolParams(
    start: Option<string>, end: Option<string>, rel: Option<string>,
    node: Option<string>, other: Option<string>, sources: Option<string>)

  /** A parameter that is None or empty. */
  predicate Blank(v: Option<string>) { v.None? || v.value == "" }

  /** `create_concept_uri(term, language)`: construct_concept_uri with its defaults. */
  function CreateConceptUri(term: string, language: string): Result<string>
  {
    ConstructConceptUri(term, language, true, true)
  }

  /** One concept parameter: None stays None, an empty string is refused, a
    * `/c/` URI needs at least four `/`-separated parts and is kept, and
    * any other text is turned into a URI in the given language. */
  function ConvertConceptParam(name: string, v: Option<string>, language: string): (r: Result<Option<string>>)
    ensures r.Ok? ==> (r.value.None? <==> v.None?)
    ensures r.Ok? && r.value.Some? ==> StartsWith(r.value.value, "/c/")
    ensures v.Some? && StartsWith(v.value, "/c/") && r.Ok? ==> r.value == v
    ensures v == Some("") ==> r.Err? && r.error == Validation(name, "Non-empty string")
  {
    if v.None? then Ok(None)
    else if v.value == "" then Err(Validation(name, "Non-empty string"))
    else if StartsWith(v.value, "/c/") then
      if |Split(v.value, '/')| < 4 then Err(InvalidUri(v.value)) else Ok(v)
    else
      match CreateConceptUri(v.value, language)
      case Ok(uri) => Ok(Some(uri))
      case Err(e) => Err(Validation(name, "Valid concept term or URI: " + ExceptionText(e)))
  }

  /** A converter of one named parameter. */
  type Converter = (string, Option<string>) -> Result<Option<string>>

  /** One turn of the loop over the concept parameters: convert and record. */
  function RecordInto(validated: map<string, Option<string>>, param: (string, Option<string>),
                      convert: Converter): Result<map<string, Option<string>>>
  {
    var v :- convert(param.0, param.1);
    Ok(validated[param.0 := v])
  }

  function RecordSteps(convert: Converter): (map<string, Option<string>>, (string, Option<string>))
                                              -> Result<map<string, Option<string>>>
  {
    (validated, param) => RecordInto(validated, param, convert)
  }

  function ConceptConverter(language: string): Converter
  {
    (name, v) => ConvertConceptParam(name, v, language)
  }

  function ConceptParamSteps(language: string): (map<string, Option<string>>, (string, Option<string>))
                                                  -> Result<map<string, Option<string>>>
  {
    RecordSteps(ConceptConverter(language))
  }

  /** The concept parameters in the order the loop visits them. */
  function ConceptParams(p: ToolParams): seq<(string, Option<string>)>
  {
    [("start", p.start), ("end", p.end), ("node", p.node), ("other", p.other)]
  }

  /** A character the relation conversion keeps: neither a space nor `_`. */
  predicate NotJoiner(c: char) { c != ' ' && c != '_' }

  /** The relation parameter: a `/r/` URI is kept, other text is title-cased
    * with spaces and underscores removed and put under `/r/`. */
  function ConvertRelation(rel: Option<string>): (r: Result<Option<string>>)
    ensures r.Ok? ==> (r.value.None? <==> rel.None?)
    ensures r.Ok? && r.value.Some? ==> StartsWith(r.value.value, "/r/")
    ensures r.Err? <==> rel == Some("")
  {
    if rel.None? then Ok(None)
    else if rel.value == "" then Err(Validation("rel", "Non-empty string"))
    else if StartsWith(rel.value, "/r/") then Ok(rel)
    else
      var uri := "/r/" + Filter(Title(rel.value, false), NotJoiner);
      assert uri[..3] == "/r/";
      Ok(Some(uri))
  }

  /** The short names of well-known sources. */
  const SourceMappings: map<string, string> := map[
    "wordnet" := "/s/resource/wordnet/rdf/3.1",
    "dbpedia" := "/s/resource/dbpedia/2015/en",
    "omcs" := "/s/activity/omcs",
    "conceptnet" := "/s/resource/conceptnet/5.7"]

  /** The sources parameter: a `/s/` URI is kept, a known short name (in any
    * case) is mapped, anything else is put under `/s/`. */
  function ConvertSources(sources: Option<string>): (r: Result<Option<string>>)
    ensures r.Ok? ==> (r.value.None? <==> sources.None?)
    ensures r.Ok? && r.value.Some? ==> StartsWith(r.value.value, "/s/")
    ensures r.Err? <==> sources == Some("")
  {
    if sources.None? then Ok(None)
    else if sources.value == "" then Err(Validation("sources", "Non-empty string"))
    else if StartsWith(sources.value, "/s/") then Ok(sources)
    else if Lower(sources.value) in SourceMappings then
      var uri := SourceMappings[Lower(sources.value)];
      assert uri[..3] == "/s/";
      Ok(Some(uri))
    else
      var uri := "/s/" + sources.value;
      assert uri[..3] == "/s/";
      Ok(Some(uri))
  }

  /** For every input, one concept parameter: a `/c/` value is kept when
    * another `/` follows the prefix (the split has four parts) and is an
    * invalid concept URI otherwise; other text gives the URI that
    * create_concept_uri builds, and its failure becomes a ValidationError
    * for the parameter. */
  lemma ConceptParamRule(name: string, v: string, language: string)
    ensures StartsWith(v, "/c/") ==>
      ConvertConceptParam(name, Some(v), language) == (if '/' in v[3..] then Ok(Some(v)) else Err(InvalidUri(v)))
    ensures v != "" && !StartsWith(v, "/c/") && CreateConceptUri(v, language).Ok? ==>
      ConvertConceptParam(name, Some(v), language) == Ok(Some(CreateConceptUri(v, language).value))
    ensures v != "" && !StartsWith(v, "/c/") && CreateConceptUri(v, language).Err? ==>
      ConvertConceptParam(name, Some(v), language)
        == Err(Validation(name, "Valid concept term or URI: " + ExceptionText(CreateConceptUri(v, language).error)))
  {
    if StartsWith(v, "/c/") {
      SlashCParts(v);
      SplitPieces(v[3..], '/');
    }
  }

  /** For every input, the relation parameter: a `/r/` value is kept, and
    * other text becomes `/r/` followed by its title case with the spaces
    * and `_` dropped, so that no space or `_` is left after the prefix. */
  lemma RelationRule(rel: string)
    ensures StartsWith(rel, "/r/") ==> ConvertRelation(Some(rel)) == Ok(Some(rel))
    ensures rel != "" && !StartsWith(rel, "/r/") ==>
      && ConvertRelation(Some(rel)) == Ok(Some("/r/" + Filter(Title(rel, false), NotJoiner)))
      && forall i :: 3 <= i < |ConvertRelation(Some(rel)).value.value| ==>
           NotJoiner(ConvertRelation(Some(rel)).value.value[i])
  {
    if rel != "" && !StartsWith(rel, "/r/") {
      var tail := Filter(Title(rel, false), NotJoiner);
      assert forall i :: 3 <= i < |"/r/" + tail| ==> ("/r/" + tail)[i] == tail[i - 3];
    }
  }

  /** For every input, the sources parameter: a `/s/` value is kept, a
    * known short name in any case gives the table's URI, and any other
    * name is put under `/s/` as it is. */
  lemma SourcesRule(v: string)
    ensures StartsWith(v, "/s/") ==> ConvertSources(Some(v)) == Ok(Some(v))
    ensures v != "" && !StartsWith(v, "/s/") && Lower(v) in SourceMappings ==>
      ConvertSources(Some(v)) == Ok(Some(SourceMappings[Lower(v)]))
    ensures v != "" && !StartsWith(v, "/s/") && Lower(v) !in SourceMappings ==>
      ConvertSources(Some(v)) == Ok(Some("/s/" + v))
  {
  }

  /** Title-casing lower-cases every letter after the first of a word, so a
    * CamelCase relation name does not survive: "IsA" becomes `/r/Isa`. */
  lemma RelationTitleCase()
    ensures ConvertRelation(Some("IsA")) == Ok(Some("/r/Isa"))
    ensures ConvertRelation(Some("/r/IsA")) == Ok(Some("/r/IsA"))
  {
    assert StartsWith("/r/IsA", "/r/") by { assert "/r/IsA"[..3] == "/r/"; }
    RelationRule("/r/IsA");
    assert !StartsWith("IsA", "/r/") by { assert "IsA"[..3][0] == 'I'; }
    RelationRule("IsA");
    assert Title("A", true) == "a" by { assert LowerChar('A') == 'a'; }
    assert Title("sA", true) == "sa" by { assert "sA"[1..] == "A"; }
    assert Title("IsA", false) == "Isa" by { assert "IsA"[1..] == "sA"; assert TitleChar('I') == 'I'; }
    assert forall i :: 0 <= i < |"Isa"| ==> NotJoiner("Isa"[i]);
    assert "/r/" + "Isa" == "/r/Isa";
  }

  /** Spaced and underscored relation names are joined up after title-casing. */
  lemma RelationWordsJoined()
    ensures ConvertRelation(Some("is_a")) == Ok(Some("/r/IsA"))
  {
    assert !StartsWith("is_a", "/r/") by { assert "is_a"[..3][0] == 'i'; }
    assert Title("a", false) == "A" by { assert TitleChar('a') == 'A'; }
    assert Title("_a", true) == "_A" by { assert "_a"[1..] == "a"; assert !IsCased('_'); }
    assert Title("s_a", true) == "s_A" by { assert "s_a"[1..] == "_a"; }
    assert Title("is_a", false) == "Is_A" by { assert "is_a"[1..] == "s_a"; assert TitleChar('i') == 'I'; }
    assert Filter("Is_A", NotJoiner) == "IsA";
    assert "/r/" + "IsA" == "/r/IsA";
  }

  /** The known source names are matched without regard to case; other
    * names are put under `/s/` as they are. */
  lemma SourceNames()
    ensures ConvertSources(Some("WordNet")) == Ok(Some("/s/resource/wordnet/rdf/3.1"))
    ensures ConvertSources(Some("omcs")) == Ok(Some("/s/activity/omcs"))
    ensures ConvertSources(Some("verbosity")) == Ok(Some("/s/verbosity"))
  {
    assert Lower("WordNet") == "wordnet";
    assert Lower("omcs") == "omcs";
    assert Lower("verbosity") == "verbosity";
    assert !StartsWith("verbosity", "/s/") by { assert "verbosity"[..3][0] == 'v'; }
    assert "verbosity" !in SourceMappings by {
      assert "verbosity"[0] != "wordnet"[0] && "verbosity"[0] != "dbpedia"[0];
      assert "verbosity"[0] != "omcs"[0] && "verbosity"[0] != "conceptnet"[0];
    }
    assert "/s/" + "verbosity" == "/s/verbosity";
    assert !StartsWith("WordNet", "/s/") by { assert "WordNet"[..3][0] == 'W'; }
    assert !StartsWith("omcs", "/s/") by { assert "omcs"[..3][0] == 'o'; }
  }

  /** The two errors raised before any conversion. */
  const NoFilterError: Raised :=
    Validation("query_parameters", "At least one filter parameter (start, end, rel, node, sources) must be provided")
  const OtherWithoutNodeError: Raised :=
    Validation("other", "'other' parameter requires 'node' parameter to be set")

  /** What `_validate_and_convert_parameters` returns: the two up-front
    * checks, the concept parameters in order, then rel, then sources. */
  function ConvertedParams(p: ToolParams, language: string): Result<map<string, Option<string>>>
  {
    if Blank(p.start) && Blank(p.end) && Blank(p.rel) && Blank(p.node) && Blank(p.sources) then
      Err(NoFilterError)
    else if !Blank(p.other) && Blank(p.node) then
      Err(OtherWithoutNodeError)
    else
      var validated :- FoldResult(ConceptParams(p), map[], ConceptParamSteps(language));
      var rel :- ConvertRelation(p.rel);
      var sources :- ConvertSources(p.sources);
      Ok(validated["rel" := rel]["sources" := sources])
  }

  /** The loop over the concept parameters: each value is converted and
    * recorded under its name, in order, and the first failure is raised. */
  method RecordAll(params: seq<(string, Option<string>)>, convert: Converter)
    returns (r: Result<map<string, Option<string>>>)
    ensures r == FoldResult(params, map[], RecordSteps(convert))
  {
    var validated: map<string, Option<string>> := map[];
    var i := 0;
    while i < |params|
      invariant 0 <= i <= |params|
      invariant FoldResult(params[..i], map[], RecordSteps(convert)) == Ok(validated)
    {
      assert params[..i + 1][..i] == params[..i];
      var v := convert(params[i].0, params[i].1);
      if v.Err? {
        FoldResultErrExtends(params, i + 1, map[], RecordSteps(convert));
        return Err(v.error);
      }
      validated := validated[params[i].0 := v.value];
      i := i + 1;
    }
    assert params[..i] == params;
    return Ok(validated);
  }

  /** `_validate_and_convert_parameters(...)`: the loop over the concept
    * parameters and the conversions of rel and sources. */
  method ValidateAndConvertParameters(p: ToolParams, language: string) returns (r: Result<map<string, Option<string>>>)
    ensures r == ConvertedParams(p, language)
  {
    if Blank(p.start) && Blank(p.end) && Blank(p.rel) && Blank(p.node) && Blank(p.sources) {
      return Err(NoFilterError);
    }
    if !Blank(p.other) && Blank(p.node) {
      return Err(OtherWithoutNodeError);
    }
    var validated :- RecordAll(ConceptParams(p), ConceptConverter(language));
    var rel := ConvertRelation(p.rel);
    if rel.Err? {
      return Err(rel.error);
    }
    var sources := ConvertSources(p.sources);
    if sources.Err? {
      return Err(sources.error);
    }
    return Ok(validated["rel" := rel.value]["sources" := sources.value]);
  }

  /** The loop over distinct parameter names records, under each name, the
    * conversion of its value, and nothing else. */
  lemma {:induction false} RecordedParams(params: seq<(string, Option<string>)>, convert: Converter)
    requires forall i, j :: 0 <= i < j < |params| ==> params[i].0 != params[j].0
    requires FoldResult(params, map[], RecordSteps(convert)).Ok?
    ensures var m := FoldResult(params, map[], RecordSteps(convert)).value;
      (forall k :: k in m ==> exists i :: 0 <= i < |params| && params[i].0 == k)
      && (forall i :: 0 <= i < |params| ==>
            params[i].0 in m && convert(params[i].0, params[i].1) == Ok(m[params[i].0]))
    decreases |params|
  {
    if params != [] {
      var ys := params[..|params| - 1];
      var last := params[|params| - 1];
      var steps := RecordSteps(convert);
      assert FoldResult(ys, map[], steps).Ok?;
      RecordedParams(ys, convert);
      var before := FoldResult(ys, map[], steps).value;
      var v := convert(last.0, last.1).value;
      assert FoldResult(params, map[], steps).value == before[last.0 := v];
      forall i | 0 <= i < |params| - 1
        ensures params[i].0 != last.0 && params[i] == ys[i]
      {
      }
    }
  }

  /** A parameter that cannot be converted makes the loop raise. */
  lemma {:induction false} RecordFailureStops(params: seq<(string, Option<string>)>, convert: Converter, i: nat)
    requires i < |params| && convert(params[i].0, params[i].1).Err?
    ensures FoldResult(params, map[], RecordSteps(convert)).Err?
    decreases |params|
  {
    var steps := RecordSteps(convert);
    if i < |params| - 1 {
      var ys := params[..|params| - 1];
      assert ys[i] == params[i];
      RecordFailureStops(ys, convert, i);
    } else if FoldResult(params[..|params| - 1], map[], steps).Ok? {
      var before := FoldResult(params[..|params| - 1], map[], steps).value;
      assert steps(before, params[i]) == RecordInto(before, params[i], convert);
    }
  }

  /** The pieces a successful conversion is made of. */
  lemma ConvertedParamsParts(p: ToolParams, language: string)
    requires ConvertedParams(p, language).Ok?
    ensures FoldResult(ConceptParams(p), map[], ConceptParamSteps(language)).Ok?
    ensures ConvertRelation(p.rel).Ok? && ConvertSources(p.sources).Ok?
    ensures ConvertedParams(p, language).value
      == FoldResult(ConceptParams(p), map[], ConceptParamSteps(language)).value
           ["rel" := ConvertRelation(p.rel).value]["sources" := ConvertSources(p.sources).value]
    ensures !Blank(p.start) || !Blank(p.end) || !Blank(p.rel) || !Blank(p.node) || !Blank(p.sources)
    ensures !Blank(p.other) ==> !Blank(p.node)
  {
  }

  /** The loop over the four concept parameters records each of them. */
  lemma RecordedConceptParams(p: ToolParams, convert: Converter)
    requires FoldResult(ConceptParams(p), map[], RecordSteps(convert)).Ok?
    ensures var v := FoldResult(ConceptParams(p), map[], RecordSteps(convert)).value;
      v.Keys == {"start", "end", "node", "other"}
      && convert("start", p.start) == Ok(v["start"]) && convert("end", p.end) == Ok(v["end"])
      && convert("node", p.node) == Ok(v["node"]) && convert("other", p.other) == Ok(v["other"])
  {
    var params := ConceptParams(p);
    RecordedParams(params, convert);
    var v := FoldResult(params, map[], RecordSteps(convert)).value;
    assert params[0] == ("start", p.start) && params[1] == ("end", p.end);
    assert params[2] == ("node", p.node) && params[3] == ("other", p.other);
    forall k | k in v ensures k in {"start", "end", "node", "other"} {
      var i :| 0 <= i < |params| && params[i].0 == k;
    }
  }

  /** The parameters come out of a successful conversion converted one by
    * one. */
  lemma ConvertedConceptParams(p: ToolParams, language: string)
    requires ConvertedParams(p, language).Ok?
    ensures var m := ConvertedParams(p, language).value;
      m.Keys == {"start", "end", "node", "other", "rel", "sources"}
      && ConvertConceptParam("start", p.start, language) == Ok(m["start"])
      && ConvertConceptParam("end", p.end, language) == Ok(m["end"])
      && ConvertConceptParam("node", p.node, language) == Ok(m["node"])
      && ConvertConceptParam("other", p.other, language) == Ok(m["other"])
      && ConvertRelation(p.rel) == Ok(m["rel"])
      && ConvertSources(p.sources) == Ok(m["sources"])
  {
    ConvertedParamsParts(p, language);
    RecordedConceptParams(p, ConceptConverter(language));
  }

  /** A successful conversion: exactly the six parameter names, each set
    * exactly when it was given, with concept URIs under `/c/` (a given
    * `/c/` URI kept as it is), the relation under `/r/` and the source
    * under `/s/`. */
  lemma ConvertedParamsShape(p: ToolParams, language: string)
    requires ConvertedParams(p, language).Ok?
    ensures var m := ConvertedParams(p, language).value;
      m.Keys == {"start", "end", "node", "other", "rel", "sources"}
      && (m["start"].Some? <==> p.start.Some?) && (m["end"].Some? <==> p.end.Some?)
      && (m["node"].Some? <==> p.node.Some?) && (m["other"].Some? <==> p.other.Some?)
      && (m["rel"].Some? <==> p.rel.Some?) && (m["sources"].Some? <==> p.sources.Some?)
      && (m["start"].Some? ==> StartsWith(m["start"].value, "/c/"))
      && (m["end"].Some? ==> StartsWith(m["end"].value, "/c/"))
      && (m["node"].Some? ==> StartsWith(m["node"].value, "/c/"))
      && (m["other"].Some? ==> StartsWith(m["other"].value, "/c/"))
      && (m["rel"].Some? ==> StartsWith(m["rel"].value, "/r/"))
      && (m["sources"].Some? ==> StartsWith(m["sources"].value, "/s/"))
      && (p.start.Some? && StartsWith(p.start.value, "/c/") ==> m["start"] == p.start)
  {
    ConvertedConceptParams(p, language);
  }

  /** The two up-front checks, and a concept parameter that cannot be
    * converted, each make the conversion fail. */
  lemma ConvertedParamsChecks(p: ToolParams, language: string)
    ensures Blank(p.start) && Blank(p.end) && Blank(p.rel) && Blank(p.node) && Blank(p.sources) ==>
      ConvertedParams(p, language).Err? && ConvertedParams(p, language).error.field == "query_parameters"
    ensures !Blank(p.other) && Blank(p.node) ==>
      ConvertedParams(p, language).Err? && ConvertedParams(p, language).error.Validation?
    ensures ConvertConceptParam("start", p.start, language).Err? || ConvertConceptParam("end", p.end, language).Err?
            || ConvertConceptParam("node", p.node, language).Err? || ConvertConceptParam("other", p.other, language).Err?
            ==> ConvertedParams(p, language).Err?
    ensures p.rel == Some("") || p.sources == Some("") ==> ConvertedParams(p, language).Err?
  {
    if ConvertedParams(p, language).Ok? {
      ConvertedConceptParams(p, language);
    }
  }

  // ---------------------------------------------------------------------
  // Building the query filters
  // ---------------------------------------------------------------------

  /** `_build_query_filters(validated, limit_results)`: a QueryFilters with
    * limit 20 or 1000 and offset 0; a missing key or a refused
    * combination becomes a ValidationError for `query_filters`. */
  function BuildQueryFilters(validated: map<string, Option<string>>, limitResults: bool): (r: Result<QueryFilters>)
    ensures r.Err? ==> r.error.Validation? && r.error.field == "query_filters"
    ensures r.Ok? ==> r.value.limit == (if limitResults then 20 else 1000) && r.value.offset == 0
  {
    var names := ["start", "end", "rel", "node", "other", "sources"];
    if exists k :: k in names && k !in validated then
      Err(Validation("query_filters", "Valid query combination"))
    else
      var q := QueryFilters(validated["start"], validated["end"], validated["rel"], validated["node"],
                            validated["other"], validated["sources"], if limitResults then 20 else 1000, 0);
      match NewQueryFilters(q)
      case Ok(f) => QueryFiltersAccepted(q); Ok(f)
      case Err(e) => Err(Validation("query_filters", "Valid query combination"))
  }

  /** What the conversion guarantees of its map: the six names, the URI
    * prefixes, `other` only with `node`, and at least one filter other
    * than `other`. */
  predicate WellConverted(m: map<string, Option<string>>)
  {
    m.Keys == {"start", "end", "node", "other", "rel", "sources"}
    && ConceptField(m["start"]) && ConceptField(m["end"]) && ConceptField(m["node"]) && ConceptField(m["other"])
    && RelationField(m["rel"])
    && (m["other"].Some? ==> m["node"].Some?)
    && (m["start"].Some? || m["end"].Some? || m["rel"].Some? || m["node"].Some? || m["sources"].Some?)
  }

  /** A well-converted map builds filters unless `node` and `other` name the
    * same concept. */
  lemma WellConvertedBuildsFilters(m: map<string, Option<string>>, limitResults: bool)
    requires WellConverted(m)
    ensures BuildQueryFilters(m, limitResults).Ok? <==> !(m["node"].Some? && m["node"] == m["other"])
    ensures BuildQueryFilters(m, limitResults).Ok? ==>
      var q := BuildQueryFilters(m, limitResults).value;
      q.start == m["start"] && q.end == m["end"] && q.rel == m["rel"] && q.node == m["node"]
      && q.other == m["other"] && q.sources == m["sources"]
  {
    var names := ["start", "end", "rel", "node", "other", "sources"];
    assert !exists k :: k in names && k !in m;
    var q := QueryFilters(m["start"], m["end"], m["rel"], m["node"], m["other"], m["sources"],
                          if limitResults then 20 else 1000, 0);
    QueryFiltersAccepted(q);
  }

  /** Converted parameters always satisfy the field rules of the query
    * filters, so building them fails only when `node` and `other` name the
    * same concept. */
  lemma ConvertedParamsBuildFilters(p: ToolParams, language: string, limitResults: bool)
    requires ConvertedParams(p, language).Ok?
    ensures WellConverted(ConvertedParams(p, language).value)
    ensures var m := ConvertedParams(p, language).value;
      BuildQueryFilters(m, limitResults).Ok? <==> !(m["node"].Some? && m["node"] == m["other"])
  {
    ConvertedParamsShape(p, language);
    ConvertedParamsParts(p, language);
    ConvertedConceptParams(p, language);
    var m := ConvertedParams(p, language).value;
    assert m["other"].Some? ==> m["node"].Some? by {
      if m["other"].Some? {
        assert p.other != Some("");
      }
    }
    assert m["start"].Some? || m["end"].Some? || m["rel"].Some? || m["node"].Some? || m["sources"].Some?;
    WellConvertedBuildsFilters(m, limitResults);
  }

  // ---------------------------------------------------------------------
  // Counting in the analysis of the results
  // ---------------------------------------------------------------------

  /** The tallies of the analysis loop: edges per relation name, concept
    * labels, languages, truthy weights and source ids. */
  datatype Tally = Tally(byRelation: map<Json, nat>, concepts: set<Json>, languages: set<Json>,
                         weights: seq<Json>, sources: set<Json>)

  const EmptyTally: Tally := Tally(map[], {}, {}, [], {})

  /** `rel.get("normalized_label") or rel.get("label") or "unknown"`. */
  function RelationName(rel: Json): Json
  {
    Or(Or(Field(rel, "normalized_label"), Field(rel, "label")), Str("unknown"))
  }

  /** `node.get("normalized_label") or node.get("label", "")`. */
  function NodeLabel(node: Json): Json
  {
    Or(Field(node, "normalized_label"), FieldOr(node, "label", Str("")))
  }

  /** `if v: s.add(v)`; adding an unhashable value raises. */
  function AddIfTruthy(s: set<Json>, v: Json): Result<set<Json>>
  {
    if !Truthy(v) then Ok(s)
    else if !Hashable(v) then Err(TypeErr)
    else Ok(s + {v})
  }

  /** The inner loop over an edge's sources: the truthy `@id` of each dict. */
  function SourceIds(ids: set<Json>, sources: seq<Json>): Result<set<Json>>
  {
    if sources == [] then Ok(ids)
    else
      var before :- SourceIds(ids, sources[..|sources| - 1]);
      var source := sources[|sources| - 1];
      if source.Obj? then AddIfTruthy(before, FieldOr(source, "@id", Str(""))) else Ok(before)
  }

  /** One turn of the analysis loop over the edges. */
  function AnalyzeEdge(t: Tally, edge: Json): Result<Tally>
  {
    if !edge.Obj? then Err(TypeErr)
    else
      var rel := FieldOr(edge, "rel", Obj(map[]));
      if !rel.Obj? then Err(TypeErr)
      else
        var name := RelationName(rel);
        if !Hashable(name) then Err(TypeErr)
        else
          var counts := t.byRelation[name := (if name in t.byRelation then t.byRelation[name] else 0) + 1];
          var start := FieldOr(edge, "start", Obj(map[]));
          var end := FieldOr(edge, "end", Obj(map[]));
          if !start.Obj? || !end.Obj? then Err(TypeErr)
          else
            var c1 :- AddIfTruthy(t.concepts, NodeLabel(start));
            var c2 :- AddIfTruthy(c1, NodeLabel(end));
            var l1 :- AddIfTruthy(t.languages, Field(start, "language"));
            var l2 :- AddIfTruthy(l1, Field(end, "language"));
            var weight := FieldOr(edge, "weight", Num(0.0));
            var weights := if Truthy(weight) then t.weights + [weight] else t.weights;
            var sourceList := FieldOr(edge, "sources", Arr([]));
            var ids :- if sourceList.Arr? then SourceIds(t.sources, sourceList.items) else Ok(t.sources);
            Ok(Tally(counts, c2, l2, weights, ids))
  }

  function AnalyzeSteps(): (Tally, Json) -> Result<Tally>
  {
    (t, edge) => AnalyzeEdge(t, edge)
  }

  /** What the analysis loop accumulates over the edges. */
  function Tallied(edges: seq<Json>): Result<Tally>
  {
    FoldResult(edges, EmptyTally, AnalyzeSteps())
  }

  /** How many edges have a given relation name. */
  function CountRelation(edges: seq<Json>, name: Json): nat
  {
    if edges == [] then 0
    else
      var last := edges[|edges| - 1];
      CountRelation(edges[..|edges| - 1], name)
      + (if last.Obj? && RelationName(FieldOr(last, "rel", Obj(map[]))) == name then 1 else 0)
  }

  /** Every edge the analysis went through was counted once, under its
    * relation name, and every truthy weight was kept. */
  lemma {:induction false} TalliedCounts(edges: seq<Json>)
    requires Tallied(edges).Ok?
    ensures var t := Tallied(edges).value;
      (forall name :: name in t.byRelation ==> t.byRelation[name] == CountRelation(edges, name))
      && (forall name :: name !in t.byRelation ==> CountRelation(edges, name) == 0)
      && |t.weights| <= |edges|
      && (forall w :: w in t.weights ==> Truthy(w))
    decreases |edges|
  {
    if edges != [] {
      var init := edges[..|edges| - 1];
      var last := edges[|edges| - 1];
      assert Tallied(init).Ok?;
      TalliedCounts(init);
    }
  }

  /** The band a truthy weight falls in. */
  datatype Band = High | Medium | Low

  /** `weight > 0.7` / `weight > 0.3`; a bool compares as 1 or 0 and any
    * other non-number raises. */
  function WeightBand(w: Json): Result<Band>
  {
    var v :- match w
      case Num(x) => Ok(x)
      case Bool(b) => Ok(if b then 1.0 else 0.0)
      case _ => Err(TypeErr);
    Ok(if v > 0.7 then High else if v > 0.3 then Medium else Low)
  }

  /** The weight distribution `{"high": h, "medium": m, "low": l}`. */
  datatype Distribution = Distribution(high: nat, medium: nat, low: nat)

  function CountBand(d: Distribution, b: Band): Distribution
  {
    match b
    case High => d.(high := d.high + 1)
    case Medium => d.(medium := d.medium + 1)
    case Low => d.(low := d.low + 1)
  }

  /** One turn of the distribution loop: band the weight and count it. */
  function BandInto(d: Distribution, w: Json): Result<Distribution>
  {
    var b :- WeightBand(w);
    Ok(CountBand(d, b))
  }

  function BandSteps(): (Distribution, Json) -> Result<Distribution>
  {
    (d, w) => BandInto(d, w)
  }

  /** What the distribution loop counts over the weights. */
  function Distributed(weights: seq<Json>): Result<Distribution>
  {
    FoldResult(weights, Distribution(0, 0, 0), BandSteps())
  }

  /** Every weight lands in exactly one band. */
  lemma {:induction false} DistributionTotal(weights: seq<Json>)
    requires Distributed(weights).Ok?
    ensures var d := Distributed(weights).value; d.high + d.medium + d.low == |weights|
    decreases |weights|
  {
    if weights != [] {
      assert Distributed(weights[..|weights| - 1]).Ok?;
      DistributionTotal(weights[..|weights| - 1]);
    }
  }

  /** Numeric weights never make the distribution raise. */
  lemma {:induction false} DistributionOfNumbers(weights: seq<Json>)
    requires forall w :: w in weights ==> w.Num? || w.Bool?
    ensures Distributed(weights).Ok?
    decreases |weights|
  {
    if weights != [] {
      var init := weights[..|weights| - 1];
      forall w | w in init ensures w.Num? || w.Bool? {
        assert w in weights;
      }
      DistributionOfNumbers(init);
      assert weights[|weights| - 1] in weights;
    }
  }

  /** The counted part of `_analyze_query_results`: the tallies over the
    * edges, then the weight distribution. */
  method AnalyzeQueryResults(edges: seq<Json>) returns (r: Result<(Tally, Distribution)>)
    ensures Tallied(edges).Err? ==> r == Err(Tallied(edges).error)
    ensures Tallied(edges).Ok? ==>
      var t := Tallied(edges).value;
      (Distributed(t.weights).Err? ==> r == Err(Distributed(t.weights).error))
      && (Distributed(t.weights).Ok? ==> r == Ok((t, Distributed(t.weights).value)))
  {
    var tally := TallyEdges(edges);
    if tally.Err? {
      return Err(tally.error);
    }
    var dist := CountBands(tally.value.weights);
    if dist.Err? {
      return Err(dist.error);
    }
    return Ok((tally.value, dist.value));
  }

  /** The first loop of _analyze_query_results: the counts and weights of
    * the edges, or the failure of the first edge that breaks it. */
  method TallyEdges(edges: seq<Json>) returns (r: Result<Tally>)
    ensures r == Tallied(edges)
  {
    var tally := EmptyTally;
    var i := 0;
    while i < |edges|
      invariant 0 <= i <= |edges|
      invariant FoldResult(edges[..i], EmptyTally, AnalyzeSteps()) == Ok(tally)
    {
      assert edges[..i + 1][..i] == edges[..i];
      var next := AnalyzeEdge(tally, edges[i]);
      if next.Err? {
        FoldResultErrExtends(edges, i + 1, EmptyTally, AnalyzeSteps());
        return Err(next.error);
      }
      tally := next.value;
      i := i + 1;
    }
    assert edges[..i] == edges;
    return Ok(tally);
  }

  /** The second loop of _analyze_query_results: the weights counted into
    * the three bands, or the failure of the first weight that is not a
    * number. */
  method CountBands(weights: seq<Json>) returns (r: Result<Distribution>)
    ensures r == Distributed(weights)
  {
    var dist := Distribution(0, 0, 0);
    var j := 0;
    while j < |weights|
      invariant 0 <= j <= |weights|
      invariant FoldResult(weights[..j], Distribution(0, 0, 0), BandSteps()) == Ok(dist)
    {
      assert weights[..j + 1][..j] == weights[..j];
      var band := WeightBand(weights[j]);
      if band.Err? {
        FoldResultErrExtends(weights, j + 1, Distribution(0, 0, 0), BandSteps());
        return Err(band.error);
      }
      dist := CountBand(dist, band.value);
      j := j + 1;
    }
    assert weights[..j] == weights;
    return Ok(dist);
  }
}
