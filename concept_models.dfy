/**
 * The pydantic concept models: a concept node with its URI and
 * language-code rules, and a concept with its edges, which it filters by
 * relation and by language.
 */
module ConceptModels {
  import opened JsonValues
  import opened Strings
  import opened Errors
  import opened Sorting
  import opened Filtering

  // ---------------------------------------------------------------------
  // ConceptNode
  // ---------------------------------------------------------------------

  datatype ConceptNode = ConceptNode(
    id: string, lbl: string, language: string, term: string, senseLabel: Option<string>)

  /** `re.match(r'^[a-z]{2,3}$', v)`: two or three ASCII lower-case letters,
    * which `$` also accepts when one final newline follows them. */
  predicate LanguagePattern(v: string)
  {
    var body := if v != [] && v[|v| - 1] == '\n' then v[..|v| - 1] else v;
    2 <= |body| <= 3 && All(body, IsAsciiLower)
  }

  /** The newline quirk: a code followed by a newline passes the rule. */
  lemma LanguagePatternNewline(code: string)
    requires 2 <= |code| <= 3 && All(code, IsAsciiLower)
    ensures LanguagePattern(code) && LanguagePattern(code + "\n")
    ensures !LanguagePattern(code + "\n\n")
  {
    assert (code + "\n")[..|code|] == code;
    var twice := code + "\n\n";
    assert twice[..|twice| - 1] == code + "\n";
    assert !IsAsciiLower((code + "\n")[|code|]);
  }

  /** Constructing a `ConceptNode`: the id starts with `/c/` and the
    * language matches the code pattern; the id is reported first. */
  function NewConceptNode(id: string, lbl: string, language: string, term: string,
                          senseLabel: Option<string>): (r: Result<ConceptNode>)
    ensures r.Ok? <==> StartsWith(id, "/c/") && LanguagePattern(language)
    ensures r.Ok? ==> r.value == ConceptNode(id, lbl, language, term, senseLabel)
    ensures !StartsWith(id, "/c/") ==> r == Err(Pydantic("@id"))
    ensures StartsWith(id, "/c/") && !LanguagePattern(language) ==> r == Err(Pydantic("language"))
  {
    if !StartsWith(id, "/c/") then Err(Pydantic("@id"))
    else if !LanguagePattern(language) then Err(Pydantic("language"))
    else Ok(ConceptNode(id, lbl, language, term, senseLabel))
  }

  // ---------------------------------------------------------------------
  // Concept
  // ---------------------------------------------------------------------

  datatype Concept = Concept(id: string, edges: seq<Json>, view: Option<Json>)

  /** A value an `Optional[Dict[str, Any]]` field accepts: absent, null or a dict. */
  predicate OptionalDict(view: Option<Json>) { view.None? || view.value.Null? || view.value.Obj? }

  /** Constructing a `Concept`: the id starts with `/c/`, every edge is a
    * dict and the view, if any, is a dict; failures are reported for the
    * first failing field in the order id, edges, view. */
  function NewConcept(id: string, edges: seq<Json>, view: Option<Json>): (r: Result<Concept>)
    ensures r.Ok? <==> StartsWith(id, "/c/") && (forall e :: e in edges ==> e.Obj?) && OptionalDict(view)
    ensures r.Ok? ==> r.value.id == id && r.value.edges == edges && r.value.view == view
    ensures !StartsWith(id, "/c/") ==> r == Err(Pydantic("@id"))
    ensures StartsWith(id, "/c/") && (exists e :: e in edges && !e.Obj?) ==> r == Err(Pydantic("edges"))
    ensures StartsWith(id, "/c/") && (forall e :: e in edges ==> e.Obj?) && !OptionalDict(view) ==>
      r == Err(Pydantic("view"))
  {
    if !StartsWith(id, "/c/") then Err(Pydantic("@id"))
    else if exists e :: e in edges && !e.Obj? then Err(Pydantic("edges"))
    else if !OptionalDict(view) then Err(Pydantic("view"))
    else Ok(Concept(id, edges, view))
  }

  /** `edge.get('rel', {}).get('@id', '').endswith('/' + relation)`; a
    * non-dict edge or relation, or a non-string id, raises. */
  function RelationSuffixMatch(edge: Json, relation: string): (r: Result<bool>)
    ensures r.Ok? <==>
      (edge.Obj? && FieldOr(edge, "rel", Obj(map[])).Obj?
       && FieldOr(FieldOr(edge, "rel", Obj(map[])), "@id", Str("")).Str?)
    ensures r == Ok(true) <==>
      (edge.Obj? && FieldOr(edge, "rel", Obj(map[])).Obj?
       && Has(FieldOr(edge, "rel", Obj(map[])), "@id")
       && FieldOr(edge, "rel", Obj(map[])).fields["@id"].Str?
       && EndsWith(FieldOr(edge, "rel", Obj(map[])).fields["@id"].s, "/" + relation))
  {
    if !edge.Obj? then Err(TypeErr)
    else
      var rel := FieldOr(edge, "rel", Obj(map[]));
      if !rel.Obj? then Err(TypeErr)
      else
        var id := FieldOr(rel, "@id", Str(""));
        if !id.Str? then Err(TypeErr)
        else Ok(EndsWith(id.s, "/" + relation))
  }

  function RelationSuffixTest(relation: string): Json -> Result<bool>
  {
    edge => RelationSuffixMatch(edge, relation)
  }

  /** `[edge for edge in edges if <relation suffix test>]`, the comprehension
    * shared by the concept and the concept response. */
  function EdgesWithRelation(edges: seq<Json>, relation: string): (r: Result<seq<Json>>)
    ensures r.Ok? ==> |r.value| <= |edges|
  {
    FilterResult(edges, RelationSuffixTest(relation))
  }

  /** The edge's relation has a string id ending with `/relation`. */
  predicate HasRelationSuffix(e: Json, relation: string)
  {
    e.Obj? && Has(e, "rel") && Has(e.fields["rel"], "@id") && e.fields["rel"].fields["@id"].Str?
    && EndsWith(e.fields["rel"].fields["@id"].s, "/" + relation)
  }

  /** The edges kept by relation are an order-preserving subsequence holding
    * exactly the edges whose relation id ends with `/relation`. */
  lemma EdgesWithRelationMeaning(edges: seq<Json>, relation: string)
    requires EdgesWithRelation(edges, relation).Ok?
    ensures var kept := EdgesWithRelation(edges, relation).value;
      IsSubsequence(kept, edges)
      && forall e :: e in edges ==> (e in kept <==> HasRelationSuffix(e, relation))
  {
    FilterResultMeaning(edges, RelationSuffixTest(relation));
  }

  /** Edges that are dicts whose relations are dicts with string ids (as
    * ConceptNet sends them) never make the comprehension raise. */
  lemma EdgesWithRelationTotal(edges: seq<Json>, relation: string)
    requires forall e :: e in edges ==>
      e.Obj? && FieldOr(e, "rel", Obj(map[])).Obj? && FieldOr(FieldOr(e, "rel", Obj(map[])), "@id", Str("")).Str?
    ensures EdgesWithRelation(edges, relation).Ok?
  {
    FilterResultTotal(edges, RelationSuffixTest(relation));
  }

  /** `Concept.filter_edges_by_relation(relation)`: the concept's edges whose
    * relation id ends with `/relation`, in order. */
  function FilterEdgesByRelation(c: Concept, relation: string): (r: Result<seq<Json>>)
    ensures r.Ok? ==> IsSubsequence(r.value, c.edges)
                      && forall e :: e in c.edges ==> (e in r.value <==> HasRelationSuffix(e, relation))
  {
    var r := EdgesWithRelation(c.edges, relation);
    if r.Ok? then EdgesWithRelationMeaning(c.edges, relation); r else r
  }

  /** `edge.get(side, {}).get('language', '')`. */
  function SideLanguage(edge: Json, side: string): Result<Json>
  {
    if !edge.Obj? then Err(TypeErr)
    else
      var node := FieldOr(edge, side, Obj(map[]));
      if !node.Obj? then Err(TypeErr) else Ok(FieldOr(node, "language", Str("")))
  }

  /** Whether filter_edges_by_language keeps an edge: both ends in the language. */
  function BothEndsIn(edge: Json, language: string): (r: Result<bool>)
    ensures r == Ok(true) <==> SideLanguage(edge, "start") == Ok(Str(language))
                               && SideLanguage(edge, "end") == Ok(Str(language))
  {
    var startLang :- SideLanguage(edge, "start");
    var endLang :- SideLanguage(edge, "end");
    Ok(startLang == Str(language) && endLang == Str(language))
  }

  function BothEndsTest(language: string): Json -> Result<bool>
  {
    edge => BothEndsIn(edge, language)
  }

  /** `filter_edges_by_language(language)`: the loop that appends each edge
    * whose start and end are both in the language. */
  method FilterEdgesByLanguage(c: Concept, language: string) returns (r: Result<seq<Json>>)
    ensures r == FilterResult(c.edges, BothEndsTest(language))
  {
    var edges := c.edges;
    var test := BothEndsTest(language);
    var filtered := [];
    var i := 0;
    while i < |edges|
      invariant 0 <= i <= |edges|
      invariant FilterResult(edges[..i], test) == Ok(filtered)
    {
      var edge := edges[i];
      assert edges[..i + 1][..i] == edges[..i];
      var keep := BothEndsIn(edge, language);
      if keep.Err? {
        FilterResultErrExtends(edges, i + 1, test);
        return Err(keep.error);
      }
      if keep.value {
        filtered := filtered + [edge];
      }
      i := i + 1;
    }
    assert edges[..i] == edges;
    return Ok(filtered);
  }

  /** The edges kept by language are an order-preserving subsequence holding
    * exactly the edges with both ends in the language. */
  lemma FilterEdgesByLanguageMeaning(c: Concept, language: string)
    requires FilterResult(c.edges, BothEndsTest(language)).Ok?
    ensures var kept := FilterResult(c.edges, BothEndsTest(language)).value;
      IsSubsequence(kept, c.edges)
      && forall e :: e in c.edges ==>
           (e in kept <==> SideLanguage(e, "start") == Ok(Str(language)) && SideLanguage(e, "end") == Ok(Str(language)))
  {
    FilterResultMeaning(c.edges, BothEndsTest(language));
  }

  /** A missing language reads as `""`: an edge whose start has no language
    * is kept only when the language asked for is empty. */
  lemma MissingLanguageOnlyMatchesEmpty(edge: Json, language: string)
    requires edge.Obj? && Has(edge, "start") && edge.fields["start"].Obj?
    requires "language" !in edge.fields["start"].fields
    requires BothEndsIn(edge, language) == Ok(true)
    ensures language == ""
  {
  }
}
