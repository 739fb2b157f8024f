/**
 * client/processor.py: how the response processor reads languages off
 * concept nodes, filters, sorts and groups edges, and rewrites edges and
 * nodes into display form. Edges and nodes are decoded JSON dicts; the
 * source rewrites copies of them, so the rewrites are functions on values
 * and the caller's dicts are untouched by construction. A value of a type
 * on which the source calls a string or dict method it lacks raises
 * (`TypeErr`), as Python does.
 */
module Processor {
  import opened JsonValues
  import opened Strings
  import opened Errors
  import opened TextUtils
  import opened Sorting
  import opened Filtering

  const EmptyDict: Json := Obj(map[])

  // ---------------------------------------------------------------------
  // The language of a concept node
  // ---------------------------------------------------------------------

  /** `needle in container`: a substring test, list membership or a dict
    * key test; any other operand raises. */
  function MemberOf(needle: string, container: Json): Result<bool>
  {
    match container
    case Str(s) => Ok(Contains(s, needle))
    case Arr(a) => Ok(Str(needle) in a)
    case Obj(m) => Ok(needle in m)
    case _ => Err(TypeErr)
  }

  /** The language of a label written as a concept path `/c/<lang>/...`. */
  function LanguageFromLabel(lbl: Json): Result<Json>
  {
    if !Truthy(lbl) then Ok(Null)
    else
      var slash :- MemberOf("/", lbl);
      if !slash then Ok(Null)
      else if !lbl.Str? then Err(TypeErr)
      else
        var parts := Split(lbl.s, '/');
        Ok(if |parts| >= 3 && parts[1] == "c" then Str(parts[2]) else Null)
  }

  /** The language `extract_language_from_uri` reads off a concept id. */
  function LanguageFromId(id: Json): (r: Result<Json>)
    ensures r.Ok? ==> r.value == Null || (r.value.Str? && ValidateLanguageCode(r.value.s))
  {
    if !id.Str? then Err(TypeErr)
    else
      var lang :- ExtractLanguageFromUri(id.s);
      Ok(if lang.Some? then Str(lang.value) else Null)
  }

  /** extract_language_from_concept: an explicit `language` entry wins;
    * otherwise a non-empty `@id` decides, even when it names no language;
    * only without one is the label consulted. A language read off the id
    * is always a valid code. */
  function ExtractLanguageFromConcept(concept: Json): (r: Result<Json>)
    ensures !concept.Obj? ==> r.Err?
    ensures Has(concept, "language") ==> r == Ok(concept.fields["language"])
    ensures !Has(concept, "language") && Truthy(FieldOr(concept, "@id", Str(""))) && r.Ok? ==>
      r.value == Null || (r.value.Str? && ValidateLanguageCode(r.value.s))
  {
    if !concept.Obj? then Err(TypeErr)
    else if "language" in concept.fields then Ok(concept.fields["language"])
    else
      var id := FieldOr(concept, "@id", Str(""));
      if Truthy(id) then LanguageFromId(id)
      else LanguageFromLabel(FieldOr(concept, "label", Str("")))
  }

  /** With a non-empty `@id` and no `language` entry the label plays no
    * part: any label gives the same answer. */
  lemma IdDecidesLanguage(concept: Json, lbl: Json)
    requires concept.Obj? && "language" !in concept.fields
    requires Truthy(FieldOr(concept, "@id", Str("")))
    ensures ExtractLanguageFromConcept(Obj(concept.fields["label" := lbl]))
         == ExtractLanguageFromConcept(concept)
  {
    var other := Obj(concept.fields["label" := lbl]);
    assert FieldOr(other, "@id", Str("")) == FieldOr(concept, "@id", Str(""));
  }

  /** Without `language` and `@id`, a label `/c/<lang>/<rest>` names its
    * language segment. */
  lemma LabelNamesLanguage(lang: string, rest: string)
    requires '/' !in lang && '/' !in rest
    ensures ExtractLanguageFromConcept(Obj(map["label" := Str("/c/" + lang + "/" + rest)])) == Ok(Str(lang))
  {
    var lbl := "/c/" + lang + "/" + rest;
    LabelLanguageSegment(lang, rest);
    var concept := Obj(map["label" := Str(lbl)]);
    assert "language" !in concept.fields && "@id" !in concept.fields;
  }

  /** The label pattern reads the segment after `/c/`. */
  lemma LabelLanguageSegment(lang: string, rest: string)
    requires '/' !in lang && '/' !in rest
    ensures LanguageFromLabel(Str("/c/" + lang + "/" + rest)) == Ok(Str(lang))
  {
    var lbl := "/c/" + lang + "/" + rest;
    ConceptUriParts(lang, rest);
    ContainsAt(lbl, "/", 0);
  }

  // ---------------------------------------------------------------------
  // Filtering by language
  // ---------------------------------------------------------------------

  /** Whether filter_by_language keeps an edge: both ends (or, without
    * `requireBoth`, either end) in the target language. */
  function LanguageMatch(edge: Json, target: string, requireBoth: bool): (r: Result<bool>)
    ensures r == Ok(true) ==>
      var s := ExtractLanguageFromConcept(FieldOr(edge, "start", EmptyDict));
      var e := ExtractLanguageFromConcept(FieldOr(edge, "end", EmptyDict));
      if requireBoth then s == Ok(Str(target)) && e == Ok(Str(target))
      else s == Ok(Str(target)) || e == Ok(Str(target))
  {
    if !edge.Obj? then Err(TypeErr)
    else
      var startLang :- ExtractLanguageFromConcept(FieldOr(edge, "start", EmptyDict));
      var endLang :- ExtractLanguageFromConcept(FieldOr(edge, "end", EmptyDict));
      Ok(if requireBoth then startLang == Str(target) && endLang == Str(target)
         else startLang == Str(target) || endLang == Str(target))
  }

  function LanguageTest(target: string, requireBoth: bool): Json -> Result<bool>
  {
    edge => LanguageMatch(edge, target, requireBoth)
  }

  /** filter_by_language: the edges unchanged for an empty target, otherwise
    * the edges whose ends are in the target language, in order. */
  method FilterByLanguage(edges: seq<Json>, target: string, requireBoth: bool) returns (r: Result<seq<Json>>)
    ensures target == "" ==> r == Ok(edges)
    ensures target != "" ==> r == FilterResult(edges, LanguageTest(target, requireBoth))
  {
    if target == "" {
      return Ok(edges);
    }
    var test := LanguageTest(target, requireBoth);
    var filtered := [];
    var i := 0;
    while i < |edges|
      invariant 0 <= i <= |edges|
      invariant FilterResult(edges[..i], test) == Ok(filtered)
    {
      var edge := edges[i];
      assert edges[..i + 1][..i] == edges[..i];
      var matches := LanguageMatch(edge, target, requireBoth);
      if matches.Err? {
        FilterResultErrExtends(edges, i + 1, test);
        return Err(matches.error);
      }
      if matches.value {
        filtered := filtered + [edge];
      }
      i := i + 1;
    }
    assert edges[..i] == edges;
    return Ok(filtered);
  }

  /** What filter_by_language returns for a non-empty target: an
    * order-preserving subsequence of the edges, each kept edge with both
    * ends (or one end) in the target language, and every such edge kept. */
  lemma FilterByLanguageMeaning(edges: seq<Json>, target: string, requireBoth: bool)
    requires FilterResult(edges, LanguageTest(target, requireBoth)).Ok?
    ensures var kept := FilterResult(edges, LanguageTest(target, requireBoth)).value;
      IsSubsequence(kept, edges) &&
      (forall e :: e in kept ==>
        var s := ExtractLanguageFromConcept(FieldOr(e, "start", EmptyDict));
        var t := ExtractLanguageFromConcept(FieldOr(e, "end", EmptyDict));
        if requireBoth then s == Ok(Str(target)) && t == Ok(Str(target))
        else s == Ok(Str(target)) || t == Ok(Str(target))) &&
      (forall e :: e in edges ==> (e in kept <==> LanguageMatch(e, target, requireBoth) == Ok(true)))
  {
    var test := LanguageTest(target, requireBoth);
    FilterResultMeaning(edges, test);
    var kept := FilterResult(edges, test).value;
    forall e | e in kept ensures LanguageMatch(e, target, requireBoth) == Ok(true) {
      assert test(e) == LanguageMatch(e, target, requireBoth);
    }
  }

  // ---------------------------------------------------------------------
  // The languages present in a list of edges
  // ---------------------------------------------------------------------

  /** `languages.add(lang)` when `lang` is truthy; an unhashable value raises. */
  function AddLanguage(languages: set<Json>, lang: Json): (r: Result<set<Json>>)
    ensures r.Ok? ==> languages <= r.value
    ensures r.Ok? && Truthy(lang) ==> lang in r.value
    ensures r.Ok? ==> forall x :: x in r.value && x !in languages ==> Truthy(x) && Hashable(x)
  {
    if !Truthy(lang) then Ok(languages)
    else if !Hashable(lang) then Err(TypeErr)
    else Ok(languages + {lang})
  }

  /** One turn of get_concept_languages' loop. */
  function EdgeLanguages(languages: set<Json>, edge: Json): Result<set<Json>>
  {
    if !edge.Obj? then Err(TypeErr)
    else
      var startLang :- ExtractLanguageFromConcept(FieldOr(edge, "start", EmptyDict));
      var endLang :- ExtractLanguageFromConcept(FieldOr(edge, "end", EmptyDict));
      var withStart :- AddLanguage(languages, startLang);
      AddLanguage(withStart, endLang)
  }

  function LanguageStep(): (set<Json>, Json) -> Result<set<Json>>
  {
    (languages, edge) => EdgeLanguages(languages, edge)
  }

  /** get_concept_languages: the set of non-empty languages of the edges' ends. */
  method GetConceptLanguages(edges: seq<Json>) returns (r: Result<set<Json>>)
    ensures r == FoldResult(edges, {}, LanguageStep())
  {
    var languages := {};
    var i := 0;
    while i < |edges|
      invariant 0 <= i <= |edges|
      invariant FoldResult(edges[..i], {}, LanguageStep()) == Ok(languages)
    {
      var edge := edges[i];
      assert edges[..i + 1][..i] == edges[..i];
      if !edge.Obj? {
        FoldResultErrExtends(edges, i + 1, {}, LanguageStep());
        return Err(TypeErr);
      }
      var startLang := ExtractLanguageFromConcept(FieldOr(edge, "start", EmptyDict));
      if startLang.Err? {
        FoldResultErrExtends(edges, i + 1, {}, LanguageStep());
        return Err(startLang.error);
      }
      var endLang := ExtractLanguageFromConcept(FieldOr(edge, "end", EmptyDict));
      if endLang.Err? {
        FoldResultErrExtends(edges, i + 1, {}, LanguageStep());
        return Err(endLang.error);
      }
      if Truthy(startLang.value) {
        if !Hashable(startLang.value) {
          FoldResultErrExtends(edges, i + 1, {}, LanguageStep());
          return Err(TypeErr);
        }
        languages := languages + {startLang.value};
      }
      if Truthy(endLang.value) {
        if !Hashable(endLang.value) {
          FoldResultErrExtends(edges, i + 1, {}, LanguageStep());
          return Err(TypeErr);
        }
        languages := languages + {endLang.value};
      }
      i := i + 1;
    }
    assert edges[..i] == edges;
    return Ok(languages);
  }

  /** The non-empty language of each end of a dict edge is in `languages`. */
  predicate Collected(edge: Json, languages: set<Json>)
  {
    edge.Obj? &&
    var s := ExtractLanguageFromConcept(FieldOr(edge, "start", EmptyDict));
    var e := ExtractLanguageFromConcept(FieldOr(edge, "end", EmptyDict));
    s.Ok? && e.Ok? &&
    (Truthy(s.value) ==> s.value in languages) && (Truthy(e.value) ==> e.value in languages)
  }

  /** The collected set holds exactly truthy, hashable languages, and the
    * language of every end of every edge. */
  lemma {:induction false} ConceptLanguagesComplete(edges: seq<Json>)
    requires FoldResult(edges, {}, LanguageStep()).Ok?
    ensures forall x :: x in FoldResult(edges, {}, LanguageStep()).value ==> Truthy(x) && Hashable(x)
    ensures forall e :: e in edges ==> Collected(e, FoldResult(edges, {}, LanguageStep()).value)
    decreases |edges|
  {
    if edges != [] {
      var init := edges[..|edges| - 1];
      var last := edges[|edges| - 1];
      ConceptLanguagesComplete(init);
      var before := FoldResult(init, {}, LanguageStep()).value;
      var after := FoldResult(edges, {}, LanguageStep()).value;
      assert EdgeLanguages(before, last) == Ok(after);
      var s := ExtractLanguageFromConcept(FieldOr(last, "start", EmptyDict)).value;
      var withStart := AddLanguage(before, s).value;
      assert before <= withStart <= after;
      forall e | e in edges ensures Collected(e, after) {
        if e != last {
          assert e in init;
          assert Collected(e, before);
        }
      }
    }
  }

  /** Every language filter_by_language selects on is among the languages
    * get_concept_languages reports for the same edges. */
  lemma FilteredLanguageIsPresent(edges: seq<Json>, target: string, requireBoth: bool)
    requires target != ""
    requires FilterResult(edges, LanguageTest(target, requireBoth)).Ok?
    requires FilterResult(edges, LanguageTest(target, requireBoth)).value != []
    requires FoldResult(edges, {}, LanguageStep()).Ok?
    ensures Str(target) in FoldResult(edges, {}, LanguageStep()).value
  {
    var kept := FilterResult(edges, LanguageTest(target, requireBoth)).value;
    var languages := FoldResult(edges, {}, LanguageStep()).value;
    FilterByLanguageMeaning(edges, target, requireBoth);
    ConceptLanguagesComplete(edges);
    var e := kept[0];
    assert e in kept;
    assert e in edges by {
      SubsequenceElements(kept, edges);
    }
    assert Collected(e, languages);
    var s := ExtractLanguageFromConcept(FieldOr(e, "start", EmptyDict));
    var t := ExtractLanguageFromConcept(FieldOr(e, "end", EmptyDict));
    assert s == Ok(Str(target)) || t == Ok(Str(target));
    assert Truthy(Str(target));
  }

  // ---------------------------------------------------------------------
  // Filtering by relation
  // ---------------------------------------------------------------------

  /** The relation types searched for, lower-cased; a single string stands
    * for a list of one, and an item that is not a string raises. */
  function RelationTargets(relationTypes: Json): (r: Result<seq<string>>)
    ensures relationTypes.Str? ==> r == Ok([Lower(relationTypes.s)])
    ensures relationTypes.Arr? ==>
      (r.Ok? <==> forall x :: x in relationTypes.items ==> x.Str?)
    ensures relationTypes.Arr? && r.Ok? ==>
      |r.value| == |relationTypes.items| &&
      forall i :: 0 <= i < |r.value| ==> r.value[i] == Lower(relationTypes.items[i].s)
  {
    if relationTypes.Str? then Ok([Lower(relationTypes.s)])
    else match Items(relationTypes)
      case None => Err(TypeErr)
      case Some(xs) => LowerAll(xs)
  }

  /** `[x.lower() for x in xs]`. */
  function LowerAll(xs: seq<Json>): (r: Result<seq<string>>)
    ensures r.Ok? <==> forall x :: x in xs ==> x.Str?
    ensures r.Ok? ==> |r.value| == |xs| && forall i :: 0 <= i < |xs| ==> r.value[i] == Lower(xs[i].s)
  {
    if xs == [] then Ok([])
    else
      var init :- LowerAll(xs[..|xs| - 1]);
      var last := xs[|xs| - 1];
      if last.Str? then
        assert forall x :: x in xs ==> x in xs[..|xs| - 1] || x == last;
        Ok(init + [Lower(last.s)])
      else Err(TypeErr)
  }

  /** `d.get(key, "").lower()`. */
  function LowerField(d: Json, key: string): Result<string>
  {
    var v := FieldOr(d, key, Str(""));
    if v.Str? then Ok(Lower(v.s)) else Err(TypeErr)
  }

  /** The relation's `@id`, `label` and `normalized_label`, lower-cased. */
  function RelationTexts(edge: Json): (r: Result<seq<string>>)
    ensures r.Ok? ==> |r.value| == 3
  {
    if !edge.Obj? then Err(TypeErr)
    else
      var rel := FieldOr(edge, "rel", EmptyDict);
      if !rel.Obj? then Err(TypeErr)
      else
        var id :- LowerField(rel, "@id");
        var lbl :- LowerField(rel, "label");
        var normalized :- LowerField(rel, "normalized_label");
        Ok([id, lbl, normalized])
  }

  /** Some target occurs in some of the texts. */
  predicate Mentions(texts: seq<string>, targets: seq<string>)
  {
    exists t, x :: t in targets && x in texts && Contains(x, t)
  }

  /** Whether filter_edges_by_relation keeps an edge. */
  function RelationMatch(edge: Json, targets: seq<string>): Result<bool>
  {
    var texts :- RelationTexts(edge);
    Ok(Mentions(texts, targets))
  }

  function RelationTest(targets: seq<string>): Json -> Result<bool>
  {
    edge => RelationMatch(edge, targets)
  }

  /** The inner loop of filter_edges_by_relation: the relation types are
    * tried in turn until one occurs in the relation's id, label or
    * normalised label. */
  method MentionsAny(texts: seq<string>, targets: seq<string>) returns (matched: bool)
    requires |texts| == 3
    ensures matched == Mentions(texts, targets)
  {
    var j := 0;
    matched := false;
    while j < |targets| && !matched
      invariant 0 <= j <= |targets|
      invariant matched <==> exists t, x :: t in targets[..j] && x in texts && Contains(x, t)
    {
      var target := targets[j];
      assert (exists x :: x in texts && Contains(x, target)) <==>
        Contains(texts[0], target) || Contains(texts[1], target) || Contains(texts[2], target);
      if Contains(texts[0], target) || Contains(texts[1], target) || Contains(texts[2], target) {
        matched := true;
      }
      assert targets[..j + 1] == targets[..j] + [target];
      j := j + 1;
    }
    if matched {
      var t, x :| t in targets[..j] && x in texts && Contains(x, t);
      assert t in targets;
    } else {
      assert targets[..j] == targets;
    }
  }

  /** filter_edges_by_relation: the edges whose relation id, label or
    * normalised label contains one of the relation types, ignoring case. */
  method FilterEdgesByRelation(edges: seq<Json>, relationTypes: Json) returns (r: Result<seq<Json>>)
    ensures RelationTargets(relationTypes).Err? ==> r == Err(RelationTargets(relationTypes).error)
    ensures RelationTargets(relationTypes).Ok? ==>
      r == FilterResult(edges, RelationTest(RelationTargets(relationTypes).value))
  {
    var lowered := RelationTargets(relationTypes);
    if lowered.Err? {
      return Err(lowered.error);
    }
    var targets := lowered.value;
    var test := RelationTest(targets);
    var filtered := [];
    var i := 0;
    while i < |edges|
      invariant 0 <= i <= |edges|
      invariant FilterResult(edges[..i], test) == Ok(filtered)
    {
      var edge := edges[i];
      assert edges[..i + 1][..i] == edges[..i];
      var texts := RelationTexts(edge);
      if texts.Err? {
        FilterResultErrExtends(edges, i + 1, test);
        return Err(texts.error);
      }
      var matched := MentionsAny(texts.value, targets);
      if matched {
        filtered := filtered + [edge];
      }
      i := i + 1;
    }
    assert edges[..i] == edges;
    return Ok(filtered);
  }

  /** What filter_edges_by_relation returns: an order-preserving
    * subsequence (so each edge at most once), holding exactly the edges
    * that mention one of the lower-cased relation types. */
  lemma FilterEdgesByRelationMeaning(edges: seq<Json>, targets: seq<string>)
    requires FilterResult(edges, RelationTest(targets)).Ok?
    ensures var kept := FilterResult(edges, RelationTest(targets)).value;
      IsSubsequence(kept, edges) && |kept| <= |edges| &&
      forall e :: e in edges ==>
        RelationTexts(e).Ok? && (e in kept <==> Mentions(RelationTexts(e).value, targets))
  {
    FilterResultMeaning(edges, RelationTest(targets));
    SubsequenceElements(FilterResult(edges, RelationTest(targets)).value, edges);
    forall e | e in edges ensures RelationTexts(e).Ok? {
      assert RelationTest(targets)(e).Ok?;
    }
  }

  // ---------------------------------------------------------------------
  // Sorting by weight
  // ---------------------------------------------------------------------

  /** `edge.get("weight", 0)` as a number; None for a value Python cannot
    * order against numbers. */
  function NumericWeight(edge: Json): Option<real>
  {
    match FieldOr(edge, "weight", Num(0.0))
    case Num(w) => Some(w)
    case Bool(b) => Some(if b then 1.0 else 0.0)
    case _ => None
  }

  /** The sort key: the weight, 0 when absent. */
  function WeightKey(edge: Json): real
  {
    if NumericWeight(edge).Some? then NumericWeight(edge).value else 0.0
  }

  /** sort_edges_by_weight: the same edges, ordered by weight (a missing
    * weight counts as 0), highest first unless `descending` is false. The
    * key reads every edge as a dict, and two edges whose weights cannot be
    * compared make the sort raise. */
  function SortEdgesByWeight(edges: seq<Json>, descending: bool): (r: Result<seq<Json>>)
    ensures r.Ok? ==> multiset(r.value) == multiset(edges)
    ensures r.Ok? ==> SortedBy(r.value, WeightKey, descending)
    ensures r.Err? <==> (exists e :: e in edges && !e.Obj?) ||
                        (|edges| >= 2 && exists e :: e in edges && NumericWeight(e).None?)
  {
    if exists e :: e in edges && !e.Obj? then Err(TypeErr)
    else if |edges| >= 2 && exists e :: e in edges && NumericWeight(e).None? then Err(TypeErr)
    else
      SortBySorted(edges, WeightKey, descending);
      Ok(SortBy(edges, WeightKey, descending))
  }

  /** With numeric weights the sort always succeeds and keeps every edge. */
  lemma SortEdgesByWeightTotal(edges: seq<Json>, descending: bool)
    requires forall e :: e in edges ==> e.Obj? && NumericWeight(e).Some?
    ensures SortEdgesByWeight(edges, descending).Ok?
    ensures |SortEdgesByWeight(edges, descending).value| == |edges|
    ensures forall e :: e in SortEdgesByWeight(edges, descending).value <==> e in edges
  {
    SortByPermutes(edges, WeightKey, descending);
  }

  // ---------------------------------------------------------------------
  // Concept labels in summaries
  // ---------------------------------------------------------------------

  /** `re.sub(r'/Wn/[\w]*', '', s)`: every `/Wn/` removed together with the
    * run of word characters after it. */
  function RemoveWordNetTags(s: string): (r: string)
    ensures |r| <= |s|
    ensures '/' !in s ==> r == s
    decreases |s|
  {
    if s == [] then []
    else if StartsWith(s, "/Wn/") then
      assert s[0] == '/';
      RemoveWordNetTags(LStripBy(s[4..], IsWordChar))
    else [s[0]] + RemoveWordNetTags(s[1..])
  }

  /** `re.sub(r'/[A-Z][A-Z]*\b', '', s)`: a `/` and the maximal run of ASCII
    * capitals after it are removed when the run ends the text or is
    * followed by a character that is not a word character (a shorter run
    * is followed by a capital, so it never ends at a word boundary). */
  function RemovePosTags(s: string): (r: string)
    ensures |r| <= |s|
    ensures '/' !in s ==> r == s
    decreases |s|
  {
    if s == [] then []
    else if s[0] == '/' && |s| >= 2 && IsAsciiUpper(s[1]) then
      var rest := LStripBy(s[1..], IsAsciiUpper);
      if rest == [] || !IsWordChar(rest[0]) then RemovePosTags(rest)
      else [s[0]] + RemovePosTags(s[1..])
    else [s[0]] + RemovePosTags(s[1..])
  }

  /** `re.sub(r'/$', '', s)`: a `/` at the very end, or just before a final
    * newline, is removed. */
  function RemoveFinalSlash(s: string): (r: string)
    ensures |r| <= |s|
    ensures '/' !in s ==> r == s
  {
    if s != [] && s[|s| - 1] == '/' then s[..|s| - 1]
    else if |s| >= 2 && s[|s| - 1] == '\n' && s[|s| - 2] == '/' then s[..|s| - 2] + "\n"
    else s
  }

  /** _clean_concept_label: part-of-speech and WordNet tags removed from a
    * string label; a non-string or empty label is returned as it is, and a
    * label that cleaning would empty is kept whole, so a non-empty label
    * never becomes empty. */
  function CleanConceptLabel(lbl: Json): (r: Json)
    ensures !lbl.Str? || lbl.s == "" ==> r == lbl
    ensures lbl.Str? && lbl.s != "" ==> r.Str? && r.s != "" && |r.s| <= |lbl.s|
    ensures r != lbl ==> r.Str? && !IsSpace(r.s[0]) && !IsSpace(r.s[|r.s| - 1])
  {
    if !Truthy(lbl) || !lbl.Str? then lbl
    else
      var cleaned := Strip(RemoveFinalSlash(RemovePosTags(RemoveWordNetTags(lbl.s))));
      if cleaned != "" then Str(cleaned) else lbl
  }

  /** A non-empty label without `/` and without surrounding whitespace. */
  predicate PlainLabel(s: string)
  {
    s != "" && '/' !in s && !IsSpace(s[0]) && !IsSpace(s[|s| - 1])
  }

  /** Cleaning leaves a plain label as it is. */
  lemma CleanPlainLabel(s: string)
    requires PlainLabel(s)
    ensures CleanConceptLabel(Str(s)) == Str(s)
  {
    StripKeeps(s);
  }

  // ---------------------------------------------------------------------
  // Edge summaries
  // ---------------------------------------------------------------------

  /** The label a summary shows for a concept node. */
  function SummaryLabel(node: Json): Json
  {
    CleanConceptLabel(Or(Field(node, "normalized_label"),
                         Or(Field(node, "label"), FieldOr(node, "@id", Str("unknown")))))
  }

  /** The node under `key`, `{}` when absent. */
  function Part(edge: Json, key: string): Json
  {
    FieldOr(edge, key, EmptyDict)
  }

  /** The start, end and relation of the edge are dicts. */
  predicate PartsAreDicts(edge: Json)
  {
    edge.Obj? && Part(edge, "start").Obj? && Part(edge, "end").Obj? && Part(edge, "rel").Obj?
  }

  /** _create_edge_summary: the surface text when it is longer than ten
    * characters, otherwise "<start> <relation> <end>"; "relationship" when
    * the edge cannot be read (the source catches every exception). */
  function CreateEdgeSummary(edge: Json): (r: Json)
    ensures r.Str? || r == Field(edge, "surfaceText")
    ensures !PartsAreDicts(edge) ==> r == Str("relationship")
    ensures PartsAreDicts(edge) && Truthy(Field(edge, "surfaceText")) &&
            Len(Field(edge, "surfaceText")).Some? && Len(Field(edge, "surfaceText")).value > 10 ==>
      r == Field(edge, "surfaceText")
    ensures PartsAreDicts(edge) &&
            (!Truthy(Field(edge, "surfaceText")) ||
             (Len(Field(edge, "surfaceText")).Some? && Len(Field(edge, "surfaceText")).value <= 10)) ==>
      r.Str? && StartsWith(r.s, Text(SummaryLabel(Part(edge, "start"))) + " ") &&
      EndsWith(r.s, " " + Text(SummaryLabel(Part(edge, "end"))))
  {
    if !PartsAreDicts(edge) then Str("relationship")
    else
      var start := Part(edge, "start");
      var end := Part(edge, "end");
      var rel := Part(edge, "rel");
      var relLabel := Or(Field(rel, "normalized_label"), Or(Field(rel, "label"), Str("related to")));
      var phrase := Str(Phrase(Text(SummaryLabel(start)), Text(relLabel), Text(SummaryLabel(end))));
      var surface := Field(edge, "surfaceText");
      if !Truthy(surface) then phrase
      else
        match Len(surface)
        case None => Str("relationship")
        case Some(n) => if n > 10 then surface else phrase
  }

  /** "<a> <b> <c>": three parts joined by single spaces. */
  function Phrase(a: string, b: string, c: string): (r: string)
    ensures StartsWith(r, a + " ") && EndsWith(r, " " + c)
  {
    var r := a + " " + b + " " + c;
    assert r[..|a + " "|] == a + " ";
    assert r[|r| - |" " + c|..] == " " + c;
    r
  }

  /** The summary of an edge whose nodes carry plain labels and which has no
    * surface text reads "<start> <relation> <end>". */
  lemma SummaryOfPlainLabels(a: string, rel: string, b: string)
    requires PlainLabel(a) && PlainLabel(b) && rel != ""
    ensures CreateEdgeSummary(PlainEdge(a, rel, b)) == Str(a + " " + rel + " " + b)
  {
    var edge := PlainEdge(a, rel, b);
    PlainEdgeParts(a, rel, b);
    NodeSummaryLabel(a);
    NodeSummaryLabel(b);
    PlainRelationLabel(rel);
    assert CreateEdgeSummary(edge) == Str(Phrase(a, rel, b));
  }

  /** An edge whose start, end and relation carry only labels. */
  function PlainEdge(a: string, rel: string, b: string): Json
  {
    Obj(map["start" := Obj(map["label" := Str(a)]),
            "end" := Obj(map["label" := Str(b)]),
            "rel" := Obj(map["label" := Str(rel)])])
  }

  lemma PlainEdgeParts(a: string, rel: string, b: string)
    ensures var edge := PlainEdge(a, rel, b);
      && Part(edge, "start") == Obj(map["label" := Str(a)])
      && Part(edge, "end") == Obj(map["label" := Str(b)])
      && Part(edge, "rel") == Obj(map["label" := Str(rel)])
      && PartsAreDicts(edge) && Field(edge, "surfaceText") == Null
  {
  }

  /** A relation with only a non-empty label reads as that label. */
  lemma PlainRelationLabel(rel: string)
    requires rel != ""
    ensures var relation := Obj(map["label" := Str(rel)]);
      Or(Field(relation, "normalized_label"), Or(Field(relation, "label"), Str("related to"))) == Str(rel)
  {
    assert Field(Obj(map["label" := Str(rel)]), "normalized_label") == Null;
  }

  /** A node with only a plain label shows that label. */
  lemma NodeSummaryLabel(a: string)
    requires PlainLabel(a)
    ensures SummaryLabel(Obj(map["label" := Str(a)])) == Str(a)
  {
    CleanPlainLabel(a);
    assert Field(Obj(map["label" := Str(a)]), "normalized_label") == Null;
  }

  /** The summary reads only the start, end, relation and surface text. */
  lemma SummaryReadsParts(d: map<string, Json>, key: string, v: Json)
    requires key != "start" && key != "end" && key != "rel" && key != "surfaceText"
    ensures CreateEdgeSummary(Obj(d[key := v])) == CreateEdgeSummary(Obj(d))
  {
    var e, e' := Obj(d), Obj(d[key := v]);
    assert Part(e', "start") == Part(e, "start");
    assert Part(e', "end") == Part(e, "end");
    assert Part(e', "rel") == Part(e, "rel");
    assert Field(e', "surfaceText") == Field(e, "surfaceText");
  }

  // ---------------------------------------------------------------------
  // Display forms of nodes and edges
  // ---------------------------------------------------------------------

  /** normalize_text (normalize_text_for_display) on any value: a falsy value
    * gives `""`; a truthy value that is not a string raises. */
  function NormalizeText(j: Json): (r: Result<Json>)
    ensures r.Err? <==> Truthy(j) && !j.Str?
    ensures !Truthy(j) ==> r == Ok(Str(""))
    ensures j.Str? ==> r == Ok(Str(NormalizeTextForDisplay(j.s)))
    ensures r.Ok? ==> r.value.Str? && (j.Str? ==> |r.value.s| <= |j.s|)
  {
    if !Truthy(j) then Ok(Str(""))
    else if j.Str? then Ok(Str(NormalizeTextForDisplay(j.s)))
    else Err(TypeErr)
  }

  /** Replaces the value under `key` by its display text and, when the two
    * differ, keeps the replaced value under `originalKey`. */
  function NormalizeField(d: map<string, Json>, key: string, originalKey: string): (r: Result<map<string, Json>>)
    requires key != originalKey
    ensures key !in d ==> r == Ok(d)
    ensures r.Ok? ==> d.Keys <= r.value.Keys
    ensures r.Ok? ==> forall k :: k in d && k != key && k != originalKey ==> r.value[k] == d[k]
    ensures r.Ok? && key in d ==> r.value[key].Str?
    ensures r.Ok? && key in d && r.value[key] != d[key] ==> originalKey in r.value && r.value[originalKey] == d[key]
  {
    if key !in d then Ok(d)
    else
      var shown :- NormalizeText(d[key]);
      if d[key] != shown then Ok(d[key := shown][originalKey := d[key]])
      else Ok(d[key := shown])
  }

  /** The entries normalize_concept_node may rewrite. */
  predicate NodeKey(k: string)
  {
    k == "label" || k == "normalized_label" || k == "_original_id" || k == "_original_label" || k == "language"
  }

  /** normalize_concept_node: a copy of the node with a display label taken
    * from its id and the label in display form. Every other entry keeps its
    * value, the original id and label stay recoverable, and an explicit
    * language is kept. */
  function NormalizeConceptNode(node: Json): (r: Result<Json>)
    ensures !Truthy(node) ==> r == Ok(node)
    ensures Truthy(node) && !node.Obj? ==> r.Err?
    ensures r.Ok? && Truthy(node) ==>
      r.value.Obj? && node.fields.Keys <= r.value.fields.Keys &&
      (forall k :: k in node.fields && !NodeKey(k) ==> r.value.fields[k] == node.fields[k])
  {
    if !Truthy(node) then Ok(node)
    else if !node.Obj? then Err(TypeErr)
    else
      var id := FieldOr(node, "@id", Str(""));
      var withId :- IdEntries(node.fields, id);
      var labelled :- NormalizeField(withId, "label", "_original_label");
      var withLanguage :- LanguageEntry(labelled);
      Ok(Obj(withLanguage))
  }

  /** What normalize_concept_node does to the entries it rewrites: the label
    * is in display form, with the original kept when they differ; a
    * non-empty id is kept under `_original_id`; an explicit language is
    * kept. */
  lemma NormalizedNodeEntries(node: Json)
    requires Truthy(node) && NormalizeConceptNode(node).Ok?
    ensures var r := NormalizeConceptNode(node).value.fields;
      && ("label" in node.fields ==> r["label"].Str?)
      && ("label" in node.fields && r["label"] != node.fields["label"] ==>
            "_original_label" in r && r["_original_label"] == node.fields["label"])
      && (Truthy(FieldOr(node, "@id", Str(""))) ==> "_original_id" in r && r["_original_id"] == node.fields["@id"])
      && ("language" in node.fields ==> r["language"] == node.fields["language"])
  {
    var withId := IdEntries(node.fields, FieldOr(node, "@id", Str(""))).value;
    var labelled := NormalizeField(withId, "label", "_original_label").value;
    assert NormalizeConceptNode(node).value.fields == LanguageEntry(labelled).value;
  }

  /** The node's language, when it has a truthy one, recorded under
    * `language`; an explicit `language` entry is kept as it is. */
  function LanguageEntry(d: map<string, Json>): (r: Result<map<string, Json>>)
    ensures r.Ok? ==> d.Keys <= r.value.Keys
    ensures r.Ok? ==> forall k :: k in d && k != "language" ==> r.value[k] == d[k]
    ensures r.Ok? && "language" in d ==> r.value["language"] == d["language"]
  {
    var language :- ExtractLanguageFromConcept(Obj(d));
    Ok(if Truthy(language) then d["language" := language] else d)
  }

  /** The `normalized_label` and `_original_id` entries a node gets from a
    * non-empty id. */
  function IdEntries(d: map<string, Json>, id: Json): (r: Result<map<string, Json>>)
    ensures !Truthy(id) ==> r == Ok(d)
    ensures r.Ok? ==> d.Keys <= r.value.Keys
    ensures r.Ok? ==> forall k :: k in d && k != "normalized_label" && k != "_original_id" ==> r.value[k] == d[k]
    ensures r.Ok? && Truthy(id) ==> "_original_id" in r.value && r.value["_original_id"] == id
  {
    if !Truthy(id) then Ok(d)
    else if !id.Str? then Err(TypeErr)
    else
      var text :- NormalizeUriToText(id.s);
      Ok(WithIdEntries(d, Str(text), id))
  }

  function WithIdEntries(d: map<string, Json>, shown: Json, id: Json): (r: map<string, Json>)
    ensures d.Keys <= r.Keys
    ensures forall k :: k in d && k != "normalized_label" && k != "_original_id" ==> r[k] == d[k]
    ensures "_original_id" in r && r["_original_id"] == id
    ensures "normalized_label" in r && r["normalized_label"] == shown
  {
    d["normalized_label" := shown]["_original_id" := id]
  }

  /** The relation of an edge in display form: a text for its id and its
    * label in display form. */
  function NormalizeRelation(rel: map<string, Json>): (r: Result<map<string, Json>>)
    ensures r.Ok? ==> rel.Keys <= r.value.Keys
    ensures r.Ok? ==> forall k :: k in rel && !NodeKey(k) ==> r.value[k] == rel[k]
    ensures r.Ok? && "@id" in rel && Truthy(rel["@id"]) ==>
      rel["@id"].Str? && "normalized_label" in r.value &&
      r.value["normalized_label"] == Str(NormalizeRelationText(rel["@id"].s))
  {
    var id := if "@id" in rel then rel["@id"] else Str("");
    var withId :- RelationIdEntries(rel, id);
    NormalizeField(withId, "label", "_original_label")
  }

  /** The `normalized_label` and `_original_id` entries a relation gets from
    * a non-empty id. */
  function RelationIdEntries(rel: map<string, Json>, id: Json): (r: Result<map<string, Json>>)
    ensures !Truthy(id) ==> r == Ok(rel)
    ensures r.Ok? ==> rel.Keys <= r.value.Keys
    ensures r.Ok? ==> forall k :: k in rel && k != "normalized_label" && k != "_original_id" ==> r.value[k] == rel[k]
    ensures r.Ok? && Truthy(id) ==>
      id.Str? && "normalized_label" in r.value && r.value["normalized_label"] == Str(NormalizeRelationText(id.s))
  {
    if !Truthy(id) then Ok(rel)
    else if !id.Str? then Err(TypeErr)
    else Ok(WithIdEntries(rel, Str(NormalizeRelationText(id.s)), id))
  }

  /** The node under `key` in display form, when the edge has one. */
  function NormalizeNodeAt(d: map<string, Json>, key: string): (r: Result<map<string, Json>>)
    ensures r.Ok? ==> r.value.Keys == d.Keys
    ensures r.Ok? ==> forall k :: k in d && k != key ==> r.value[k] == d[k]
  {
    if key !in d then Ok(d)
    else
      var node :- NormalizeConceptNode(d[key]);
      Ok(d[key := node])
  }

  /** The entries normalize_edge may rewrite. */
  predicate EdgeKey(k: string)
  {
    k == "start" || k == "end" || k == "rel" || k == "surfaceText" ||
    k == "_original_surface_text" || k == "readable_summary"
  }

  /** normalize_edge: a copy of the edge with its nodes, relation and surface
    * text in display form and a `readable_summary` that is the summary of
    * the edge as returned. Every other entry keeps its value. */
  function NormalizeEdge(edge: Json): (r: Result<Json>)
    ensures !Truthy(edge) ==> r == Ok(edge)
    ensures Truthy(edge) && !edge.Obj? ==> r.Err?
    ensures r.Ok? && Truthy(edge) ==>
      r.value.Obj? && edge.fields.Keys <= r.value.fields.Keys &&
      (forall k :: k in edge.fields && !EdgeKey(k) ==> r.value.fields[k] == edge.fields[k]) &&
      "readable_summary" in r.value.fields &&
      r.value.fields["readable_summary"] == CreateEdgeSummary(r.value)
  {
    if !Truthy(edge) then Ok(edge)
    else if !edge.Obj? then Err(TypeErr)
    else
      var withStart :- NormalizeNodeAt(edge.fields, "start");
      var withEnd :- NormalizeNodeAt(withStart, "end");
      var withRel :- NormalizeRelationAt(withEnd);
      var withSurface :- NormalizeField(withRel, "surfaceText", "_original_surface_text");
      Ok(Obj(WithSummary(withSurface)))
  }

  /** The relation of the edge in display form, when it is a dict. */
  function NormalizeRelationAt(d: map<string, Json>): (r: Result<map<string, Json>>)
    ensures r.Ok? ==> r.value.Keys == d.Keys
    ensures r.Ok? ==> forall k :: k in d && k != "rel" ==> r.value[k] == d[k]
  {
    if "rel" in d && d["rel"].Obj? then
      var rel :- NormalizeRelation(d["rel"].fields);
      Ok(d["rel" := Obj(rel)])
    else Ok(d)
  }

  /** The edge with its `readable_summary`, which is also the summary of the
    * edge that holds it. */
  function WithSummary(d: map<string, Json>): (r: map<string, Json>)
    ensures d.Keys <= r.Keys
    ensures forall k :: k in d && k != "readable_summary" ==> r[k] == d[k]
    ensures "readable_summary" in r && r["readable_summary"] == CreateEdgeSummary(Obj(r))
  {
    SummaryReadsParts(d, "readable_summary", CreateEdgeSummary(Obj(d)));
    d["readable_summary" := CreateEdgeSummary(Obj(d))]
  }

  // ---------------------------------------------------------------------
  // Relationships grouped by type
  // ---------------------------------------------------------------------

  /** One entry of a relation's list: the related term and its rounded weight. */
  datatype RelatedTerm = RelatedTerm(term: Json, weight: real)

  /** `round(w, 4)` of a float; the decimal rounding is left open. */
  const Round4: real -> real

  /** `round(weight, 4)`: None where Python raises (a weight that is not a number). */
  function RoundedWeight(weight: Json): Option<real>
  {
    match weight
    case Num(w) => Some(Round4(w))
    case Bool(b) => Some(if b then 1.0 else 0.0)
    case _ => None
  }

  /** A relation name as a key: lower-cased, spaces replaced by `_`. */
  function RelationKey(name: string): (r: string)
    ensures |r| == |name| && ' ' !in r
    ensures (forall i :: 0 <= i < |name| ==> IsAscii(name[i])) ==>
      forall i :: 0 <= i < |r| ==> !IsAsciiUpper(r[i])
  {
    ReplaceChar(Lower(name), ' ', '_')
  }

  function Terms(items: seq<RelatedTerm>): (r: seq<Json>)
    ensures |r| == |items|
  {
    seq(|items|, i requires 0 <= i < |items| => items[i].term)
  }

  function TermWeight(item: RelatedTerm): real
  {
    item.weight
  }

  /** No two entries of a list share a term. */
  predicate DistinctTerms(items: seq<RelatedTerm>)
  {
    forall i, j :: 0 <= i < j < |items| ==> items[i].term != items[j].term
  }

  /** The grouping's invariant: keys without spaces, lists without empty or
    * repeated terms. */
  predicate WellGrouped(groups: map<string, seq<RelatedTerm>>)
  {
    forall k :: k in groups ==>
      ' ' !in k && DistinctTerms(groups[k]) && forall t :: t in groups[k] ==> Truthy(t.term)
  }

  /** One label of an edge added to a relation's list, unless it is empty or
    * already listed. The second component is false when rounding the weight
    * raised; by then the relation's (possibly empty) list exists. */
  function AddTerm(groups: map<string, seq<RelatedTerm>>, key: string, lbl: Json, weight: Json)
    : (r: (map<string, seq<RelatedTerm>>, bool))
    ensures groups.Keys <= r.0.Keys <= groups.Keys + {key}
    ensures forall k :: k in groups && k != key ==> r.0[k] == groups[k]
    ensures Truthy(lbl) ==> key in r.0 && (r.1 ==> lbl in Terms(r.0[key]))
  {
    if !Truthy(lbl) then (groups, true)
    else
      var listed := if key in groups then groups else groups[key := []];
      if lbl in Terms(listed[key]) then (listed, true)
      else
        match RoundedWeight(weight)
        case None => (listed, false)
        case Some(w) =>
          var items := listed[key] + [RelatedTerm(lbl, w)];
          assert Terms(items)[|items| - 1] == lbl;
          (listed[key := items], true)
  }

  lemma AddTermKeepsGrouping(groups: map<string, seq<RelatedTerm>>, key: string, lbl: Json, weight: Json)
    requires WellGrouped(groups) && ' ' !in key
    ensures WellGrouped(AddTerm(groups, key, lbl, weight).0)
  {
    if Truthy(lbl) {
      var listed := if key in groups then groups else groups[key := []];
      if lbl !in Terms(listed[key]) && RoundedWeight(weight).Some? {
        var items := listed[key] + [RelatedTerm(lbl, RoundedWeight(weight).value)];
        forall i, j | 0 <= i < j < |items| ensures items[i].term != items[j].term {
          if j == |items| - 1 {
            assert Terms(listed[key])[i] == items[i].term;
          }
        }
      }
    }
  }

  /** One turn of _extract_relationships_by_type's loop. An edge that cannot
    * be read is skipped; the list created just before a weight fails to
    * round stays. */
  function AddEdgeRelationships(groups: map<string, seq<RelatedTerm>>, edge: Json): (r: map<string, seq<RelatedTerm>>)
    ensures groups.Keys <= r.Keys
  {
    if !edge.Obj? then groups
    else
      var rel := Part(edge, "rel");
      if !rel.Obj? then groups
      else
        var name := Or(Field(rel, "normalized_label"), Or(Field(rel, "label"), Str("related_to")));
        if !name.Str? then groups
        else
          var start := Part(edge, "start");
          var end := Part(edge, "end");
          if !start.Obj? || !end.Obj? then groups
          else
            var weight := FieldOr(edge, "weight", Num(0.0));
            var startLabel := CleanConceptLabel(Or(Field(start, "normalized_label"), Or(Field(start, "label"), Str(""))));
            var endLabel := CleanConceptLabel(Or(Field(end, "normalized_label"), Or(Field(end, "label"), Str(""))));
            var key := RelationKey(name.s);
            var (afterStart, ok) := AddTerm(groups, key, startLabel, weight);
            if ok then AddTerm(afterStart, key, endLabel, weight).0 else afterStart
  }

  lemma AddEdgeKeepsGrouping(groups: map<string, seq<RelatedTerm>>, edge: Json)
    requires WellGrouped(groups)
    ensures WellGrouped(AddEdgeRelationships(groups, edge))
  {
    if edge.Obj? && Part(edge, "rel").Obj? {
      var rel := Part(edge, "rel");
      var name := Or(Field(rel, "normalized_label"), Or(Field(rel, "label"), Str("related_to")));
      var start := Part(edge, "start");
      var end := Part(edge, "end");
      if name.Str? && start.Obj? && end.Obj? {
        var weight := FieldOr(edge, "weight", Num(0.0));
        var startLabel := CleanConceptLabel(Or(Field(start, "normalized_label"), Or(Field(start, "label"), Str(""))));
        var endLabel := CleanConceptLabel(Or(Field(end, "normalized_label"), Or(Field(end, "label"), Str(""))));
        var key := RelationKey(name.s);
        AddTermKeepsGrouping(groups, key, startLabel, weight);
        AddTermKeepsGrouping(AddTerm(groups, key, startLabel, weight).0, key, endLabel, weight);
      }
    }
  }

  /** The groups the loop builds over the edges, before sorting. */
  function Grouped(edges: seq<Json>): map<string, seq<RelatedTerm>>
  {
    if edges == [] then map[]
    else AddEdgeRelationships(Grouped(edges[..|edges| - 1]), edges[|edges| - 1])
  }

  lemma {:induction false} GroupedIsWellGrouped(edges: seq<Json>)
    ensures WellGrouped(Grouped(edges))
    decreases |edges|
  {
    if edges != [] {
      GroupedIsWellGrouped(edges[..|edges| - 1]);
      AddEdgeKeepsGrouping(Grouped(edges[..|edges| - 1]), edges[|edges| - 1]);
    }
  }

  /** Each list sorted by weight, highest first. */
  function SortGroups(groups: map<string, seq<RelatedTerm>>): map<string, seq<RelatedTerm>>
  {
    map k | k in groups :: SortBy(groups[k], TermWeight, true)
  }

  /** _extract_relationships_by_type: the related terms of the edges grouped
    * by relation name, each list sorted by weight. */
  method ExtractRelationshipsByType(edges: seq<Json>) returns (relationships: map<string, seq<RelatedTerm>>)
    ensures relationships == SortGroups(Grouped(edges))
  {
    relationships := map[];
    var i := 0;
    while i < |edges|
      invariant 0 <= i <= |edges|
      invariant relationships == Grouped(edges[..i])
    {
      assert edges[..i + 1][..i] == edges[..i];
      relationships := AddEdgeRelationships(relationships, edges[i]);
      i := i + 1;
    }
    assert edges[..i] == edges;
    ghost var grouped := relationships;
    var pending := relationships.Keys;
    while pending != {}
      invariant pending <= grouped.Keys && relationships.Keys == grouped.Keys
      invariant forall k :: k in pending ==> relationships[k] == grouped[k]
      invariant forall k :: k in grouped && k !in pending ==> relationships[k] == SortBy(grouped[k], TermWeight, true)
      decreases pending
    {
      var k :| k in pending;
      relationships := relationships[k := SortBy(relationships[k], TermWeight, true)];
      pending := pending - {k};
    }
  }

  /** Sorting a list keeps its terms distinct. */
  lemma {:induction false} InsertKeepsDistinct(x: RelatedTerm, s: seq<RelatedTerm>)
    requires DistinctTerms(s) && forall y :: y in s ==> y.term != x.term
    ensures DistinctTerms(Insert(x, s, TermWeight, true))
    decreases |s|
  {
    if s != [] && !InOrder(TermWeight(x), TermWeight(s[0]), true) {
      var rest := Insert(x, s[1..], TermWeight, true);
      forall y | y in s[1..] ensures y.term != x.term { assert y in s; }
      InsertKeepsDistinct(x, s[1..]);
      forall y | y in rest ensures y.term != s[0].term {
        assert y in multiset(rest);
        if y != x {
          var j :| 0 <= j < |s[1..]| && s[1..][j] == y;
          assert s[j + 1] == y;
        }
      }
      var r := [s[0]] + rest;
      forall i, j | 0 <= i < j < |r| ensures r[i].term != r[j].term {
        if i == 0 {
          assert r[j] in rest;
        } else {
          assert r[i] == rest[i - 1] && r[j] == rest[j - 1];
        }
      }
    } else if s != [] {
      var r := [x] + s;
      forall i, j | 0 <= i < j < |r| ensures r[i].term != r[j].term {
        if i == 0 {
          assert r[j] in s;
        }
      }
    }
  }

  lemma {:induction false} SortKeepsDistinct(s: seq<RelatedTerm>)
    requires DistinctTerms(s)
    ensures DistinctTerms(SortBy(s, TermWeight, true))
    decreases |s|
  {
    if s != [] {
      SortKeepsDistinct(s[1..]);
      var rest := SortBy(s[1..], TermWeight, true);
      forall y | y in rest ensures y.term != s[0].term {
        assert y in multiset(rest);
        var j :| 0 <= j < |s[1..]| && s[1..][j] == y;
        assert s[j + 1] == y;
      }
      InsertKeepsDistinct(s[0], rest);
    }
  }

  /** What _extract_relationships_by_type returns: keys without spaces, and
    * lists without empty or repeated terms, sorted by weight, highest first. */
  lemma RelationshipsByTypeShape(edges: seq<Json>)
    ensures var groups := SortGroups(Grouped(edges));
      WellGrouped(groups) && forall k :: k in groups ==> SortedBy(groups[k], TermWeight, true)
  {
    var grouped := Grouped(edges);
    GroupedIsWellGrouped(edges);
    var groups := SortGroups(grouped);
    forall k | k in groups
      ensures ' ' !in k && DistinctTerms(groups[k]) && (forall t: RelatedTerm :: t in groups[k] ==> Truthy(t.term))
      ensures SortedBy(groups[k], TermWeight, true)
    {
      SortKeepsDistinct(grouped[k]);
      SortBySorted(grouped[k], TermWeight, true);
      SortByPermutes(grouped[k], TermWeight, true);
    }
  }
}
