/**
 * The pydantic query models: the filters of a ConceptNet `/query` request
 * with their field and cross-field rules and their rendering as HTTP
 * query parameters, and the concept lookup, related-concepts and
 * relatedness queries with their language-code rule and URI builders.
 * A pydantic validation failure is `Err(Pydantic(field))`, naming the
 * first field (in declaration order) whose rule fails; a failure of a
 * cross-field rule names no field (`Pydantic("")`).
 */
module QueryModels {
  import opened JsonValues
  import opened Strings
  import opened Errors
  import TextUtils

  // ---------------------------------------------------------------------
  // QueryFilters
  // ---------------------------------------------------------------------

  datatype QueryFilters = QueryFilters(
    start: Option<string>, end: Option<string>, rel: Option<string>,
    node: Option<string>, other: Option<string>, sources: Option<string>,
    limit: int, offset: int)

  /** The names of the query parameters.  They are a datatype so that two
    * names are told apart by their constructors; `ParamName` gives the
    * text sent in the query string. */
  datatype Param = Start | End | Rel | Node | Other | Sources | Limit | Offset

  function ParamName(p: Param): string
  {
    match p
    case Start => "start"
    case End => "end"
    case Rel => "rel"
    case Node => "node"
    case Other => "other"
    case Sources => "sources"
    case Limit => "limit"
    case Offset => "offset"
  }

  /** The optional filter fields. */
  predicate IsFilter(p: Param)
  {
    !p.Limit? && !p.Offset?
  }

  /** The value of the filter field `p`. */
  function FilterValue(q: QueryFilters, p: Param): Option<string>
  {
    match p
    case Start => q.start
    case End => q.end
    case Rel => q.rel
    case Node => q.node
    case Other => q.other
    case Sources => q.sources
    case _ => None
  }

  /** A concept field is unset or starts with `/c/`. */
  predicate ConceptField(v: Option<string>)
  {
    v.None? || StartsWith(v.value, "/c/")
  }

  /** The relation field is unset or starts with `/r/`. */
  predicate RelationField(v: Option<string>)
  {
    v.None? || StartsWith(v.value, "/r/")
  }

  /** The first field whose own rule fails: the `/c/` and `/r/` prefixes,
    * `1 <= limit <= 1000` and `offset >= 0`. */
  function FirstBadFilterField(q: QueryFilters): Option<string>
  {
    if !ConceptField(q.start) then Some("start")
    else if !ConceptField(q.end) then Some("end")
    else if !RelationField(q.rel) then Some("rel")
    else if !ConceptField(q.node) then Some("node")
    else if !ConceptField(q.other) then Some("other")
    else if !(1 <= q.limit <= 1000) then Some("limit")
    else if q.offset < 0 then Some("offset")
    else None
  }

  /** The `after` model validator: `other` needs `node`, the two differ, and
    * at least one of start, end, rel, node and sources is given. */
  function CheckQueryLogic(q: QueryFilters): (r: Result<QueryFilters>)
    ensures r.Ok? ==> r.value == q
    ensures r.Ok? <==>
      (q.other.Some? ==> q.node.Some? && q.node != q.other)
      && (q.start.Some? || q.end.Some? || q.rel.Some? || q.node.Some? || q.sources.Some?)
  {
    if q.other.Some? && q.node.None? then Err(Pydantic(""))
    else if q.node.Some? && q.other.Some? && q.node == q.other then Err(Pydantic(""))
    else if q.start.None? && q.end.None? && q.rel.None? && q.node.None? && q.sources.None? then Err(Pydantic(""))
    else Ok(q)
  }

  /** Constructing a `QueryFilters`: the field rules, then the model rules. */
  function NewQueryFilters(q: QueryFilters): (r: Result<QueryFilters>)
  {
    var bad := FirstBadFilterField(q);
    if bad.Some? then Err(Pydantic(bad.value)) else CheckQueryLogic(q)
  }

  /** A query is accepted exactly when every field and model rule holds. */
  lemma QueryFiltersAccepted(q: QueryFilters)
    ensures NewQueryFilters(q).Ok? <==>
      ConceptField(q.start) && ConceptField(q.end) && RelationField(q.rel)
      && ConceptField(q.node) && ConceptField(q.other)
      && 1 <= q.limit <= 1000 && q.offset >= 0
      && (q.other.Some? ==> q.node.Some? && q.node != q.other)
      && (q.start.Some? || q.end.Some? || q.rel.Some? || q.node.Some? || q.sources.Some?)
    ensures NewQueryFilters(q).Ok? ==> NewQueryFilters(q).value == q
    ensures NewQueryFilters(q).Err? ==> NewQueryFilters(q).error.Pydantic?
  {
  }

  /** A field failure is reported before any model rule is looked at. */
  lemma FieldRuleReportedFirst(q: QueryFilters)
    requires !(1 <= q.limit <= 1000)
    requires ConceptField(q.start) && ConceptField(q.end) && RelationField(q.rel)
    requires ConceptField(q.node) && ConceptField(q.other)
    ensures NewQueryFilters(q) == Err(Pydantic("limit"))
  {
  }

  /** `params[key] = value` when the field is set. */
  function PutIfSet(params: map<Param, string>, key: Param, v: Option<string>): map<Param, string>
  {
    if v.Some? then params[key := v.value] else params
  }

  /** `to_query_params()`: the set filter fields with their values, then
    * `limit` and `offset` as decimal text. */
  function ToQueryParams(q: QueryFilters): (params: map<Param, string>)
    ensures Limit in params && Offset in params
  {
    FilterParams(q)[Limit := IntToString(q.limit)][Offset := IntToString(q.offset)]
  }

  /** The set filter fields, put in one after another. */
  function FilterParams(q: QueryFilters): (params: map<Param, string>)
  {
    var p := PutIfSet(map[], Start, q.start);
    var p := PutIfSet(p, End, q.end);
    var p := PutIfSet(p, Rel, q.rel);
    var p := PutIfSet(p, Node, q.node);
    var p := PutIfSet(p, Other, q.other);
    PutIfSet(p, Sources, q.sources)
  }

  /** A filter field is passed on, with its own value, exactly when it is
    * set. */
  lemma ParamOfFilter(q: QueryFilters, f: Param)
    ensures var params := ToQueryParams(q);
      && (IsFilter(f) ==> (f in params <==> FilterValue(q, f).Some?))
      && (IsFilter(f) && f in params ==> params[f] == FilterValue(q, f).value)
  {
    FilterParamsHold(q, f);
  }

  /** The filter part alone holds exactly the set filters, with their values. */
  lemma FilterParamsHold(q: QueryFilters, f: Param)
    ensures f in FilterParams(q) <==> IsFilter(f) && FilterValue(q, f).Some?
    ensures f in FilterParams(q) ==> FilterParams(q)[f] == FilterValue(q, f).value
  {
    var p1 := PutIfSet(map[], Start, q.start);
    var p2 := PutIfSet(p1, End, q.end);
    var p3 := PutIfSet(p2, Rel, q.rel);
    var p4 := PutIfSet(p3, Node, q.node);
    var p5 := PutIfSet(p4, Other, q.other);
    assert FilterParams(q) == PutIfSet(p5, Sources, q.sources);
  }

  /** `get_specified_filters()`: the filter fields that are set. */
  function GetSpecifiedFilters(q: QueryFilters): (r: set<Param>)
    ensures forall f :: f in r <==> IsFilter(f) && FilterValue(q, f).Some?
  {
    (if q.start.Some? then {Start} else {})
    + (if q.end.Some? then {End} else {})
    + (if q.rel.Some? then {Rel} else {})
    + (if q.node.Some? then {Node} else {})
    + (if q.other.Some? then {Other} else {})
    + (if q.sources.Some? then {Sources} else {})
  }

  /** The query parameters are the specified filters plus `limit` and
    * `offset`, and those two read back as the numbers they came from. */
  lemma ParamsAreSpecifiedFilters(q: QueryFilters)
    ensures ToQueryParams(q).Keys == GetSpecifiedFilters(q) + {Limit, Offset}
    ensures ToQueryParams(q).Keys - {Limit, Offset} == GetSpecifiedFilters(q)
    ensures ParseInt(ToQueryParams(q)[Limit]) == Some(q.limit)
    ensures ParseInt(ToQueryParams(q)[Offset]) == Some(q.offset)
  {
    ParseIntOfIntToString(q.limit);
    ParseIntOfIntToString(q.offset);
    var p := ToQueryParams(q);
    var s := GetSpecifiedFilters(q);
    forall f | f in p.Keys
      ensures f in s + {Limit, Offset}
    {
      ParamOfFilter(q, f);
    }
    forall f | f in s + {Limit, Offset}
      ensures f in p.Keys
    {
      ParamOfFilter(q, f);
    }
  }

  /** The parameter names are distinct texts. */
  lemma ParamNamesDistinct(a: Param, b: Param)
    requires a != b
    ensures ParamName(a) != ParamName(b)
  {
    var x, y := ParamName(a), ParamName(b);
    if |x| == |y| {
      assert x[0] != y[0];
    }
  }

  /** An accepted query always names at least one filter. */
  lemma AcceptedQuerySpecifiesFilter(q: QueryFilters)
    requires NewQueryFilters(q).Ok?
    ensures GetSpecifiedFilters(q) != {}
  {
    QueryFiltersAccepted(q);
    if q.start.Some? { assert Start in GetSpecifiedFilters(q); }
    else if q.end.Some? { assert End in GetSpecifiedFilters(q); }
    else if q.rel.Some? { assert Rel in GetSpecifiedFilters(q); }
    else if q.node.Some? { assert Node in GetSpecifiedFilters(q); }
    else { assert Sources in GetSpecifiedFilters(q); }
  }

  // ---------------------------------------------------------------------
  // Language codes and concept URIs of the term queries
  // ---------------------------------------------------------------------

  /** `s.isalpha()`: non-empty and every character alphabetic. */
  predicate IsAlphaText(s: string)
  {
    s != [] && All(s, IsAlpha)
  }

  /** The shared language-code validator of the term queries: an unset code
    * passes, a set one must be 2 or 3 alphabetic characters and is
    * lower-cased. */
  function ValidateLanguageField(field: string, v: Option<string>): (r: Result<Option<string>>)
    ensures v.None? ==> r == Ok(None)
    ensures v.Some? ==> (r.Ok? <==> 2 <= |v.value| <= 3 && IsAlphaText(v.value))
    ensures v.Some? && r.Ok? ==> r.value == Some(Lower(v.value))
    ensures r.Err? ==> r.error == Pydantic(field)
  {
    if v.Some? && (|v.value| < 2 || |v.value| > 3 || !IsAlphaText(v.value)) then Err(Pydantic(field))
    else if v.Some? && v.value != [] then Ok(Some(Lower(v.value)))
    else Ok(v)
  }

  /** A validated ASCII code is two or three lower-case ASCII letters. */
  lemma ValidatedAsciiCodeIsLower(field: string, v: string)
    requires All(v, IsAscii)
    requires ValidateLanguageField(field, Some(v)).Ok?
    ensures var c := ValidateLanguageField(field, Some(v)).value.value;
      2 <= |c| <= 3 && All(c, IsAsciiLower)
  {
    var c := Lower(v);
    forall i | 0 <= i < |c| ensures IsAsciiLower(c[i]) {
      assert IsAlpha(v[i]) && IsAscii(v[i]);
    }
  }

  /** The term segment of a query URI: `term.replace(' ', '_').lower()`. */
  function TermSegment(term: string): (r: string)
    ensures |r| == |term|
  {
    Lower(ReplaceChar(term, ' ', '_'))
  }

  /** `f"/c/{language}/{normalized_term}"`. */
  function ConceptPath(language: string, term: string): (r: string)
    ensures StartsWith(r, "/c/" + language + "/")
    ensures |r| == 4 + |language| + |term|
  {
    var r := "/c/" + language + "/" + TermSegment(term);
    assert r[..|"/c/" + language + "/"|] == "/c/" + language + "/";
    r
  }

  /** An ASCII term's segment has no spaces and no upper-case letters, and
    * without slashes the URI splits back into its language and segment. */
  lemma ConceptPathParts(language: string, term: string)
    requires '/' !in language && All(term, IsAscii) && '/' !in term
    ensures var t := TermSegment(term);
      ' ' !in t && '/' !in t && All(t, IsAscii)
      && (forall i :: 0 <= i < |t| ==> !IsAsciiUpper(t[i]))
      && Split(ConceptPath(language, term), '/') == ["", "c", language, t]
  {
    var t := TermSegment(term);
    var u := ReplaceChar(term, ' ', '_');
    forall i | 0 <= i < |t| ensures t[i] != ' ' && t[i] != '/' && IsAscii(t[i]) && !IsAsciiUpper(t[i]) {
      assert u[i] != ' ' && u[i] != '/' && IsAscii(u[i]);
      assert t[i] == LowerChar(u[i]);
    }
    TextUtils.ConceptUriParts(language, t);
  }

  datatype ConceptLookupQuery = ConceptLookupQuery(
    term: string, language: string, limitResults: bool, targetLanguage: Option<string>)

  /** Constructing a `ConceptLookupQuery` (the default language is "en"). */
  function NewConceptLookupQuery(term: string, language: string, limitResults: bool,
                                 targetLanguage: Option<string>): (r: Result<ConceptLookupQuery>)
    ensures r.Ok? <==> ValidateLanguageField("language", Some(language)).Ok?
                       && ValidateLanguageField("target_language", targetLanguage).Ok?
    ensures r.Ok? ==> r.value.term == term && r.value.language == Lower(language)
                      && r.value.limitResults == limitResults
                      && r.value.targetLanguage == ValidateLanguageField("target_language", targetLanguage).value
  {
    var lang :- ValidateLanguageField("language", Some(language));
    var target :- ValidateLanguageField("target_language", targetLanguage);
    Ok(ConceptLookupQuery(term, lang.value, limitResults, target))
  }

  function ConceptLookupUri(q: ConceptLookupQuery): (r: string)
    ensures StartsWith(r, "/c/" + q.language + "/")
  {
    ConceptPath(q.language, q.term)
  }

  datatype RelatedConceptsQuery = RelatedConceptsQuery(
    term: string, language: string, filterLanguage: Option<string>, limit: int)

  /** Constructing a `RelatedConceptsQuery`: `1 <= limit <= 100` besides the
    * language rule. */
  function NewRelatedConceptsQuery(term: string, language: string, filterLanguage: Option<string>,
                                   limit: int): (r: Result<RelatedConceptsQuery>)
    ensures r.Ok? <==> ValidateLanguageField("language", Some(language)).Ok?
                       && ValidateLanguageField("filter_language", filterLanguage).Ok?
                       && 1 <= limit <= 100
    ensures r.Ok? ==> r.value.term == term && r.value.language == Lower(language) && r.value.limit == limit
                      && r.value.filterLanguage == ValidateLanguageField("filter_language", filterLanguage).value
    ensures (!(1 <= limit <= 100) && ValidateLanguageField("language", Some(language)).Ok?
             && ValidateLanguageField("filter_language", filterLanguage).Ok?) ==> r == Err(Pydantic("limit"))
  {
    var lang :- ValidateLanguageField("language", Some(language));
    var filter :- ValidateLanguageField("filter_language", filterLanguage);
    if !(1 <= limit <= 100) then Err(Pydantic("limit"))
    else Ok(RelatedConceptsQuery(term, lang.value, filter, limit))
  }

  function RelatedConceptsUri(q: RelatedConceptsQuery): (r: string)
    ensures StartsWith(r, "/c/" + q.language + "/")
  {
    ConceptPath(q.language, q.term)
  }

  datatype RelatednessQuery = RelatednessQuery(
    concept1: string, concept2: string, language1: string, language2: string)

  /** Constructing a `RelatednessQuery`: both languages are required codes. */
  function NewRelatednessQuery(concept1: string, concept2: string, language1: string,
                               language2: string): (r: Result<RelatednessQuery>)
    ensures r.Ok? <==> 2 <= |language1| <= 3 && IsAlphaText(language1)
                       && 2 <= |language2| <= 3 && IsAlphaText(language2)
    ensures r.Ok? ==> r.value == RelatednessQuery(concept1, concept2, Lower(language1), Lower(language2))
  {
    var l1 :- ValidateLanguageField("language1", Some(language1));
    var l2 :- ValidateLanguageField("language2", Some(language2));
    Ok(RelatednessQuery(concept1, concept2, l1.value, l2.value))
  }

  /** `to_concept_uris()`: each concept under its own language. */
  function RelatednessUris(q: RelatednessQuery): (r: (string, string))
    ensures StartsWith(r.0, "/c/" + q.language1 + "/") && StartsWith(r.1, "/c/" + q.language2 + "/")
    ensures q.language1 == q.language2 && q.concept1 == q.concept2 ==> r.0 == r.1
  {
    (ConceptPath(q.language1, q.concept1), ConceptPath(q.language2, q.concept2))
  }
}
