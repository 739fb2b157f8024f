/**
 * The pydantic response models: the view (pagination links) of a page,
 * the JSON-LD context rule shared by API responses, concept and edge-list
 * responses with their edge queries, related-concept ranking, the
 * relatedness score, error responses and paginated responses.
 */
module ResponseModels {
  import opened JsonValues
  import opened Strings
  import opened Errors
  import opened Sorting
  import opened Filtering
  import opened ConceptModels
  import Processor

  // ---------------------------------------------------------------------
  // ViewInfo and PaginatedResponse
  // ---------------------------------------------------------------------

  datatype ViewInfo = ViewInfo(id: string, nextPage: Option<string>, previousPage: Option<string>,
                               paginatedProperty: string)
  {
    /** `has_next_page`: a next-page link is present. */
    predicate HasNextPage() { nextPage.Some? }
    /** `has_previous_page`: a previous-page link is present. */
    predicate HasPreviousPage() { previousPage.Some? }
  }

  datatype PaginatedResponse<T> = PaginatedResponse(items: seq<T>, view: Option<ViewInfo>, totalItems: Option<int>)
  {
    /** `has_next_page`: there is a view and it has a next page. */
    predicate HasNextPage() { view.Some? && view.value.HasNextPage() }
    /** `has_previous_page`: there is a view and it has a previous page. */
    predicate HasPreviousPage() { view.Some? && view.value.HasPreviousPage() }
  }

  /** A paginated response navigates exactly by its view's links: without a
    * view there is nowhere to go, and with one the links decide. */
  lemma PaginatedNavigation<T>(p: PaginatedResponse<T>)
    ensures p.view.None? ==> !p.HasNextPage() && !p.HasPreviousPage()
    ensures p.HasNextPage() <==> p.view.Some? && p.view.value.nextPage.Some?
    ensures p.HasPreviousPage() <==> p.view.Some? && p.view.value.previousPage.Some?
  {
  }

  // ---------------------------------------------------------------------
  // The JSON-LD context of an API response
  // ---------------------------------------------------------------------

  const ExpectedContext: string := "http://api.conceptnet.io/ld/conceptnet5.7/context.ld.json"

  /** The context list after the validator: the expected context appended
    * when it is missing, the list unchanged otherwise. */
  function WithExpectedContext(items: seq<string>): (r: seq<string>)
    ensures ExpectedContext in r
    ensures |items| <= |r| <= |items| + 1 && r[..|items|] == items
    ensures ExpectedContext in items ==> r == items
    ensures forall c :: c in r ==> c in items || c == ExpectedContext
  {
    if ExpectedContext in items then items else items + [ExpectedContext]
  }

  /** Validating twice changes nothing more than validating once. */
  lemma WithExpectedContextIdempotent(items: seq<string>)
    ensures WithExpectedContext(WithExpectedContext(items)) == WithExpectedContext(items)
  {
  }

  /** The `@context` list a pydantic model receives, which the validator
    * appends to in place. */
  class ContextList {
    var items: seq<string>

    constructor(items: seq<string>)
      ensures this.items == items
    {
      this.items := items;
    }
  }

  /** `validate_context(v)`: appends the expected context to `v` itself when
    * it is missing, and returns the same list. */
  method ValidateContext(v: ContextList) returns (r: ContextList)
    modifies v
    ensures r == v
    ensures v.items == WithExpectedContext(old(v.items))
  {
    if ExpectedContext !in v.items {
      v.items := v.items + [ExpectedContext];
    }
    return v;
  }

  // ---------------------------------------------------------------------
  // ConceptResponse and EdgeListResponse
  // ---------------------------------------------------------------------

  datatype ConceptResponse = ConceptResponse(context: seq<string>, id: string, edges: seq<Json>,
                                             view: Option<ViewInfo>)
  {
    /** `is_paginated`: the response carries a view. */
    predicate IsPaginated() { view.Some? }
  }

  /** `ConceptResponse.get_edges_by_relation(relation)`: the edges whose
    * relation id ends with `/relation`, in order. */
  function GetEdgesByRelation(resp: ConceptResponse, relation: string): (r: Result<seq<Json>>)
    ensures r.Ok? ==> IsSubsequence(r.value, resp.edges)
                      && forall e :: e in resp.edges ==> (e in r.value <==> HasRelationSuffix(e, relation))
  {
    var r := EdgesWithRelation(resp.edges, relation);
    if r.Ok? then EdgesWithRelationMeaning(resp.edges, relation); r else r
  }

  datatype EdgeListResponse = EdgeListResponse(context: seq<string>, id: string, edges: seq<Json>,
                                               view: Option<ViewInfo>)

  /** `'@id' in node and node['@id']`: the id of a node that has one; the
    * membership test raises on a scalar and the lookup on a string or list. */
  function NodeId(node: Json): (r: Result<Option<Json>>)
    ensures node.Obj? ==> r == Ok(if "@id" in node.fields then Some(node.fields["@id"]) else None)
  {
    var present :- Processor.MemberOf("@id", node);
    if !present then Ok(None)
    else if !node.Obj? then Err(TypeErr)
    else Ok(Some(node.fields["@id"]))
  }

  /** `if side in edge and '@id' in edge[side]: concepts.add(edge[side]['@id'])`. */
  function AddSideId(concepts: set<Json>, edge: Json, side: string): Result<set<Json>>
  {
    var has :- Processor.MemberOf(side, edge);
    if !has then Ok(concepts)
    else if !edge.Obj? then Err(TypeErr)
    else
      var id :- NodeId(edge.fields[side]);
      if id.None? then Ok(concepts)
      else if !Hashable(id.value) then Err(TypeErr)
      else Ok(concepts + {id.value})
  }

  /** One turn of the collecting loop: the start's id, then the end's. */
  function ConceptIdStep(concepts: set<Json>, edge: Json): Result<set<Json>>
  {
    var withStart :- AddSideId(concepts, edge, "start");
    AddSideId(withStart, edge, "end")
  }

  function ConceptIdSteps(): (set<Json>, Json) -> Result<set<Json>>
  {
    (concepts, edge) => ConceptIdStep(concepts, edge)
  }

  /** The set the collecting loop builds. */
  function UniqueConceptSet(edges: seq<Json>): Result<set<Json>>
  {
    FoldResult(edges, {}, ConceptIdSteps())
  }

  /** The id of the node on one side of a dict edge, when it has one. */
  predicate SideIdIs(e: Json, side: string, x: Json)
  {
    e.Obj? && side in e.fields && e.fields[side].Obj? && "@id" in e.fields[side].fields
    && e.fields[side].fields["@id"] == x
  }

  /** The collected set holds exactly the start and end ids of the edges. */
  lemma {:induction false} UniqueConceptSetMeaning(edges: seq<Json>)
    requires UniqueConceptSet(edges).Ok?
    ensures forall x :: x in UniqueConceptSet(edges).value <==>
      exists e :: e in edges && (SideIdIs(e, "start", x) || SideIdIs(e, "end", x))
    decreases |edges|
  {
    if edges != [] {
      var init := edges[..|edges| - 1];
      var last := edges[|edges| - 1];
      var prev := UniqueConceptSet(init);
      assert prev.Ok?;
      UniqueConceptSetMeaning(init);
      var all := UniqueConceptSet(edges).value;
      AddSideIdMeaning(prev.value, last, "start");
      var mid := AddSideId(prev.value, last, "start").value;
      AddSideIdMeaning(mid, last, "end");
      forall x ensures x in all <==> exists e :: e in edges && (SideIdIs(e, "start", x) || SideIdIs(e, "end", x)) {
        if x in all {
          if x in prev.value {
            var e :| e in init && (SideIdIs(e, "start", x) || SideIdIs(e, "end", x));
            assert e in edges;
          } else {
            assert last in edges;
          }
        } else {
          forall e | e in edges ensures !(SideIdIs(e, "start", x) || SideIdIs(e, "end", x)) {
            if e != last {
              assert e in init;
            }
          }
        }
      }
    }
  }

  /** One side adds exactly that side's id, when the edge is a dict whose
    * node is a dict. */
  lemma AddSideIdMeaning(concepts: set<Json>, edge: Json, side: string)
    requires AddSideId(concepts, edge, side).Ok?
    ensures forall x :: x in AddSideId(concepts, edge, side).value <==> x in concepts || SideIdIs(edge, side, x)
  {
    if edge.Obj? && side in edge.fields && !edge.fields[side].Obj? {
      var node := edge.fields[side];
      forall x ensures !SideIdIs(edge, side, x) {}
    }
  }

  /** Python can sort the collected ids: they are all strings, or there is
    * at most one of them. */
  predicate Sortable(concepts: set<Json>)
  {
    |concepts| <= 1 || forall x :: x in concepts ==> x.Str?
  }

  /** Strictly increasing ids: every pair of ids is a pair of strings in
    * increasing order. */
  predicate AscendingIds(ids: seq<Json>)
  {
    forall i, j :: 0 <= i < j < |ids| ==> ids[i].Str? && ids[j].Str? && StrLess(ids[i].s, ids[j].s)
  }

  /** `get_unique_concepts()`: the loop that collects the start and end ids
    * into a set, then `sorted(list(concepts))`. */
  method GetUniqueConcepts(resp: EdgeListResponse) returns (r: Result<seq<Json>>)
    ensures UniqueConceptSet(resp.edges).Err? ==> r == Err(UniqueConceptSet(resp.edges).error)
    ensures UniqueConceptSet(resp.edges).Ok? ==>
      var concepts := UniqueConceptSet(resp.edges).value;
      (r.Ok? <==> Sortable(concepts))
      && (r.Err? ==> r.error == TypeErr)
      && (r.Ok? ==> (forall x :: x in r.value <==> x in concepts) && AscendingIds(r.value))
  {
    var concepts := CollectConceptIds(resp.edges);
    if concepts.Err? {
      return Err(concepts.error);
    }
    r := SortedIds(concepts.value);
  }

  /** The collecting loop of get_unique_concepts: the ids of both ends of
    * every edge, or the failure of the first edge that is not a dict. */
  method CollectConceptIds(edges: seq<Json>) returns (r: Result<set<Json>>)
    ensures r == UniqueConceptSet(edges)
  {
    var concepts: set<Json> := {};
    var i := 0;
    while i < |edges|
      invariant 0 <= i <= |edges|
      invariant FoldResult(edges[..i], {}, ConceptIdSteps()) == Ok(concepts)
    {
      assert edges[..i + 1][..i] == edges[..i];
      var next := ConceptIdStep(concepts, edges[i]);
      if next.Err? {
        FoldResultErrExtends(edges, i + 1, {}, ConceptIdSteps());
        return Err(next.error);
      }
      concepts := next.value;
      i := i + 1;
    }
    assert edges[..i] == edges;
    return Ok(concepts);
  }

  /** `sorted(list(concepts))` for the collected set. */
  method SortedIds(concepts: set<Json>) returns (r: Result<seq<Json>>)
    ensures r.Ok? <==> Sortable(concepts)
    ensures r.Err? ==> r.error == TypeErr
    ensures r.Ok? ==> (forall x :: x in r.value <==> x in concepts) && AscendingIds(r.value)
  {
    if exists x :: x in concepts && !x.Str? {
      if |concepts| >= 2 {
        return Err(TypeErr);
      }
      var x :| x in concepts;
      assert |concepts - {x}| == 0;
      assert concepts == {x};
      return Ok([x]);
    }
    var pending := concepts;
    var sorted: seq<string> := [];
    while pending != {}
      invariant pending <= concepts
      invariant StrictlyAscending(sorted)
      invariant forall y :: y in sorted <==> Str(y) in concepts && Str(y) !in pending
      decreases |pending|
    {
      var x :| x in pending;
      assert x.Str?;
      InsertStringAscending(x.s, sorted);
      sorted := InsertString(x.s, sorted);
      pending := pending - {x};
    }
    var ids := seq(|sorted|, k requires 0 <= k < |sorted| => Str(sorted[k]));
    forall x ensures x in ids <==> x in concepts {
      if x in concepts {
        assert x.Str? && x.s in sorted;
        var k :| 0 <= k < |sorted| && sorted[k] == x.s;
        assert ids[k] == x;
      }
    }
    return Ok(ids);
  }

  // ---------------------------------------------------------------------
  // RelatedConceptsResponse
  // ---------------------------------------------------------------------

  /** `get_top_related(n)`: the related concepts sorted by weight (0 when
    * absent), highest first, cut to the first `n` (a negative `n` drops
    * that many from the end). */
  function GetTopRelated(related: seq<Json>, n: int): (r: Result<seq<Json>>)
    ensures r.Err? <==> Processor.SortEdgesByWeight(related, true).Err?
    ensures r.Ok? ==> && |r.value| <= |Processor.SortEdgesByWeight(related, true).value|
                      && r.value == Processor.SortEdgesByWeight(related, true).value[..|r.value|]
    ensures r.Ok? ==> |r.value| == if n >= |related| then |related| else if n >= 0 then n
                                    else if |related| + n >= 0 then |related| + n else 0
    ensures r.Ok? ==> SortedBy(r.value, Processor.WeightKey, true)
    ensures r.Ok? ==> multiset(r.value) <= multiset(related)
    ensures r.Ok? ==> forall x, y :: x in r.value && y in multiset(related) - multiset(r.value) ==>
                        Processor.WeightKey(x) >= Processor.WeightKey(y)
  {
    var sorted :- Processor.SortEdgesByWeight(related, true);
    var top := SliceTo(sorted, n);
    TopIsPrefix(sorted, top);
    Ok(top)
  }

  /** A prefix of a sequence sorted highest first is sorted, and no element
    * left out outweighs one kept. */
  lemma TopIsPrefix(sorted: seq<Json>, top: seq<Json>)
    requires SortedBy(sorted, Processor.WeightKey, true)
    requires |top| <= |sorted| && top == sorted[..|top|]
    ensures SortedBy(top, Processor.WeightKey, true)
    ensures multiset(top) <= multiset(sorted)
    ensures forall x, y :: x in top && y in multiset(sorted) - multiset(top) ==>
              Processor.WeightKey(x) >= Processor.WeightKey(y)
  {
    var rest := sorted[|top|..];
    assert sorted == top + rest;
    assert multiset(sorted) == multiset(top) + multiset(rest);
    forall x, y | x in top && y in multiset(sorted) - multiset(top)
      ensures Processor.WeightKey(x) >= Processor.WeightKey(y)
    {
      assert y in multiset(rest);
      assert y in rest;
      var i :| 0 <= i < |top| && top[i] == x;
      var j :| 0 <= j < |rest| && rest[j] == y;
      assert sorted[i] == x && sorted[|top| + j] == y;
    }
  }

  // ---------------------------------------------------------------------
  // RelatednessResponse
  // ---------------------------------------------------------------------

  datatype RelatednessResponse = RelatednessResponse(value: real, concept1: string, concept2: string)
  {
    /** `is_strong_relationship`: a score above 0.5. */
    predicate IsStrong() { value > 0.5 }
    /** `is_weak_relationship`: a score below 0.2. */
    predicate IsWeak() { value < 0.2 }
  }

  /** Constructing a `RelatednessResponse`: the score lies in [0, 1]. */
  function NewRelatednessResponse(value: real, concept1: string, concept2: string): (r: Result<RelatednessResponse>)
    ensures r.Ok? <==> 0.0 <= value <= 1.0
    ensures r.Ok? ==> r.value == RelatednessResponse(value, concept1, concept2)
  {
    if value < 0.0 || value > 1.0 then Err(Pydantic("value"))
    else Ok(RelatednessResponse(value, concept1, concept2))
  }

  /** `get_relationship_strength()`: five bands with lower bounds 0.8, 0.6,
    * 0.4 and 0.2. */
  function RelationshipStrength(resp: RelatednessResponse): (r: string)
    ensures r in {"very strong", "strong", "moderate", "weak", "very weak"}
  {
    if resp.value >= 0.8 then "very strong"
    else if resp.value >= 0.6 then "strong"
    else if resp.value >= 0.4 then "moderate"
    else if resp.value >= 0.2 then "weak"
    else "very weak"
  }

  /** The bands agree with the two flags: a weak relationship is exactly the
    * lowest band, and a strong one is at least moderate. */
  lemma StrengthAgreesWithFlags(resp: RelatednessResponse)
    ensures resp.IsWeak() <==> RelationshipStrength(resp) == "very weak"
    ensures resp.IsStrong() ==> RelationshipStrength(resp) in {"very strong", "strong", "moderate"}
    ensures RelationshipStrength(resp) in {"very strong", "strong"} ==> resp.IsStrong()
    ensures !(resp.IsStrong() && resp.IsWeak())
  {
  }

  // ---------------------------------------------------------------------
  // ErrorResponse
  // ---------------------------------------------------------------------

  datatype ErrorResponse = ErrorResponse(error: string, message: string, details: Option<Json>,
                                         statusCode: Option<int>)
  {
    /** `is_client_error`: a status in [400, 500). */
    predicate IsClientError() { statusCode.Some? && 400 <= statusCode.value < 500 }
    /** `is_server_error`: a status in [500, 600). */
    predicate IsServerError() { statusCode.Some? && 500 <= statusCode.value < 600 }
  }

  /** An error response is never both, and its flags agree with the code
    * that ConceptNetAPIError derives from the same status. */
  lemma ErrorFlagsAgreeWithApiCode(e: ErrorResponse)
    ensures !(e.IsClientError() && e.IsServerError())
    ensures e.statusCode.None? ==> !e.IsClientError() && !e.IsServerError()
    ensures e.IsServerError() <==> ApiErrorCode(e.statusCode) == ApiServerError
    ensures e.IsClientError() <==> ApiErrorCode(e.statusCode) in {ApiClientError, ApiRateLimitError}
  {
  }
}
