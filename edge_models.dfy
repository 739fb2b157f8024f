/**
 * The pydantic edge models: a relation, a source and an edge between two
 * concept nodes, with their URI-prefix and weight rules and the edge's
 * helpers for the concepts it joins, its first source and its sentence.
 */
module EdgeModels {
  import opened JsonValues
  import opened Strings
  import opened Errors
  import opened ConceptModels

  datatype Relation = Relation(id: string, lbl: string)

  /** Constructing a `Relation`: the id starts with `/r/`. */
  function NewRelation(id: string, lbl: string): (r: Result<Relation>)
    ensures r.Ok? <==> StartsWith(id, "/r/")
    ensures r.Ok? ==> r.value == Relation(id, lbl)
  {
    if !StartsWith(id, "/r/") then Err(Pydantic("@id")) else Ok(Relation(id, lbl))
  }

  datatype Source = Source(id: string, contributor: Option<string>, process: Option<string>,
                           activity: Option<string>)

  /** Constructing a `Source`: the id starts with `/s/`. */
  function NewSource(id: string, contributor: Option<string>, process: Option<string>,
                     activity: Option<string>): (r: Result<Source>)
    ensures r.Ok? <==> StartsWith(id, "/s/")
    ensures r.Ok? ==> r.value == Source(id, contributor, process, activity)
  {
    if !StartsWith(id, "/s/") then Err(Pydantic("@id")) else Ok(Source(id, contributor, process, activity))
  }

  datatype Edge = Edge(
    id: string, start: ConceptNode, end: ConceptNode, rel: Relation, weight: real,
    surfaceText: Option<string>, sources: seq<Source>, license: string, dataset: string)

  /** Constructing an `Edge` from validated nodes, relation and sources: the
    * id starts with `/a/` and the weight is not negative. */
  function NewEdge(id: string, start: ConceptNode, end: ConceptNode, rel: Relation, weight: real,
                   surfaceText: Option<string>, sources: seq<Source>, license: string,
                   dataset: string): (r: Result<Edge>)
    ensures r.Ok? <==> StartsWith(id, "/a/") && weight >= 0.0
    ensures r.Ok? ==> r.value == Edge(id, start, end, rel, weight, surfaceText, sources, license, dataset)
    ensures StartsWith(id, "/a/") && weight < 0.0 ==> r == Err(Pydantic("weight"))
  {
    if !StartsWith(id, "/a/") then Err(Pydantic("@id"))
    else if weight < 0.0 then Err(Pydantic("weight"))
    else Ok(Edge(id, start, end, rel, weight, surfaceText, sources, license, dataset))
  }

  /** `involves_concept(uri)`: the concept is the start or the end. */
  predicate InvolvesConcept(e: Edge, conceptUri: string)
  {
    e.start.id == conceptUri || e.end.id == conceptUri
  }

  /** `get_other_concept(uri)`: the end for the start's URI, else the start
    * for the end's URI, else nothing. */
  function GetOtherConcept(e: Edge, conceptUri: string): (r: Option<ConceptNode>)
    ensures r.Some? <==> InvolvesConcept(e, conceptUri)
    ensures r.Some? ==> r.value == e.start || r.value == e.end
    ensures e.start.id == conceptUri ==> r == Some(e.end)
  {
    if e.start.id == conceptUri then Some(e.end)
    else if e.end.id == conceptUri then Some(e.start)
    else None
  }

  /** Going to the other concept and back returns to the concept one started
    * from, when the two ends have different URIs. */
  lemma OtherOfOther(e: Edge, conceptUri: string)
    requires InvolvesConcept(e, conceptUri) && e.start.id != e.end.id
    ensures var other := GetOtherConcept(e, conceptUri).value;
      other.id != conceptUri
      && GetOtherConcept(e, other.id).Some?
      && GetOtherConcept(e, other.id).value.id == conceptUri
  {
  }

  /** On a self-loop the other concept of either end is the end itself. */
  lemma SelfLoopOther(e: Edge)
    requires e.start.id == e.end.id
    ensures GetOtherConcept(e, e.start.id) == Some(e.end)
  {
  }

  /** `get_primary_source()`: the first source, if there is one. */
  function GetPrimarySource(e: Edge): (r: Option<Source>)
    ensures r.Some? <==> e.sources != []
    ensures r.Some? ==> r.value in e.sources && r.value == e.sources[0]
  {
    if e.sources != [] then Some(e.sources[0]) else None
  }

  /** `to_natural_language()`: the surface text when it is non-empty, else
    * `"{start label} {relation label, lower-cased} {end label}"`. */
  function ToNaturalLanguage(e: Edge): (r: string)
    ensures e.surfaceText.Some? && e.surfaceText.value != "" ==> r == e.surfaceText.value
    ensures e.surfaceText.None? || e.surfaceText.value == "" ==>
      StartsWith(r, e.start.lbl + " ") && EndsWith(r, " " + e.end.lbl)
      && |r| == |e.start.lbl| + |e.rel.lbl| + |e.end.lbl| + 2
  {
    if e.surfaceText.Some? && e.surfaceText.value != "" then e.surfaceText.value
    else
      var r := e.start.lbl + " " + Lower(e.rel.lbl) + " " + e.end.lbl;
      assert r[..|e.start.lbl + " "|] == e.start.lbl + " ";
      assert r[|r| - |" " + e.end.lbl|..] == " " + e.end.lbl;
      r
  }

  /** The generated sentence names the relation in lower case between the
    * two labels. */
  lemma NaturalLanguageMiddle(e: Edge)
    requires e.surfaceText.None? || e.surfaceText.value == ""
    ensures var r := ToNaturalLanguage(e);
      r[|e.start.lbl| + 1..|e.start.lbl| + 1 + |e.rel.lbl|] == Lower(e.rel.lbl)
  {
    var r := e.start.lbl + " " + Lower(e.rel.lbl) + " " + e.end.lbl;
    assert r[|e.start.lbl| + 1..|e.start.lbl| + 1 + |e.rel.lbl|] == Lower(e.rel.lbl);
  }
}
