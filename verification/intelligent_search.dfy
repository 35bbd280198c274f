/**
 * The intelligent-search flow: a natural-language query and a projection of
 * the documents go to an LLM flow that answers with matching document ids.
 * The flow is an opaque, fallible function.
 */
module IntelligentSearch {
  import opened Wrappers
  import opened Records

  /** `DocumentSearchSchema`: id, owner and type required; company, country, summary nullable; keywords an array. */
  datatype DocumentProjection = DocumentProjection(
    id: string,
    owner: string,
    docType: string,
    company: Option<string>,
    country: Option<string>,
    summary: Option<string>,
    keywords: seq<string>)

  datatype SearchInput = SearchInput(query: string, documents: seq<DocumentProjection>)

  datatype SearchOutput = SearchOutput(documentIds: seq<string>)

  /** The LLM flow: resolves with an output or rejects. */
  type SearchFlow = SearchInput -> Result<SearchOutput, string>

  /**
   * A stored document checked against the projection schema: rejected when a
   * required field or the keyword array is missing; a missing nullable field
   * projects to null.
   */
  function ToProjection(d: Document): (p: Option<DocumentProjection>)
    ensures p.Some? <==> d.owner.Some? && d.docType.Some? && d.keywords.Some?
    ensures p.Some? ==> p.value.id == d.id && Some(p.value.owner) == d.owner && Some(p.value.docType) == d.docType
    ensures p.Some? ==> p.value.company == d.company && p.value.country == d.country && p.value.summary == d.summary
    ensures p.Some? ==> Some(p.value.keywords) == d.keywords
  {
    if d.owner.Some? && d.docType.Some? && d.keywords.Some? then
      Some(DocumentProjection(d.id, d.owner.value, d.docType.value, d.company, d.country, d.summary, d.keywords.value))
    else None
  }

  /**
   * `intelligentSearch`: no documents means no ids, answered at once;
   * otherwise the flow's outcome, passed through untouched.
   */
  function Search(input: SearchInput, flow: SearchFlow): (r: Result<SearchOutput, string>)
    ensures |input.documents| == 0 ==> r == Success(SearchOutput([]))
    ensures |input.documents| > 0 ==> r == flow(input)
  {
    if |input.documents| == 0 then Success(SearchOutput([])) else flow(input)
  }

  /** The empty short-circuit never consults the flow: any two flows give the same answer. */
  lemma EmptyInputIgnoresFlow(input: SearchInput, flow1: SearchFlow, flow2: SearchFlow)
    requires |input.documents| == 0
    ensures Search(input, flow1) == Search(input, flow2)
    ensures Search(input, flow1).Success? && |Search(input, flow1).value.documentIds| == 0
  {
  }

  /**
   * The ids are neither re-sorted nor checked against the input: whatever ids
   * the flow answers with, including unknown ones, come back in its order.
   */
  lemma IdsPassThrough(input: SearchInput, flow: SearchFlow, ids: seq<string>)
    requires |input.documents| > 0
    requires flow(input) == Success(SearchOutput(ids))
    ensures Search(input, flow) == Success(SearchOutput(ids))
  {
  }
}
