/** The shared record of one question's traversal (GraphState in src/agent.py)
    and the partial updates that each graph node returns and that the graph
    merges into it. */
module State {

  /** The conventional optional value; `None` also stands for a key that is
      absent from the state dictionary or from a node's returned update. */
  datatype Option<+T> = None | Some(value: T)

  /** A retrieved chunk: its text and its metadata (the page locator among others). */
  datatype Doc = Doc(pageContent: string, metadata: map<string, string>)

  /** The graph state. `generation` and `reformulatedCount` are absent until a
      node writes them; `documents` is always written by the retriever before
      any node reads it, so its initial absence is modelled as the empty list. */
  datatype GraphState = GraphState(
    question: string,
    generation: Option<string>,
    documents: seq<Doc>,
    reformulatedCount: Option<nat>)

  /** A node's return value: the keys it sets, each `Some`, the others `None`. */
  datatype Update = Update(
    question: Option<string>,
    generation: Option<string>,
    documents: Option<seq<Doc>>,
    reformulatedCount: Option<nat>)

  /** The counter as the nodes read it: `state.get("reformulated_count", 0)`. */
  function CountOf(s: GraphState): nat
  {
    match s.reformulatedCount
    case None => 0
    case Some(n) => n
  }

  /** The input the caller streams in: only the question is set. */
  function Initial(question: string): GraphState
  {
    GraphState(question, None, [], None)
  }

  /** The graph's merge of a node's update into the state: every key the
      update carries replaces the old value, every other key is kept. */
  function Merge(s: GraphState, u: Update): GraphState
  {
    GraphState(
      if u.question.Some? then u.question.value else s.question,
      if u.generation.Some? then u.generation else s.generation,
      if u.documents.Some? then u.documents.value else s.documents,
      if u.reformulatedCount.Some? then u.reformulatedCount else s.reformulatedCount)
  }
}
