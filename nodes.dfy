/** The four graph nodes of src/agent.py and the router, each over the shared
    state and the external collaborators it calls. */
module Nodes {
  import opened State
  import opened Grading

  /** The number of real rewrites transform_query allows; also the router's bound. */
  const MaxReformulations: nat := 3

  /** The external collaborators, as functions. `None` stands for a call that
      raised: the vector-store retriever, the rewriting chain and the answer
      chain each either answer or fail. */
  datatype Oracles = Oracles(
    retriever: string -> Option<seq<Doc>>,
    grader: Grader,
    rewriter: string -> Option<string>,
    generator: (string, seq<Doc>) -> Option<string>)

  /** The node `retrieve`: replace the documents with what the retriever
      returns for the current question; nothing else changes. */
  function Retrieve(o: Oracles, s: GraphState): (r: Option<Update>)
    ensures r.Some? <==> o.retriever(s.question).Some?
    ensures r.Some? ==> Merge(s, r.value) == s.(documents := o.retriever(s.question).value)
  {
    match o.retriever(s.question)
    case None => None
    case Some(docs) => Some(Update(Some(s.question), None, Some(docs), None))
  }

  /** The update the node `grade_documents` returns: the question and the
      documents the grading chain keeps. Only the documents change. */
  function GradedUpdate(o: Oracles, s: GraphState): (u: Update)
    ensures Merge(s, u) == s.(documents := Relevant(o.grader, s.question, s.documents))
  {
    Update(Some(s.question), None, Some(Relevant(o.grader, s.question, s.documents)), None)
  }

  /** The node `grade_documents`: grade each document in turn, keep it when
      the reply's "score" is "yes", skip it when grading raised. */
  method GradeDocuments(o: Oracles, s: GraphState) returns (u: Update)
    ensures u == GradedUpdate(o, s)
    ensures IsSubsequence(u.documents.value, s.documents)
  {
    var question := s.question;
    var documents := s.documents;
    var filtered: seq<Doc> := [];
    for i := 0 to |documents|
      invariant filtered == Relevant(o.grader, question, documents[..i])
    {
      var d := documents[i];
      RelevantAppend(o.grader, question, documents[..i], [d]);
      assert documents[..i + 1] == documents[..i] + [d];
      var reply := o.grader(question, d.pageContent);
      if reply.None? {
        continue;
      }
      if "score" !in reply.value {
        continue;
      }
      if reply.value["score"] == "yes" {
        filtered := filtered + [d];
      }
    }
    assert documents[..|documents|] == documents;
    RelevantIsSubsequence(o.grader, question, documents);
    u := Update(Some(question), None, Some(filtered), None);
  }

  /** The node `generate`: write the generator's answer for the current
      question and documents; nothing else changes. */
  function Generate(o: Oracles, s: GraphState): (r: Option<Update>)
    ensures r.Some? <==> o.generator(s.question, s.documents).Some?
    ensures r.Some? ==> Merge(s, r.value) == s.(generation := o.generator(s.question, s.documents))
  {
    match o.generator(s.question, s.documents)
    case None => None
    case Some(answer) => Some(Update(None, Some(answer), None, None))
  }

  /** transform_query calls the rewriter exactly when the incremented counter
      is still within the bound. */
  predicate InvokesRewriter(s: GraphState)
  {
    CountOf(s) + 1 <= MaxReformulations
  }

  /** The node `transform_query`: bump the counter (absent counts as 0) by one
      on every path; past the bound keep the question and do not call the
      rewriter, otherwise replace the question with the rewriter's output. */
  function TransformQuery(o: Oracles, s: GraphState): (r: Option<Update>)
    ensures r.Some? ==> Merge(s, r.value).reformulatedCount == Some(CountOf(s) + 1)
    ensures !InvokesRewriter(s) ==>
              r.Some? && Merge(s, r.value) == s.(reformulatedCount := Some(CountOf(s) + 1))
    ensures InvokesRewriter(s) ==> (r.Some? <==> o.rewriter(s.question).Some?)
    ensures InvokesRewriter(s) && r.Some? ==>
              Merge(s, r.value) == s.(question := o.rewriter(s.question).value,
                                      reformulatedCount := Some(CountOf(s) + 1))
  {
    var count := CountOf(s) + 1;
    if count > MaxReformulations then
      Some(Update(Some(s.question), None, None, Some(count)))
    else
      match o.rewriter(s.question)
      case None => None
      case Some(better) => Some(Update(Some(better), None, None, Some(count)))
  }

  /** The two targets of the conditional edge after grading. */
  datatype Route = ToTransformQuery | ToGenerate

  /** The router `decide_to_generate`: reformulate exactly when no document
      survived grading and the counter (absent counts as 0) is at most the
      bound; otherwise generate. */
  function DecideToGenerate(s: GraphState): (r: Route)
    ensures r == ToTransformQuery <==> s.documents == [] && CountOf(s) <= MaxReformulations
    ensures r == ToGenerate <==> s.documents != [] || CountOf(s) > MaxReformulations
  {
    if s.documents == [] && CountOf(s) <= MaxReformulations then ToTransformQuery
    else ToGenerate
  }
}
