/** The compiled graph as an executor: starting at the entry point with only
    the question set, run the current node, stream its update, merge it into
    the state and follow the outgoing edge, until END. */
module Driver {
  import opened State
  import opened Grading
  import opened Nodes
  import opened Graph

  /** A run with `events` streamed before its own events. */
  function Prepend(events: seq<Event>, r: Run): Run
  {
    Run(events + r.events, r.outcome)
  }

  /** Streaming `events` and then a run that starts with `e` is streaming
      `events + [e]` and then the rest of that run. */
  lemma PrependThen(events: seq<Event>, e: Event, r: Run)
    ensures Prepend(events, Then(e, r)) == Prepend(events + [e], r)
  {
  }

  /** One traversal for `question`: the streamed events and how it ended. It
      is the graph's traversal from the entry point, so it stops after at
      most 5 retrieve visits, 4 transform_query visits and 3 rewriter calls
      (including one that raised),
      and, when it reaches END, it has generated exactly once, last, an
      answer to its final question from what grading kept. */
  method Invoke(o: Oracles, question: string) returns (outcome: Outcome, events: seq<Event>)
    ensures Run(events, outcome) == Execute(o, question)
    ensures Visits(events, RetrieveNode) <= MaxReformulations + 2
    ensures Visits(events, TransformQueryNode) <= MaxReformulations + 1
    ensures RewriterAttempts(Run(events, outcome)) <= MaxReformulations
    ensures Visits(events, GenerateNode) == (if outcome.Answered? then 1 else 0)
    ensures outcome.Answered? ==> Answers(o, outcome.final)
    ensures Reliable(o) ==> outcome.Answered?
  {
    ghost var full := Execute(o, question);
    ExecuteTerminates(o, question);
    ExecuteAnswers(o, question);
    var phase := RetrievePhase;
    var state := Initial(question);
    events := [];
    while phase != Done
      invariant Reachable(phase, state)
      invariant Prepend(events, Resume(o, phase, state)) == full
      decreases MaxReformulations + 2 - CountOf(state), Rank(phase)
    {
      match phase {
        case RetrievePhase =>
          var r := Retrieve(o, state);
          if r.None? {
            outcome := Aborted(RetrieveNode);
            assert events + [] == events;
            return;
          }
          PrependThen(events, Event(RetrieveNode, r.value), Resume(o, GradePhase, Merge(state, r.value)));
          events := events + [Event(RetrieveNode, r.value)];
          state := Merge(state, r.value);
          phase := GradePhase;
        case GradePhase =>
          var u := GradeDocuments(o, state);
          PrependThen(events, Event(GradeDocumentsNode, u), Resume(o, RoutePhase, Merge(state, u)));
          events := events + [Event(GradeDocumentsNode, u)];
          state := Merge(state, u);
          phase := RoutePhase;
        case RoutePhase =>
          if DecideToGenerate(state) == ToTransformQuery {
            phase := TransformPhase;
          } else {
            phase := GeneratePhase;
          }
        case TransformPhase =>
          var r := TransformQuery(o, state);
          if r.None? {
            outcome := Aborted(TransformQueryNode);
            assert events + [] == events;
            return;
          }
          PrependThen(events, Event(TransformQueryNode, r.value), Resume(o, RetrievePhase, Merge(state, r.value)));
          events := events + [Event(TransformQueryNode, r.value)];
          state := Merge(state, r.value);
          phase := RetrievePhase;
        case GeneratePhase =>
          var r := Generate(o, state);
          if r.None? {
            outcome := Aborted(GenerateNode);
            assert events + [] == events;
            return;
          }
          PrependThen(events, Event(GenerateNode, r.value), Resume(o, Done, Merge(state, r.value)));
          events := events + [Event(GenerateNode, r.value)];
          state := Merge(state, r.value);
          phase := Done;
      }
    }
    outcome := Answered(state);
    assert events + [] == events;
  }
}
