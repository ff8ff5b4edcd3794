/** The compiled graph of get_graph in src/agent.py: entry point `retrieve`,
    the edges retrieve -> grade_documents, transform_query -> retrieve,
    generate -> END, and the conditional edge after grading. A traversal is
    described by the events it streams (one per node visit, with the node's
    update) and how it ends. */
module Graph {
  import opened State
  import opened Grading
  import opened Nodes

  /** Where the traversal stands: before a node runs, at the router, or at END. */
  datatype Phase = RetrievePhase | GradePhase | RoutePhase | TransformPhase | GeneratePhase | Done

  datatype NodeName = RetrieveNode | GradeDocumentsNode | TransformQueryNode | GenerateNode

  /** One streamed step: the node that ran and the update it returned. */
  datatype Event = Event(node: NodeName, update: Update)

  /** A traversal reaches END with the final state, or is aborted by a node
      whose collaborator raised. */
  datatype Outcome = Answered(final: GraphState) | Aborted(failed: NodeName)

  datatype Run = Run(events: seq<Event>, outcome: Outcome)

  /** Order of the phases along the edges that do not close the loop. */
  function Rank(phase: Phase): nat
  {
    match phase
    case RetrievePhase => 4
    case GradePhase => 3
    case RoutePhase => 2
    case TransformPhase => 1
    case GeneratePhase => 1
    case Done => 0
  }

  /** What holds of every state a traversal from the entry point passes
      through: the counter is at most one past the bound, and at most the
      bound when transform_query is about to run. */
  predicate Reachable(phase: Phase, s: GraphState)
  {
    CountOf(s) <= MaxReformulations + 1 &&
    (phase == TransformPhase ==> CountOf(s) <= MaxReformulations)
  }

  function Then(e: Event, r: Run): Run
  {
    Run([e] + r.events, r.outcome)
  }

  /** The rest of the traversal from `phase` with state `s`: each node's
      update is merged into the state and streamed, then the graph follows
      the node's outgoing edge. */
  function Resume(o: Oracles, phase: Phase, s: GraphState): Run
    requires Reachable(phase, s)
    decreases MaxReformulations + 2 - CountOf(s), Rank(phase)
  {
    match phase
    case RetrievePhase =>
      (match Retrieve(o, s)
       case None => Run([], Aborted(RetrieveNode))
       case Some(u) => Then(Event(RetrieveNode, u), Resume(o, GradePhase, Merge(s, u))))
    case GradePhase =>
      var u := GradedUpdate(o, s);
      Then(Event(GradeDocumentsNode, u), Resume(o, RoutePhase, Merge(s, u)))
    case RoutePhase =>
      if DecideToGenerate(s) == ToTransformQuery then Resume(o, TransformPhase, s)
      else Resume(o, GeneratePhase, s)
    case TransformPhase =>
      (match TransformQuery(o, s)
       case None => Run([], Aborted(TransformQueryNode))
       case Some(u) => Then(Event(TransformQueryNode, u), Resume(o, RetrievePhase, Merge(s, u))))
    case GeneratePhase =>
      (match Generate(o, s)
       case None => Run([], Aborted(GenerateNode))
       case Some(u) => Then(Event(GenerateNode, u), Resume(o, Done, Merge(s, u))))
    case Done =>
      Run([], Answered(s))
  }

  /** The whole traversal for one question, from the entry point. */
  function Execute(o: Oracles, question: string): Run
  {
    Resume(o, RetrievePhase, Initial(question))
  }

  /** How many of `events` are visits to `node`. */
  function Visits(events: seq<Event>, node: NodeName): nat
  {
    if events == [] then 0
    else (if events[0].node == node then 1 else 0) + Visits(events[1..], node)
  }

  /** How many of `events` are successful rewrites: transform_query visits
      whose new counter is within the bound, so the rewriter was called and
      answered. */
  function RewriterCalls(events: seq<Event>): nat
  {
    if events == [] then 0
    else (if events[0].node == TransformQueryNode && events[0].update.reformulatedCount.Some?
             && events[0].update.reformulatedCount.value <= MaxReformulations then 1 else 0)
         + RewriterCalls(events[1..])
  }

  /** Every rewriter call of a run: the successful rewrites, plus the call
      that raised when the run was aborted by transform_query. */
  function RewriterAttempts(r: Run): nat
  {
    RewriterCalls(r.events) + (if r.outcome == Aborted(TransformQueryNode) then 1 else 0)
  }

  /** The node names of `events`, in order. */
  function NodesOf(events: seq<Event>): seq<NodeName>
  {
    if events == [] then [] else [events[0].node] + NodesOf(events[1..])
  }

  /** Starting from counter `c`, every transform_query event sets the counter
      to one more than the previous value and no other event sets it. */
  predicate CounterSteps(events: seq<Event>, c: nat)
  {
    if events == [] then true
    else if events[0].node == TransformQueryNode then
      events[0].update.reformulatedCount == Some(c + 1) && CounterSteps(events[1..], c + 1)
    else
      events[0].update.reformulatedCount == None && CounterSteps(events[1..], c)
  }

  /** Every collaborator that can raise answers on every input. */
  ghost predicate Reliable(o: Oracles)
  {
    (forall q :: o.retriever(q).Some?) &&
    (forall q :: o.rewriter(q).Some?) &&
    (forall q, docs :: o.generator(q, docs).Some?)
  }

  /** The grading chain keeps no document at all. */
  ghost predicate NeverRelevant(o: Oracles)
  {
    forall q, d :: !Keeps(o.grader, q, d)
  }

  /** The final state of a traversal that reached END: the answer is the
      generator's output for the final question and documents, those
      documents are what grading kept of what the retriever returned for that
      question, and the router chose to generate. */
  predicate Answers(o: Oracles, f: GraphState)
  {
    o.retriever(f.question).Some? &&
    f.documents == Relevant(o.grader, f.question, o.retriever(f.question).value) &&
    DecideToGenerate(f) == ToGenerate &&
    f.generation.Some? &&
    f.generation == o.generator(f.question, f.documents)
  }

  /** What a traversal from the entry point knows about the state at `phase`. */
  predicate OnTrack(o: Oracles, phase: Phase, s: GraphState)
  {
    match phase
    case RetrievePhase => true
    case TransformPhase => true
    case GradePhase => o.retriever(s.question) == Some(s.documents)
    case RoutePhase =>
      o.retriever(s.question).Some? &&
      s.documents == Relevant(o.grader, s.question, o.retriever(s.question).value)
    case GeneratePhase =>
      o.retriever(s.question).Some? &&
      s.documents == Relevant(o.grader, s.question, o.retriever(s.question).value) &&
      DecideToGenerate(s) == ToGenerate
    case Done => Answers(o, s)
  }

  /** The most retrieve visits left from `phase` with counter `c`. */
  function RetrievesLeft(phase: Phase, c: nat): nat
    requires c <= MaxReformulations + 1
  {
    match phase
    case RetrievePhase => MaxReformulations + 2 - c
    case GradePhase => MaxReformulations + 1 - c
    case RoutePhase => MaxReformulations + 1 - c
    case TransformPhase => MaxReformulations + 1 - c
    case GeneratePhase => 0
    case Done => 0
  }

  /** The most transform_query visits left from `phase` with counter `c`. */
  function TransformsLeft(phase: Phase, c: nat): nat
    requires c <= MaxReformulations + 1
  {
    if phase == GeneratePhase || phase == Done then 0 else MaxReformulations + 1 - c
  }

  /** The most rewriter calls left from `phase` with counter `c`. */
  function RewritesLeft(phase: Phase, c: nat): nat
  {
    if phase == GeneratePhase || phase == Done || c > MaxReformulations then 0
    else MaxReformulations - c
  }

  /** Prefixing an event to a run: the event comes first, then the run's
      own events. */
  lemma ThenEvents(e: Event, r: Run)
    ensures Then(e, r).events != [] && Then(e, r).events[0] == e
    ensures Then(e, r).events[1..] == r.events
  {
  }

  /** Termination bounds: from any reachable point, the traversal makes at
      most the budgeted number of retrieve visits, transform_query visits and
      rewriter calls, counting a call that raised. */
  lemma {:induction false} ResumeBounds(o: Oracles, phase: Phase, s: GraphState)
    requires Reachable(phase, s)
    ensures Visits(Resume(o, phase, s).events, RetrieveNode) <= RetrievesLeft(phase, CountOf(s))
    ensures Visits(Resume(o, phase, s).events, TransformQueryNode) <= TransformsLeft(phase, CountOf(s))
    ensures RewriterAttempts(Resume(o, phase, s)) <= RewritesLeft(phase, CountOf(s))
    decreases MaxReformulations + 2 - CountOf(s), Rank(phase)
  {
    match phase
    case RetrievePhase =>
      match Retrieve(o, s) {
        case None =>
        case Some(u) =>
          ResumeBounds(o, GradePhase, Merge(s, u));
          ThenEvents(Event(RetrieveNode, u), Resume(o, GradePhase, Merge(s, u)));
      }
    case GradePhase =>
      var u := GradedUpdate(o, s);
      ResumeBounds(o, RoutePhase, Merge(s, u));
      ThenEvents(Event(GradeDocumentsNode, u), Resume(o, RoutePhase, Merge(s, u)));
    case RoutePhase =>
      if DecideToGenerate(s) == ToTransformQuery {
        ResumeBounds(o, TransformPhase, s);
      } else {
        ResumeBounds(o, GeneratePhase, s);
      }
    case TransformPhase =>
      match TransformQuery(o, s) {
        case None =>
        case Some(u) =>
          ResumeBounds(o, RetrievePhase, Merge(s, u));
          ThenEvents(Event(TransformQueryNode, u), Resume(o, RetrievePhase, Merge(s, u)));
      }
    case GeneratePhase =>
      match Generate(o, s) {
        case None =>
        case Some(u) =>
          ThenEvents(Event(GenerateNode, u), Resume(o, Done, Merge(s, u)));
          var r := Resume(o, GeneratePhase, s);
          assert r == Then(Event(GenerateNode, u), Run([], Answered(Merge(s, u))));
          assert r.events[1..] == [];
          assert RewriterCalls(r.events) == 0;
      }
    case Done =>
  }

  /** A traversal that reaches END does so through exactly one generate
      visit, which is its last event; an aborted one never generates. */
  lemma {:induction false} ResumeGeneratesOnce(o: Oracles, phase: Phase, s: GraphState)
    requires Reachable(phase, s) && phase != Done
    ensures var r := Resume(o, phase, s);
      Visits(r.events, GenerateNode) == (if r.outcome.Answered? then 1 else 0) &&
      (r.outcome.Answered? ==> r.events != [] && r.events[|r.events| - 1].node == GenerateNode)
    decreases MaxReformulations + 2 - CountOf(s), Rank(phase)
  {
    match phase
    case RetrievePhase =>
      match Retrieve(o, s) {
        case None =>
        case Some(u) =>
          ResumeGeneratesOnce(o, GradePhase, Merge(s, u));
          ThenEvents(Event(RetrieveNode, u), Resume(o, GradePhase, Merge(s, u)));
      }
    case GradePhase =>
      var u := GradedUpdate(o, s);
      ResumeGeneratesOnce(o, RoutePhase, Merge(s, u));
      ThenEvents(Event(GradeDocumentsNode, u), Resume(o, RoutePhase, Merge(s, u)));
    case RoutePhase =>
      if DecideToGenerate(s) == ToTransformQuery {
        ResumeGeneratesOnce(o, TransformPhase, s);
      } else {
        ResumeGeneratesOnce(o, GeneratePhase, s);
      }
    case TransformPhase =>
      match TransformQuery(o, s) {
        case None =>
        case Some(u) =>
          ResumeGeneratesOnce(o, RetrievePhase, Merge(s, u));
          ThenEvents(Event(TransformQueryNode, u), Resume(o, RetrievePhase, Merge(s, u)));
      }
    case GeneratePhase =>
      match Generate(o, s) {
        case None =>
        case Some(u) =>
          ThenEvents(Event(GenerateNode, u), Resume(o, Done, Merge(s, u)));
      }
  }

  /** Only transform_query writes the counter, always one more than before,
      so the counter never decreases; at END it has grown by the number of
      transform_query visits. */
  lemma {:induction false} ResumeCounter(o: Oracles, phase: Phase, s: GraphState)
    requires Reachable(phase, s)
    ensures var r := Resume(o, phase, s);
      CounterSteps(r.events, CountOf(s)) &&
      (r.outcome.Answered? ==>
         CountOf(r.outcome.final) == CountOf(s) + Visits(r.events, TransformQueryNode))
    decreases MaxReformulations + 2 - CountOf(s), Rank(phase)
  {
    match phase
    case RetrievePhase =>
      match Retrieve(o, s) {
        case None =>
        case Some(u) =>
          ResumeCounter(o, GradePhase, Merge(s, u));
          ThenEvents(Event(RetrieveNode, u), Resume(o, GradePhase, Merge(s, u)));
      }
    case GradePhase =>
      var u := GradedUpdate(o, s);
      ResumeCounter(o, RoutePhase, Merge(s, u));
      ThenEvents(Event(GradeDocumentsNode, u), Resume(o, RoutePhase, Merge(s, u)));
    case RoutePhase =>
      if DecideToGenerate(s) == ToTransformQuery {
        ResumeCounter(o, TransformPhase, s);
      } else {
        ResumeCounter(o, GeneratePhase, s);
      }
    case TransformPhase =>
      match TransformQuery(o, s) {
        case None =>
        case Some(u) =>
          ResumeCounter(o, RetrievePhase, Merge(s, u));
          ThenEvents(Event(TransformQueryNode, u), Resume(o, RetrievePhase, Merge(s, u)));
      }
    case GeneratePhase =>
      match Generate(o, s) {
        case None =>
        case Some(u) =>
          ThenEvents(Event(GenerateNode, u), Resume(o, Done, Merge(s, u)));
      }
    case Done =>
  }

  /** The final state of a traversal that reaches END answers the final
      question from what grading kept of its retrieval. */
  lemma {:induction false} ResumeAnswers(o: Oracles, phase: Phase, s: GraphState)
    requires Reachable(phase, s) && OnTrack(o, phase, s)
    ensures Resume(o, phase, s).outcome.Answered? ==> Answers(o, Resume(o, phase, s).outcome.final)
    decreases MaxReformulations + 2 - CountOf(s), Rank(phase)
  {
    match phase
    case RetrievePhase =>
      match Retrieve(o, s) {
        case None =>
        case Some(u) => ResumeAnswers(o, GradePhase, Merge(s, u));
      }
    case GradePhase =>
      ResumeAnswers(o, RoutePhase, Merge(s, GradedUpdate(o, s)));
    case RoutePhase =>
      if DecideToGenerate(s) == ToTransformQuery {
        ResumeAnswers(o, TransformPhase, s);
      } else {
        ResumeAnswers(o, GeneratePhase, s);
      }
    case TransformPhase =>
      match TransformQuery(o, s) {
        case None =>
        case Some(u) => ResumeAnswers(o, RetrievePhase, Merge(s, u));
      }
    case GeneratePhase =>
      match Generate(o, s) {
        case None =>
        case Some(u) => ResumeAnswers(o, Done, Merge(s, u));
      }
    case Done =>
  }

  /** With collaborators that never raise, every traversal reaches END. */
  lemma {:induction false} ResumeReliable(o: Oracles, phase: Phase, s: GraphState)
    requires Reachable(phase, s) && Reliable(o)
    ensures Resume(o, phase, s).outcome.Answered?
    decreases MaxReformulations + 2 - CountOf(s), Rank(phase)
  {
    match phase
    case RetrievePhase =>
      assert o.retriever(s.question).Some?;
      ResumeReliable(o, GradePhase, Merge(s, Retrieve(o, s).value));
    case GradePhase =>
      ResumeReliable(o, RoutePhase, Merge(s, GradedUpdate(o, s)));
    case RoutePhase =>
      if DecideToGenerate(s) == ToTransformQuery {
        ResumeReliable(o, TransformPhase, s);
      } else {
        ResumeReliable(o, GeneratePhase, s);
      }
    case TransformPhase =>
      assert o.rewriter(s.question).Some?;
      ResumeReliable(o, RetrievePhase, Merge(s, TransformQuery(o, s).value));
    case GeneratePhase =>
      assert o.generator(s.question, s.documents).Some?;
      ResumeReliable(o, Done, Merge(s, Generate(o, s).value));
    case Done =>
  }

  /** The worst case: when the grading chain keeps nothing and no collaborator
      raises, the traversal uses up every budget exactly and generates from
      an empty document list with the counter one past the bound. */
  lemma {:induction false} ResumeNoRelevant(o: Oracles, phase: Phase, s: GraphState)
    requires Reliable(o) && NeverRelevant(o)
    requires Reachable(phase, s)
    requires phase == RetrievePhase || phase == GradePhase || phase == TransformPhase
          || (phase == RoutePhase && s.documents == [])
    ensures var r := Resume(o, phase, s);
      Visits(r.events, RetrieveNode) == RetrievesLeft(phase, CountOf(s)) &&
      Visits(r.events, TransformQueryNode) == TransformsLeft(phase, CountOf(s)) &&
      RewriterCalls(r.events) == RewritesLeft(phase, CountOf(s)) &&
      r.outcome.Answered? && r.outcome.final.documents == [] &&
      CountOf(r.outcome.final) == MaxReformulations + 1
    decreases MaxReformulations + 2 - CountOf(s), Rank(phase)
  {
    match phase
    case RetrievePhase =>
      assert o.retriever(s.question).Some?;
      var u := Retrieve(o, s).value;
      ResumeNoRelevant(o, GradePhase, Merge(s, u));
      ThenEvents(Event(RetrieveNode, u), Resume(o, GradePhase, Merge(s, u)));
    case GradePhase =>
      var u := GradedUpdate(o, s);
      NothingRelevant(o.grader, s.question, s.documents);
      assert Relevant(o.grader, s.question, s.documents) == [];
      ResumeNoRelevant(o, RoutePhase, Merge(s, u));
      ThenEvents(Event(GradeDocumentsNode, u), Resume(o, RoutePhase, Merge(s, u)));
    case RoutePhase =>
      if CountOf(s) <= MaxReformulations {
        ResumeNoRelevant(o, TransformPhase, s);
      } else {
        assert o.generator(s.question, s.documents).Some?;
        var u := Generate(o, s).value;
        ThenEvents(Event(GenerateNode, u), Resume(o, Done, Merge(s, u)));
      }
    case TransformPhase =>
      assert o.rewriter(s.question).Some?;
      var u := TransformQuery(o, s).value;
      ResumeNoRelevant(o, RetrievePhase, Merge(s, u));
      ThenEvents(Event(TransformQueryNode, u), Resume(o, RetrievePhase, Merge(s, u)));
  }

  /** From the entry point: at most 5 retrieve visits, 4 transform_query
      visits and 3 rewriter calls (including one that raised); exactly one generate visit, the last event,
      when END is reached; END is always reached when no collaborator raises;
      the counter only moves up by one per transform_query visit. */
  lemma ExecuteTerminates(o: Oracles, question: string)
    ensures var r := Execute(o, question);
      Visits(r.events, RetrieveNode) <= MaxReformulations + 2 &&
      Visits(r.events, TransformQueryNode) <= MaxReformulations + 1 &&
      RewriterAttempts(r) <= MaxReformulations &&
      Visits(r.events, GenerateNode) == (if r.outcome.Answered? then 1 else 0) &&
      (r.outcome.Answered? ==> r.events[|r.events| - 1].node == GenerateNode) &&
      (Reliable(o) ==> r.outcome.Answered?) &&
      CounterSteps(r.events, 0)
  {
    var s := Initial(question);
    ResumeBounds(o, RetrievePhase, s);
    ResumeGeneratesOnce(o, RetrievePhase, s);
    ResumeCounter(o, RetrievePhase, s);
    if Reliable(o) {
      ResumeReliable(o, RetrievePhase, s);
    }
  }

  /** From the entry point, a traversal that reaches END answers its final
      question from the relevant part of that question's retrieval. */
  lemma ExecuteAnswers(o: Oracles, question: string)
    ensures Execute(o, question).outcome.Answered? ==> Answers(o, Execute(o, question).outcome.final)
  {
    ResumeAnswers(o, RetrievePhase, Initial(question));
  }

  /** If the first grading pass keeps a document, the traversal goes straight
      to generate: retrieve, grade_documents, generate, with the counter still
      absent and the documents exactly the grading chain's output. */
  lemma FirstPassRelevant(o: Oracles, question: string)
    requires o.retriever(question).Some?
    requires Relevant(o.grader, question, o.retriever(question).value) != []
    ensures var docs := Relevant(o.grader, question, o.retriever(question).value);
      var r := Execute(o, question);
      NodesOf(r.events) == [RetrieveNode, GradeDocumentsNode]
        + (if o.generator(question, docs).Some? then [GenerateNode] else []) &&
      (r.outcome.Answered? <==> o.generator(question, docs).Some?) &&
      (r.outcome.Answered? ==>
         r.outcome.final == GraphState(question, o.generator(question, docs), docs, None))
  {
    var s0 := Initial(question);
    var u1 := Retrieve(o, s0).value;
    var s1 := Merge(s0, u1);
    var u2 := GradedUpdate(o, s1);
    var s2 := Merge(s1, u2);
    var docs := Relevant(o.grader, question, o.retriever(question).value);
    assert s2 == GraphState(question, None, docs, None);
    var tail := Resume(o, GeneratePhase, s2);
    assert Resume(o, RoutePhase, s2) == tail;
    var afterGrade := Then(Event(GradeDocumentsNode, u2), tail);
    assert Resume(o, GradePhase, s1) == afterGrade;
    assert Execute(o, question) == Then(Event(RetrieveNode, u1), afterGrade);
    ThenEvents(Event(RetrieveNode, u1), afterGrade);
    ThenEvents(Event(GradeDocumentsNode, u2), tail);
    match Generate(o, s2) {
      case None =>
        assert NodesOf(afterGrade.events) == [GradeDocumentsNode] + NodesOf(tail.events);
      case Some(u3) =>
        ThenEvents(Event(GenerateNode, u3), Resume(o, Done, Merge(s2, u3)));
        assert NodesOf(tail.events) == [GenerateNode];
    }
  }

  /** When the grading chain keeps nothing and no collaborator raises, the traversal
      makes 5 retrieve visits, 4 transform_query visits (the last one past
      the bound, without a rewrite) and 3 rewriter calls, then generates from
      an empty document list with the counter at 4. */
  lemma NoRelevantDocuments(o: Oracles, question: string)
    requires Reliable(o) && NeverRelevant(o)
    ensures var r := Execute(o, question);
      Visits(r.events, RetrieveNode) == MaxReformulations + 2 &&
      Visits(r.events, TransformQueryNode) == MaxReformulations + 1 &&
      RewriterCalls(r.events) == MaxReformulations &&
      r.outcome.Answered? && r.outcome.final.documents == [] &&
      r.outcome.final.reformulatedCount == Some(MaxReformulations + 1)
  {
    ResumeNoRelevant(o, RetrievePhase, Initial(question));
  }
}
