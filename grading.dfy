/** Relevance grading of retrieved documents: which documents survive the
    grade_documents pass, and the properties of that filter. */
module Grading {
  import opened State

  /** The grading chain (prompt, JSON-mode model, JSON parser) applied to a
      question and a document's page content: the parsed JSON object, or
      `None` when the call or the parse raised. */
  type Grader = (string, string) -> Option<map<string, string>>

  /** A document survives when the grading chain answered and its "score" key is
      exactly "yes". */
  predicate Keeps(grader: Grader, question: string, d: Doc)
  {
    var reply := grader(question, d.pageContent);
    reply.Some? && "score" in reply.value && reply.value["score"] == "yes"
  }

  /** Grading of content `c` failed: the call or the parse raised, or the
      reply has no "score" key (the lookup raises a KeyError). */
  predicate GradingFails(grader: Grader, question: string, c: string)
  {
    var reply := grader(question, c);
    reply.None? || "score" !in reply.value
  }

  /** The documents that the grading pass keeps, in their original order. */
  function Relevant(grader: Grader, question: string, docs: seq<Doc>): (r: seq<Doc>)
    ensures |r| <= |docs|
    ensures forall d :: d in r ==> d in docs && Keeps(grader, question, d)
  {
    if docs == [] then []
    else (if Keeps(grader, question, docs[0]) then [docs[0]] else [])
         + Relevant(grader, question, docs[1..])
  }

  /** `sub` can be obtained from `s` by deleting elements, without reordering. */
  predicate IsSubsequence<T(==)>(sub: seq<T>, s: seq<T>)
  {
    if sub == [] then true
    else if s == [] then false
    else (sub[0] == s[0] && IsSubsequence(sub[1..], s[1..])) || IsSubsequence(sub, s[1..])
  }

  /** `docs` with every document whose page content is `c` removed. */
  function WithoutContent(docs: seq<Doc>, c: string): seq<Doc>
  {
    if docs == [] then []
    else (if docs[0].pageContent == c then [] else [docs[0]]) + WithoutContent(docs[1..], c)
  }

  /** Grading one list after another is grading their concatenation: each
      document is judged on its own. */
  lemma {:induction false} RelevantAppend(grader: Grader, question: string, a: seq<Doc>, b: seq<Doc>)
    ensures Relevant(grader, question, a + b)
         == Relevant(grader, question, a) + Relevant(grader, question, b)
  {
    if a == [] {
      assert a + b == b;
    } else {
      assert (a + b)[1..] == a[1..] + b;
      RelevantAppend(grader, question, a[1..], b);
    }
  }

  /** The surviving documents keep the retriever's relative order. */
  lemma {:induction false} RelevantIsSubsequence(grader: Grader, question: string, docs: seq<Doc>)
    ensures IsSubsequence(Relevant(grader, question, docs), docs)
  {
    if docs != [] {
      var rest := Relevant(grader, question, docs[1..]);
      RelevantIsSubsequence(grader, question, docs[1..]);
      if Keeps(grader, question, docs[0]) {
        assert Relevant(grader, question, docs) == [docs[0]] + rest;
        assert ([docs[0]] + rest)[1..] == rest;
      } else {
        assert Relevant(grader, question, docs) == rest;
      }
    }
  }

  /** Exactly the kept documents survive, each as many times as it was
      retrieved; every other document disappears. */
  lemma {:induction false} RelevantCount(grader: Grader, question: string, docs: seq<Doc>, d: Doc)
    ensures multiset(Relevant(grader, question, docs))[d]
         == if Keeps(grader, question, d) then multiset(docs)[d] else 0
  {
    if docs != [] {
      RelevantCount(grader, question, docs[1..], d);
      assert docs == [docs[0]] + docs[1..];
    }
  }

  /** Nothing survives grading exactly when none of the documents is kept. */
  lemma {:induction false} NothingRelevant(grader: Grader, question: string, docs: seq<Doc>)
    ensures Relevant(grader, question, docs) == []
        <==> forall d :: d in docs ==> !Keeps(grader, question, d)
  {
    if docs != [] {
      NothingRelevant(grader, question, docs[1..]);
      assert docs[0] in docs;
      assert forall d :: d in docs <==> d == docs[0] || d in docs[1..];
    }
  }

  /** Failure isolation: if grading content `c` fails under `failing` and the
      two grading chains agree on every other content, the failing pass keeps the
      same documents as the other one except those with content `c`. */
  lemma {:induction false} GradingFailureIsolated(
    grader: Grader, failing: Grader, question: string, c: string, docs: seq<Doc>)
    requires forall other :: other != c ==> grader(question, other) == failing(question, other)
    requires GradingFails(failing, question, c)
    ensures Relevant(failing, question, docs) == WithoutContent(Relevant(grader, question, docs), c)
  {
    if docs != [] {
      var d := docs[0];
      var rest := Relevant(grader, question, docs[1..]);
      GradingFailureIsolated(grader, failing, question, c, docs[1..]);
      if Keeps(grader, question, d) {
        assert Relevant(grader, question, docs) == [d] + rest;
        assert ([d] + rest)[1..] == rest;
      } else {
        assert Relevant(grader, question, docs) == rest;
      }
    }
  }
}
