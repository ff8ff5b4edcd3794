# Agentic retrieval loop: a Dafny model

This project models the question-answering workflow that `get_graph` builds in
`src/agent.py`. A question goes through four graph nodes:

- `retrieve` fetches candidate documents from the vector store.
- `grade_documents` asks a JSON-mode model whether each document is relevant.
- `decide_to_generate` is the router. When nothing survived grading, it sends
  the question to `transform_query`, which rewrites it and loops back to
  `retrieve`.
- Otherwise, `generate` answers from the surviving documents.

All nodes share one state record, `GraphState`, with the keys `question`,
`generation`, `documents` and `reformulated_count`. Each node returns a partial
update, and the graph merges that update into the state.

Files:

- `state.dfy` (module `State`): the state record, a node's partial update, and
  the merge. A key that is absent from the dictionary is `None`. The counter is
  read as `state.get("reformulated_count", 0)`.
- `grading.dfy` (module `Grading`): which documents survive a grading pass
  (`Relevant`), and why that filter is order-preserving, exact and isolates
  failures.
- `nodes.dfy` (module `Nodes`): the external collaborators as functions, the
  four nodes, and the router. `grade_documents` is a method with the source's
  per-document loop.
- `graph.dfy` (module `Graph`): the graph wiring as a function (`Resume`, which
  follows the entry point, the edges and the conditional edge), the streamed
  events, and the termination, counter and answer lemmas.
- `driver.dfy` (module `Driver`): the compiled graph as a `while` loop over the
  phases RETRIEVE, GRADE, ROUTE, TRANSFORM, GENERATE and DONE. Its loop is
  proved to produce exactly the traversal that `Resume` describes.

The collaborators are parameters (`Oracles`):

- the retriever, a function from question to documents;
- the grading chain, a function from question and page content to the parsed JSON
  reply;
- the rewriter, a function from question to question;
- the generator, a function from question and documents to an answer.

A collaborator call that raises is `None`. For the retriever, the rewriter and
the generator, `None` aborts the traversal (`Aborted`). For the grading chain,
`None` is a grading call that raised. A reply without `"score"` is a map without
that key. The loop skips both cases, as the source's `try`/`except` does
(`src/agent.py:72-78`).

The loop bound comes from two guards in the code:

- The router (`src/agent.py:121`) tests `count <= 3`, so an empty document
  list at counter 3 still goes to `transform_query`.
- `transform_query` (`src/agent.py:103-106`) tests the incremented counter
  (`count > 3` after `+ 1`). At counter 3 it takes the no-op path: the counter
  becomes 4 and the question is unchanged, without calling the rewriter.

The graph then retrieves and grades a fifth time, and at counter 4 the router
chooses `generate`. So the worst case is 5 `retrieve` visits, 4
`transform_query` visits and 3 rewrites (`NoRelevantDocuments`).

## Model

| member | source | states |
|---|---|---|
| `Grading.Relevant` | src/agent.py:70-78 | The surviving documents are at most as many as the input, and each one is an input document that the grading chain answered with `"score"` equal to `"yes"` |
| `Grading.RelevantAppend` | src/agent.py:71-78 | Each document is graded on its own: grading a concatenation gives the concatenation of the two gradings |
| `Grading.RelevantIsSubsequence` | src/agent.py:70-80 | The documents that `grade_documents` returns are a subsequence of its input: the retriever's order is kept |
| `Grading.RelevantCount` | src/agent.py:73-76 | Exactness: a document the grading chain keeps survives as often as it was retrieved, and any other document does not survive at all |
| `Grading.NothingRelevant` | src/agent.py:75-76 | Grading returns the empty list if and only if none of the input documents is answered with `"score"` equal to `"yes"` |
| `Grading.GradingFailureIsolated` | src/agent.py:71-78 | Failure isolation: when grading one content raises or has no `"score"` key, and every other content is graded as before, the pass keeps exactly the same documents except those with that content |
| `Nodes.Retrieve` | src/agent.py:49-53 | Fails exactly when the retriever raises. Otherwise the merged state has the retriever's documents for the current question, and the question, generation and counter are unchanged |
| `Nodes.GradedUpdate` | src/agent.py:80 | Merging the update of `grade_documents` replaces only the documents, with the relevant ones, and keeps the question, generation and counter |
| `Nodes.GradeDocuments` | src/agent.py:55-80 | The per-document loop returns exactly `GradedUpdate`: a document is appended only when grading succeeds with score `"yes"`, and a document whose grading raises is skipped. The result is a subsequence of the input documents |
| `Nodes.Generate` | src/agent.py:82-98 | Fails exactly when the generator raises. Otherwise only `generation` changes, to the generator's answer for the current question and documents |
| `Nodes.TransformQuery` | src/agent.py:100-114 | The counter (absent counts as 0) becomes the old value plus 1 on every successful path. Past the bound, the result is fixed without the rewriter: the question is unchanged and nothing fails. Within the bound, the node fails exactly when the rewriter raises, and otherwise the question becomes the rewriter's output. Nothing else changes |
| `Nodes.DecideToGenerate` | src/agent.py:117-124 | Routes to `transform_query` if and only if the documents are empty and the counter (absent counts as 0) is at most 3. Routes to `generate` in every other case |
| `Graph.ResumeBounds` | src/agent.py:100-146 | From any reachable point, the traversal stays within its budget of `retrieve` visits, `transform_query` visits and rewriter calls. The rewriter count includes a call that raised and aborted the run. This is termination with explicit bounds |
| `Graph.ResumeGeneratesOnce` | src/agent.py:134-146 | A traversal that reaches END visits `generate` exactly once, as its last event. An aborted traversal never generates |
| `Graph.ResumeCounter` | src/agent.py:49-114 | Every `transform_query` event sets the counter to one more than before, and no other node writes it, so the counter never decreases. At END it has grown by the number of `transform_query` visits |
| `Graph.ResumeAnswers` | src/agent.py:134-146 | At END, the answer is the generator's output for the final question and documents. Those documents are what grading kept from that question's retrieval, and the router chose `generate` |
| `Graph.ResumeReliable` | src/agent.py:134-146 | If no collaborator raises, every traversal reaches END |
| `Graph.ResumeNoRelevant` | src/agent.py:103-124 | If nothing is ever relevant and nothing raises, every budget is used exactly. Generation then runs on an empty document list with the counter at 4 |
| `Graph.ExecuteTerminates` | src/agent.py:134-146 | From the entry point with no counter: at most 5 `retrieve` visits, 4 `transform_query` visits and 3 rewriter calls, counting a call that raised. A traversal that reaches END has exactly one `generate`, as its last event. END is reached whenever nothing raises. The counter starts at 0 and only steps up by one |
| `Graph.ExecuteAnswers` | src/agent.py:134-146 | From the entry point, the final answer is generated from the final question and the relevant part of that question's retrieval |
| `Graph.FirstPassRelevant` | src/agent.py:121-146 | If the first grading pass keeps a document, the traversal is `retrieve`, `grade_documents`, `generate`. The counter is still absent, the documents are exactly the grading chain's output, and the run ends at END exactly when the generator answers |
| `Graph.NoRelevantDocuments` | src/agent.py:103-124 | With nothing relevant and nothing raising, the traversal makes exactly 5 `retrieve` visits, 4 `transform_query` visits and 3 rewriter calls. It ends with no documents and counter 4 |
| `Driver.Invoke` | src/agent.py:127-148 | The loop executor produces the streamed events and the outcome of the graph traversal `Execute`. It therefore stays within 5 retrieves, 4 transforms and 3 rewriter calls (counting one that raised), and generates once when it answers. Its answer comes from the final question and the relevant documents, and it always answers when no collaborator raises |

## Left out

- Language-model calls and prompt text (`ChatOllama`, the prompt templates, `JsonOutputParser`, `StrOutputParser`) are not modelled. They are foreign library calls, so the grading chain, the rewriter and the generator are function parameters.
- The grading chain is a function of the question and the page content. Two documents with equal content therefore get the same grade. The real model is called once per document, at temperature 0.
- The embeddings and the Chroma vector store are not modelled. They are foreign I/O and numeric similarity search, so the retriever is an arbitrary function from question to documents.
- The configuration paths and `print` logging are I/O with no behaviour of their own.
- The internals of LangGraph's `StateGraph` and `compile` are not modelled. An explicit loop driver merges each node's update and records it as a streamed event instead.
- A fatal exception from the retriever, the rewriter or the generator is the `Aborted` outcome. It carries no error value and has no retries.
- The JSON reply is modelled as a map from strings to strings. A non-string `"score"` value is any string other than `"yes"`, with the same effect: the document is dropped.
- `app.py` is not part of this model. It covers the Streamlit page, the chat history, the sidebar, the progress display, the citation rendering, and the fold over streamed events that keeps the last documents and the generated answer.
- Whether `documents` is absent before the first retrieve is not modelled: the state starts with an empty list. No node reads the key before `retrieve` writes it.
