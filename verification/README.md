# Hydra shields.io endpoint: badge verdict model

This project models the decision procedure of `hydra-shields-io-endpoint`.
The service answers a badge request for a Hydra CI server with
`{label, message, isError}`. It takes a glob over `project:jobset`
identity strings and a glob over job names. It lists the server's
projects and keeps the jobsets whose identity string matches. For each
kept jobset it walks the evaluation history, most recent first. Queued
evaluations are skipped and the first settled one decides the verdict.
The badge says `passing` only if every kept jobset passed.

The model is split into four modules:

- `Wrappers` (`wrappers.dfy`) holds the single opaque error, `Result` and
  `Option`. It also holds the two iterator idioms the handler uses.
  `CollectAll` models a join of futures collected into a result of a
  vector. `Filter` models an order-preserving filter.
- `Hydra` (`hydra.dfy`) holds the server's records, the jobset identity
  string and the selection of jobsets by the jobset glob.
- `Evaluation` (`evaluation.dfy`) holds the per-evaluation summary
  `(queued, failure)` and the scan of a history. The scan is a `method`
  with a `while` loop, the same shape as the source's `for` loop with
  `continue` and early `return`. It is proved equal to the recursive
  specification `ListPassing`, and the lemmas about the scan are stated
  over `ListPassing`.
- `Endpoint` (`endpoint.dfy`) holds the whole request as a function of
  what the server answers.

Remote data is an input value (`Endpoint.Remote`). It has three parts:
the project list as a `Result`, a lookup from jobset to evaluation
history and a lookup from build id to build. Each part may fail with
the one error. A glob is its pattern text plus an uninterpreted
predicate `string -> bool` (`Hydra.Glob`). The server's 32-bit integers
are the newtype `Hydra.i32`.

Two facts about the code shape the model:

- There is no fetch cache. Every request builds a fresh HTTP client
  (src/main.rs:215) and fetches directly, so the model has no cache.
- A jobset's verdict is two-valued. An empty history, or one where every
  evaluation is queued, gives `Ok(false)` (src/main.rs:208). There is
  no third "undetermined" verdict, and the model has none either.

## Model

| member | source | states |
|---|---|---|
| `Wrappers.CollectAll` | src/main.rs:163-172 | The collected result is `Ok` exactly when every element's fetch is `Ok`. It then holds each element's value at that element's position. |
| `Wrappers.Filter` | src/main.rs:173-176 | Every kept element comes from the input and satisfies the predicate. Every input element that satisfies the predicate is kept. The output is no longer than the input. |
| `Wrappers.FilterSubMultiset` | src/main.rs:173-176 | Filtering never duplicates: every value occurs in the output at most as often as in the input. |
| `Wrappers.FilterKeepsAll` | src/main.rs:173-176 | When the predicate accepts every element, the filter returns its input unchanged. |
| `Wrappers.FilterConcat` | src/main.rs:173-176 | Filtering distributes over concatenation, so kept elements stay in input order. |
| `Hydra.Identity` | src/main.rs:106-110 | The identity string is the project name, then one `:`, then the jobset name, with positions and length given. |
| `Hydra.IdentityRoundTrip` | src/main.rs:106-110 | Splitting the identity string at its first `:` gives back the jobset whenever the project name has no `:`. |
| `Hydra.ParsedIdentityRoundTrip` | src/main.rs:106-110 | Every string that splits at a `:` is the identity string of the jobset it splits into. |
| `Hydra.IdentityInjective` | src/main.rs:106-110 | If project names have no `:`, two jobsets with the same identity string are the same jobset. |
| `Hydra.ProjectJobsets` | src/main.rs:229-233 | A project yields one `(project name, jobset name)` pair per listed jobset, in listed order. |
| `Hydra.AllJobsets` | src/main.rs:227-234 | Definition of the flattened `(project, jobset)` pairs. Its contract states that every pair names a listed project and one of that project's jobsets. `AllJobsetsMembers` gives the converse and `AllJobsetsConcat` gives the order. |
| `Hydra.AllJobsetsMembers` | src/main.rs:227-234 | A jobset is among the flattened pairs exactly when some project lists it under that project's name. |
| `Hydra.AllJobsetsConcat` | src/main.rs:227-234 | Flattening distributes over concatenating project lists, so the order is project order and then jobset order. |
| `Hydra.SelectJobsets` | src/main.rs:227-235 | Definition of the selected jobsets. Its contract states that every selected jobset is a flattened pair that the jobset glob accepts, and that selection never grows the list. `SelectJobsetsMembers`, `SelectJobsetsConcat` and `SelectJobsetsOfProject` state the converse and the order. |
| `Hydra.SelectJobsetsMembers` | src/main.rs:227-235 | A jobset is selected exactly when some project lists it and the jobset glob accepts its identity string. |
| `Hydra.SelectJobsetsConcat` | src/main.rs:227-235 | Selection distributes over concatenating project lists, so selected jobsets stay in flattened order. |
| `Hydra.SelectJobsetsOfProject` | src/main.rs:229-235 | Within one project, selection is that project's jobsets in listed order, filtered by the glob. |
| `Evaluation.Summarize` | src/main.rs:178-185 | Definition of the summary of the selected builds. The summary is `(queued = false, failure = false)` exactly when some build is selected and every selected build finished and succeeded. With no selected build, it is `(false, true)`. `SelectedBuildsDecide` and `NoSelectedBuildFails` state it per field. |
| `Evaluation.CheckJobsetEvaluation` | src/main.rs:157-172 | An evaluation's summary is an error exactly when some build id fails to fetch. This includes builds whose job would not match. |
| `Evaluation.KeptAreSelected` | src/main.rs:163-176 | Every build kept by the job filter is the fetched build of some id in the evaluation whose job the glob accepts. |
| `Evaluation.SelectedAreKept` | src/main.rs:163-176 | Every fetched build of the evaluation whose job the glob accepts is kept. |
| `Evaluation.NoSelectedBuildFails` | src/main.rs:173-180 | If every build fetches and none has a selected job, the summary is `(queued = false, failure = true)`. |
| `Evaluation.SelectedBuildsDecide` | src/main.rs:173-185 | If every build fetches and some are selected, `queued` holds iff some selected build has `finished != 1`. `failure` holds iff some selected build has `buildstatus != 0`. |
| `Evaluation.UnselectedBuildIrrelevant` | src/main.rs:173-185 | Inserting a build that fetches and whose job is not selected, at any position, leaves the summary unchanged. |
| `Evaluation.ListPassing` | src/main.rs:188-209 | Definition of the history scan. An empty history gives `Ok(false)`. A passing verdict implies some evaluation is settled with no failed selected build. `PassingIff`, `QueuedPrefixSkipped`, `FirstSettledDecides`, `FirstErrorAborts`, `AllQueuedNotPassing`, `MissingJobStopsScan` and `OlderEvaluationsIgnored` state the rest. |
| `Evaluation.CheckListPassing` | src/main.rs:188-209 | The loop returns exactly the verdict `ListPassing` specifies: skip queued evaluations, answer for the first settled one, abort on error, `false` when the list runs out. |
| `Evaluation.QueuedPrefixSkipped` | src/main.rs:194-203 | A prefix of queued evaluations is skipped: the verdict equals the verdict of the rest. |
| `Evaluation.FirstSettledDecides` | src/main.rs:203-205 | The first evaluation that is not queued decides: the verdict is `Ok(!failure)` of its summary. |
| `Evaluation.FirstErrorAborts` | src/main.rs:194-201 | A fetch error in the first evaluation past the queued prefix makes the verdict an error. |
| `Evaluation.AllQueuedNotPassing` | src/main.rs:208 | An empty history, or one where every evaluation is queued, gives `Ok(false)`. |
| `Evaluation.MissingJobStopsScan` | src/main.rs:178-179 | The first evaluation past the queued prefix that fetches but has no selected build gives `Ok(false)`, whatever older evaluations hold. |
| `Evaluation.OlderEvaluationsIgnored` | src/main.rs:194-205 | Evaluations after the first one that is not queued are never examined. Replacing them, failing fetches included, does not change the verdict. |
| `Evaluation.PassingIff` | src/main.rs:188-209 | A history passes iff some evaluation is preceded only by queued ones and is itself settled with no failed selected build. |
| `Endpoint.Verdict` | src/main.rs:236-256 | Definition of one jobset's verdict: fetch its history, then scan it. A failed history fetch makes the verdict an error. |
| `Endpoint.VerdictPassingIff` | src/main.rs:236-256 | A jobset passes exactly when its history fetches and some evaluation is preceded only by queued ones and is itself settled with every selected build successful. |
| `Endpoint.Endpoint` | src/main.rs:227-271 | The response is an error iff the project list fails or some selected jobset's history fetch or scan fails. Otherwise `isError` is false iff every selected jobset's verdict is `Ok(true)`. The message is `passing` or `one or more jobs failing` to match. The label is `jobsets:jobs`, and the schema version is 1. |
| `Endpoint.NoJobsetSelectedPasses` | src/main.rs:258-263 | When no jobset is selected, the badge is `passing` with `isError = false`. |
| `Endpoint.SingleJobsetSelected` | src/main.rs:227-235 | One project `myproj` listing `trunk` selects exactly the jobset `myproj:trunk` when the jobset glob accepts that identity string. |
| `Endpoint.SingleBuildVerdict` | src/main.rs:157-209 | A history of one evaluation whose one build has a selected job passes exactly when that build finished and succeeded. |
| `Endpoint.SingleBuildBadge` | src/main.rs:227-271 | Setup: one project `myproj`, jobset `trunk`, one evaluation holding build 1 of job `build`. Result: label `myproj:*:build`, `passing` exactly when the build has finished and succeeded, otherwise `one or more jobs failing` with `isError = true`. |

## Left out

- HTTP fetching is not modelled: URL joining, headers and the project GET (`fetch_jobset`, `fetch_build`, `headers`, src/main.rs:112-155, 219-225). It is network I/O. Its outcomes are inputs: `Remote.projects`, `Remote.evals` and `Remote.build`.
- JSON decoding and the wire shape of the response are not modelled, and neither is the mapping of errors to an HTTP 500 body labelled `URL Parse Error` or `URL Rquest Error` (src/main.rs:34-53). These are library-driven formatting. Every failure is the single `Err`.
- Glob parsing and matching are left out because they belong to a foreign library. Each glob's matcher is an uninterpreted `string -> bool`.
- Concurrency (`join_all`, rayon, tokio) is not modelled. The collections preserve order and fail as a whole, so a sequential model gives the same results. Which of several concurrent errors is reported is not captured.
- The evaluation's own `id` field is never read and is not modelled.
- `main` and the router (src/main.rs:274-282) are server start-up and are not modelled.
- No fetch cache is modelled; the code has none.
- `Remote.build` is a function, so the server is one consistent snapshot per request and the same build id always has the same outcome. The code sends one GET per occurrence of an id (src/main.rs:166), so a transient failure on only one of several fetches of the same id is not represented.
