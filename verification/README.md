# Verification of the stateful core

A model, in Dafny, of the components of this repository that keep state or
recurse, with proofs of what they promise over all inputs and all runs. `dafny
verify dfyconfig.toml` checks everything.

## Components

- **Edit engine** (`Texts`, `WhitespaceView`, `EditEngine`, `ScopeLaws`,
  `EditRuns`, `EditLaws`). Texts are sequences of UTF-16 code units. A search is
  looked up in the whitespace-normalised view of the text and the match is
  mapped back by two cursor loops. The region they compute is characterised
  without them: it is the only region whose view is the search and whose
  surroundings have the rest of the view.
- **Role graph** (`RoleGraph`, `RoleProjection`, `RoleIds`). The gates in front
  of the projection of an executable specification, the depth-first search with
  two mutable sets, proved sound and complete against closed walks of the edges
  as written, and the renaming of node ids to role ids.
- **Storage keys** (`JsonStrings`, `StableJson`, `StableJsonLaws`,
  `StableJsonCanon`, `Powers`, `StableHash`, `StableExamples`). The key-sorting
  printer, a reader that inverts it, and the hash loop over signed 32-bit
  integers, proved equal to unsigned FNV-1a over code units.
- **Agent loop and agent** (`AgentMessages`, `AgentStream`, `AgentTools`,
  `AgentToolLaws`, `AgentEventLaws`, `MessageQueue`, `AgentLoop`,
  `AgentTurnLaws`, `AgentLaws`, `Agent`). Model responses, tool outcomes,
  progress reports and messages queued meanwhile are arbitrary inputs, turn by
  turn. The event handler's state is a reduction of the emitted events, and a
  monitor checks their brackets.
- **Proxy stream** (`ProxyEvents`, `ProxyStream`, `ProxyLaws`). The line
  splitter and the reducer that rebuilds a message from deltas.
- **Request queue and runner pipeline** (`LeaseQueue`, `LeaseQueueLaws`,
  `QueueStatus`, `QueueRaces`, `QueueDiscipline`, `QueueRenewals`,
  `QueueLeases`, `QueueSchedules`, `HeartbeatRace`, `RunnerPipeline`,
  `RunnerLaws`, `RunnerQueue`). The queue is modelled twice: with atomic methods
  and a clock, and as interleaved steps of N workers, each step a file operation
  (read, exclusive create, overwrite, append) or a reading of the clock. The two
  are connected: without interruption the steps of a method do what the atomic
  method does, and every atomic run is a schedule. Executors are total functions
  of the command and of the number of commands run before it.
- **Resilience and synthesis** (`Resilience`, `BreakerLaws`, `BreakerRuns`,
  `Retry`, `Synthesis`, `SynthesisLaws`). The circuit breaker, also with
  overlapping calls, the retry loop, their combination, and the bounded
  synthesis loop.
- **Shared notions** (`Wrappers`, `Sequences`, `Texts`, `Powers`).

Code that updates fields or loops over variables is a class or a method; its
contract ties it to a function on values, and the laws are proved about that
function: what it keeps over runs, and, in terms that do not mention it, what it
computes.

## Findings

Where the code does not meet a property its documentation or names suggest, the
code is modelled as it is, and the exact condition is proved.

- Normalising whitespace is not idempotent on stray carriage returns
  (`EditLaws.StrayReturn`, `EditLaws.NormalizeTwiceIff`).
- The cycle gate checks node ids, the role graph uses renamed ids; it protects
  the role graph iff the renaming has no collisions, as on ids of lower-case
  words with single dashes, and not on `x.y` and `x-y`
  (`RoleIds.GateGuardsOwnRolesIff`, `RoleIds.SlugsAreSafe`,
  `RoleIds.DotAndDashCollide`). The duplicate gate takes a repeated empty id for
  no duplicate, and then misses later ones; ids that pass are distinct iff the
  empty id occurs at most once (`RoleGraph.EmptyIdHidesRepeats`,
  `RoleGraph.PassingDistinctIff`).
- An array whose only entry is undefined prints like the empty array, and a
  number that is not finite like null (`StableJsonCanon.UndefinedEntryCollides`,
  `StableJsonCanon.PrintIffSame`).
- The error of a failed retry reports the maximal number of attempts even when
  the loop stopped earlier; a negative retry count makes no invocation and never
  produces a report, because there is no last error to put into it
  (`Retry.EarlyStopOverReports`, `Retry.ExhaustedReport`).
- When calls overlap, the late success of an old probe closes a circuit that has
  opened again, and calls start within the recovery time
  (`BreakerRuns.EarlyStartHappens`, `BreakerRuns.EarlyExitIff`,
  `BreakerRuns.EarlyStartIff`). Half-open lets more than one probe through, iff
  a call starts in it while a probe flies (`BreakerRuns.TwoProbesFly`,
  `BreakerRuns.OneProbeIff`). A next attempt time of 0 counts as unset
  (`Resilience.ReopensIff`).
- A tool call delta that comes after the tool call's end is appended to the word
  `undefined` (`ProxyEvents.LateDeltaCorrupts`, `ProxyEvents.RunningTextIff`,
  `ProxyEvents.ArgumentsIff`).
- A response with several start events leaves stale partial messages in the
  loop's context, but not in the agent's transcript
  (`AgentStream.StalePartialStays`, `AgentStream.ContextExactIff`).
- Two request ids that sanitise to the same file name, such as `AR-1.2` and
  `AR-1-2`, block each other; the queue meets its counts for a set of ids iff
  the names are distinct (`LeaseQueueLaws.AdmittedNamesCollide`,
  `LeaseQueueLaws.MeetsPendingIff`). A heartbeat does not check the owner
  (`LeaseQueueLaws.AnyoneRenews`).
- Two workers can both take over the same expired claim, and can both enqueue
  the same id (`QueueRaces.TwoReclaims`, `QueueRaces.EnqueuedTwice`); two racing
  heartbeats can move an expiry back, after which a claim is taken over before
  its lease is over (`HeartbeatRace.RacingHeartbeats`). All leases hold iff
  every takeover replaces a claim that has run out and no heartbeat moves an
  active expiry back (`QueueLeases.LeasesHoldIff`). Which pairs of pending steps
  let a further step go wrong is exact for appends, takeovers and heartbeats
  (`QueueDiscipline.EnqueueSafeIff`, `QueueDiscipline.TakeoverSafeIff`,
  `QueueRenewals.RenewalSafeIff`); without the last two, under a monotone clock
  and one lease time, takeovers wait for every claim ever written to their file
  (`QueueLeases.TakeoversWaitForLeases`).
- A path pattern that ends in a slash and two stars also allows siblings whose
  name begins with the directory's (`RunnerPipeline.DoubleStarAllows`).
- A completed run without declared changed files opens its pull request and then
  fails its own result check, so no result is written; so does any run whose
  result options are invalid (`RunnerQueue.OpensWithoutResult` for every
  accepted request, `RunnerQueue.PlainIsAccepted` for one,
  `RunnerQueue.LeftWithoutResultIff`).
- `runSingleAgentRequest` claims whatever request comes first; when it is not
  the one just enqueued, it gives up and leaves the other request leased
  (`RunnerQueue.SingleStartsIff`, `RunnerQueue.StrayLease`).

## Model

| member | source | states |
|---|---|---|
| WhitespaceView.NormalizeDoc | packages/diff-engine/src/index.ts:26-28 | The two global replacements act line by line: a line that a line feed ends loses one final carriage return and then its trailing blanks, the last line is kept as it is |
| WhitespaceView.MapsBack | packages/diff-engine/src/index.ts:181-207 | For every position n of the view, the text before the raw index looks like the first n characters of the view and the text from it on looks like the rest |
| WhitespaceView.PrefixUnique | packages/diff-engine/src/index.ts:26-28 | Two prefixes of a text with the same view are the same prefix, so a position of the view has one raw index |
| WhitespaceView.NormNonempty | packages/diff-engine/src/index.ts:129-134 | Normalising a nonempty search never gives the empty text, which is why the counting loop ends |
| EditEngine.FindClosingBrace | packages/diff-engine/src/index.ts:47-80 | Returns the end of the least closing brace that is code (not escaped, not in a string) and brings the balance since the start to zero, or -1 when no position does |
| EditEngine.FindScopeRange | packages/diff-engine/src/index.ts:30-45 | Returns the range of the first matched start that has a closing brace |
| EditEngine.CountOccurrences | packages/diff-engine/src/index.ts:86-94 | Returns the number of match positions, overlapping ones included |
| EditEngine.FindInScope | packages/diff-engine/src/index.ts:96-108 | Returns the only match inside the scope's text, counted from the start of the whole text; -1 when the scope is missing or holds no match or several |
| EditEngine.ScopePositionOccurs | packages/diff-engine/src/index.ts:96-108 | The position that a scope selects is a match of the whole text |
| ScopeLaws.CodeIff | packages/diff-engine/src/index.ts:47-80 | A character is no code iff an odd number of backslashes ends just before it, or a quote of code came before and none of the same kind that is not escaped since |
| ScopeLaws.StringKeepsBalance | packages/diff-engine/src/index.ts:58-72 | A string changes no balance, whatever other quotes and braces it holds, and code goes on after it |
| ScopeLaws.BracedString | packages/diff-engine/src/index.ts:47-80 | In braces around a string the last brace closes the first, whatever braces and other quotes the string holds |
| ScopeLaws.ApostropheInString | packages/diff-engine/src/index.ts:64-66 | In {"a'}"} the brace at 6 closes the one at 0 |
| ScopeLaws.ScopeRangeIs | packages/diff-engine/src/index.ts:30-45 | The range runs from the first matched start with a closing brace to just after it; there is none iff no start has one |
| ScopeLaws.ScopeSelectsIff | packages/diff-engine/src/index.ts:96-108 | A scope selects a position iff it has a range and the position is the only one at which the search lies inside it |
| EditEngine.FindOriginalIndex | packages/diff-engine/src/index.ts:181-207 | The offset loop returns the raw index of a view position, and the position itself when the given view is another text's or the position lies beyond it |
| EditEngine.FindOriginalLength | packages/diff-engine/src/index.ts:209-229 | The cursor loop returns the length of the text that the matched search covers, measured by mapping the end of the match back |
| EditRuns.LocateRegion | packages/diff-engine/src/index.ts:160-169 | Start and length of the region behind a match, by the search itself when strict and by the two cursor loops otherwise |
| EditRuns.SelectMatch | packages/diff-engine/src/index.ts:134-165 | The only match of the view, or with several matches the one the scope selects |
| EditRuns.ApplyEdit | packages/diff-engine/src/index.ts:121-170 | One edit: too short, not found, ambiguous with the match count, or the region to replace; the region lies inside the text |
| EditRuns.ApplyEdits | packages/diff-engine/src/index.ts:110-179 | The loop over all edits gives the text, the count of applied edits and the failures that applying one edit after another gives |
| EditLaws.RegionShows | packages/diff-engine/src/index.ts:160-169 | For every match of the view: the text before the region looks like the view before the match, the region looks like the search, the text after it like the view after the match |
| EditLaws.RegionExact | packages/diff-engine/src/index.ts:181-229 | The region the loops compute for a match is the only start and length that shows as that match (both directions) |
| EditLaws.UniqueRegion | packages/diff-engine/src/index.ts:160-168 | When the view has one match, a start and length are the computed region iff they show as the search with the rest of the view around it |
| EditLaws.AppliedEditShows | packages/diff-engine/src/index.ts:120-171 | Every applied tolerant edit replaces exactly one region that shows as the normalised search and keeps the text on both sides character for character |
| EditLaws.AppliedIff | packages/diff-engine/src/index.ts:121-158 | An edit without a scope is applied iff its search has at least ten units and its view occurs once in the view of the text |
| EditLaws.OutcomeIff | packages/diff-engine/src/index.ts:121-158 | Each of the four outcomes of an edit, scopes included, iff its condition on length, number of matches and scope holds |
| EditLaws.RunConserves | packages/diff-engine/src/index.ts:115-178 | Applied and failed edits add up to all edits, earlier failures stay a prefix, success means no failure, and a run that applies nothing leaves the text alone |
| EditLaws.StrictRegion | packages/diff-engine/src/index.ts:146-163 | A strict edit cuts out an occurrence of the search itself |
| EditLaws.ReversedEditRestores | packages/diff-engine/src/index.ts:160-163 | A strict edit is undone by the reversed edit whenever the replacement has at least ten units and occurs once in the edited text |
| EditLaws.TolerantEqualsStrict | packages/diff-engine/src/index.ts:126-170 | On texts and searches that are their own view the tolerant engine chooses what the strict one chooses |
| EditLaws.NormalizeTwiceIff | packages/diff-engine/src/index.ts:26-28 | Normalising again changes nothing iff the text has no carriage return whose line goes on with blanks alone, with blanks and the line's own carriage return, or with that carriage return at once |
| EditLaws.StrayReturn | packages/diff-engine/src/index.ts:26-28 | Two carriage returns and a line feed normalise to one carriage return and a line feed, and those to a line feed: normalising is not idempotent |
| EditLaws.NormalizedText | packages/diff-engine/src/index.ts:26-28 | Blanks, a tab and a carriage return before a line feed go, blanks at the end of the text stay, on a concrete text |
| RoleGraph.OrderedIsAcyclic | packages/compiler/src/instruction-tuning.ts:437-447 | A graph whose nodes all stand after their successors in some order has no closed walk |
| RoleGraph.PathCloses | packages/compiler/src/instruction-tuning.ts:437-443 | A chain of pending calls that comes back to one of its nodes holds a closed walk |
| RoleGraph.CycleSearch.Visit | packages/compiler/src/instruction-tuning.ts:434-448 | The recursion ends; true only when there is a cycle; false keeps the finishing order reverse topological, marks the node and restores the set of pending nodes |
| RoleGraph.BuildOutgoing | packages/compiler/src/instruction-tuning.ts:431-434 | The adjacency lists hold, for each node, the ends of its usable edges in edge order |
| RoleGraph.TargetsAreEdges | packages/compiler/src/instruction-tuning.ts:431-434 | A node is listed as a successor iff a usable edge leads to it |
| RoleGraph.CyclicIffLoop | packages/compiler/src/instruction-tuning.ts:430-451 | The built graph is cyclic iff the edges as written hold a nonempty closed walk |
| RoleGraph.SearchAll | packages/compiler/src/instruction-tuning.ts:435-450 | Searching from every node finds a cycle iff there is one |
| RoleGraph.HasCycle | packages/compiler/src/instruction-tuning.ts:430-451 | True iff the edges hold a nonempty closed walk, for any nodes and edges; when false, the finishing order is reverse topological and holds every node |
| RoleGraph.FirstDuplicate | packages/compiler/src/instruction-tuning.ts:421-428 | No result iff the values are distinct, otherwise the first value that repeats an earlier one |
| RoleGraph.FirstRepeatUnique | packages/compiler/src/instruction-tuning.ts:421-428 | There is at most one first repeated value |
| RoleGraph.TuneRoleGraph | packages/compiler/src/instruction-tuning.ts:94-112 | The gates in order: no nodes, a nonempty duplicate id, the first dangling edge, a cycle; accepted iff none of them blocks, and then projected node by node and edge by edge |
| RoleGraph.RoleNodeMeans | packages/compiler/src/instruction-tuning.ts:187-200 | In an accepted role graph a node depends on a role iff some edge comes in from a node with that role, once for each edge that comes in; it is parallelizable iff no edge touches it; the role edges say the same |
| RoleGraph.DanglingIff | packages/compiler/src/instruction-tuning.ts:106-109 | An edge dangles iff it does not join two listed nodes whose ids are not empty |
| RoleGraph.PassingDistinctIff | packages/compiler/src/instruction-tuning.ts:99-103 | Ids that pass all gates are distinct iff the empty id occurs at most once |
| RoleGraph.EmptyIdHidesRepeats | packages/compiler/src/instruction-tuning.ts:99-103 | It happens: after two empty ids a repeated id passes all gates |
| RoleProjection.LiftWalk | packages/compiler/src/instruction-tuning.ts:186-200 | Under any renaming without collisions every walk of roles comes from a walk of nodes |
| RoleProjection.RoleLoopLifts | packages/compiler/src/instruction-tuning.ts:186-200 | Under any renaming without collisions a cycle of roles comes from a cycle of nodes |
| RoleProjection.CollidingRoles | packages/compiler/src/instruction-tuning.ts:186-200 | Under any renaming two ids that share a role turn an edge that passes the gates into a cycle of roles |
| RoleProjection.GateGuardsRolesIff | packages/compiler/src/instruction-tuning.ts:110-112 | For any renaming the cycle gate on node ids keeps the role graph acyclic for all edges iff no two usable node ids share a role id |
| RoleIds.TwoWords | packages/compiler/src/instruction-tuning.ts:413-415 | Two words of lower-case letters and digits with anything else between them become the words with one dash between |
| RoleIds.SlugKeepsWords | packages/compiler/src/instruction-tuning.ts:413-415 | A slug keeps the lower-cased letters and digits of the id in order, in words with single dashes between them, and is empty iff there are none |
| RoleIds.RoleIdIs | packages/compiler/src/instruction-tuning.ts:413-415 | The role id is role- and the slug, or node without one; capitals become small letters |
| RoleIds.GapsCollide | packages/compiler/src/instruction-tuning.ts:413-415 | Ids that differ only in what separates two words share a role id |
| RoleIds.DotAndDashCollide | packages/compiler/src/instruction-tuning.ts:110-200 | The ids x.y and x-y share a role id: an edge between them passes the gates and its role graph is a cycle |
| RoleIds.SlugsAreSafe | packages/compiler/src/instruction-tuning.ts:110-200 | For node ids of lower-case words with single dashes the program's renaming has no collisions and the gate keeps the role graph acyclic |
| RoleIds.GateGuardsOwnRolesIff | packages/compiler/src/instruction-tuning.ts:110-200 | With the program's renaming the gate keeps the role graph acyclic for all edges iff no two usable node ids share a role id |
| StableJsonCanon.SortSorts | packages/learning/src/storage-keys.ts:13-16 | The sorted members are the same members with ascending keys |
| StableExamples.LessIff | packages/learning/src/storage-keys.ts:13-15 | One key comes before another iff it is smaller where they first differ or it ends there |
| JsonStrings.ReadPrinted | packages/learning/src/storage-keys.ts:5-17 | Reading a printed string gives the string back for every sequence of code units, lone surrogates included |
| StableJsonLaws.ValueBack | packages/learning/src/storage-keys.ts:5-17 | A printed value followed by anything reads back as its canonical form, at every depth |
| StableJsonLaws.ParsePrint | packages/learning/src/storage-keys.ts:5-17 | Parsing the printed text of any value gives its canonical form |
| StableJsonCanon.PrintIffSame | packages/learning/src/storage-keys.ts:5-17 | Two values print the same text iff they are equal up to key order, up to the array of one undefined entry, with -0 as 0 and numbers that are not finite as null |
| StableJsonCanon.StableStringifyIsCanonical | packages/learning/src/storage-keys.ts:5-17 | Two JSON values print the same text iff they are equal up to key order, -0 and 0 being equal numbers |
| StableJsonCanon.UndefinedEntryCollides | packages/learning/src/storage-keys.ts:6-11 | The array of one undefined entry prints like the empty array and a number that is not finite like null, so the printer is injective on JSON values only |
| StableExamples.PrintedLiterals | packages/learning/src/storage-keys.ts:5-8 | The texts of undefined, null, true, false, -0 and NaN |
| StableExamples.PrintedList | packages/learning/src/storage-keys.ts:9-11 | The text of [null, true], without blanks |
| StableExamples.PrintedRecord | packages/learning/src/storage-keys.ts:12-16 | The text of a record with keys b and a: a first, no blanks |
| StableExamples.PrintedShortEscapes | packages/learning/src/storage-keys.ts:7 | The seven short escapes |
| StableExamples.PrintedHexEscapes | packages/learning/src/storage-keys.ts:7 | Other controls and surrogate halves become four hexadecimal digits, every other unit stands for itself |
| StableExamples.PrintedPairs | packages/learning/src/storage-keys.ts:7 | A high half before a low half is kept, a low before a high is escaped twice |
| StableHash.LoopStep | packages/learning/src/storage-keys.ts:23-24 | One round of the signed 32-bit loop is one FNV-1a step on the unsigned state |
| StableHash.HashText | packages/learning/src/storage-keys.ts:21-26 | The loop over a text returns the base-36 text of unsigned FNV-1a over its code units |
| StableHash.StableHashOf | packages/learning/src/storage-keys.ts:19-27 | The hash of a value is that of its printed text; undefined has none |
| StableHash.PrimeInverse | packages/learning/src/storage-keys.ts:24 | Multiplying by the prime and by 899433627 undo each other modulo 2^32 |
| StableHash.StepBijective | packages/learning/src/storage-keys.ts:22-25 | Each step is a bijection on 32-bit states, with the inverse written out |
| StableHash.StepSeparatesUnits | packages/learning/src/storage-keys.ts:22-25 | From one state different code units lead to different states |
| StableHash.OneUnitNeverCollides | packages/learning/src/storage-keys.ts:21-25 | Texts of one length that differ in exactly one code unit never have the same hash |
| StableHash.Base36Injective | packages/learning/src/storage-keys.ts:26 | Different numbers have different base-36 texts |
| StableExamples.Base36Means | packages/learning/src/storage-keys.ts:26 | The text of a hash has digits only, no zero in front, and is the hash when read in base 36 |
| StableExamples.HashesOfShortTexts | packages/learning/src/storage-keys.ts:19-26 | The hash of the empty text is 2166136261 and that of a is 3826002220 |
| StableHash.OneUnitDifferentKeys | packages/learning/src/storage-keys.ts:19-27 | Values whose printed texts differ in exactly one code unit get different hash texts |
| Resilience.CircuitBreaker.Begin | packages/gdk-ts/src/resilience.ts:85-97 | Refuses exactly when the circuit is open after the timeout check, otherwise says whether the call is a probe |
| Resilience.CircuitBreaker.OnSuccess | packages/gdk-ts/src/resilience.ts:117-127 | The new state after a success: a probe counts towards closing, any other success clears the failures |
| Resilience.CircuitBreaker.OnFailure | packages/gdk-ts/src/resilience.ts:129-140 | The new state after a failure: a probe or the failure that reaches the threshold opens the circuit |
| BreakerRuns.RunStaysConsistent | packages/gdk-ts/src/resilience.ts:85-165 | However calls overlap and end, with thresholds of at least 1: closed has fewer failures than the threshold, open has a next attempt time, half-open has fewer successes than its threshold |
| Resilience.ReopensIff | packages/gdk-ts/src/resilience.ts:108-115 | The clock takes an open circuit out at some time iff its next attempt time is not 0, and that is 0 iff the circuit opens at time 0 without a recovery timeout |
| BreakerLaws.OpensIff | packages/gdk-ts/src/resilience.ts:117-140 | Calls one after another open the circuit iff failureThreshold of them fail in a row, so a success in between starts the count again |
| BreakerLaws.FailedProbeOpens | packages/gdk-ts/src/resilience.ts:129-147 | A failed probe opens the circuit until a full recovery time after its end |
| BreakerLaws.ProbesCloseIff | packages/gdk-ts/src/resilience.ts:117-127 | After the recovery time calls that succeed close the circuit with the successThreshold-th of them, and clear the counters |
| BreakerRuns.OneProbeIff | packages/gdk-ts/src/resilience.ts:41-115 | At every moment of a run of overlapping calls at most one probe is in flight iff no call starts that finds the circuit half-open while a probe flies |
| BreakerRuns.TwoProbesFly | packages/gdk-ts/src/resilience.ts:41-115 | It happens: two calls start when the recovery time is over and both are probes |
| BreakerRuns.EarlyExitIff | packages/gdk-ts/src/resilience.ts:85-165 | At every moment of every run of overlapping calls a move takes the circuit out of open before its time iff the circuit waits and the move is a reset or the completing success of a probe that started before the circuit opened again |
| BreakerRuns.RunIsCovered | packages/gdk-ts/src/resilience.ts:85-165 | In a run without such an exit every opening is in force or over and no call starts within the recovery time of an opening |
| BreakerRuns.ExitAdmits | packages/gdk-ts/src/resilience.ts:85-115 | After such an exit a call can start at once, within the recovery time |
| BreakerRuns.EarlyStartIff | packages/gdk-ts/src/resilience.ts:85-165 | At no moment of a run of overlapping calls can a call start within the recovery time of an opening iff the run never leaves open before its time |
| BreakerRuns.EarlyStartHappens | packages/gdk-ts/src/resilience.ts:85-140 | A run with two probes in which a call starts at 104 although the circuit opened until 202 |
| Resilience.SequentialKeeps | packages/gdk-ts/src/resilience.ts:85-115 | In sequential runs every opening is still in force or its recovery time has passed |
| Resilience.NoEarlyStart | packages/gdk-ts/src/resilience.ts:85-115 | In sequential runs no call starts within the recovery time of an opening |
| Retry.RetryHandler.Execute | packages/gdk-ts/src/resilience.ts:202-231 | Invocations end at the first success, the first non-retryable failure or the last retry; the waits are the doubling backoff; a negative retry count invokes nothing and has no last error for the report |
| Retry.BackoffSum | packages/gdk-ts/src/resilience.ts:259-262 | The first k waits add up to base * (2^k - 1) |
| Retry.FailsIff | packages/gdk-ts/src/resilience.ts:206-231 | With retries allowed, a run fails iff some invocation fails after retryable failures only and is the last possible or not retryable |
| Retry.ExhaustedReport | packages/gdk-ts/src/resilience.ts:202-231 | There is no report iff the retry count is negative; a report says that the run slept base * (2^k - 1) for its k retries, and the attempts it names are its invocations iff every invocation before the last possible one failed with a retryable error |
| Retry.EarlyStopOverReports | packages/gdk-ts/src/resilience.ts:226-230 | A first failure that is not retryable: one invocation, four attempts reported |
| Retry.ResilienceWrapper.Execute | packages/gdk-ts/src/resilience.ts:303-305 | The breaker is asked once per call, the retries run behind it, and it records one outcome per call, as one step of the wrapper on the old breaker says |
| Retry.FailFast | packages/gdk-ts/src/resilience.ts:85-140 | Until recovery exactly the first failureThreshold calls to a service that never answers get through, with the invocations their retries make, and then the circuit is open |
| Retry.FailingServiceBound | packages/gdk-ts/src/resilience.ts:202-231 | A service that never answers is invoked at most failureThreshold * (maxRetries + 1) times, over all retries, before calls fail fast |
| Synthesis.Orchestrate | packages/function-synthesis/src/orchestrate.ts:89-189 | The loop ends for every binding mode and its result is that of the iterated step; the emitter is called on a pass only, with the last patches |
| Synthesis.IterateShrinksBudget | packages/function-synthesis/src/orchestrate.ts:125-182 | Every iteration uses up a repair, a resample or the loop itself |
| Synthesis.CompleteAccounts | packages/function-synthesis/src/orchestrate.ts:125-182 | Iterations are the repairs and resamples taken, plus the one that ends the loop |
| Synthesis.OrchestrateTerminates | packages/function-synthesis/src/orchestrate.ts:125-189 | For every binding mode: repairs + resamples + 1 iterations within both bounds, never an exhausted verdict, branch indices 0 to n - 1 in order, code iff the verdict is pass |
| Synthesis.CompleteIsIterated | packages/function-synthesis/src/orchestrate.ts:125-182 | A whole run is the step iterated as often as its iterations count, and it was still running after every smaller number |
| Synthesis.VerdictExplained | packages/function-synthesis/src/orchestrate.ts:157-172 | In the state one iteration before the end of the run, the verdict is pass or interrupt iff the decision asked for is, and fail iff it is fail or a repair or resample that is used up; the patches are the last iteration's |
| Synthesis.ExhaustedIff | packages/function-synthesis/src/decision-state.ts:69-111 | Applied without the loop's clamping a decision gives an exhausted verdict iff its bound is reached; clamped it never does |
| SynthesisLaws.RunRecorded | packages/function-synthesis/src/orchestrate.ts:125-189 | Approval is required iff some iteration required it, the roles are those of all iterations in order, and a pass emits the last patches |
| SynthesisLaws.CountsAreDecisions | packages/function-synthesis/src/orchestrate.ts:125-172 | While a run goes on, its repair and resample counts are how often each was asked for |
| SynthesisLaws.ContextTells | packages/function-synthesis/src/orchestrate.ts:125-140 | Every iteration is told both counts, both bounds, and the patches of the one before if there were any |
| SynthesisLaws.BranchesRecorded | packages/function-synthesis/src/orchestrate.ts:172-182 | The branches are the resamples in order, each with the roles of its iteration |
| SynthesisLaws.RunFitsLifecycle | packages/function-synthesis/src/decision-state.ts:69-111 | Every run ends with the lifecycle of its verdict: implemented after a pass, failed after an interrupt or a failure |
| ProxyEvents.AssistantMessage.ProcessProxyEvent | packages/gdk-agent/src/proxy.ts:211-340 | One event updates the partial message in place as the step function says, and returns or throws what it says |
| ProxyLaws.ThrowsIff | packages/gdk-agent/src/proxy.ts:219-319 | An event throws iff it is a delta, or the end of a text or of thinking, and there is no block of its kind at its index |
| ProxyLaws.EachPassedOn | packages/gdk-agent/src/proxy.ts:211-340 | Every event that does not throw is passed on as one event of its kind, about the same block with the same delta or reason, except the end of a tool call where there is none |
| ProxyLaws.EchoIsReceived | packages/gdk-agent/src/proxy.ts:219-319 | Whoever joins the deltas passed on since a block's start has the deltas received since then |
| ProxyLaws.EndsCarryText | packages/gdk-agent/src/proxy.ts:237-277 | The end of a text or of thinking passes on the text joined so far |
| ProxyLaws.BlockIsLastStarted | packages/gdk-agent/src/proxy.ts:219-319 | There is a block at an index iff one was started there, and it has the kind, id and name of the last start and the signature of the last end since |
| ProxyEvents.BlocksAreIndependent | packages/gdk-agent/src/proxy.ts:211-340 | In every run each block depends on the events of its own index alone, and the run throws iff the events of some index throw on their own |
| ProxyEvents.DifferentIndicesCommute | packages/gdk-agent/src/proxy.ts:211-340 | Events for different indices commute, in content and in throwing |
| ProxyEvents.BlockIsItsDeltas | packages/gdk-agent/src/proxy.ts:219-319 | In every run that does not throw a text or thinking block holds the deltas since its start; a tool call holds its text and arguments as the tally of its starts, deltas and ends says, late deltas included |
| ProxyEvents.FlagsMean | packages/gdk-agent/src/proxy.ts:283-319 | The two flags of the tally, read off the events: a tool call end without a later start, and a delta after the last such end |
| ProxyEvents.RunningTextIff | packages/gdk-agent/src/proxy.ts:219-319 | A block's running text is all deltas since its start, or nothing once the tool call has ended, iff no tool call delta follows the last end without a new start |
| ProxyEvents.ArgumentsIff | packages/gdk-agent/src/proxy.ts:293-307 | Right after a tool call delta the arguments are parsed from all deltas since the start iff no end lies between or the deltas up to the last end spell the word undefined |
| ProxyEvents.LateDeltaCorrupts | packages/gdk-agent/src/proxy.ts:294-319 | A tool call delta after its end is appended to the word undefined |
| ProxyStream.SplitAndPop | packages/gdk-agent/src/proxy.ts:165-166 | Splitting the buffer and popping its last piece gives the lines a line feed ends and the unfinished rest |
| ProxyStream.NextChunk | packages/gdk-agent/src/proxy.ts:164-166 | A further chunk adds exactly the lines that it completes |
| ProxyStream.ProxyReader.ProcessLine | packages/gdk-agent/src/proxy.ts:168-179 | A line with the data prefix and a nonempty trimmed rest is parsed and reduced; the first error stops the reading |
| ProxyStream.ProxyReader.Read | packages/gdk-agent/src/proxy.ts:164-180 | One chunk: the completed lines are read in order and the rest stays in the buffer |
| ProxyStream.StreamProxy | packages/gdk-agent/src/proxy.ts:152-197 | The read loop gives what reading all ended lines of the joined chunks gives; after an error the message and the stream say so |
| ProxyStream.FeedReadsLines | packages/gdk-agent/src/proxy.ts:156-180 | After any chunks the reader has read exactly the ended lines of their concatenation and buffers the rest |
| ProxyStream.ChunkingDoesNotMatter | packages/gdk-agent/src/proxy.ts:156-180 | Two ways of cutting the same text into chunks give the same reader |
| ProxyLaws.ReaderFollowsEvents | packages/gdk-agent/src/proxy.ts:152-190 | When every line parses and no event throws, the reader holds the message that the carried events build, with the last terminal reason, error and usage, and has pushed exactly what they pass on |
| ProxyLaws.FirstErrorEnds | packages/gdk-agent/src/proxy.ts:168-197 | The first line that raises an error ends the reading: what came before stands, nothing after it is read, and message and last event say that it ended in that error |
| ProxyLaws.LineCarries | packages/gdk-agent/src/proxy.ts:168-172 | A line carries what stands after the prefix with the spaces around it dropped, and nothing without the prefix or when only spaces follow |
| MessageQueue.PendingMessageQueue.Drain | packages/gdk-agent/src/agent.ts:125-138 | A poll takes all messages or the first one by the mode; what it takes and what is left are the old queue |
| MessageQueue.QueueConserves | packages/gdk-agent/src/agent.ts:112-143 | Under any mix of enqueues, drains and mode switches the delivered messages followed by the remaining ones are the enqueued ones in order |
| MessageQueue.PollsTake | packages/gdk-agent/src/agent.ts:125-138 | One at a time, k polls take the first k messages; otherwise the first poll takes all |
| AgentStream.AgentState.ProcessEvents | packages/gdk-agent/src/agent.ts:491-529 | The event handler's state is the reduction of the recorded events |
| AgentEventLaws.MessagesAre | packages/gdk-agent/src/agent.ts:491-529 | Over any events the transcript gains exactly the messages that end, in order |
| AgentEventLaws.PendingIff | packages/gdk-agent/src/agent.ts:491-529 | A tool call is pending iff its last start or end is a start |
| AgentEventLaws.StreamingIs | packages/gdk-agent/src/agent.ts:491-529 | What streams is the message last started or updated unless a message or the run has ended since |
| AgentEventLaws.ErrorIs | packages/gdk-agent/src/agent.ts:491-529 | The agent's error is that of the last turn whose message had one |
| AgentStream.AgentState.BeginRun | packages/gdk-agent/src/agent.ts:448-450 | A run starts with nothing streaming and no error |
| AgentStream.AgentState.FinishRun | packages/gdk-agent/src/agent.ts:476-482 | After a run nothing is streaming and no tool call is pending |
| AgentStream.ResponseContext | packages/gdk-agent/src/agent-loop.ts:275-331 | A response adds its final message, after one stale partial message for every start event beyond the first |
| AgentStream.ContextExactIff | packages/gdk-agent/src/agent-loop.ts:275-331 | The context grows by exactly the final message iff the response has at most one start event |
| AgentStream.StalePartialStays | packages/gdk-agent/src/agent-loop.ts:278-282 | It happens: after two start events the first partial message stays in the context before the final one |
| AgentStream.ResponseObserved | packages/gdk-agent/src/agent-loop.ts:275-331 | The agent's copy gains exactly the final message of a response, and its events are bracketed when the stream has at most one start |
| AgentTurnLaws.ResponseSays | packages/gdk-agent/src/agent-loop.ts:275-331 | A response that starts once is said as a start, its updates in order, and an end with the final message |
| AgentTurnLaws.UnstartedResponseSays | packages/gdk-agent/src/agent-loop.ts:275-331 | A response that never starts is said as a start and an end |
| AgentTools.EmitToolCallOutcome | packages/gdk-agent/src/agent-loop.ts:604-631 | The end event, the result message's start and its end, with the reported output and error flag |
| AgentMessages.ResultSays | packages/gdk-agent/src/agent-loop.ts:560-624 | A result names its call; an immediate outcome is an error, and otherwise content, details and error flag are the tool's unless the after-hook sets them |
| AgentTools.ExecuteToolCallsSequential | packages/gdk-agent/src/agent-loop.ts:350-388 | The events and results of the calls one after another |
| AgentTools.ExecuteToolCallsParallel | packages/gdk-agent/src/agent-loop.ts:390-438 | Calls answered at once are delivered while preparing, those that run afterwards in source order |
| AgentTools.ExecuteToolCalls | packages/gdk-agent/src/agent-loop.ts:336-348 | Events and results by the execution mode |
| AgentToolLaws.SameOrderIff | packages/gdk-agent/src/agent-loop.ts:390-438 | Parallel execution finishes the calls in source order iff no call answered at once follows one that runs |
| AgentEventLaws.ToolPhaseEvents | packages/gdk-agent/src/agent-loop.ts:350-438 | In either mode exactly the calls start, in source order, and each ends once with its output and error flag, in the order of the mode |
| AgentEventLaws.CallsEndAfterStart | packages/gdk-agent/src/agent-loop.ts:350-438 | In either mode no call ends before it has started |
| AgentToolLaws.SameResults | packages/gdk-agent/src/agent-loop.ts:350-438 | Both modes give the same results, each as often |
| AgentToolLaws.SameResultListIff | packages/gdk-agent/src/agent-loop.ts:350-438 | With distinct call ids the two result lists are equal iff no call answered at once follows one that runs |
| AgentToolLaws.ResultsAnswerCalls | packages/gdk-agent/src/agent-loop.ts:350-438 | In either mode the results answer the calls one for one |
| AgentToolLaws.SequentialObserved | packages/gdk-agent/src/agent-loop.ts:350-388 | After sequential execution the agent's copy has gained the results in order and no call is pending |
| AgentToolLaws.ParallelObserved | packages/gdk-agent/src/agent-loop.ts:390-438 | After parallel execution the agent's copy has gained the results in order and no call is pending, whenever progress reports come in |
| AgentToolLaws.ToolsObserved | packages/gdk-agent/src/agent-loop.ts:336-438 | After the tool phase the agent's copy has gained exactly the results the loop records, in either mode |
| AgentLoop.AgentRun.Open | packages/gdk-agent/src/agent-loop.ts:95-114 | The start events and the prompts, in context, new messages and trace |
| AgentLoop.AgentRun.StreamAssistantResponse | packages/gdk-agent/src/agent-loop.ts:275-331 | Partial messages stand at the end of the context until the final one replaces the last of them |
| AgentLoop.AgentRun.TakeTurn | packages/gdk-agent/src/agent-loop.ts:172-214 | One turn: injected messages, response, tool results and turn_end, or an early turn_end after a broken response |
| AgentMessages.ToolCallsAreBlocks | packages/gdk-agent/src/agent-loop.ts:201 | The tool calls of a reply are its call blocks: as many, and the block at a position is the call that counts the call blocks before it |
| AgentTurnLaws.TurnSays | packages/gdk-agent/src/agent-loop.ts:172-214 | A turn's events in order: its start unless it is the first, injected messages, response, tool phase, and its end with the reply and its results |
| AgentLoop.AgentRun.PlayTurn | packages/gdk-agent/src/agent-loop.ts:172-217 | A turn and the steering poll after it, or the end of the run after a broken response |
| AgentLoop.AgentRun.RunTurns | packages/gdk-agent/src/agent-loop.ts:171-218 | The inner loop runs until there is nothing to do, a broken response or no more turns |
| AgentLoop.AgentRun.RunLoop | packages/gdk-agent/src/agent-loop.ts:155-232 | Both loops together are the run of turns that the step function describes |
| AgentTurnLaws.TurnPolls | packages/gdk-agent/src/agent-loop.ts:171-228 | How a turn ends: a failed or aborted reply ends the run; otherwise steering messages come first, then more tool calls, then follow-ups, all or one by the mode, and without any the run is completed |
| AgentTurnLaws.StartSays | packages/gdk-agent/src/agent-loop.ts:95-114 | A run starts with the start events, the prompts and a steering poll unless it is skipped |
| AgentLaws.TurnEndAgrees | packages/gdk-agent/src/agent-loop.ts:172-214 | At every turn_end the loop's context and the agent's transcript are the snapshot followed by the new messages, no call is pending and nothing is streaming |
| AgentLaws.RunAgrees | packages/gdk-agent/src/agent-loop.ts:155-232 | The agreement holds after any number of turns |
| AgentLaws.RunsAgree | packages/gdk-agent/src/agent-loop.ts:95-118 | Over every run with conforming responses the context, the new messages and the agent's copy agree, and a finished trace is agent_start, bracketed turns and one final agent_end with the new messages |
| AgentLaws.RunAnswered | packages/gdk-agent/src/agent-loop.ts:155-232 | The new messages of a run are, turn by turn, what was injected, the reply, and results in bijection with the call blocks of the reply, each with the id and name of its block; none after a failed or aborted reply |
| AgentLaws.TurnQueues | packages/gdk-agent/src/agent-loop.ts:163-226 | Every turn without tool calls that does not end the run takes at least one queued message; a normal end leaves both queues empty |
| AgentLaws.RunIsBounded | packages/gdk-agent/src/agent-loop.ts:163-231 | A run takes at most one turn, plus one per turn with tool calls and one per queued or arriving message; a normal end leaves both queues empty |
| Agent.StatefulAgent.RunPromptMessages | packages/gdk-agent/src/agent.ts:371-385 | A run with its lifecycle: status, queues and, for conforming responses, the transcript extended by exactly the new messages |
| Agent.StatefulAgent.Prompt | packages/gdk-agent/src/agent.ts:312-320 | Refuses iff a run is active, otherwise runs the prompts from the current transcript and queues |
| Agent.StatefulAgent.Continue | packages/gdk-agent/src/agent.ts:323-350 | Each of the three refusals iff its condition holds; otherwise resumes from the transcript, the steering queue or the follow-up queue, in that order |
| Agent.ResumesWith | packages/gdk-agent/src/agent.ts:323-350 | Which messages a continued run starts with: none after a user message or a tool result, otherwise steering messages without another poll, otherwise follow-ups |
| LeaseQueue.FirstClaimable | packages/autonomous-scheduler/src/index.ts:1661-1686 | The first request in enqueue order with neither a result nor an active lease in its claim file, none before it being claimable |
| LeaseQueue.JsonlAgentQueue.Enqueue | packages/autonomous-scheduler/src/index.ts:1626-1642 | Refuses an enqueued id, otherwise appends the request and its event |
| LeaseQueue.JsonlAgentQueue.ClaimNext | packages/autonomous-scheduler/src/index.ts:1656-1690 | Claims the first claimable request, creating its claim file or overwriting an expired one, and records which of the two |
| LeaseQueue.JsonlAgentQueue.SendHeartbeat | packages/autonomous-scheduler/src/index.ts:1692-1714 | Renews whatever claim the file holds, in the caller's name; refuses when there is no file |
| LeaseQueue.JsonlAgentQueue.Complete | packages/autonomous-scheduler/src/index.ts:1716-1737 | Writes the result file iff there is none, and its event |
| LeaseQueue.JsonlAgentQueue.GetStatus | packages/autonomous-scheduler/src/index.ts:1739-1762 | The counts of requests and results by state |
| LeaseQueueLaws.RunIsWellFormed | packages/autonomous-scheduler/src/index.ts:1619-1762 | In every reachable directory files lie under their request's name, claims belong to enqueued requests and no id is enqueued twice |
| LeaseQueueLaws.WaitingIsClaimable | packages/autonomous-scheduler/src/index.ts:1661-1686 | With distinct file names a request can be claimed iff it has no result and no active claim of its own |
| LeaseQueueLaws.ClaimsEarliest | packages/autonomous-scheduler/src/index.ts:1656-1690 | With distinct file names claimNext returns the earliest waiting request, none iff no request waits, and holds its lease afterwards |
| LeaseQueueLaws.NothingToClaimIff | packages/autonomous-scheduler/src/index.ts:1656-1762 | With distinct file names claimNext returns nothing iff status counts nothing pending |
| LeaseQueueLaws.SharedNameBlocks | packages/autonomous-scheduler/src/index.ts:2386-2388 | Any two ids with one file name break it: a run after which one request pends and nothing can be claimed |
| LeaseQueueLaws.MeetsPendingIff | packages/autonomous-scheduler/src/index.ts:1656-1762 | For a set of ids, claimNext returns nothing exactly when nothing pends at every moment of every run that enqueues only these ids iff their file names are distinct |
| LeaseQueueLaws.AdmittedNamesCollide | packages/autonomous-scheduler/src/index.ts:2386-2388 | The request ids AR-1.2 and AR-1-2 have one file name and break it |
| LeaseQueueLaws.SanitizedUnits | packages/autonomous-scheduler/src/index.ts:2386-2388 | A file name keeps letters, digits, underscores and dashes and has a dash for everything else |
| LeaseQueueLaws.AnyoneRenews | packages/autonomous-scheduler/src/index.ts:1692-1714 | A heartbeat renews the claim of whoever holds it in the caller's name, run out or not, and changes nothing else |
| LeaseQueueLaws.OpenRequests | packages/autonomous-scheduler/src/index.ts:1739-1762 | Pending, claimed and finished requests make up all requests |
| LeaseQueueLaws.CountsAddUpIff | packages/autonomous-scheduler/src/index.ts:1739-1762 | Total = pending + claimed + completed + failed + refused iff every result belongs to an enqueued request |
| QueueStatus.StatusCounts | packages/autonomous-scheduler/src/index.ts:1739-1762 | The three result counts start at 0, an accepted completion raises that of its own status by one, and nothing else changes any of them |
| QueueStatus.CountsAreEvents | packages/autonomous-scheduler/src/index.ts:1739-1762 | Over every run each of the three counts is the number of terminal events with that status |
| QueueStatus.OpenCountsMean | packages/autonomous-scheduler/src/index.ts:1749-1751 | Claimed are the requests without a result that have a lease which has not run out, pending those with neither |
| LeaseQueueLaws.ExpiryNeverDecreases | packages/autonomous-scheduler/src/index.ts:1692-1714 | With a monotone clock and one lease time no call moves a claim's expiry back |
| LeaseQueueLaws.RunKeepsLeases | packages/autonomous-scheduler/src/index.ts:1656-1737 | Over every run each lease ever taken is covered by its claim file, no expiry is further away than one lease and finished requests have their result |
| LeaseQueueLaws.LeasesExclude | packages/autonomous-scheduler/src/index.ts:1656-1737 | Over every run with a monotone clock and one lease time, claims of a request come a full lease after every earlier claim or heartbeat of it, and never after its result |
| QueueRaces.AloneIsAtomic | packages/autonomous-scheduler/src/index.ts:1626-1737 | A method whose steps (file operations and clock readings) nobody interrupts leaves the directory that the atomic method leaves |
| QueueRaces.RunKeepsOnce | packages/autonomous-scheduler/src/index.ts:1668-1732 | Over every schedule of N workers no file name is created afresh twice or gets two terminal events, counting creations whose event is still owed |
| QueueRaces.AtMostOnce | packages/autonomous-scheduler/src/index.ts:1668-1732 | However the workers interleave, a request is claimed afresh at most once and has at most one terminal event |
| QueueRaces.ResultsNeverChange | packages/autonomous-scheduler/src/index.ts:1721-1728 | However a schedule goes on, a written result never changes |
| QueueRaces.RunMatches | packages/autonomous-scheduler/src/index.ts:1721-1734 | Over every schedule each terminal event names a result already written, with its id and status |
| QueueRaces.TwoReclaims | packages/autonomous-scheduler/src/index.ts:1677-1684 | For every request and lease a schedule in which two workers both take over the same expired claim at the same moment |
| QueueRaces.EnqueuedTwice | packages/autonomous-scheduler/src/index.ts:1629-1634 | For every id a schedule in which two workers enqueue it twice |
| QueueDiscipline.RequestsStayDistinct | packages/autonomous-scheduler/src/index.ts:1629-1634 | While at no moment two workers are about to append one id, no id is enqueued twice |
| QueueDiscipline.RivalsEnqueueTwice | packages/autonomous-scheduler/src/index.ts:1629-1634 | From every reachable state where two are, the schedule can go on so that the id is enqueued twice |
| QueueDiscipline.EnqueueSafeIff | packages/autonomous-scheduler/src/index.ts:1626-1634 | At no moment of a schedule are two workers about to append one id iff at no moment any two further steps leave an id enqueued twice |
| QueueDiscipline.TakeoversReplaceWhatTheySaw | packages/autonomous-scheduler/src/index.ts:1676-1680 | While no other worker is about to write a file that a worker has read and may take over, every takeover replaces the claim that it read and saw run out |
| QueueDiscipline.TakeoverSafeIff | packages/autonomous-scheduler/src/index.ts:1676-1708 | At no moment of a schedule is such a rival write due iff at no moment any further step leaves a worker that may take a file over without having seen what it holds |
| QueueRenewals.HeartbeatsProlong | packages/autonomous-scheduler/src/index.ts:1692-1708 | With a monotone clock and one lease time, and while no worker is about to write a claim that runs out later than a heartbeat due for the same file, no heartbeat moves an expiry back |
| QueueRenewals.RenewalSafeIff | packages/autonomous-scheduler/src/index.ts:1692-1708 | At no moment of a schedule is such a pair of writes due iff at no moment any further step leaves a heartbeat that would move an expiry back |
| QueueLeases.LeasesHoldIff | packages/autonomous-scheduler/src/index.ts:1656-1714 | With a monotone clock, at every moment of a schedule each claim ever written has run out or is covered by its file and takeovers wait for all claims ever written to theirs, iff every takeover replaces a claim that has run out and no heartbeat moves the expiry of an active claim back |
| QueueLeases.TakeoversWaitForLeases | packages/autonomous-scheduler/src/index.ts:1656-1714 | With a monotone clock, one lease time, and neither a rival write nor a rival renewal due at any moment, a claim is taken over only after every claim ever written to its file, heartbeats included, has run out |
| QueueLeases.DoubleReclaim | packages/autonomous-scheduler/src/index.ts:1677-1685 | From every state with two workers about to take over one file both do, the second replaces the first's claim, and both takeovers are logged |
| QueueLeases.RenewedClaimIsLost | packages/autonomous-scheduler/src/index.ts:1677-1708 | From every state with a takeover and a heartbeat due for one file the takeover can replace an active claim that was just renewed |
| QueueLeases.RenewalIsLost | packages/autonomous-scheduler/src/index.ts:1694-1708 | From every state with a heartbeat due that a later claim can overtake, the file can lose the later claim to the heartbeat while that claim has not run out |
| HeartbeatRace.RacingHeartbeats | packages/autonomous-scheduler/src/index.ts:1656-1714 | For every request a schedule with a monotone clock, one lease time and no rival write at any moment in which two heartbeats race and the claim is taken over at 16 although one that runs out at 18 was written to its file |
| QueueSchedules.AloneIsSchedule | packages/autonomous-scheduler/src/index.ts:1626-1737 | A worker that nobody interrupts finishes its method within the schedule |
| QueueSchedules.AtomicRunIsSchedule | packages/autonomous-scheduler/src/index.ts:1626-1737 | Every run of atomic calls is what some schedule of workers does, whichever worker makes which call |
| QueueSchedules.AtomicRunIsCalm | packages/autonomous-scheduler/src/index.ts:1626-1737 | With a monotone clock that schedule has no rivals at any moment |
| QueueSchedules.SerialSchedulesExclude | packages/autonomous-scheduler/src/index.ts:1656-1737 | In schedules that play atomic calls with a monotone clock all leases hold at every moment, and the logged claims are a lease apart and never of a finished request |
| RunnerPipeline.StarAllowsFiles | packages/autonomous-scheduler/src/index.ts:2461-2465 | A directory, a slash and a star allow exactly the files of the directory |
| RunnerPipeline.DoubleStarAllows | packages/autonomous-scheduler/src/index.ts:2457-2459 | A directory, a slash and two stars allow every path that begins with the directory's text; such a path is the directory or lies in it iff nothing or a slash comes next |
| RunnerPipeline.AllowedIffListed | packages/autonomous-scheduler/src/index.ts:2455-2469 | An allowed path is a listed one, a file of a starred directory, or begins with a double-starred directory's text, and every such path is allowed |
| RunnerPipeline.PlainPathsAreExact | packages/autonomous-scheduler/src/index.ts:2467 | Without starred patterns exactly the listed paths are allowed |
| RunnerPipeline.ExecuteCodexRunnerPlan | packages/autonomous-scheduler/src/index.ts:701-744 | Preflight commands and codex until one fails; a nonempty refusal reason after codex refuses |
| RunnerPipeline.RefusedIff | packages/autonomous-scheduler/src/index.ts:725-744 | A captured reason refuses iff some character of it is no space |
| RunnerPipeline.ExecuteWorkerCommit | packages/autonomous-scheduler/src/index.ts:1123-1243 | Status, then add, commit and show when the changed paths are some and all allowed; a dry run falls back on the declared paths |
| RunnerPipeline.ExecuteRequiredCommands | packages/autonomous-scheduler/src/index.ts:1337-1354 | The required commands up to the first that fails |
| RunnerPipeline.ExecutePullRequestPlan | packages/autonomous-scheduler/src/index.ts:1295-1335 | Push, then create; the address is the first line of the trimmed output that starts with https |
| RunnerPipeline.FirstUrl | packages/autonomous-scheduler/src/index.ts:1320 | An address is found iff some line starts with https, and it is such a line |
| RunnerPipeline.PrUrlIs | packages/autonomous-scheduler/src/index.ts:1320 | The address is the first line of the trimmed output that starts with https |
| RunnerPipeline.ExecutePipeline | packages/autonomous-scheduler/src/index.ts:1383-1477 | The parts in order, each only after the one before it completed |
| RunnerLaws.PipelineFollowsScript | packages/autonomous-scheduler/src/index.ts:1383-1477 | For every total executor the commands are a prefix of preflight, codex, status, add, commit, show, required commands, push, create, each answered in its turn, all but the last exit 0, and nothing but a failure, a refusal or disallowed paths cuts it short; completed iff the full script passed and gave an address, refused iff codex refused |
| RunnerLaws.RunIsUnique | packages/autonomous-scheduler/src/index.ts:1383-1477 | The pipeline's run is the only sequence of commands with these properties |
| RunnerLaws.PushIsGuarded | packages/autonomous-scheduler/src/index.ts:1383-1461 | The branch is pushed iff codex did not refuse, the changed paths are some and all allowed, and every earlier command passed, all required ones among them |
| RunnerLaws.PushedPathsAreListed | packages/autonomous-scheduler/src/index.ts:1123-1243 | In a run that pushes every added path is one the request lists, and was reported by git status unless a dry run reports none |
| RunnerQueue.RunClaimedAgentRequest | packages/autonomous-scheduler/src/index.ts:1370-1511 | Request check, heartbeat, plan check, pipeline, result check and completion on the queue, with every way to fail |
| RunnerQueue.RunSingleAgentRequest | packages/autonomous-scheduler/src/index.ts:1356-1368 | Check and enqueue, claim, and run when the claimed request is the enqueued one |
| RunnerQueue.OneResultIff | packages/autonomous-scheduler/src/index.ts:1370-1511 | A claimed request without a result gets exactly one, whatever the executors answer, iff it is valid, its plan is accepted, the ids, time and changed files given for the result are valid, and it does not complete without changed files; otherwise the results stay as they were; the event log gains the heartbeat of a valid request and at most one terminal event |
| RunnerQueue.OpenedIffCompleted | packages/autonomous-scheduler/src/index.ts:1446-1469 | The branch was pushed and the pull request opened with an address iff the pipeline completed |
| RunnerQueue.LeftWithoutResultIff | packages/autonomous-scheduler/src/index.ts:1458-1490 | The result check leaves a request without a result iff it was valid, its plan was accepted, and what was given for the result is invalid or the pull request was opened and no changed files were listed |
| RunnerQueue.OpensWithoutResult | packages/autonomous-scheduler/src/index.ts:1458-1490 | For every valid request with an accepted plan: when every command passes and no files are listed, the pull request is opened and no result is written |
| RunnerQueue.PlainIsAccepted | packages/autonomous-scheduler/src/index.ts:480-491 | A request that passes the checks, with an AR- id, one allowed path and one required command |
| RunnerQueue.VariantsAreRejected | packages/autonomous-scheduler/src/index.ts:470-520 | Each way to spoil that request makes it invalid: id, base, prompt, commands, blank, broad, absolute or climbing paths |
| RunnerQueue.AllowedPathsAreRelative | packages/autonomous-scheduler/src/index.ts:1982-1994 | What a valid request lets a worker change is never an absolute path |
| RunnerQueue.OptionsAreChecked | packages/autonomous-scheduler/src/index.ts:534-542 | What is given for a result is valid with both prefixes, a time and named files, and not when one of them is missing |
| RunnerQueue.SingleStartsIff | packages/autonomous-scheduler/src/index.ts:1356-1368 | The enqueued request is the one that gets claimed iff it is valid, its id was new, it can be claimed and nothing enqueued earlier can |
| RunnerQueue.StrayLease | packages/autonomous-scheduler/src/index.ts:1360-1365 | When another request gets claimed, the worker gives up and leaves that request leased and without a result |

## Left out

- Regular-expression work: the scope patterns of the edit engine (the matched starts, in pattern order, are an input), the captured refusal reason and the changed paths of command output (functions of the output), and branch names.
- RoleGraph.TuneRoleGraph: the default ids of nodes without an id, the messages of the blocking diagnostics, and every part of the packet except the role graph.
- Number formatting: a finite number other than -0 is its decimal form, on the assumption that JavaScript prints different numbers differently; `StableHash` takes the printed text.
- RoleIds.TwoWords: lower-casing is modelled for the code units that it turns into a-z; other letters stay outside a-z and become dashes either way.
- Clocks: an atomic queue method reads the clock once per call; between interleaved workers every reading of the clock is a step of its own. Timestamps of messages and event ids are not part of the model.
- LeaseQueue.JsonlAgentQueue.ClaimNext: writing a claim file is one operation; partly written or unreadable files and I/O errors other than an existing file are not modelled.
- QueueRaces.AloneIsAtomic: requires that the listing of results caught every result that is there, as it does when nobody writes meanwhile.
- AgentLoop.AgentRun.RunLoop: a run is played for a finite list of turns; the loop has no bound of its own, and a run that uses the list up is still running.
- AgentTools.ExecuteToolCallsParallel: progress reports may arrive between any two events of the tool phase, which includes orders that no tool would produce; reports after the tool phase, its turn or the end of the run, which the program does not prevent, are assumed away.
- Agent.StatefulAgent.RunPromptMessages: hooks and listeners are total, so the failure message of a thrown hook is not modelled; `isStreaming` is the flag of the active run.
- Abort signals, API keys, context transformation and conversion for the model, and the event stream handed to other callers.
- ProxyStream.StreamProxy: the request itself, response codes, decoding of bytes to text and cancellation; usage figures and signatures are carried as given, the parser of streamed JSON is any function.
- Resilience.CircuitBreaker.Begin: the open and close handlers and the read-only getters.
- Retry.RetryHandler.Execute: which errors are retryable is part of each attempt; sleeping is the list of waits.
- Synthesis.Orchestrate: evidence, trace and memory records, the human approval payload, and the unused iteration cap.
- RunnerPipeline.ExecutePipeline: argument vectors, time limits, prompts, titles and bodies of commands; commands are named by what they do.
- RunnerQueue.RunClaimedAgentRequest: the evidence bundle on disk; of the request check, the fields that the model does not hold; of results, the fields that the program itself fills in.
- The queue daemon, repository manifests, validators, renderers, hashing of packets, telemetry, providers and command-line tools: they add one-branch facts only.
