# Verified core of a SIP cluster

A Dafny model of the parts of a clustered SIP platform that decide things without touching a socket, a clock or a
database, and proofs of what those parts promise over every run.

- **Forwarding proxy.** One server transaction forks to many branches: q-groups in sequence and in parallel, a
  Max-Breadth budget, Timer C, CANCEL with its deferred send, immediate 2xx and 6xx, best-final selection
  (`ContextModel`, the functions on values; `ResponseContext`, the object; the other `Context` modules, the runs).
  The pipeline it drives: validation, loop cookie, Route preprocessing, strict-route swap, next hop, the ACK path
  (`Validation`, `Cookie`, `Routing`, `Forwarding`, `AckRouting`, `LoopSafety`, `Proxy`). And the driver's recursion
  that closes it (`Driver`, `DriverEnds`).
- **Probe.** A four-step plan with cleanup obligations, response correlation, one challenge retry and timers
  (`ProbeModel`, `ProbeEngine`, `ProbeRuns`, `ProbeTheorems`, `ProbeLate`), and its rate-bounded scheduler (`Scheduler`).
- **Affinity token.** The byte layout and its nine ordered checks, the key set and its rotation, and the base64url
  codec (`Token`, `Keys`, `Codec`).
- **Location store.** Compare-and-swap by atomic statements over a shared table, any number of nodes interleaving
  (`LocationStore`).

Code that updates fields in place is a class whose methods are proved equal, state and effects, to functions on values;
the theorems are about runs of those functions. Lemmas whose statement would otherwise trigger Dafny's automatic induction
carry `{:induction false}`: no proof here rests on it. `dafny verify dfyconfig.toml` checks the whole project.

## What a run is

A context's run is well-formed when the request arrives once, and targets arrive only as the answer to an outstanding
question; responses, failures, timers, verdicts and CANCEL arrive in any order (`ContextRuns.Admissible`).
`Driver.PerformIsWellFormed` shows that the driver keeps to this. A probe's run starts at most once and delivers no
response before the first request (`ProbeRuns.Admissible`); `ProbeTheorems.StrayWhileResolving` shows what that assumption
is for.

Several theorems about one run assume distinct branch ids. `ContextIds.DistinctIffNoCollision` says exactly when a run has
them, given a MAC that does not collide on the indices used.

## What the proofs found in the code

- A copy that fails to build makes a later q-group reuse a branch id, and then the end of one fork's stream loses
  another's 2xx (`ContextExamples.FailedCopyReusesBranch`, `ContextExamples.ReusedBranchLosesAcceptance`; exactly when, in
  terms of the target list: `ContextIds.DistinctIffNoCollision`).
- A branch that has concluded can put a further final on record: the driver reads its stream on and feeds its end as a
  failure. Arriving before the last branch's answer, that 503 displaces a 504 and the caller gets 500; arriving after it,
  504 (`ContextExamples.BrokenStreamChangesAnswer`; exactly when: `ContextAnswers.FirstsDecideExactly`,
  `ContextAnswers.OrderMattersExactly`).
- The top Via is popped also from responses built locally, an aggregated 401 or 407, Timer C's 408 and the driver's own
  timeout 408; those lose the caller's own Via (`ContextExamples.TimerCLosesVia`, `ContextExamples.KernelTimeoutLosesVia`,
  `ContextExamples.ChallengeLosesVia`; exactly when: `ContextReturnPath.ReturnPathExactly`).
- A CANCEL before target delivery is forgotten and does not stop the fork (`ContextProgress.EarlyCancelForgotten`,
  `ContextProgress.CancelBeforeTargetsForksAnyway`).
- A group whose copies all fail to build, one of several, leaves a context idle and unanswered; if it is the first, for good,
  and later groups that do build are never tried (`ContextExamples.FirstGroupFails`,
  `ContextExamples.FirstGroupFailsForGood`; exactly for which lists: `ContextIdle.IdleExactly`).
- A strict predecessor's rewrite is not undone when three leading Routes are ours (`Routing.StrictPredecessorRecovered`), and
  the token on the value it moved into the Request-URI is dropped unverified (`AckRouting.StrictTokenUnverified`; exactly when:
  `Routing.StrictPredecessorTokens`).
- Loop detection rests on the proxy recognising its own sent-by (`LoopSafety.LoopRefused`).
- The configured defaults for Max-Forwards and Max-Breadth are not checked against 0, so the bounds read "or 1".
- An INVITE answered without the probe's marker is hung up on without an ACK, although the plan's own rule puts the ACK
  before the BYE (`ProbeTheorems.AckOnlyOnMatch`).
- A 2xx to the probe's REGISTER or INVITE that comes after the step was given up leaves a registration or a dialog that
  nothing undoes (`ProbeLate.LateRegistration`, `ProbeLate.LateAnswer`; exactly when: `ProbeLate.UndoneExactly`).
- At revision 2^63 - 1 the compare-and-swap no longer excludes (`LocationStore.SaturatedSwapRepeats`).

## Model

| member | source | states |
|---|---|---|
| ResponseContexts.ResponseContext.Handle | crates/sipx-clstr-proxy/src/context.rs:91-109 | The object, field by field, does on every input exactly what the value-level model does: the whole new state and the ordered effects |
| ResponseContexts.ResponseContext.ForkGroup | crates/sipx-clstr-proxy/src/context.rs:253-342 | Forking on the object: the group taken off the queue, a branch and a copy (with Timer C behind it) per target that builds, the 480 when nothing can be tried |
| ResponseContexts.ResponseContext.ChooseAndAnswer | crates/sipx-clstr-proxy/src/context.rs:556-593 | Selection on the object: R7 and R8, challenge aggregation, the cancel sweep and the end |
| ResponseContexts.ResponseContext.TakeCancel | crates/sipx-clstr-proxy/src/context.rs:425-462 | An upstream CANCEL on the object: answered first, queue dropped, then each pending branch cancelled or its cancel owed |
| ResponseContexts.ResponseContext.NoteProvisional | crates/sipx-clstr-proxy/src/context.rs:742-757 | A provisional marks its branch and reports whether a queued CANCEL is now sendable |
| ResponseContexts.ResponseContext.AggregateChallenges | crates/sipx-clstr-proxy/src/context.rs:608-635 | One response holding every challenge of every branch that answered with this status, in order |
| ContextTheorems.NothingForwardedAfterEnd | crates/sipx-clstr-proxy/src/context.rs:390-419 | Once an INVITE 2xx or any 6xx has gone upstream, or an upstream CANCEL has come after target delivery, no later input in any order forwards another copy (also context.rs lines 425-434, 494-509, 530-553, 704-716) |
| ContextTheorems.RunKeeps | crates/sipx-clstr-proxy/src/context.rs:49-71 | The invariant of every well-formed run: phases, ends, finals, target conservation, who is still trying, and branch identity all hold after every prefix |
| ContextTheorems.StepAnswersFirst | crates/sipx-clstr-proxy/src/context.rs:346-419 | No step answers upstream more than once, and the answer comes first among its effects |
| ContextTargets.SortIsStable | crates/sipx-clstr-proxy/src/context.rs:226-232 | The queue is the resolved list by descending q: nothing lost, and targets of equal q in the order they came in |
| ContextCancels.TargetsConserved | crates/sipx-clstr-proxy/src/context.rs:226-334 | Over every run, targets forwarded followed by targets queued are the stable descending-q sort of the resolved list without the ones no copy builds for; after an early end what was forwarded is a prefix |
| ContextCancels.BreadthBounded | crates/sipx-clstr-proxy/src/forward.rs:91-104 | Branches live at one time share one q, and their Max-Breadth values sum to at most the incoming value, or 1 where that is 0 (section 5.3.3 of RFC 5393; grouping in context.rs lines 264-283) |
| ContextIds.DistinctIffNoRepeat | crates/sipx-clstr-proxy/src/context.rs:291-308 | Branch ids of a run are distinct when the fork-index plan repeats no index, and exactly then once every group was tried |
| ContextIds.AllBuildNoRepeat | crates/sipx-clstr-proxy/src/context.rs:291-308 | A target list whose copies all build uses indices 0, 1, 2 and so on, so it never repeats one |
| ContextIds.NoRepeatIffNoCollision | crates/sipx-clstr-proxy/src/context.rs:264-308 | The fork-index plan repeats no index exactly when no two targets that build lie as far apart as there are targets that fail from the start of one's group to the start of the other's |
| ContextIds.DistinctIffNoCollision | crates/sipx-clstr-proxy/src/context.rs:264-308 | So the branches of a run are distinct exactly when no two targets of its sorted list collide in that way |
| ContextExamples.FailedCopyReusesBranch | crates/sipx-clstr-proxy/src/context.rs:291-308 | A well-formed run that ends with two branches of one id: a first target whose copy fails to build, a second that refuses, a third of lower q |
| ContextExamples.ReusedBranchLosesAcceptance | crates/sipx-clstr-proxy/src/context.rs:530-553 | There the end of the first fork's stream concludes the second fork too, the caller is answered, and the second fork's 2xx is lost |
| ContextCancels.CancelledAtMostOnce | crates/sipx-clstr-proxy/src/context.rs:682-690 | Over a whole run at most one CancelBranch goes to any branch, and only to branches that were forwarded |
| ContextCancels.CancelOnlyAfterProvisional | crates/sipx-clstr-proxy/src/context.rs:438-491 | A cancel caused by an upstream CANCEL, Timer C or a provisional goes only to a branch that has produced a 101-199 (section 9.1 of RFC 3261) |
| ContextCancels.QueuedCancelReleased | crates/sipx-clstr-proxy/src/context.rs:362-378 | A CANCEL queued for a silent branch goes out with that branch's first provisional, if it is still pending then |
| ContextBranches.EventCancels | crates/sipx-clstr-proxy/src/context.rs:511-527 | For every event, the cancels emitted are exactly the branches it takes from pending to cancelling, each once |
| ContextEvents.WithdrawnFacts | crates/sipx-clstr-proxy/src/context.rs:425-462 | The CANCEL sweep over distinct branches acts on each by itself: heard ones are cancelled, silent ones marked |
| ContextProgress.ConclusionLowers | crates/sipx-clstr-proxy/src/context.rs:409-418 | Each conclusion of a live branch lowers (queued targets, live branches) lexicographically |
| ContextProgress.PotentialFalls | crates/sipx-clstr-proxy/src/context.rs:409-419 | No branch event raises live branches plus queued targets, and each conclusion of a live branch lowers that sum |
| ContextProgress.ConcludingAllAnswers | crates/sipx-clstr-proxy/src/context.rs:530-593 | Whoever picks the next conclusion and however, following that choice while a branch is live ends, with none live and, if nothing was answered before, a final response sent upstream |
| ContextProgress.ConclusionsBounded | crates/sipx-clstr-proxy/src/context.rs:409-593 | Whatever branch events come and in whatever order, strays included, there are no more conclusions than live branches and queued targets, and when none is live a final has been sent |
| ContextProgress.NoneLiveMeansAnswered | crates/sipx-clstr-proxy/src/context.rs:253-342 | In every well-formed run, once a list that never leaves a context idle is delivered (one group, or a target that builds in every group), a context with no live branch has sent a final response |
| ContextProgress.AnsweredWasSent | crates/sipx-clstr-proxy/src/context.rs:658-674 | In every run, a context marked answered has sent a final response upstream |
| ContextProgress.EarlyCancelForgotten | crates/sipx-clstr-proxy/src/context.rs:425-462 | A CANCEL before target delivery, a token verdict still awaited or not, is answered and forgotten: every continuation of the run is the same without it |
| ContextProgress.CancelBeforeTargetsForksAnyway | crates/sipx-clstr-proxy/src/context.rs:425-462 | So it does not stop the fork: for every list delivered afterwards, copies go out exactly if the first group holds a target that builds |
| ContextIdle.IdleIffGroupFails | crates/sipx-clstr-proxy/src/context.rs:308-341 | A fork leaves the context idle, unanswered and with nothing live, exactly when every copy of its group fails to build while something was tried or is still queued |
| ContextIdle.IdleForGood | crates/sipx-clstr-proxy/src/context.rs:253-342 | Such a context that never had a branch is deaf: every branch event leaves it as it is and sends nothing, but for a CANCEL, which is answered and drops the queue |
| ContextIdle.NeverAnswered | crates/sipx-clstr-proxy/src/context.rs:253-342 | So over every continuation the caller is never answered, and no target still queued is ever tried |
| ContextIdle.IdleWakes | crates/sipx-clstr-proxy/src/context.rs:530-553 | A context left idle by a later group is different: one more failure of any concluded branch forks on or answers |
| ContextIdle.IdleExactly | crates/sipx-clstr-proxy/src/context.rs:253-342 | Over runs, for every list delivered: some continuation ends idle and unanswered if and only if the sorted list has several groups and one of them holds no target that builds |
| ContextTrying.TryingStep | crates/sipx-clstr-proxy/src/context.rs:253-342 | The invariant behind it: with a list that never idles, a context of a run waits for a branch or has answered after every input |
| ContextTrying.AllBuildKeepsTrying | crates/sipx-clstr-proxy/src/context.rs:291-308 | A list whose copies all build is one that never idles |
| ContextExamples.FirstGroupFails | crates/sipx-clstr-proxy/src/context.rs:308-341 | A well-formed run that ends so: the first group's one target does not build, a second of lower q would |
| ContextExamples.FirstGroupFailsForGood | crates/sipx-clstr-proxy/src/context.rs:308-341 | There no further branch event ever answers the caller or tries the second target |
| ContextAnswers.SelectedOutcome | crates/sipx-clstr-proxy/src/context.rs:541-606 | For every run with no final forwarded on arrival and no CANCEL while targets are queued: when the context selects, every planned branch has been forwarded and has answered, and the status is the preferred one of all the finals on record, with 503 turned into 500 |
| ContextAnswers.SameFinalsSameAnswer | crates/sipx-clstr-proxy/src/context.rs:601-606 | Two such runs that put the same statuses on record answer the same, whatever their order and number (section 16.7 step 6 of RFC 3261) |
| ContextAnswers.FirstsDecideExactly | crates/sipx-clstr-proxy/src/context.rs:530-606 | A run answers what its branches' first finals alone make of it exactly when the finals of branches already concluded are harmless: none preferred to the first finals' best, or a 500 against a 503 |
| ContextAnswers.ArrivalOrderIrrelevant | crates/sipx-clstr-proxy/src/context.rs:541-606 | Two runs over one request and target list whose branches' first finals agree, the first with harmless extras, answer the same exactly when the second's extras are harmless too |
| ContextAnswers.LateFinalMatters | crates/sipx-clstr-proxy/src/context.rs:530-606 | One more final of a concluded branch, just before the selecting one instead of just after it, changes the answer exactly when it is preferred to the best on record and is not a 500 against a 503 |
| ContextAnswers.OrderMattersExactly | crates/sipx-clstr-proxy/src/context.rs:530-606 | The same over whole runs: two well-formed runs of the same inputs that differ in the order of the last two |
| ContextAnswers.OutcomeUnique | crates/sipx-clstr-proxy/src/context.rs:792-801 | A set of branch answers has one outcome |
| ContextExamples.BrokenStreamChangesAnswer | crates/sipx-clstr-node/src/driver.rs:1347-1389 | Two forks answer 504; the end of the first one's stream, fed as a failure, makes the answer 500 if it comes between the two and leaves it 504 if it comes after |
| ContextReturnPath.ReturnPathExactly | crates/sipx-clstr-proxy/src/context.rs:574-586 | Over every run with no final forwarded on arrival, the selected response carries exactly the caller's Via list if and only if the first best final is neither a 401 or 407 nor a 408 built here, Timer C's or the driver's own |
| ContextReturnPath.ForwardedKeepsPath | crates/sipx-clstr-proxy/src/context.rs:360-407 | A provisional, an INVITE 2xx and a 6xx reach the caller with exactly the caller's Via list |
| ContextReturnPath.RunVias | crates/sipx-clstr-proxy/src/context.rs:494-500 | In every run, each final on record was sent by a branch and carries our Via on top of the caller's list, or was built here, is a 408 or a 503, and carries the caller's list |
| ContextExamples.TimerCLosesVia | crates/sipx-clstr-proxy/src/context.rs:494-509 | Timer C on a lone silent branch: the 408 goes out without the caller's topmost Via |
| ContextExamples.KernelTimeoutLosesVia | crates/sipx-clstr-node/src/driver.rs:1351-1361 | The driver's own timeout, a 408 built from the arrival and fed as a response, loses it in the same way |
| ContextExamples.ChallengeLosesVia | crates/sipx-clstr-proxy/src/context.rs:574-586 | A lone 401 goes out without the caller's topmost Via |
| ProxyExamples.StageIsScene | crates/sipx-clstr-proxy/src/context.rs:119-178 | A proxy and an INVITE that meet plain conditions on the request make all of these runs happen, with contacts of any q whose copies build and contacts whose copies do not |
| ProxyExamples.CallIsStage | crates/sipx-clstr-proxy/src/validate.rs:75-138 | One proxy configuration and one INVITE that meet those conditions |
| ContextInvariants.SelectedFinal | crates/sipx-clstr-proxy/src/context.rs:556-593 | The status selected is the best final's, 500 for none or for 503, and never 503 |
| ContextOutcomes.UnavailableOnlyWhenUnavailable | crates/sipx-clstr-proxy/src/context.rs:245-250 | Over all runs an upstream 503 occurs only as the answer to TargetsUnavailable (branch 503s in context.rs lines 380-383) |
| ContextOutcomes.FinishedIsSettled | crates/sipx-clstr-proxy/src/context.rs:718-739 | A finished context has no pending or cancelling branch |
| ContextOutcomes.AcceptanceAlwaysForwarded | crates/sipx-clstr-proxy/src/context.rs:385-396 | An INVITE 2xx from any branch not yet concluded is forwarded, however many finals came before (section 16.7 step 5 of RFC 3261) |
| ContextOutcomes.SelectedOnce | crates/sipx-clstr-proxy/src/context.rs:556-593 | A selected final is sent only if no final went upstream before it |
| ContextOutcomes.SelectedLast | crates/sipx-clstr-proxy/src/context.rs:556-593 | Terminate follows the selected final, and no effect follows that in the whole run |
| Driver.Perform | crates/sipx-clstr-node/src/driver.rs:1424-1529 | The recursion between performing effects and feeding inputs back terminates, and everything runs keep it keeps |
| Driver.PerformIsWellFormed | crates/sipx-clstr-node/src/driver.rs:1424-1529 | Everything the driver does is a well-formed run of the context |
| Driver.PerformAll | crates/sipx-clstr-node/src/driver.rs:1424-1529 | The loop over effects on a context object, with its recursion, computes exactly that |
| Driver.ServeLeavesNoOrphan | crates/sipx-clstr-node/src/driver.rs:1289-1312 | After serving a request no branch waits on a copy that was never sent, and once a list that never idles is delivered the context has answered or is waiting for a branch |
| Driver.UnaddressableStillAnswers | crates/sipx-clstr-node/src/driver.rs:1462-1487 | If no next hop has an address, the recursion still ends, every branch concluded and, for a list that never idles, a final response sent upstream |
| Driver.ListenLeavesNoOrphan | crates/sipx-clstr-node/src/driver.rs:1326-1390 | However the branches' events interleave, the reduction loop stays a well-formed run and never leaves a branch waiting on a copy that was never sent |
| DriverEnds.EndedStreamsSettle | crates/sipx-clstr-node/src/driver.rs:1326-1390 | Once the context has finished, or the stream of every copy that went out has ended and branch ids are distinct, no branch is live and, for a list that never idles, a final response has gone upstream, however events and forks interleave |
| DriverEnds.ServedRequestSettles | crates/sipx-clstr-node/src/driver.rs:1289-1390 | The same for every request from its arrival on, whatever the store, the verdict and the addresses |
| DriverEnds.EndedNotLive | crates/sipx-clstr-node/src/driver.rs:1363-1389 | A branch whose stream has ended never comes back to life, later groups included |
| Proxy.PipelineIsLawful | crates/sipx-clstr-proxy/src/context.rs:293-316 | The real validation, preprocessing and forwarding satisfy what the run theorems assume of a pipeline |
| Proxy.MacGivesBranches | crates/sipx-clstr-proxy/src/cookie.rs:154-166 | A MAC that does not collide on one request's forks gives every planned branch its own id |
| Proxy.EntryPointsAgree | crates/sipx-clstr-proxy/src/ack.rs:123-171 | For every request with a To tag and the same verdict, the ACK path and a response context forward the same copy to the same next hop, or both nothing; a request that carries a token is forwarded by neither before a Valid verdict |
| Proxy.NoCopyBeforeVerdict | crates/sipx-clstr-proxy/src/context.rs:119-211 | In every run of a token-carrying request no copy is sent before a Valid verdict |
| Forwarding.JourneyPreserved | crates/sipx-clstr-proxy/src/forward.rs:123-160 | For every path and surviving Route list, strict or loose, the hops still to visit are path, Routes, target whether or not the swap fires, and the next hop is the first of them (swap at forward.rs lines 218-260, next hop at route.rs lines 193-204) |
| Forwarding.SwapKeepsJourney | crates/sipx-clstr-proxy/src/forward.rs:218-260 | The strict-route swap moves the Request-URI behind the Routes and loses no hop |
| Forwarding.ForwardCopy | crates/sipx-clstr-proxy/src/forward.rs:73-160 | The copy edited header by header is the one the specification function gives, errors included |
| Forwarding.PushPath | crates/sipx-clstr-proxy/src/forward.rs:122-139 | Prepending a stored Path from its last value leaves it in order in front of the Routes |
| Forwarding.PushRecordRoutes | crates/sipx-clstr-proxy/src/forward.rs:106-121 | Record-Route values are pushed so that the last one ends on top |
| Routing.Preprocess | crates/sipx-clstr-proxy/src/route.rs:36-90 | Preprocessing in place: strict recovery, then at most two of our leading Routes popped, with the tokens they carried |
| Routing.StrictPredecessorRecovered | crates/sipx-clstr-proxy/src/route.rs:36-90 | Preprocessing recovers the request a strict predecessor rewrote exactly when no third leading Route is ours (its tokens: next row) |
| Routing.StrictPredecessorTokens | crates/sipx-clstr-proxy/src/route.rs:36-90 | The tokens recovered are those of the loose form exactly when the values popped from it carry none, or three leading Routes are ours with one and the same token: the value moved into the Request-URI is given up with its token |
| Routing.StrictPredecessorExactly | crates/sipx-clstr-proxy/src/route.rs:36-90 | Request and tokens together are what the loose form gives exactly when no third leading Route is ours and no value popped carries a token |
| AckRouting.StrictTokenUnverified | crates/sipx-clstr-proxy/src/ack.rs:123-171 | A token that came alone and was moved into the Request-URI is never verified: that ACK goes out on any verdict, where the loose form waits for one and is refused on Invalid |
| Cookie.RoutingBytesInjective | crates/sipx-clstr-proxy/src/cookie.rs:118-138 | The length-prefixed encoding of the routing state is equal exactly for equal routing fields, an absent tag counting as an empty one, lengths below 2^32 |
| Cookie.EncodeRoutingState | crates/sipx-clstr-proxy/src/cookie.rs:118-138 | The buffer built field by field is that encoding |
| Cookie.HexInjective | crates/sipx-clstr-proxy/src/cookie.rs:194-208 | Hexadecimal text determines its bytes |
| Cookie.CookieOfBranch | crates/sipx-clstr-proxy/src/cookie.rs:154-184 | Reading the cookie back from a branch gives what was written into it, whatever the fork index |
| Cookie.BranchesDistinct | crates/sipx-clstr-proxy/src/cookie.rs:154-166 | Under a MAC that does not collide on them, two branches of one request are equal exactly for equal indices |
| Cookie.MintBranch | crates/sipx-clstr-proxy/src/cookie.rs:154-166 | The branch put together from the two buffers and their hexadecimal text is the specified one, and its cookie reads back |
| LoopSafety.LoopRefused | crates/sipx-clstr-proxy/src/validate.rs:150-175 | A copy that returns with its routing state unchanged under any number of new Vias and passes V1 to V3 is refused as a loop; with no other mark of ours on it, exactly when our own sent-by is one of our identities |
| LoopSafety.SpiralPasses | crates/sipx-clstr-proxy/src/validate.rs:88-105 | Our own mark on a later arrival condemns it exactly when the routing state is the same, if the MAC tells the two states apart |
| LoopSafety.HopsFall | crates/sipx-clstr-proxy/src/forward.rs:86-89 | Along a chain of forwards every proxy sees one hop fewer than the one before it |
| LoopSafety.ChainIsFinite | crates/sipx-clstr-proxy/src/validate.rs:88-99 | Every chain of forwards is no longer than the hops it started with |
| ProbeEngines.ProbeEngine.Handle | crates/sipx-clstr-probe/src/engine.rs:264-278 | The engine object does on every input exactly what the value-level model does: whole new state and ordered effects |
| ProbeEngines.ProbeEngine.CleanUp | crates/sipx-clstr-probe/src/engine.rs:528-554 | Cleanup on the object: the dialog before the registration, one obligation at a time, then the end |
| ProbeRuns.DispatchSound | crates/sipx-clstr-probe/src/engine.rs:264-278 | Every input is passed over or handled so that the engine invariant, the request count, the last Finish, the first verdict, what is owed and the armed timer all survive |
| ProbeTheorems.FinishOwesNothing | crates/sipx-clstr-probe/src/engine.rs:528-581 | Finish comes once and last, with nothing owed: before it every successful REGISTER was followed by an expires=0 REGISTER and every answered INVITE by a BYE |
| ProbeTheorems.NothingForgotten | crates/sipx-clstr-probe/src/engine.rs:190-204 | At every moment of every run an answered INVITE has had its BYE and a registration is removed or still owed its removal |
| ProbeTheorems.VerdictKept | crates/sipx-clstr-probe/src/engine.rs:495-526 | Cleanup never changes the first verdict decided |
| ProbeTheorems.ReportedIsFirstDecided | crates/sipx-clstr-probe/src/engine.rs:563-581 | What Finish reports is the first verdict decided, whenever that was |
| ProbeTheorems.PassIsTheWholePlan | crates/sipx-clstr-probe/src/engine.rs:352-419 | A run reports Pass exactly when its recorded steps are the whole plan, all successful; a Fail names the last recorded step (plan in verdict.rs lines 23-26) |
| ProbeLate.UndoneExactly | crates/sipx-clstr-probe/src/engine.rs:528-554 | Over every run: a BYE is sent exactly if a 2xx to the INVITE was taken while that step ran, and by the end of a finished run a removal exactly if a 2xx to the REGISTER was |
| ProbeLate.GivenUpNeverUndone | crates/sipx-clstr-probe/src/engine.rs:463-490 | Once a REGISTER or INVITE is given up, by its timer, a transport error, a cancellation or a local fault, nothing ever undoes it, whatever arrives later |
| ProbeLate.LateRegistration | crates/sipx-clstr-probe/src/engine.rs:333-350 | A run whose REGISTER times out and then gets its 2xx: it ends without a removal |
| ProbeLate.LateAnswer | crates/sipx-clstr-probe/src/engine.rs:333-350 | A run whose INVITE times out and then gets its 2xx, the engine still cleaning up: it ends without a BYE |
| ProbeTheorems.AckOnlyOnMatch | crates/sipx-clstr-probe/src/engine.rs:394-412 | An answered INVITE is acknowledged exactly when it came back with our marker; a mismatch is hung up on without an ACK |
| ProbeTheorems.StaleChangesNothing | crates/sipx-clstr-probe/src/engine.rs:323-350 | A response with any CSeq but the outstanding one can be inserted anywhere in a run without changing what is learned, done, armed or concluded |
| ProbeTheorems.TakesEffectOnce | crates/sipx-clstr-probe/src/engine.rs:323-350 | Every response takes effect at most once: each later copy of a consumed one is a stutter |
| ProbeTheorems.AlwaysArmed | crates/sipx-clstr-probe/src/engine.rs:422-490 | Every started, unfinished run waits for a step whose timer is armed |
| ProbeTheorems.TwoTimeoutsFinish | crates/sipx-clstr-probe/src/engine.rs:463-490 | Two firings of the timer a run waits on end it, whatever state it is in |
| ProbeTheorems.AtMostSeven | crates/sipx-clstr-probe/src/engine.rs:601-659 | A run sends at most seven requests |
| ProbeTheorems.SevenAreSent | crates/sipx-clstr-probe/src/engine.rs:512-554 | And some run sends seven |
| ProbeTheorems.StrayWhileResolving | crates/sipx-clstr-probe/src/engine.rs:333-350 | A response before the first request, while the target is being resolved, idles the engine exactly when it is a 2xx |
| Codec.DecodeEncode | crates/sipx-clstr-affinity/src/codec.rs:107-168 | Decoding inverts encoding for every byte string |
| Codec.DecodeFailsExactly | crates/sipx-clstr-affinity/src/codec.rs:139-168 | Decoding fails exactly at the first byte outside the alphabet, or else on a length of 1 modulo 4 |
| Codec.ReencodeIsCanonical | crates/sipx-clstr-affinity/src/codec.rs:129-168 | Re-encoding a decoded value restores it up to its unused trailing bits, and exactly when they are zero |
| Codec.EncodeShape | crates/sipx-clstr-affinity/src/codec.rs:43-49 | The encoded length is encoded_len, and every character is in the alphabet |
| Codec.DigitOfLetter | crates/sipx-clstr-affinity/src/codec.rs:94-103 | The alphabet and the digit table are one table read both ways |
| Codec.EncodeParamValue | crates/sipx-clstr-affinity/src/codec.rs:107-127 | The encoding loop computes the specified encoding |
| Codec.DecodeParamValue | crates/sipx-clstr-affinity/src/codec.rs:139-168 | The decoding loop computes the specified decoding, errors and offsets included |
| Codec.MarkerBase64 | crates/sipx-clstr-probe/src/marker.rs:88-117 | The probe's encoder, cutting 24-bit numbers, is the same function |
| Keys.LoadsExactly | crates/sipx-clstr-affinity/src/keys.rs:193-220 | A key set loads exactly when every window opens, one key mints, and at no instant do two entries of one id verify |
| Keys.OpenEntryIsSelected | crates/sipx-clstr-affinity/src/keys.rs:228-233 | In a loaded set the entry of an id whose window is open is the one the id selects |
| Keys.LookupIgnoresOrder | crates/sipx-clstr-affinity/src/keys.rs:228-233 | Lookup in a loaded set does not depend on the order of its entries |
| Keys.OneKeyMints | crates/sipx-clstr-affinity/src/keys.rs:239-244 | Where one key mints, it is the one found |
| Keys.DeadlineStrandsNone | crates/sipx-clstr-affinity/src/keys.rs:264-276 | If the old key's window reaches the retirement deadline, every token minted under it by the switch finds its key at every instant its expiry check would pass, once that window has opened, saturation included |
| Keys.DeadlineIsEarliest | crates/sipx-clstr-affinity/src/keys.rs:264-276 | For lifetimes no shorter than registrations, a window strands no such token exactly when it reaches the deadline |
| Token.MintThenVerify | crates/sipx-clstr-affinity/src/token.rs:431-455 | Verifying a minted token returns exactly its claims if and only if the minting key is the one its id selects, it has not expired, the tenant pin agrees and the partner is consistent; otherwise the first failing step's reason |
| Token.MintedPairVerifies | crates/sipx-clstr-affinity/src/token.rs:445-455 | A pair minted for one dialog verifies, whichever of the two is popped first |
| Token.OnlyMintedVerifies | crates/sipx-clstr-affinity/src/token.rs:466-556 | Verification accepts nothing but what minting writes: the accepted bytes are the mint of the claims returned |
| Token.BodyRoundTrip | crates/sipx-clstr-affinity/src/token.rs:354-378 | Reading a printed body gives the claims back |
| Token.BodyReprints | crates/sipx-clstr-affinity/src/token.rs:518-555 | Printing what was read gives the body back, so no byte of it is free |
| Token.PairIsComplement | crates/sipx-clstr-affinity/src/token.rs:558-572 | Two tokens are a pair exactly when they differ in side and nonce and in nothing else, and that is symmetric |
| Token.MintToken | crates/sipx-clstr-affinity/src/token.rs:341-420 | Minting in fixed buffers, encrypting in place, writes the specified token |
| Token.ParseToken | crates/sipx-clstr-affinity/src/token.rs:466-556 | Steps S1 to S7 over a body buffer decrypted in place give the specified result, first failing step first |
| Token.WriteBytes | crates/sipx-clstr-affinity/src/token.rs:586-590 | Copying into a buffer writes the bytes at the offset, or nothing if they would not fit |
| Token.MintedFitsBudget | crates/sipx-clstr-affinity/src/codec.rs:43-65 | A minted token's parameter takes at most 157 bytes of the 200 allowed |
| Token.MintedNeverTooLarge | crates/sipx-clstr-proxy/src/forward.rs:187-198 | Forwarding with a minted pair never fails for its size |
| Scheduling.Scheduler.Take | crates/sipx-clstr-probe/src/schedule.rs:116-145 | Taking a due target on the object is the specified step |
| Scheduling.Scheduler.Trim | crates/sipx-clstr-probe/src/schedule.rs:147-155 | Trimming keeps exactly the starts the window still holds |
| Scheduling.EarliestDue | crates/sipx-clstr-probe/src/schedule.rs:123-131 | The slot chosen is due, no due slot is earlier, and ties go to the first |
| Scheduling.WindowBound | crates/sipx-clstr-probe/src/schedule.rs:133-155 | For every nondecreasing sequence of times and any jitter, each half-open window of the bound's length holds at most the bound's runs |
| Scheduling.NoneDroppedAllSpaced | crates/sipx-clstr-probe/src/schedule.rs:133-144 | No target is ever dropped, and two starts of one are at least an interval apart |
| Scheduling.OverdueGoesNext | crates/sipx-clstr-probe/src/schedule.rs:116-145 | With a positive interval, a target overdue when another starts runs before that other runs again |
| LocationStore.CommitAlone | crates/sipx-clstr-node/src/postgres_store.rs:182-238 | One commit on the shared table, statement by statement, comes to the specified program |
| LocationStore.Database.Insert | crates/sipx-clstr-node/src/postgres_store.rs:196-210 | The insert is itself the compare-and-swap: it lands exactly when the row is absent |
| LocationStore.Database.Update | crates/sipx-clstr-node/src/postgres_store.rs:211-219 | The update lands exactly on the expected revision |
| LocationStore.LandedFormOneChain | crates/sipx-clstr-node/src/postgres_store.rs:182-238 | Under every interleaving of any number of nodes' statements, with any of them failing before or after it takes effect, landed commits of one row form a single chain of revisions 1, 2, 3 and so on, each issued against its predecessor, and the row holds the last |
| LocationStore.SuccessLanded | crates/sipx-clstr-node/src/postgres_store.rs:222-238 | A reported success always landed, as issued |
| LocationStore.AtMostOneWins | crates/sipx-clstr-node/src/postgres_store.rs:182-238 | No two commits of one row with the same expected revision both land |
| LocationStore.SaturatedSwapRepeats | crates/sipx-clstr-node/src/postgres_store.rs:190-192 | At the end of the 64-bit revision column the swap no longer excludes: two commits with one expected revision both succeed |
| LocationStore.ConflictIsNews | crates/sipx-clstr-node/src/postgres_store.rs:222-225 | A conflict reports a revision newer than the one the commit was issued against, however much later the re-read runs |

## Left out

- SIP parsing and header building belong to a kernel that is not part of this model: a request is its Request-URI, tags,
  Call-ID, CSeq, Via list, Route list of one value per row, Max-Forwards and Max-Breadth; building a header or a response
  from values already parsed succeeds. `crates/sipx-clstr-proxy/src/forward.rs` inserts the `aft` parameter into the text of
  a Record-Route URI; here a Record-Route value is that URI and the token.
- The host part of the configured Record-Route, which the Via repeats, is configuration here, not read out of its text.
- Cryptography is uninterpreted: HMAC, ChaCha20-Poly1305 and SHA-256 are functions. Only `Token.Correct` (what was sealed
  opens) and, for acceptance, `Token.Genuine` (only what was sealed opens) are assumed of the AEAD; injectivity of a MAC is
  assumed only where two values are said to differ.
- Token.MintThenVerify: when the id selects a different key than the minting one, assumes that key does not authenticate the
  token, which is what an ideal construction guarantees.
- ContextAnswers.SelectedOutcome: covers runs without an INVITE 2xx or a 6xx, and without a CANCEL while targets are still
  queued; those end a target set on arrival, so their order matters by design.
- ContextReturnPath.ReturnPathExactly: assumes that a branch's response carries our Via on top of the caller's list, unless
  the driver built it as a timeout.
- ContextProgress.ConcludingAllAnswers: assumes a list that never leaves a context idle, which `ContextIdle.IdleExactly`
  characterises, and one without the collisions of `ContextIds.DistinctIffNoCollision`.
- Driver.PerformAll: a socket that refuses a send ends the call with an error; here sending to an address
  succeeds. CancelBranch and SetTimer reach no clock or socket there either, and nothing is modelled for them.
- Driver.Perform: what a token verifies to and what the store holds are parameters; the driver holds no key set and
  answers every token as invalid, which is one such parameter.
- ProbeTheorems.FinishOwesNothing: is about responses the engine takes; `ProbeLate.UndoneExactly` says what becomes of the
  others.
- Scheduling.NoneDroppedAllSpaced: is per slot; the same address configured twice is two slots.
- LocationStore.AtMostOneWins: holds for expected revisions below 2^63 - 1; `LocationStore.SaturatedSwapRepeats` shows the end
  of the range. Revision 2^64 - 1 has no successor and is not modelled.
- Bit operations of the codec and the byte readers are written as division and remainder; the alphabet is given by ranges.
- ClearTimer is declared by the proxy's effects and never emitted by the context, so it has no constructor here.
- Stateless forwarding, admission bounds, dispatch, the echo server, registrar policy and storage formats, rendering and
  logging: no hard property of their own.
- The in-process change feed of the store: pushed after the database lock is released, it promises no order.
