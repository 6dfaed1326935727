# Reboot coordination of the Container Linux Update Operator

The operator and one agent per node agree on reboots through annotations and
labels of shared node objects. This project models that protocol call by call,
the operator's reconcile pass as it is written, the optimistic update both sides
write through, and the smaller loops around them, and proves what the protocol is
for: not too many nodes reboot at once, no permission is used twice, checks are
fresh, cordons are given back, and every node that asks is rebooted.

`dafny verify dfyconfig.toml` verifies everything.

## How to read it

| file | holds |
|---|---|
| `Lists.dfy` | order-preserving selection and counting |
| `Nodes.dfy` | node objects, selectors, the closures that update a node |
| `Passes.dfy` `Selectors.dfy` | which nodes each phase selects and what it does to them; a whole pass |
| `Protocol.dfy` | operator, agents, administrator and checks as one transition system |
| `Agents.dfy` | an agent's start and reboot as a whole, and what everybody may write |
| `Safety.dfy` | the invariant, the two limits, wanted grants, stable permission |
| `Permits.dfy` `Cordons.dfy` `Gates.dfy` `Windows.dfy` `Annotations.dfy` | what else every run keeps |
| `Reboots.dfy` | a drain before each reboot, and one reboot between a grant and its release |
| `Refinement.dfy` | a pass as one small turn of each node, exact counting, work conservation |
| `Completion.dfy` | every node that wants a reboot gets one, max of them every three passes |
| `Steering.dfy` `Exactness.dfy` | how any state can be led to a grant or a release, and so to a failure after each excluded step |
| `Counterexamples.dfy` | runs from a fresh cluster that show the side conditions are needed |
| `Controller.dfy` | the operator in its imperative form, with failing calls |
| `Retries.dfy` | get-change-put with bounded retries, any number of clients |
| `Statuses.dfy` `Envs.dfy` `Evictions.dfy` | status de-duplication, KEY=VAL parser, drain selection |

One transition system serves two granularities. Every step of `Protocol` is one
API call of the operator or of an agent, one write of the administrator, of a check
or of the status callback, or a crash. A run is a start state and any sequence of
labels (`Exec`); a label that cannot happen leaves the state alone, so a theorem
about all label sequences is about all reachable states. `Always` says that each
step of a run meets a condition in the state it is taken from. Passes that run
without interleaving are the runs that satisfy `PassAtomic`; a pass may stop after
any of its calls.

Three conditions on runs matter, and each can be checked before the step it speaks of:

- `CalmReset`: no agent re-runs its startup reset on a node the operator is committed
  to. That is a node labelled before-reboot that `cleanupState` is done with and
  `checkBeforeReboot` may still grant in this pass; a node it has passed over, or one just
  chosen or labelled, is looked at again first. `CalmResetOf(i)` asks this of node i alone.
- `CalmCount`: no permitted node comes back up between the list of rebooted nodes and
  the list of rebooting ones.
- `CalmPause`: the administrator pauses no node the operator is committed to. Only the
  theorem that every grant is wanted needs it.

They are exact. `SafeStep`, `KeptStep`, `FlightStep` and `EagerStep` prove that every other
step keeps the invariants behind the theorems, and `Exactness` that from every state a run
can reach each step they exclude can really be followed by a failure. The same is done for the
administrator's cordons (`CalmCordon`) and for agents that die after their grant
(`Timely`). `Counterexamples` gives a run from a fresh cluster for each theorem that fails
without its condition. Pass-atomic runs satisfy the three conditions above.

The comments at pkg/operator/operator.go:45-51 and 405-410 take a node that is permitted and
reset for one that has rebooted. An agent that dies before its reboot, or is starting up
when its node is granted, resets the node all the same, and the node is released without a
reboot (`ReleasedUnrebooted`, `UntimelyIsReleased`); `OneRebootPerRelease` says when the
comments are right.

Where the code and its comments differ, the code is modelled. The comment above
`checkBeforeReboot` says that a node which no longer wants its reboot only loses its
label; the update grants it all the same (`GrantKeepsPromise` says when the two agree).
`RetryOnError` shadows the error it means to return, so it always reports success.
`RetryOnConflict` with no attempts reports success without having written.

## Hypotheses

- The set of nodes is fixed; a node's name is its place in the list.
- One operator is active at a time. It may stop anywhere and start over.
- Only the agent, the operator and the administrator's pause write protocol keys, and
  the configured check annotations are none of them: they name entries of `checks`.
- A call of an agent that was under way when the agent died has taken effect, or never
  will, by the time the agent is started again.
- Each node update is atomic. `Retries` is the reason: a successful update commits its
  function once, applied to what was stored just before.
- Runs of the safety theorems start with agents starting up and no node in flight.
  The step lemmas hold from any state that satisfies the invariant.

## Model

| member | source | states |
|---|---|---|
| Selectors.PredicatesMatch | pkg/operator/operator.go:45-84 | the predicates the model selects nodes by are what the source's selectors match, absent keys included |
| Selectors.PhasesMatch | pkg/operator/operator.go:411-439 | each phase's choice is that of its two selectors in a row, or of its label and all its configured annotations |
| Passes.ChosenExactly | pkg/operator/operator.go:451-501 | a node is chosen if and only if the window is open, it wants a reboot, is not labelled, and the three lists and the eligible nodes before it together are fewer than max |
| Passes.UpdateFrame | pkg/operator/operator.go:553-567 | an update writes nothing but the two labels, reboot-ok and the configured annotations; it deletes exactly these and leaves every other annotation and reboot-paused alone |
| Passes.UpdateWrites | pkg/operator/operator.go:387-431 | what each update leaves in the labels and in reboot-ok |
| Lists.CountIsCard | pkg/operator/operator.go:468-479 | the counts the limits speak of are numbers of nodes |
| Agents.StartupExact | pkg/agent/agent.go:95-137 | a start with permission withdrawn takes back the request, lifts the cordon and its mark if the mark is true, and nothing else |
| Agents.RebootExact | pkg/agent/agent.go:143-231 | from seeing permission to the reboot: marked in progress, cordoned, marked as the agent's only if it was, and drained by the call before the reboot, whether the node was cordoned already or not |
| Agents.WaitsExact | pkg/agent/agent.go:300-392 | a waiting agent writes nothing and goes on exactly when it sees what it waits for |
| Agents.EventWrites | pkg/agent/agent.go:236-262 | what each event may write: the agent, the status callback, the administrator and the checks leave each other's keys alone |
| Safety.SafeStep | pkg/operator/operator.go:375-403 | a single call keeps the drain invariant if and only if it is not a startup reset on a node the operator is committed to |
| Safety.KeptStep | pkg/agent/agent.go:102-112 | what is kept of one node is lost by exactly one kind of step of anybody: that node's own startup reset while the operator is committed to it |
| Safety.DrainExclusion | pkg/operator/operator.go:451-516 | for every interleaving of single calls without such resets, at most max nodes are before-labelled or permitted and wanting, so at most max agents are between seeing permission and rebooting |
| Safety.FlightStep | pkg/operator/operator.go:526-551 | the in-flight invariant is lost exactly by such a reset or by a permitted node coming back between the two lists |
| Safety.InFlightBound | pkg/operator/operator.go:468-501 | without those two kinds of step, at most max nodes are before-labelled, after-labelled or permitted in every reachable state |
| Safety.InFlightDoubleBound | pkg/operator/operator.go:451-501 | when permitted nodes do come back between the two lists, with no such reset, at most twice max nodes are in flight in every reachable state |
| Safety.PassAtomicBound | pkg/operator/operator.go:281-333 | both limits hold over every run whose passes are not interleaved, with any crashes, pauses, check writes and aborted passes |
| Safety.ExactCount | pkg/operator/operator.go:468-477 | when markBeforeReboot lists in a state that satisfies the in-flight invariant (so after no reset or comeback FlightStep names), its three lists are pairwise disjoint and their total length is the true number of nodes in flight |
| Safety.GrantsAreWanted | pkg/operator/operator.go:383-400 | in runs that satisfy CalmReset and CalmPause, each granted node has reboot-needed true and is not paused, in progress or permitted already, although the update checks none of it |
| Safety.EagerStep | pkg/operator/operator.go:371-395 | that committed nodes want their reboot is lost by a single call if and only if it is a startup reset or a pause of a node the operator is committed to |
| Safety.AtomicGrantsAreWanted | pkg/operator/operator.go:339-400 | with passes taken as a whole, every grant is wanted, with no further condition |
| Safety.GrantKeepsPromise | pkg/operator/operator.go:371-395 | the granting update does what its comment promises if and only if the node wants its reboot or was permitted already |
| Safety.PermissionStable | pkg/agent/agent.go:301-338 | in every run without an untimely reset of node i itself (CalmResetOf), once its agent has seen permission reboot-ok and reboot-needed stay true until that agent's next reset, whatever the operator and the other agents do |
| Safety.AfterLabelledIsIdle | pkg/operator/operator.go:526-551 | in the same runs, if node i is after-labelled it is permitted, has reboot-needed and reboot-in-progress false, and its agent is not watching for updates |
| Permits.OneDrainPerGrant | pkg/agent/agent.go:114-151 | in every run, with no side condition, the drains of a node use up strictly increasing grant numbers: none without a grant, no grant twice |
| Permits.DrainsBounded | pkg/agent/agent.go:114-116 | so a node is drained at most as often as it was granted a reboot |
| Permits.WaitEndsWithdrawn | pkg/agent/agent.go:341-392 | an agent goes on from its startup wait only while reboot-ok is not true |
| Cordons.CordonLocal | pkg/agent/agent.go:153-188 | one event keeps the cordon bookkeeping if and only if it is not a cordon set while agent-made-unschedulable is true, or between the agent's finding the node not cordoned and that mark; the agent lifts no cordon but its own |
| Cordons.CordonRoundTrip | pkg/agent/agent.go:95-137 | in every run without such a cordon, whenever an agent waits for permission, wherever it crashed before, the cordon is as the administrator last set it; a cordon set by the administrator is never lifted |
| Cordons.CordonLost | pkg/agent/agent.go:120-134 | outside that condition it fails: a cordon set while agent-made-unschedulable is true is lifted by the agent's next start |
| Cordons.CordonLostAfter | pkg/agent/agent.go:120-137 | every run that comes to such a start goes on to one in which the agent waits for permission and the administrator's cordon is gone |
| Cordons.DrainedIsCordoned | pkg/agent/agent.go:181-188 | a node is unschedulable whenever its agent drains or reboots it, unless the administrator uncordons it then |
| Gates.GatesOpenFresh | pkg/operator/operator.go:553-578 | permission is given or withdrawn only if each configured annotation was written true after the label of this cycle was put on |
| Gates.OkChangesAtGates | pkg/operator/operator.go:419-431 | reboot-ok turns true only by checkBeforeReboot and from true only by checkAfterReboot, and then to false, in any state |
| Gates.ChecksGoWithLabel | pkg/operator/operator.go:349-357 | whenever a node loses its before-reboot or after-reboot label, the annotations that label waited for are gone too |
| Windows.ClosedWindow | pkg/operator/operator.go:457-466 | while every list falls outside the window the set of nodes in flight only shrinks, and only a node in flight at the start is ever drained |
| Annotations.NeededLabelMirrors | pkg/agent/agent.go:102-112 | from a node's first reset on, its reboot-needed label equals its reboot-needed annotation in every run |
| Annotations.InProgressTruthful | pkg/agent/agent.go:160-172 | reboot-in-progress is true while the agent cordons, drains and reboots, and false from its reset until then, in every run |
| Reboots.DrainedBeforeReboot | pkg/agent/agent.go:181-227 | in every run, with no side condition, a node has been drained at least as often as rebooted, has set out to drain at least as often as drained, and was granted at least as often |
| Reboots.InStepStep | pkg/operator/operator.go:405-431 | the numbers of grants, reboots and releases stay in step through a single call if and only if it is timely: no death of the agent between grant and reboot, and no grant while the agent is starting up |
| Reboots.OneRebootPerRelease | pkg/operator/operator.go:45-51 | in every run of such calls without an untimely reset of the node, each release follows exactly one reboot since its grant |
| Refinement.PassRefines | pkg/operator/operator.go:281-333 | an error-free pass over lists equals one turn of every node followed by labels on the first min(max - in flight, eligible) nodes in list order |
| Refinement.ReachablePassRefines | pkg/operator/operator.go:281-333 | this holds in every state a run without untimely resets reaches |
| Refinement.TurnComposes | pkg/operator/operator.go:339-365 | of the four conditional updates a pass applies in a row, a node in an invariant state meets at most one |
| Refinement.OneStagePerPass | pkg/operator/operator.go:411-551 | a pass changes a node only by taking it one stage on |
| Refinement.WorkConserved | pkg/operator/operator.go:485-513 | after an error-free pass in the window either max nodes are in flight or no eligible node is left unlabelled, and no pass goes over the limit |
| Refinement.ClosedPassTurns | pkg/operator/operator.go:457-466 | a pass outside the window still takes every node under way one stage on, and labels none |
| Completion.RoundProgress | pkg/operator/operator.go:411-439 | each pass followed by a quiet time lowers the passes left by exactly one, whatever stages the nodes are in |
| Completion.AllRebootOnce | README.md:22-25 | for any max of at least one, from k wanting nodes and none in flight, after 3b + 1 such rounds, b being k / max rounded up, each of them has rebooted exactly once, no other node has, and nothing is wanted or in flight |
| Completion.DoneExactlyThen | pkg/operator/operator.go:526-551 | and the work is not done after fewer rounds |
| Completion.GoodRoundsExist | pkg/agent/agent.go:143-231 | such rounds exist from every start: the checks can be written and the permitted agent can finish |
| Exactness.ResetLosesIdleness | pkg/operator/operator.go:526-551 | from every state, a reset of a node the operator is committed to can be followed, with no further reset, by an after-reboot label beside an agent that sets out to drain |
| Exactness.ResetLosesPermission | pkg/operator/operator.go:387-431 | and then by the release of that node while its agent drains it: it is in flight for nobody |
| Exactness.LostWishIsGranted | pkg/operator/operator.go:383-395 | from every state, a node reset or paused while the operator is committed to it can be granted in that pass although it does not want its reboot |
| Exactness.ComebackIsMiscounted | pkg/operator/operator.go:468-477 | a permitted node that comes back between the two lists can go uncounted: the three lists are shorter than the nodes in flight |
| Exactness.MiscountGoesOver | pkg/operator/operator.go:479-513 | when max nodes are in flight, one of them uncounted, and another wants a reboot, the next list and label go over the limit |
| Exactness.CordonIsUndone | pkg/agent/agent.go:120-134 | from every state, a cordon CalmCordon excludes can be gone when the agent waits for permission, without the administrator's having touched it again |
| Exactness.UntimelyIsReleased | pkg/operator/operator.go:405-439 | from every state that keeps the node's invariant, an untimely step can be followed by the release of the node with no reboot in between |
| Counterexamples.RestartBreaksExclusion | pkg/operator/operator.go:383-400 | a run from a fresh cluster with max 1 in which an agent restarts before its grant and two agents drain at once |
| Counterexamples.ComebackBreaksInFlightBound | pkg/operator/operator.go:451-477 | a run that satisfies CalmReset, with max 1, in which two nodes are in flight, twice the limit |
| Counterexamples.PauseBreaksWantedGrants | pkg/operator/operator.go:383-395 | a run that satisfies CalmReset in which a node paused after it was listed is granted its reboot |
| Counterexamples.RestartBreaksIdleness | pkg/operator/operator.go:526-551 | a run with an untimely reset in which a node is after-labelled while its agent is permitted |
| Counterexamples.RestartBreaksPermission | pkg/operator/operator.go:411-431 | a run with an untimely reset in which permission is withdrawn from an agent that has seen it |
| Counterexamples.CordonLostInRun | pkg/agent/agent.go:114-134 | a run from a fresh cluster in which the agent dies before it takes back its mark and the administrator's cordon is lifted |
| Counterexamples.ReleasedUnrebooted | pkg/operator/operator.go:45-51 | a run from a fresh cluster in which an agent dies while draining and its node is released without a reboot |
| Controller.HasAllAnnotations | pkg/operator/operator.go:569-578 | true exactly when every configured annotation is present and true |
| Controller.FilterNodes | pkg/k8sutil/selector.go:24-47 | the matching nodes in list order, all of them and no other |
| Lists.FilterAt | pkg/k8sutil/selector.go:24-34 | a filtered list is what lies at the matching positions, in their order |
| Controller.ChooseNodes | pkg/operator/operator.go:497-501 | the first nodes in line, as many as there is room for |
| Controller.ChosenNodes | pkg/operator/operator.go:451-501 | the nodes chosen are those the phase is specified to select: none outside the window or at the limit |
| Controller.RebootingNodes | pkg/operator/operator.go:468-474 | the length of the three appended lists is the count of permitted and wanting, before-labelled and after-labelled nodes |
| Controller.RebootableNodes | pkg/operator/operator.go:486-487 | exactly the nodes that want a reboot and are not labelled, in list order |
| Controller.NodeObject.DeleteAnnotations | pkg/operator/operator.go:390-393 | removes exactly the named annotations and keeps every other with its value |
| Controller.NodeObject.CleanupClosure | pkg/operator/operator.go:346-358 | what cleanupState does to one node |
| Controller.NodeObject.GrantClosure | pkg/operator/operator.go:387-395 | what checkBeforeReboot does to one node |
| Controller.NodeObject.ReleaseClosure | pkg/operator/operator.go:423-431 | what checkAfterReboot does to one node |
| Controller.NodeObject.MarkClosure | pkg/operator/operator.go:553-567 | what mark does to one node |
| Controller.Kontroller.UpdateEach | pkg/operator/operator.go:383-400 | the closing loop of a phase commits the first updates of its work list, all of them unless it reports an error; no call follows a failed one |
| Controller.Kontroller.CleanupState | pkg/operator/operator.go:339-365 | commits a prefix of the phase's updates, and reports an error exactly when a call failed; all of them without one; the failed call is the last, and there is one list and one call for each update |
| Controller.Kontroller.CheckAfterReboot | pkg/operator/operator.go:411-439 | the same, for nodes whose after-reboot checks are complete |
| Controller.Kontroller.MarkAfterReboot | pkg/operator/operator.go:526-551 | the same, for nodes that just rebooted |
| Controller.Kontroller.CheckBeforeReboot | pkg/operator/operator.go:375-403 | the same, for nodes whose before-reboot checks are complete |
| Controller.Kontroller.MarkBeforeReboot | pkg/operator/operator.go:451-516 | the same, for the nodes chosen within limit and window |
| Controller.Kontroller.Process | pkg/operator/operator.go:281-333 | an error is reported exactly when a call failed, and that call is the pass's last; then some phases are complete, the next is done in part, and the rest not begun; it makes no calls but the lists and updates of these phases |
| Controller.StoppedAtEnd | pkg/operator/operator.go:281-333 | a pass that reports no error is exactly the error-free pass the other theorems speak of |
| Controller.PassReplays | pkg/operator/operator.go:281-333 | a pass, wherever it stopped, is a run of the transition system from idle to idle beside any agents |
| Controller.PassKeepsLimits | pkg/operator/operator.go:281-333 | so it keeps the in-flight invariant and limit whichever of its calls fail |
| Retries.UpdatesLinearize | pkg/k8sutil/metadata.go:59-77 | for any number of clients and any interleaving the stored node is the fold of the committed functions in commit order; nil means one commit, an error none unless the reply was lost; at most Steps calls |
| Retries.AttemptDecides | pkg/k8sutil/metadata.go:60-70 | how one attempt among many clients ends: a failed get or put ends the update, a conflict goes on to the next attempt, an unhindered put commits f of what was read |
| Retries.GivesUpLast | pkg/k8sutil/retry.go:63-81 | a client that meets nothing but conflicts gives up only when all its attempts are used up, and then the others have committed at least as often |
| Retries.NilNeedsAnAttempt | pkg/k8sutil/retry.go:63-81 | nil means committed if and only if at least one attempt is configured |
| Retries.Store.Try | pkg/k8sutil/metadata.go:60-70 | one attempt commits its function exactly when its put is carried out and nobody else has written since its get, and reports it unless the answer is lost; it conflicts exactly when somebody has and the answer arrives |
| Retries.Store.UpdateRetry | pkg/k8sutil/metadata.go:59-77 | the loop itself, against arbitrary writes of others: it goes on exactly while attempts conflict; only the last attempt adds its function to the history, and does so exactly when its put is carried out, which an error does not rule out if the answer was lost |
| Retries.ContendedAddNothing | pkg/k8sutil/retry.go:66-76 | the attempts before the last add nothing of their own to the history |
| Retries.RetryOnError | pkg/k8sutil/retry.go:84-96 | stops at the first success; never reports an error, although it succeeds only if some attempt does |
| Statuses.WatchUpdateStatus | pkg/agent/agent.go:284-298 | the callback gets exactly the statuses whose operation differs from the one before |
| Statuses.ChangesAre | pkg/agent/agent.go:291-297 | the callbacks are the statuses at exactly the positions where the operation is not the one before, unchanged and in order |
| Statuses.ChangesExact | pkg/agent/agent.go:287-297 | neighbouring callbacks differ, the first is not empty, the last is the stream's last operation |
| Statuses.ChangesKeep | pkg/agent/agent.go:292-296 | an operation is reported if and only if it occurs in the stream |
| Statuses.NeededByStream | pkg/agent/agent.go:236-262 | the node ends up needing a reboot exactly when it did before or the stream calls for one |
| Statuses.StatusReflects | pkg/agent/agent.go:239-243 | the status annotation shows the stream's last operation, the other two what came with it at its last change |
| Envs.SplitNewlineEnv | pkg/k8sutil/metadata.go:151-163 | the scanning loop computes the parse |
| Envs.LineSets | pkg/k8sutil/metadata.go:153-161 | a line with '=' sets what is before the first one to what is after it, less one trailing carriage return |
| Envs.LineSkipped | pkg/k8sutil/metadata.go:156-159 | a line without '=', such as a comment or an empty line, changes nothing |
| Envs.LineEndsParse | pkg/k8sutil/metadata.go:152-153 | a line beyond the scanner's limit ends the parse, whatever follows |
| Envs.LastLine | pkg/k8sutil/metadata.go:152-153 | the last line counts with or without its newline |
| Envs.ParseOverrides | pkg/k8sutil/metadata.go:188-200 | parsing b on top of a is map override of a by b |
| Envs.RoundTrip | pkg/k8sutil/metadata.go:151-163 | printing any map of printable entries, in any order, and parsing it gives the map back |
| Envs.SurvivesIffPrintable | pkg/k8sutil/metadata.go:152-161 | a single entry survives if and only if its key has no '=' or newline, its value no newline or trailing carriage return, and the line is within the scanner's limit |
| Evictions.GetOwnerDaemonset | pkg/drain/drain.go:49-68 | finds an owner exactly when some DaemonSet owner exists and every DaemonSet lookup before it answered not found |
| Evictions.GetPodsForDeletion | pkg/drain/drain.go:30-45 | the listed pods, in order, that are no mirror pods and have no such owner |
| Evictions.EvictedExactly | pkg/drain/drain.go:33-68 | a pod is evicted unless it is in kube-system, a mirror pod, or owned by an existing DaemonSet that is reached before a lookup fails |
| Evictions.FilterPods | pkg/k8sutil/pods.go:7-15 | the pods that pass the filter, in order |
| Evictions.PodsToEvict | pkg/agent/agent.go:394-413 | exactly those outside kube-system as well, or an error if the pods cannot be listed |

## Left out

- Safety.DrainExclusion: assumes CalmReset, because without it the property is false (RestartBreaksExclusion).
- Safety.InFlightBound: assumes CalmCount as well, because without it the property is false (ComebackBreaksInFlightBound); InFlightDoubleBound says what is left.
- Safety.ExactCount: assumes the in-flight invariant, hence runs with CalmReset and CalmCount.
- Safety.GrantsAreWanted: assumes CalmReset and CalmPause, because without CalmPause the property is false (PauseBreaksWantedGrants).
- Safety.PermissionStable: assumes that node i itself has no untimely reset, because the property is false otherwise (RestartBreaksPermission).
- Safety.AfterLabelledIsIdle: assumes the same, for the same reason (RestartBreaksIdleness).
- Reboots.OneRebootPerRelease: assumes CalmResetOf and TimelyOf for the node, because without TimelyOf the property is false (ReleasedUnrebooted, UntimelyIsReleased).
- Completion.AllRebootOnce: is about runs in which nobody crashes, pauses or asks again; a crash before the grant withdraws the request.
- Leader election, event recording, client construction, flags and main functions.
- The arithmetic of the reboot window: a list is inside it or outside it.
- Selector parsing: selectors are predicates, and `!=` and NotIn match absent keys.
- Backoff delays and jitter: a bounded number of attempts remains.
- The D-Bus and login1 clients and the reading of files: the status stream and the text are inputs.
- `Unschedulable` retries with whatever object a failed update returned; a conflict there counts as a failed call, after which the agent starts over.
- The info labels an agent sets first, and the agent's own time-outs on watches, which count as crashes or as waiting on.
- The daemonset manager and the node labeller: they touch no protocol key.
- Waiting for deleted pods: draining is one step that ends.
- Nodes that join or leave the cluster.
