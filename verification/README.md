# Calls, recordings and messages: what their races keep

A model, in Dafny, of three protocols of a contact-centre platform in which many parties act on one record at once, and proofs of what every run of them keeps.

**The live call** (`apps/call-controller`). A call is one versioned record. Webhooks, softphones, renewals and reconciliations change it concurrently; a change is decided on a copy of the record, written if nobody else wrote meanwhile, and its effects (hang up, ring the next user, voicemail, settle a transfer, let users go) run afterwards.

- `CallState`, `CallControl`, `CallDecisions`: the record, the rules, and every change as a value. `CallDraft` makes the same changes in place, field by field, and each of its methods is proved to make exactly the change the value says.
- `CallStore`: the compare-and-set script and its retry loop, with any number of writers, as a transition system and as the loop itself.
- `CallWorld`: one call as a transition system. A world holds the record, the operations in flight (a multiset), the rings of a fixed-order queue, the users claimed, and two histories. A step is one write, or one read of an operation. Reports of legs arrive at any time, in any order, any number of times, also before the call records the leg.
- `CallInvariants`, `CallChanges`, `CallCommits`, `CallSteps`, `CallReports`, `CallOps`, `CallRings`: the invariant, and its proof change by change and step by step.
- `CallAnswers`, `CallEndings`, `CallRequests`, `CallCourses`, `CallRingCourses`: what each report and each request comes to, exactly, over the fields of the record, and where a course of steps that nothing disturbs ends up.
- `CallTheorems`, `CallProgress`, `CallTimeline`, `CallHandover`, `CallLegs`, `CallTeardown`, `CallHangups`: what follows for every run, and who is hung up. `CallAdrift`: exactly when nobody is left to settle a transfer. `CallFindings`: where the code keeps less than one might expect, with the run.
- `AvailabilityStore`, `AvailabilityOffers`, `AvailabilityFindings`, `AvailabilityService`: the claims on users, the scripts that change them in place, and the offers that claim users against everything else that happens, sockets included.

**Recordings** (`apps/api/src/calls`). Copiers, plays and deletions meet on one row, a media store and the provider, with guarded updates only: `RecordingRules`, `Recording` (the transition system), `RecordingTidiness` (no orphan objects), `RecordingCourses` (where an undisturbed copy, play or deletion ends up), `RecordingFindings`, and `RecordingService` (the operations in place).

**Messages** (`apps/api/src/messaging`). `MessagingSend` and `MessagingRetries` (drafts and their retries, across changes of a line's owner), `MessagingFiling` (where messages end up), `MessagingService` (a send in place), `MessagingInbound` (deliveries with repeats and lost races, opting out), `MessagingStatus` (status callbacks), `MessagingScope` (who may read a thread).

How the model stands to the code:

- A leg carries the party it was dialed for, so that all reports of one leg name the same participant; ids are numbers, and an absent or blank id is `None`. Leg ids are fresh by assumption, as are ids of rows and of provider messages.
- What follows a write is an operation of its own. Follow-ups that the code awaits one after the other may run in any order here, so the model has every run the code has, and more.
- Redis, database and transaction steps succeed; calls of the provider, the media store and the sockets may fail at any time. No operation dies between its write and its follow-up.
- Other parties are methods that change the state in any way the protocol lets them (`OthersWrite`, `OthersAct`), called between any two steps of a method in place. Ghost fields keep the moments at which such a method went on, so that its contract can say what each of its reads and scripts met. How the provider, the media store and the network answer are parameters.

What the code does not keep, with a run for each and the condition under which it is kept:

- A late report that a leg joined has it tracked again, so one leg can end twice (`CallFindings.OneLegEndsTwice`). A leg that is not brought back ends once, and only while tracked (`CallLegs.EndsStayIgnored`, `CallLegs.EndTakesEffectOnlyWhileTracked`).
- A caller an agent is talking to can be pulled into voicemail by an operation decided on before the agent joined: the operation looks at whether anybody is still ringing only on a call that is not answered (`CallFindings.AnsweredCallGoesToVoicemail`, and exactly when in `CallFindings.RoutingKeepsTheAgentOnlyOffVoicemail`).
- A transfer pending at such a pull, its ring recorded and nothing of it in flight, is left with no leg of its target tracked and no operation to settle it (`CallFindings.TransferIsLeftAdrift`). A pending transfer is in that state if and only if such a pull came before, and its target was not rung, nor the transfer taken back, since (`CallAdrift.TransferIsAdriftExactlyAfterAPull`).
- An agent whose leg was brought back by a late join is talking on a leg the call does not track as a ring; pulled into voicemail, the call forgets that leg without hanging it up (`CallFindings.BroughtBackLegIsNotHungUp`; `CallHangups.VoicemailHangsUpTheOthers` says exactly when).
- A registration under way when a socket closes can land after its closing was announced, and a later offer claims its user on the closed socket alone; undoing the registration is not announced, so it may even be undone before the claim lands (`AvailabilityFindings.LateRegistrationIsRung`). A socket whose closing was announced before the claim is rung if and only if a registration landed after the announcement and was not undone before the offer read the sockets (`AvailabilityOffers.ClosedConnectionsAreRungExactlyIfPutBack`).
- A copy whose claim was taken over while it ran, and a drop of a copy that fails, each leave an object no row names (`RecordingFindings`); while no claim goes stale under its holder the objects fit exactly if no drop failed (`RecordingTidiness.NoOrphanAudio`).
- A status callback that comes before the send has recorded its message's provider id is noted and lost; each repeat of it is taken for a duplicate (`MessagingStatus.EarlyCallbackIsLost`).
- Two attempts at one draft whose transactions overlap while the line changes hands are both sent (`MessagingRetries.OverlappingRetriesAreBothSent`). A new message is written beside an attempt that has not failed if and only if that attempt was written, or was delivered after it had failed, between its transaction's read and its write (`MessagingRetries.DuplicatesComeBetween`).

## Model

| member | source | states |
|---|---|---|
| CallState.RemoveLegForgetsExactlyOne | apps/call-controller/src/calls/call-state.ts:176-188 | forgetting a leg takes that leg out of everything the call refers to, and no other leg |
| CallState.NobodyIsForgotten | apps/call-controller/src/calls/call-state.ts:132-173 | whoever a change stops answering for, as occupant or as owner of a tracked leg, is among those it lets go |
| CallState.OnlyThoseGoneAreLetGo | apps/call-controller/src/calls/call-state.ts:154-173 | nobody who still occupies the call is let go by a change, nor anybody the call did not answer for |
| CallState.OccupantsAre | apps/call-controller/src/calls/call-state.ts:122-152 | off voicemail a call occupies exactly the agent talking on it, the teammate it is to be handed to, and whoever has a leg that joined or rings unanswered |
| CallDecisions.ParticipantIsTheParty | apps/call-controller/src/calls/call-state.ts:191-205 | the participant read off the call is known exactly for the caller's, the external and the tracked agent legs, and is the party the leg was dialed for |
| CallDecisions.ControlsExcludeEachOther | apps/call-controller/src/calls/call-control.ts:57-150 | a connected agent may hold and transfer exactly while no transfer is pending, transfer only to somebody else who is not on the call, and cancel exactly a transfer of their own |
| CallDecisions.ReleasedLegsLeaveTheCall | apps/call-controller/src/calls/call-control.ts:161-188 | a hangup planned to release a leg, or to decline, leaves a call that the end of that leg does not remove |
| CallDecisions.TalkingAgentsHangupEndsTheCall | apps/call-controller/src/calls/call-flow.ts:1947-2058 | for the talking agent a hangup is planned to end the call exactly when the end of their leg would remove it |
| CallDecisions.OneLegMore | apps/call-controller/src/calls/call-flow.ts:849-857 | forgetting lost rings one by one is forgetting them together |
| CallAnswers.JoinsSeatExactly | apps/call-controller/src/calls/call-flow.ts:1857-1923 | an agent who joins is on the call by that leg if and only if it was not answered by another agent without being handed to them; otherwise nothing changes at all; a transfer to them is completed, an unanswered caller is answered and the call starts, and no other field is touched |
| CallEndings.EndsExactly | apps/call-controller/src/calls/call-flow.ts:1947-2058 | the end of a leg removes the call if and only if it was ending and this its last leg, or it was not ending and this was the caller's, the outside party's of an outbound or answered call, the unanswered placing agent's, or the talking agent's with no transfer pending; every other call goes on without the leg, owed exactly voicemail, the next ring, the transfer's settlement, or nothing |
| CallRequests.TransfersAreMarkedExactly | apps/call-controller/src/calls/call-flow.ts:824-862 | a transfer is marked if and only if the connected agent asks, none is pending and the teammate is somebody else not on the call; its lost rings are forgotten and its first operation owed; any other request changes nothing |
| CallRequests.TransfersAreCancelledExactly | apps/call-controller/src/calls/call-flow.ts:968-1003 | a connected agent takes a transfer back if and only if it is their own |
| CallRequests.TransfersFailExactly | apps/call-controller/src/calls/call-flow.ts:1204-1247 | a transfer is taken back if and only if it is pending to this teammate; the call stays with a starter still on the line, and otherwise a caller is owed voicemail and a call out its end |
| CallRequests.CallsAreEndedExactly | apps/call-controller/src/calls/call-flow.ts:760-777 | a call is set ending once, with its transfer called off and nothing else touched |
| CallRequests.CallersArePulledExactly | apps/call-controller/src/calls/call-flow.ts:1544-1580 | a caller is pulled into voicemail if and only if the call is not ending, not in voicemail, and was answered or has nobody ringing; every leg but theirs is forgotten and the hold ended |
| CallRequests.VoicemailAnswersExactly | apps/call-controller/src/calls/call-flow.ts:1511-1521 | voicemail before anybody was offered the call answers every call that is not ending |
| CallRequests.HoldsAreAllowedExactly | apps/call-controller/src/calls/call-control.ts:84-101 | an agent may hold if and only if they are connected and no transfer is pending |
| CallRequests.HoldsAreRecordedExactly | apps/call-controller/src/calls/call-flow.ts:1136-1159 | an answered hold is recorded and told if and only if it is news to a call that is not ending |
| CallRequests.DeclinesCountExactly | apps/call-controller/src/calls/call-flow.ts:1006-1048 | a decline takes a transfer to its user back, or lets a user go whose ring is out on an unanswered call, and otherwise changes nothing |
| CallRequests.HangupsArePlannedExactly | apps/call-controller/src/calls/call-control.ts:161-188 | a hangup declines a transfer if and only if its target hangs up a leg they are not talking on, and ends the call if and only if it is ending, or no transfer is pending and nobody answered or the agent is the active one |
| CallCourses.StagesGoOnExactly | apps/call-controller/src/calls/call-flow.ts:876-958 | each stage of a transfer that fails owes the settlement and the release there are to owe and claims nobody; each that comes off is followed by the next, or by a tracked ring |
| CallCourses.TransfersReachTheTeammate | apps/call-controller/src/calls/call-flow.ts:824-965 | from every reachable world, a transfer that may be asked for, to a free teammate who picks up, ends with them talking and the transfer over |
| CallRingCourses.QueuesRingWhomTheyReach | apps/call-controller/src/calls/call-flow.ts:1400-1451 | a queue that has come to a free user whose phone rings has them claimed, rung by a tracked leg and noted as tried |
| CallRingCourses.RingsTogetherReach | apps/call-controller/src/calls/call-flow.ts:1369-1395 | a ring of everybody claims exactly the free, tracks every leg dialed of them, lets go of exactly those without one, and owes voicemail if there is none |
| CallRingCourses.CallsOutConnect | apps/call-controller/src/calls/call-flow.ts:265-360 | a call out whose steps come off has its agent talking to the number dialed and starts once it picks up |
| CallRingCourses.ForwardedCallsConnect | apps/call-controller/src/calls/call-flow.ts:1472-1502 | a forwarded caller who is picked up for talks to the outside party, with nothing left to do |
| CallRingCourses.QueuesStartWithTheFirst | apps/call-controller/src/calls/call-flow.ts:366-478 | a caller whose number rings a queue in order has its first user claimed and rung, if they are free and their phone rings |
| CallRingCourses.CallersRingEverybody | apps/call-controller/src/calls/call-flow.ts:366-478 | a caller whose number rings everybody at once has exactly those rung whose leg is dialed of the free |
| CallRingCourses.VoicemailCallersGetIt | apps/call-controller/src/calls/call-flow.ts:366-478 | a caller without routing is in voicemail at once, and one for voicemail once that is answered |
| CallRingCourses.FailedDialsAreOwed | apps/call-controller/src/calls/call-flow.ts:1485-1499 | an outside leg that could not be dialed owes a caller voicemail and a call out its removal, and a call over or ending nothing |
| CallRingCourses.ClaimsMoveExactly | apps/call-controller/src/calls/call-flow.ts:1788-1823 | over every step, a user is claimed for the call only by an accepted offer, a call out being placed or a renewal, and given up only by a release or by running out |
| CallRingCourses.ReleasesGoOn | apps/call-controller/src/calls/call-flow.ts:1805-1823 | a release gives up the claims the store answers for and is tried again for the others |
| CallRingCourses.RenewalsAreChecked | apps/call-controller/src/calls/call-flow.ts:726-749 | a renewal claims whom the call occupied as it was read, and lets go of exactly those whom changes since have let go |
| CallDraft.Draft.ForgetLeg | apps/call-controller/src/calls/call-state.ts:176-188 | in place, the whole new record is the old one without the leg |
| CallDraft.Draft.AgentJoins | apps/call-controller/src/calls/call-flow.ts:1857-1923 | in place, record and decision are those of `AgentJoined`: intruder, first answer, or completed transfer |
| CallDraft.Draft.LegEnds | apps/call-controller/src/calls/call-flow.ts:1947-2058 | in place, record, plan and removal are those of `LegEnded` in each of its branches |
| CallDraft.Draft.RequestEnd | apps/call-controller/src/calls/call-flow.ts:764-777 | in place, the call is ending and its transfer called off, once |
| CallDraft.Draft.MarkTransfer | apps/call-controller/src/calls/call-flow.ts:839-862 | in place, a transfer is refused without a change, or the target's lost rings are forgotten in a loop and the mark, its starter and its origin set |
| CallDraft.Draft.FailTransfer | apps/call-controller/src/calls/call-flow.ts:1211-1230 | in place, a pending transfer to the target is taken back with its plan, its starter and its rings, and nothing else is |
| CallDraft.Draft.RecordHold | apps/call-controller/src/calls/call-flow.ts:1136-1150 | in place, the hold flag changes only on a call that is not ending and only to its opposite |
| CallDraft.Draft.PullIntoVoicemail | apps/call-controller/src/calls/call-flow.ts:1550-1580 | in place, a caller is moved with every other leg forgotten and the hold ended, unless the call stays off voicemail |
| CallDraft.Draft.AnswerByVoicemail | apps/call-controller/src/calls/call-flow.ts:1515-1521 | in place, a call that is not ending is answered with voicemail |
| CallDraft.Draft.TakeTurn | apps/call-controller/src/calls/call-flow.ts:1416-1422 | in place, a fixed-order ring takes a turn only on a call that still needs anybody rung |
| CallDraft.Draft.RegisterLegs | apps/call-controller/src/calls/telephony.service.ts:600-628 | in place, in a loop, every dialed leg is tracked and ringing, or none if the call is ending |
| CallDraft.Draft.RecordExternal | apps/call-controller/src/calls/telephony.service.ts:665-674 | in place, a dialed external leg is recorded unless the call is ending |
| CallStore.Record.EvalScript | apps/call-controller/src/calls/telephony.service.ts:112-123 | the script writes, refuses or reports the record missing, by the version alone, and each write goes on the end of one line of writes |
| CallStore.Record.UpdateCallState | apps/call-controller/src/calls/telephony.service.ts:319-366 | the retry loop: a change reported landed once, on the call it was decided on, and is what is stored; anything else reported means nothing was written; giving up means ten writes of others landed |
| CallStore.WritesHappenOneByOne | apps/call-controller/src/calls/telephony.service.ts:319-366 | for any number of interleaved writers, what is stored is what the successful decisions come to one after the other, each made on exactly what the one before it left |
| CallStore.NoUpdateIsLost | apps/call-controller/src/calls/telephony.service.ts:346-366 | a writer wrote once if and only if it was told so; one that gave up was overtaken by ten writes since it arrived |
| CallStore.OneWritePerChange | apps/call-controller/src/calls/telephony.service.ts:332-345 | what a change of the live call stores in one step is what a writer with that decision writes, one version on, and a draft that differs in nothing is not written |
| CallStore.VersionTellsTheCall | apps/call-controller/src/calls/telephony.service.ts:112-123 | two writers that read the same version read the same call, a missing version counting as 0 |
| CallStore.RemovedStaysRemoved | apps/call-controller/src/calls/telephony.service.ts:112-123 | a removed call never comes back, whatever writers still do |
| CallStore.PutsLandExactly | apps/call-controller/src/calls/telephony.service.ts:112-123 | a writer lands exactly if what is stored has the version it read, and then what it decided is stored, one version on; overtaken, it tries again or, after ten attempts, gives up |
| CallStore.RecordsStay | apps/call-controller/src/calls/telephony.service.ts:319-366 | over any run a call stays stored until its time runs out or the last write removed it |
| CallChanges.JoinIsSound | apps/call-controller/src/calls/call-flow.ts:1650-1731 | every join keeps the record well formed, the other party tended to, a pending transfer backed and the timeline true |
| CallChanges.EndIsSound | apps/call-controller/src/calls/call-flow.ts:1947-2058 | so does every end of a leg, or it removes the call (exactly when is `CallEndings.EndsExactly`) |
| CallChanges.MarkIsSound | apps/call-controller/src/calls/call-flow.ts:839-862 | so does marking a transfer, whose follow-up will settle it |
| CallChanges.FailIsSound | apps/call-controller/src/calls/call-flow.ts:1211-1247 | so does a transfer that falls through: the agent keeps the call, or an operation sends the caller to voicemail or ends the call |
| CallChanges.EndRequestIsSound | apps/call-controller/src/calls/call-flow.ts:764-777 | so does a request to end the call |
| CallChanges.RouteIsSound | apps/call-controller/src/calls/call-flow.ts:1550-1580 | so does the pull into voicemail, whose implied resume the timeline hears |
| CallOps.TransferRecordStepKeeps | apps/call-controller/src/calls/call-flow.ts:906-946 | recording the ring of a transfer keeps the invariant, or lets the teammate go |
| CallOps.CheckRenewalStepKeeps | apps/call-controller/src/calls/call-flow.ts:726-749 | a renewal that crossed a change of the call lets go of whom that change let go |
| CallOps.PerformKeeps | apps/call-controller/src/calls/call-flow.ts:824-965 | every step of every operation in flight keeps the invariant |
| CallReports.EndStepKeeps | apps/call-controller/src/calls/call-flow.ts:1309-1360 | a report of a leg's end keeps it, with the follow-up its plan owes |
| CallRings.RingStepKeeps | apps/call-controller/src/calls/call-flow.ts:1400-1451 | every step of a fixed-order ring keeps it |
| CallTheorems.RunKeeps | apps/call-controller/src/calls/call-flow.ts:1788-1823 | the invariant holds at every moment of every run of a call |
| CallTheorems.NobodyIsStranded | apps/call-controller/src/calls/call-flow.ts:1947-2058 | at every moment a call that is neither ending nor in voicemail has a talking agent, a transfer, a forwarded leg, a ring, or an operation that owes one or closes the call; and a pending transfer off voicemail has a tracked leg of its target or an operation that will settle it |
| CallAdrift.StepStaysBacked | apps/call-controller/src/calls/call-flow.ts:824-1017 | a step after which a pending transfer with a tracked leg of its target, or an operation to settle it, is still pending leaves it one, if and only if the step is not a pull into voicemail with nothing in flight to settle it |
| CallAdrift.TransferIsAdriftExactlyAfterAPull | apps/call-controller/src/calls/call-flow.ts:1544-1608 | at every moment of every run, in voicemail too, a pending transfer has neither a tracked leg of its target nor an operation that will settle it if and only if such a pull came before and its target was not rung, nor the transfer taken back, since |
| CallTheorems.QuietCallIsTended | apps/call-controller/src/calls/call-flow.ts:1204-1270 | with nothing in flight, the record alone answers for the other party and for a pending transfer |
| CallTheorems.ClaimsDoNotLeak | apps/call-controller/src/calls/call-flow.ts:1788-1823 | with nothing in flight, whoever is claimed for the call occupies it or owns a leg it tracks; a removed call holds nobody |
| CallTheorems.RingTakesTheQueueInOrder | apps/call-controller/src/calls/call-flow.ts:1400-1451 | a fixed-order ring tries the queue's positions one after the other, each once for its user, with at most one ring at work or out, and an unanswered caller is in voicemail only once all were tried |
| CallProgress.ClosingDelivers | apps/call-controller/src/calls/call-flow.ts:1544-1608 | an operation that is to close a call leaves it gone, ending, in voicemail or tended to |
| CallProgress.RingTogetherAdvances | apps/call-controller/src/calls/call-flow.ts:1369-1395 | every step of ringing everybody at once has a ring out, a closing operation owed, or an operation with fewer steps left |
| CallProgress.ForwardAdvances | apps/call-controller/src/calls/call-flow.ts:1472-1502 | every step of forwarding a caller has the outside leg recorded, the way to voicemail owed, or an operation with fewer steps left |
| CallProgress.RingAdvances | apps/call-controller/src/calls/call-flow.ts:1400-1451 | at every moment of every run, a step of a fixed-order ring on a call that is not ending comes nearer to the end of the queue, or ends the ring: with its leg recorded, or with the operation that sends the caller to voicemail |
| CallProgress.SettlingAdvances | apps/call-controller/src/calls/call-flow.ts:876-958 | every step of a transfer settles it, has its ring tracked, or leaves an operation with fewer steps left |
| CallTimeline.TransfersSettleOnce | apps/call-controller/src/calls/call-flow.ts:839-862 | at every moment transfers marked are those completed, failed and called off, and one more if one is pending or was dropped by the removal |
| CallTimeline.SettlementsMatchTheirMarks | apps/call-controller/src/calls/call-flow.ts:1862-1906 | each settlement settles the transfer that was open, for the teammate it was marked for, and a mark is made only when none is open |
| CallTimeline.StartsAndEndsOnce | apps/call-controller/src/calls/call-flow.ts:1615-1646 | a call is reported started at most once and only if answered, and ended exactly once, when its record is removed |
| CallTimeline.HoldsAlternate | apps/call-controller/src/calls/call-flow.ts:1136-1159 | holds and resumes alternate, starting with a hold, the resume implied by voicemail included, and the last one is how the call stands |
| CallHandover.AgentChangesOnlyByTransfer | apps/call-controller/src/calls/call-flow.ts:1857-1923 | from an answered call with an active agent, the only step to another agent is the join of the teammate a pending transfer was marked for, which completes it |
| CallHandover.IntrudersChangeNothing | apps/call-controller/src/calls/call-flow.ts:1870-1881 | the join of an agent other than the active one, on an answered call whose transfer, if any, is to somebody else, leaves the whole world as it was |
| CallHangups.FirstAnswerSilencesTheOthers | apps/call-controller/src/calls/call-flow.ts:1908-1921 | a first answer hangs up every other tracked leg, all rings still out among them, and not the winner's |
| CallHangups.HandoverReleasesTheOthers | apps/call-controller/src/calls/call-flow.ts:1883-1894 | a completed transfer goes from who started it to who joined, and leaves no leg of another agent on the line |
| CallHangups.RemovalLeavesNobodyOnTheLine | apps/call-controller/src/calls/call-flow.ts:1957-2038 | a removed call has every leg left on it hung up, but for a forwarded call whose outside party left |
| CallHangups.VoicemailHangsUpTheOthers | apps/call-controller/src/calls/call-flow.ts:1550-1588 | a caller pulled into voicemail keeps their own leg only; everybody else is hung up if and only if the talking leg is a tracked one |
| CallHangups.FailureHangsUpTheTarget | apps/call-controller/src/calls/call-flow.ts:1211-1247 | a transfer that falls through hangs up every leg of its target but a talking one, and never the agent the call returns to |
| CallLegs.StepAccounts | apps/call-controller/src/calls/telephony.service.ts:600-674 | a leg appears on a call only by a join or a recorded dial, and on an ending call only by a join |
| CallLegs.EndTakesEffectOnlyWhileTracked | apps/call-controller/src/calls/call-flow.ts:1953-1978 | a report of a leg's end changes something if and only if the call tracks the leg, and then no longer does |
| CallLegs.EndsStayIgnored | apps/call-controller/src/calls/call-flow.ts:1953-1955 | over any run that does not bring a leg back, a leg that is not tracked stays so and reports of its end change nothing |
| CallTeardown.TeardownConverges | apps/call-controller/src/calls/call-flow.ts:1957-1966 | reports of an ending call's legs, in any order and with repeats, remove it exactly when they cover its legs, and leave it those not reported |
| CallTeardown.EndingCallsAreRemoved | apps/call-controller/src/calls/call-flow.ts:1957-1966 | over any run without further joins, whatever else happens in between, an ending call is gone once each of its legs was reported ended |
| CallFindings.OneLegEndsTwice | apps/call-controller/src/calls/call-flow.ts:1891-1894 | a run in which a late join brings a leg back and its end takes effect twice |
| CallFindings.AnsweredCallGoesToVoicemail | apps/call-controller/src/calls/call-flow.ts:1550-1560 | a run in which a caller who is talking to an agent is pulled into voicemail |
| CallFindings.BroughtBackLegIsNotHungUp | apps/call-controller/src/calls/call-flow.ts:1550-1588 | a run in which the pull forgets the leg of the agent who is talking and does not hang it up |
| CallFindings.TransferIsLeftAdrift | apps/call-controller/src/calls/call-flow.ts:1550-1588 | a run in which the pull forgets the recorded ring of a pending transfer, and nothing tracked or in flight will settle it |
| CallFindings.RoutingKeepsTheAgentOnlyOffVoicemail | apps/call-controller/src/calls/call-flow.ts:1550-1577 | the pull leaves the talking agent on the call if and only if the call stays off voicemail |
| AvailabilityStore.ClaimSettles | apps/call-controller/src/realtime/availability-store.ts:57-72 | a claim is refused exactly at another revision, changing nothing; it adds its call to the live claims, and is new, and moves the revision on, exactly if it was not live |
| AvailabilityStore.RenewalSettles | apps/call-controller/src/realtime/availability-store.ts:88-102 | a renewal makes the call's claim live, and moves the revision on exactly if it was not |
| AvailabilityStore.TimeSettles | apps/call-controller/src/realtime/availability-store.ts:36-71 | time only takes live claims away, and the expiry of the claims' key takes no live claim |
| AvailabilityStore.ClaimsLastALifetime | apps/call-controller/src/realtime/availability-store.ts:36-72 | a claim or a renewal counts for exactly a lifetime, also over the expiry of the key |
| AvailabilityStore.ChangeSettles | apps/call-controller/src/realtime/availability-store.ts:104-125 | a change of connection moves the revision on; a toggle sets do not disturb, and moves it on exactly if it changed something |
| AvailabilityStore.Store.Claim | apps/call-controller/src/realtime/availability-store.ts:57-72 | the script in place: reply and user are those of `Claimed`, other users untouched |
| AvailabilityStore.Store.Renew | apps/call-controller/src/realtime/availability-store.ts:88-102 | the script's loop renews each user's claim and answers exactly the positions claimed again |
| AvailabilityStore.Store.SetDoNotDisturb | apps/call-controller/src/realtime/availability-store.ts:112-125 | the script in place: a toggle that changes something moves the revision on |
| AvailabilityOffers.AvailableMeansFree | apps/call-controller/src/realtime/availability-rule.ts:29-40 | the rule says available exactly with a softphone connected, do not disturb off and no other call's claim, and otherwise offline before do not disturb before busy |
| AvailabilityOffers.OffersTakeOnlyTheFree | apps/call-controller/src/realtime/availability.service.ts:193-236 | over any interleaving, each claim an offer took landed at an instant when do not disturb was off and no other call had a live claim |
| AvailabilityOffers.OffersEndExactly | apps/call-controller/src/realtime/availability.service.ts:193-236 | in every run an offer is made if and only if it found a softphone connected, do not disturb off and no other live claim, and the revision is the one it read; otherwise it is refused for what it found, in the rule's order, tried again if it was overtaken, or refused as busy after five attempts |
| AvailabilityOffers.OffersDoNotShareAUser | apps/call-controller/src/realtime/availability.service.ts:193-236 | a later offer of another call took the user only after the earlier claim was let go or had run out |
| AvailabilityOffers.AnnouncedBeforeReading | apps/call-controller/src/realtime/availability.service.ts:193-236 | whatever change of a connection was announced before a claim landed was announced before the offer read the store, and so before it read the sockets it rings |
| AvailabilityOffers.OffersRingAnnouncedConnections | apps/call-controller/src/realtime/availability.service.ts:142-150 | a connection whose change was announced before a claim landed is rung if and only if presence had it at the announcement and it did not leave before the offer read the sockets, or it was put back in between |
| AvailabilityOffers.ClosedConnectionsAreRungExactlyIfPutBack | apps/call-controller/src/realtime/socket-handlers.ts:74-86 | a closed connection whose closing was announced before a claim landed is rung if and only if a registration landed after the announcement and was not undone before the offer read the sockets; at that read its unregistration was in flight |
| AvailabilityOffers.ClosedSocketsAreForgotten | apps/call-controller/src/realtime/socket-handlers.ts:74-86 | however heartbeats and registrations cross a disconnect, presence has forgotten the socket once its handler is done |
| AvailabilityOffers.RegistrationsAreAnnounced | apps/call-controller/src/realtime/socket-handlers.ts:74-150 | a softphone that registers on an open connection is counted by presence and announced |
| AvailabilityOffers.ClosingsAreAnnounced | apps/call-controller/src/realtime/socket-handlers.ts:171-180 | a registered connection that closes is forgotten by presence and announced |
| AvailabilityFindings.LateRegistrationIsRung | apps/call-controller/src/realtime/socket-handlers.ts:74-180 | a run in which an offer claims a user on a connection alone whose closing was announced before the offer began, and which presence has forgotten by the time the claim lands |
| AvailabilityService.Service.ClaimIfAvailable | apps/call-controller/src/realtime/availability.service.ts:193-236 | the loop of attempts, against anything others do: each attempt but the last found the user free and was overtaken; the last found them free and landed, and they are offered the sockets it saw, or did not, and they are refused for what it found, in the rule's order, or was overtaken as the fifth, and they pass for busy |
| AvailabilityService.Service.OfferCall | apps/call-controller/src/realtime/availability.service.ts:57-102 | on reads made for this offer, every user asked for is asked once as `ClaimIfAvailable` says; the offered, the refused with their reasons, the newly claimed and the sockets to ring are exactly those the answers come to, and nobody is offered without a socket |
| AvailabilityService.OffersAreFair | apps/call-controller/src/realtime/availability.service.ts:193-236 | when an offer landed, do not disturb was off and no other call had a live claim on the user, and there was a socket to ring |
| AvailabilityService.FreeUsersAreOffered | apps/call-controller/src/realtime/availability.service.ts:209-229 | a user whom an attempt found free, and about whom nothing changed until its claim, is offered the call by it |
| AvailabilityService.QuietUsersAreOffered | apps/call-controller/src/realtime/availability.service.ts:57-102 | of the users an offer asks, one who is free as it reads them and about whom nothing changes is among the offered, with their sockets rung |
| AvailabilityService.Unique | apps/call-controller/src/realtime/availability.service.ts:61 | the users asked for, each once |
| RecordingRules.PlanAgreesWithPlayback | apps/api/src/calls/recording-copy.ts:44-85 | a copy is fetched exactly when a play would come from the provider, which is when there is none and the original is there; a play reads the copy exactly if the row names one and is not deleted; the provider is asked to delete exactly what is copied or deleted and still there |
| Recording.AudioIsNeverLost | apps/api/src/calls/recording.service.ts:213-360 | whatever fails, audio deleted at the provider is copied or was deleted on purpose, no recording is lost on both sides, and an undeleted one has its bytes at the provider or in the store unless a deletion is about to mark it |
| Recording.DeletionNeverFallsOut | apps/api/src/calls/recording.service.ts:302-380 | a deletion ends with the row deleted unless the store refused; it never runs out of its three attempts |
| RecordingTidiness.NoOrphanAudio | apps/api/src/calls/recording.service.ts:586-676 | while no claim goes stale under its holder, a recording nobody is at work on has exactly the object its row names, if and only if no drop of a copy failed |
| RecordingTidiness.ClaimKeepsTidy | apps/api/src/calls/recording.service.ts:512-549 | a claim is taken only when nobody holds it and nothing was copied before |
| RecordingCourses.CopiesComplete | apps/api/src/calls/recording.service.ts:213-284 | an undisturbed copy of a recording that has none ends with the object in the store, its key on the row and the original gone |
| RecordingCourses.OwedDeletionsComplete | apps/api/src/calls/recording.service.ts:240-250 | a copy that starts on a recording copied or deleted before deletes an original still there, and nothing else |
| RecordingCourses.PlaysComplete | apps/api/src/calls/recording.service.ts:414-500 | a play fetches from the provider exactly if the recording is not deleted, the store has no copy and the original is not known to be gone, and what it fetched completes the copy if the claim is free |
| RecordingCourses.DeletionsComplete | apps/api/src/calls/recording.service.ts:302-380 | an undisturbed deletion empties the store, marks the row with its reason and has the original deleted |
| RecordingFindings.TakeoverLeavesAnOrphan | apps/api/src/calls/retention.ts:107-116 | a run in which a claim taken over while its holder runs leaves an object of a deleted recording |
| RecordingFindings.FailedDropLeavesAnOrphan | apps/api/src/calls/recording.service.ts:653-676 | a run in which a drop that fails leaves one |
| RecordingService.Service.ClaimCopy | apps/api/src/calls/recording.service.ts:512-535 | the guarded update takes the claim exactly when the copy may be claimed |
| RecordingService.Service.StoreCopy | apps/api/src/calls/recording.service.ts:586-652 | a copy the store takes is recorded exactly if the recording was not deleted before, and is dropped otherwise if the store drops it; one it does not take changes nothing |
| RecordingService.Service.DeleteAtProvider | apps/api/src/calls/recording.service.ts:689-740 | is asked only for audio that is copied or deleted; once the provider answers it is gone there and the row says so, and nothing changes if it does not |
| RecordingService.Service.Copy | apps/api/src/calls/recording.service.ts:213-284 | a copy is made if and only if the row called for one, there was access, the claim was free, the provider had the audio and sent it, the store took it, and the recording was not deleted before it was recorded; a claim that came to nothing is handed back; the original is deleted exactly if that was owed and answered |
| RecordingService.Service.Open | apps/api/src/calls/recording.service.ts:414-500 | a play comes from the store if and only if the recording is not deleted and the store has the copy its row names; otherwise a deleted one is refused for its reason, and any other is played from the provider, unless it is gone there or there is no answer; a voicemail fetched there completes its copy exactly if the play takes the claim and nobody deletes it |
| RecordingService.Service.DeleteAudio | apps/api/src/calls/recording.service.ts:302-380 | the loop, against anything others do: never falls out of its attempts; refused only if the store refused, with nothing emptied; otherwise the row is deleted with no key, by this deletion and for its reason if it says so, and then the original is deleted too where the provider answers |
| MessagingScope.ScopeIsAccess | apps/api/src/messaging/conversation-scope.ts:91-117 | the filter for lists and the rule for loaded rows let the same threads through |
| MessagingScope.AudienceCanOpen | apps/api/src/messaging/conversation-scope.ts:134-188 | a change is announced to exactly the users, not deleted, who could open the thread |
| MessagingSend.NewMessageGoesThrough | apps/api/src/messaging/send.service.ts:601-724 | a new message is let through if and only if every attempt under its key on the pair failed, none of them readable to the writer, and the line is still active and still its sender's |
| MessagingSend.ThreadMessageGoesThrough | apps/api/src/messaging/send.service.ts:529-595 | a message in a thread is let through if and only if its writer can read the thread, it is on the line and still its line's owner's, its contact can be written to, and the key is unused there |
| MessagingSend.OthersAreAnsweredExactly | apps/api/src/messaging/send.service.ts:529-724 | a send that does not go through is answered with the message stored under its key wherever the writer can read one, and otherwise refused for the first of the reasons there are |
| MessagingSend.MessagesGoToTheOwnersThread | apps/api/src/messaging/conversation.service.ts:266-333 | a message goes into a thread on its line that its line's very owner holds: the one it is for, or one with its contact, or a new one exactly if that owner has none |
| MessagingSend.RecordKeeps | apps/api/src/messaging/send.service.ts:280-366 | the provider's answer finds the message still pending, untouched by any callback |
| MessagingRetries.DispatchedOnce | apps/api/src/messaging/send.service.ts:403-502 | a key is dispatched at most once in a thread, however attempts and transactions race |
| MessagingRetries.RetriesAreSentOnlyOnceFailed | apps/api/src/messaging/send.service.ts:665-724 | a new message whose transaction nothing overlapped found every earlier attempt at its draft, in any thread on the pair and across changes of the line's owner, and all had failed |
| MessagingRetries.DuplicatesComeBetween | apps/api/src/messaging/send.service.ts:601-724 | in every run, a new message is written beside an attempt at its draft that has not failed if and only if that attempt was written, or was delivered after it had failed, between the read of its transaction and its write |
| MessagingRetries.DispatchedWasWritten | apps/api/src/messaging/send.service.ts:238-300 | nothing is dispatched but a message a transaction wrote to be sent |
| MessagingRetries.OverlappingRetriesAreBothSent | apps/api/src/messaging/send.service.ts:601-643 | a run in which two attempts at one draft, in transactions that overlap a change of the line's owner, are both sent |
| MessagingFiling.MessagesAreFiledWithTheOwner | apps/api/src/messaging/conversation.service.ts:266-333 | over any run, each message written to be sent is in a thread held by who held the line when its transaction read it, with the contact or in the thread it was for, and its contact had not opted out |
| MessagingFiling.SendsAreWrittenExactly | apps/api/src/messaging/send.service.ts:403-477 | an undisturbed send is to be dispatched exactly if it goes through, its key is free and its contact has not opted out; one to a contact who has leaves a failed message, and one that does not go through nothing |
| MessagingFiling.AnswersAreRecorded | apps/api/src/messaging/send.service.ts:280-366 | the provider is asked to send exactly the message written, and its answer is what becomes of it |
| MessagingService.Service.WaitForSettled | apps/api/src/messaging/send.service.ts:804-833 | the poll answers the message stored under the key exactly if there was one, and a pending one only after five polls |
| MessagingService.Service.Prepare | apps/api/src/messaging/send.service.ts:403-502 | the transaction leaves one new pending message under the key, in the thread it was for or one of who held the line, only of a send that goes through; undisturbed, exactly of one whose contact has not opted out; a draft already stored answers it once it has settled or was polled five times |
| MessagingService.Service.Send | apps/api/src/messaging/send.service.ts:238-395 | a send asks the provider at most once, for the message it stored, where it belongs, and records its answer; undisturbed, it asks exactly if the send goes through to a contact who has not opted out |
| MessagingInbound.DeliveriesTakeEffectOnce | apps/api/src/messaging/webhook.service.ts:78-302 | over any deliveries, with repeats and lost races, a provider message is stored at most once, a thread has as many unread as messages stored, and a pair is suppressed if and only if the last message stored on it that opted out or in opted out |
| MessagingInbound.ReceivedMeansKept | apps/api/src/messaging/webhook.service.ts:78-135 | the provider hears received exactly when the message is stored or set aside; a delivery answered as failed lost both its runs and changed nothing |
| MessagingInbound.DeliveriesAreStoredExactly | apps/api/src/messaging/webhook.service.ts:137-302 | a delivery is set aside exactly if no line with an owner was found, and otherwise stored unless it lost both runs: under its contact, line and owner, one more unread there, its own pair suppressed or released as it says and no other |
| MessagingInbound.KeywordsCountExactly | apps/api/src/messaging/webhook.service.ts:18-26 | a message opts out, or in, if and only if the provider flags one of the words for that, or flags nothing and the whole body is one, in any case and between spaces |
| MessagingInbound.SpacesAndCaseDoNotMatter | apps/api/src/messaging/webhook.service.ts:505-521 | without the provider's flag, a keyword counts whatever its case and the spaces around it |
| MessagingInbound.OnlyTheDedupeKeyIsARepeat | apps/api/src/messaging/webhook-failure.ts:37-83 | only a collision is a failed delivery; one that names another key, or none, is never read as a repeat; one that names the dedupe key is, in each of its spellings and places |
| MessagingInbound.Webhook.AttemptInbound | apps/api/src/messaging/webhook.service.ts:137-302 | in place, one run of the transaction stores, sets aside, recognises or rolls back exactly as `Attempted` says |
| MessagingInbound.Webhook.ProcessInbound | apps/api/src/messaging/webhook.service.ts:78-108 | in place, a delivery that lost a race is run once more, and only once |
| MessagingStatus.StatusIsTheHighest | apps/api/src/messaging/webhook.service.ts:334-417 | after any callbacks, with repeats, a message stands at the highest rank reported, and a failure is the first one reported |
| MessagingStatus.StatusIsWhatWasReported | apps/api/src/messaging/webhook.service.ts:533-566 | after any callbacks a message is delivered exactly if that was reported, else failed as it was or as the first failure reported said, else accepted if reported submitted |
| MessagingStatus.OrderDoesNotMatter | apps/api/src/messaging/webhook.service.ts:533-566 | callbacks with the same contents come to the same rank in any order and number |
| MessagingStatus.StatusNeverRegresses | apps/api/src/messaging/webhook.service.ts:549-566 | no callback takes a message back, and each change takes it further |
| MessagingStatus.EarlyCallbackIsLost | apps/api/src/messaging/webhook.service.ts:353-370 | a first delivery or failure reported moves a message on if and only if its provider id was recorded when the callback first came |

## Left out

- Twilio's REST calls, TwiML, audio streams and Socket.IO: each is a step that succeeds or fails.
- Timestamps, names, phone numbers, conference names beyond their presence, and the payloads of events; the timeline keeps what a write decided and for whom.
- `CallStateConflictError` inside the live call: a change of the record lands, as `CallStore` says it does unless ten others land first; giving up in the middle of an operation is not a step of `CallWorld`.
- Process death between a write and its follow-up, and the expiry of a call's record, which the code heals by reconciliation and by claims running out.
- Reconciliation with Twilio: it reports ended legs and requests ends, which the model lets anybody do at any time.
- The hold itself at the provider (`setHold`): its answer arrives as a step at any time.
- Presence internals (sorted sets, scores): a set of sockets per user, from which a stale socket may be dropped at any time; the failure of an unregistration is not modelled, as Redis steps succeed.
- `availableSince` and the order in which softphones hear of changes.
- Deletion of a recording's row with its call, retention periods and the sweep's budget; one recording has one object key, as its conversation id does not change.
- A media store that stores an object and reports failure, and audio that disappears at the provider without being deleted there.
- Creation of contacts, media attachments, activity notices, and marking threads read; unread counts are those since the last read.
- Upper-casing and trimming of opt-out words beyond ASCII: only ASCII letters and the four common spaces are folded.
- Callbacks on messages in the states no code path sets (expired, buffered, unknown): they rank with pending.
- Routing by business hours, phone-number assignment, access control of HTTP routes, configuration and logging.
- CallTheorems.NobodyIsStranded: a call in voicemail is left to voicemail; whether a transfer is still settled there is what `CallAdrift.TransferIsAdriftExactlyAfterAPull` says.
- CallProgress.RingAdvances: states progress of the operations in flight while the call is not ending; that an operation in flight is taken up at all is left to the scheduler.
- RecordingTidiness.NoOrphanAudio: for runs in which no claim goes stale while its holder runs; `RecordingFindings.TakeoverLeavesAnOrphan` shows why.
- MessagingRetries.RetriesAreSentOnlyOnceFailed: for a transaction that nothing overlapped; `MessagingRetries.DuplicatesComeBetween` says what comes of the others, and a failed attempt may still be delivered late, after its retry was sent.
