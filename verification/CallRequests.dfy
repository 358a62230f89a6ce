/**
  What agents' requests come to, and the operations they start
  (apps/call-controller/src/calls/call-control.ts and call-flow.ts): exactly
  when each is granted, and all it changes.
 */
module CallRequests {
  import opened Options
  import opened CallState
  import opened CallControl
  import opened CallDecisions
  import opened CallWorld
  import opened CallInvariants

  /** The agent asks by the leg they are talking on, and the other party hears them. */
  predicate IsConnected(c: Call, request: Request) {
    && request.leg.party == Agent(request.user) && c.agentLeg == Some(request.leg)
    && c.answered && !c.ending && !c.voicemail
  }

  /** A change that lets go of whom it lets go, and does nothing else but this. */
  ghost predicate ComesTo(w: World, after: World, n: Call, ops: multiset<Op>, events: seq<Event>) {
    && w.slot.Live? && after.slot == Live(n)
    && after == w.(slot := Live(n), ops := after.ops, timeline := w.timeline + events)
    && after.ops == ops + LetGo(UsersLetGo(w.slot.call, Some(n)))
  }

  lemma CommitComesTo(w: World, c: Call, rest: multiset<Op>, change: Change)
    requires w.slot == Live(c) && change.draft.Some? && change.draft.value.version == c.version
    requires change.ring == multiset{} && (change.events == [] || !change.events[0].TransferMark?)
    ensures ComesTo(w, Commit(w, c, rest, change), Stored(c, change.draft.value), rest + change.follow, change.events)
  {
    hide UsersLetGo, LetGo;
  }

  /** A change that changes nothing leaves only the operation that made it done. */
  lemma QuietComesToNothing(w: World, c: Call, rest: multiset<Op>)
    requires w.slot == Live(c)
    ensures Commit(w, c, rest, Quiet(c)) == w.(ops := rest)
  {
    assert UsersLetGo(c, Some(c)) == {};
    hide UsersLetGo;
    assert rest + multiset{} + multiset{} == rest && w.ringing + multiset{} == w.ringing && w.timeline + [] == w.timeline;
  }

  lemma ConnectedMeans(c: Call, request: Request)
    requires WellFormed(c)
    ensures RefuseUnlessOnConnectedCall(c, request).None? <==> IsConnected(c, request)
  {
  }

  // Transfers -----------------------------------------------------------------------------

  /** A leg of the teammate joined the call. */
  predicate IsOnCall(c: Call, user: UserId) {
    exists leg <- c.agentLegs :: leg !in c.pending && c.agentLegs[leg] == user
  }

  predicate MayTransfer(c: Call, request: Request, target: UserId) {
    IsConnected(c, request) && c.transferTo.None? && target != request.user && !IsOnCall(c, target)
  }

  lemma MayTransferMeans(c: Call, request: Request, target: UserId)
    requires WellFormed(c)
    ensures RefuseTransfer(c, request, target).None? <==> MayTransfer(c, request, target)
  {
    ConnectedMeans(c, request);
    hide RefuseUnlessOnConnectedCall, PartiesFit, TransferFits, LegsOf;
    assert HasJoined(c, target) <==> IsOnCall(c, target);
  }

  /** Marked for the teammate by who asked, on the leg they asked by, with the rings of theirs that were lost forgotten. */
  ghost predicate IsMarked(c: Call, n: Call, request: Request, target: UserId) {
    && n == c.(version := n.version, agentLegs := n.agentLegs, pending := n.pending,
               transferTo := Some(target), transferBy := Some(request.user), transferOrigin := Some(request.leg))
    && (forall leg :: leg in n.agentLegs <==> leg in c.agentLegs && c.agentLegs[leg] != target)
    && (forall leg <- n.agentLegs :: n.agentLegs[leg] == c.agentLegs[leg])
    && (forall leg :: leg in n.pending <==> leg in c.pending && leg in n.agentLegs)
  }

  lemma MarkingMarks(c: Call, request: Request, target: UserId)
    requires WellFormed(c) && MayTransfer(c, request, target)
    ensures var (n, refusal) := TransferMarked(c, request, target); refusal.None? && IsMarked(c, n, request, target)
  {
    MayTransferMeans(c, request, target);
    hide RefuseTransfer;
    var lost := set leg | leg in c.agentLegs && c.agentLegs[leg] == target;
    assert c.agentLeg.value !in lost;
    var n := TransferMarked(c, request, target).0;
    assert n.agentLegs == c.agentLegs - lost && n.pending == c.pending - lost;
    assert forall leg <- lost :: leg.party.Agent?;
  }

  /**
    A transfer is marked exactly if the connected agent asks, none is pending,
    and the teammate is somebody else who is not on the call; it then has its
    first operation in flight. Any other request changes nothing.
   */
  lemma TransfersAreMarkedExactly(w: World, c: Call, request: Request, target: UserId)
    requires w.slot == Live(c) && WellFormed(c)
    ensures var after := Next(w, RequestTransfer(request, target));
      if MayTransfer(c, request, target) then
        && after.slot.Live? && IsMarked(c, after.slot.call, request, target)
        && after.ops == w.ops + multiset{TransferOffer(w.marks + 1, target, request.user)} + LetGo(UsersLetGo(c, Some(after.slot.call)))
        && after == w.(slot := after.slot, ops := after.ops, marks := w.marks + 1, timeline := w.timeline + [TransferMark(target)])
      else after == w
  {
    MayTransferMeans(c, request, target);
    QuietComesToNothing(w, c, w.ops);
    if MayTransfer(c, request, target) {
      MarkingMarks(c, request, target);
      MarkingCommits(w, c, request, target);
      StoringKeepsMark(c, TransferMarked(c, request, target).0, request, target);
    } else {
      RefusingIsQuiet(c, request, target, w.marks + 1);
    }
    hide MayTransfer, RefuseTransfer, WellFormed, UsersLetGo, LetGo, TransferMarked, MarkChange, Commit, IsMarked;
  }

  lemma MarkingCommits(w: World, c: Call, request: Request, target: UserId)
    requires w.slot == Live(c) && TransferMarked(c, request, target).1.None?
    ensures var n := Stored(c, TransferMarked(c, request, target).0);
      Next(w, RequestTransfer(request, target)) ==
        w.(slot := Live(n),
           ops := w.ops + multiset{TransferOffer(w.marks + 1, target, request.user)} + LetGo(UsersLetGo(c, Some(n))),
           marks := w.marks + 1, timeline := w.timeline + [TransferMark(target)])
  {
    hide TransferMarked, UsersLetGo, LetGo;
    assert w.ringing + multiset{} == w.ringing;
  }

  lemma StoringKeepsMark(c: Call, n: Call, request: Request, target: UserId)
    requires IsMarked(c, n, request, target) && n.version == c.version
    ensures IsMarked(c, Stored(c, n), request, target)
  {
  }

  lemma RefusingIsQuiet(c: Call, request: Request, target: UserId, mark: nat)
    requires RefuseTransfer(c, request, target).Some?
    ensures MarkChange(c, request, target, mark) == Quiet(c)
  {
    hide RefuseTransfer;
  }

  /** A transfer is called off by a connected agent exactly if it is their own. */
  lemma TransfersAreCancelledExactly(w: World, c: Call, request: Request)
    requires w.slot == Live(c) && WellFormed(c)
    ensures var after := Next(w, RequestCancel(request));
      after == if IsConnected(c, request) && c.transferBy == Some(request.user) && c.transferTo.Some?
               then w.(ops := w.ops + multiset{FailTransfer(c.transferTo.value)}) else w
  {
    ConnectedMeans(c, request);
    hide RefuseUnlessOnConnectedCall, IsConnected, LegsFit, PartiesFit;
  }

  /** What a transfer that fell through leaves to be done: nothing if its starter is still on the line. */
  function OwedByFailure(c: Call): multiset<Op> {
    if c.agentLeg.Some? && c.transferOrigin == c.agentLeg then multiset{}
    else if c.direction.Inbound? then multiset{RouteToVoicemail}
    else multiset{EndCall}
  }

  /**
    A transfer is taken back exactly if it is pending to this teammate: the
    call stays with its starter while they are on the line; else a caller goes
    to voicemail, and a call out is ended.
   */
  lemma TransfersFailExactly(w: World, c: Call, target: UserId, answer: Answer)
    requires w.slot == Live(c) && WellFormed(c) && FailTransfer(target) in w.ops
    ensures var after := Next(w, Perform(FailTransfer(target), answer));
      var rest := w.ops - multiset{FailTransfer(target)};
      if c.transferTo == Some(target) then
        && after.slot.Live?
        && ComesTo(w, after,
                   c.(version := after.slot.call.version, transferTo := None, transferBy := None, transferOrigin := None),
                   rest + OwedByFailure(c), [TransferFailure(target)])
      else after == w.(ops := rest)
  {
    hide Next, Performed, FailChange, Commit, UsersLetGo, WellFormed, OwedByFailure, LetGo;
    var rest := w.ops - multiset{FailTransfer(target)};
    PerformingIs(w, FailTransfer(target), answer);
    PerformedIs(w, c, FailTransfer(target), answer);
    FailureComesTo(c, target);
    QuietComesToNothing(w, c, rest);
    if c.transferTo == Some(target) {
      CommitComesTo(w, c, rest, FailChange(c, target));
    }
    hide ComesTo;
  }

  lemma FailureComesTo(c: Call, target: UserId)
    requires WellFormed(c)
    ensures FailChange(c, target) ==
      if c.transferTo == Some(target) then
        Change(Some(c.(transferTo := None, transferBy := None, transferOrigin := None)), OwedByFailure(c), multiset{},
               [TransferFailure(target)])
      else Quiet(c)
  {
  }

  lemma PerformingIs(w: World, op: Op, answer: Answer)
    requires op in w.ops
    ensures Next(w, Perform(op, answer)) == Performed(w, op, answer)
  {
    hide Performed;
  }

  /** Operations that are one change of a live call. */
  lemma PerformedIs(w: World, c: Call, op: Op, answer: Answer)
    requires w.slot == Live(c) && op in w.ops
    ensures op.FailTransfer? ==> Performed(w, op, answer) == Commit(w, c, w.ops - multiset{op}, FailChange(c, op.target))
    ensures op.EndCall? ==> Performed(w, op, answer) == Commit(w, c, w.ops - multiset{op}, EndRequestChange(c))
    ensures op.AnswerWithVoicemail? ==> Performed(w, op, answer) == Commit(w, c, w.ops - multiset{op}, AnswerChange(c))
    ensures op.RouteToVoicemail? ==> Performed(w, op, answer) == Commit(w, c, w.ops - multiset{op}, RouteChange(c))
    ensures op.Finalize? ==> Performed(w, op, answer) == Commit(w, c, w.ops - multiset{op}, Removal([]))
  {
    hide Commit, FailChange, EndRequestChange, AnswerChange, RouteChange, TransferStep, RecordedAll, Write, UsersLetGo, OccupantsOf;
  }

  // Ending, voicemail, holding ------------------------------------------------------------------

  /** A request to end a call ends it and calls a pending transfer off, once. */
  lemma CallsAreEndedExactly(w: World, c: Call, answer: Answer)
    requires w.slot == Live(c) && WellFormed(c) && EndCall in w.ops
    ensures var after := Next(w, Perform(EndCall, answer));
      var rest := w.ops - multiset{EndCall};
      if c.ending then after == w.(ops := rest)
      else
        && after.slot.Live?
        && ComesTo(w, after,
                   c.(version := after.slot.call.version, ending := true, transferTo := None, transferBy := None, transferOrigin := None),
                   rest, if c.transferTo.Some? then [TransferCalledOff] else [])
  {
    var rest := w.ops - multiset{EndCall};
    PerformedIs(w, c, EndCall, answer);
    EndComesTo(c);
    QuietComesToNothing(w, c, rest);
    hide Performed, EndRequestChange, Commit, UsersLetGo, WellFormed, LetGo;
    if !c.ending {
      CommitComesTo(w, c, rest, EndRequestChange(c));
      assert rest + multiset{} == rest;
    }
  }

  lemma EndComesTo(c: Call)
    requires WellFormed(c)
    ensures EndRequestChange(c) ==
      if c.ending then Quiet(c)
      else Change(Some(c.(ending := true, transferTo := None, transferBy := None, transferOrigin := None)), multiset{}, multiset{},
                  if c.transferTo.Some? then [TransferCalledOff] else [])
  {
  }

  /** A caller is pulled into voicemail exactly off it, on a call not ending, that was answered or has nobody ringing. */
  predicate IsPulled(c: Call) {
    c.direction.Inbound? && !c.ending && !c.voicemail && (c.answered || c.pending == {})
  }

  lemma CallersArePulledExactly(w: World, c: Call, answer: Answer)
    requires w.slot == Live(c) && WellFormed(c) && c.direction.Inbound? && RouteToVoicemail in w.ops
    ensures var after := Next(w, Perform(RouteToVoicemail, answer));
      var rest := w.ops - multiset{RouteToVoicemail};
      if IsPulled(c) then
        && after.slot.Live?
        && ComesTo(w, after,
                   c.(version := after.slot.call.version, voicemail := true, held := false,
                      agentLegs := map[], pending := {}, agentLeg := None, externalLeg := None),
                   rest, if c.held then [Resumed] else [])
      else after == w.(ops := rest)
  {
    var rest := w.ops - multiset{RouteToVoicemail};
    PerformedIs(w, c, RouteToVoicemail, answer);
    PullComesTo(c);
    QuietComesToNothing(w, c, rest);
    hide Performed, Commit, RouteChange, UsersLetGo, WellFormed, LetGo;
    if IsPulled(c) {
      CommitComesTo(w, c, rest, RouteChange(c));
      assert rest + multiset{} == rest;
    }
  }

  lemma PullComesTo(c: Call)
    requires WellFormed(c) && c.direction.Inbound?
    ensures RouteChange(c) ==
      if IsPulled(c) then
        Change(Some(c.(voicemail := true, held := false, agentLegs := map[], pending := {}, agentLeg := None, externalLeg := None)),
               multiset{}, multiset{}, if c.held then [Resumed] else [])
      else Quiet(c)
  {
  }

  /** Voicemail before anybody was offered the call answers every call that is not ending. */
  lemma VoicemailAnswersExactly(w: World, c: Call, answer: Answer)
    requires w.slot == Live(c) && AnswerWithVoicemail in w.ops
    ensures var after := Next(w, Perform(AnswerWithVoicemail, answer));
      after.slot.Live?
      && ComesTo(w, after, c.(version := after.slot.call.version, voicemail := c.voicemail || !c.ending),
                 w.ops - multiset{AnswerWithVoicemail}, [])
  {
    var rest := w.ops - multiset{AnswerWithVoicemail};
    PerformedIs(w, c, AnswerWithVoicemail, answer);
    CommitComesTo(w, c, rest, AnswerChange(c));
    hide Performed, Commit, UsersLetGo;
    assert rest + multiset{} == rest;
  }

  /** An agent may hold exactly while they are connected and no transfer is pending. */
  lemma HoldsAreAllowedExactly(c: Call, request: Request)
    requires WellFormed(c)
    ensures RefuseHold(c, request).None? <==> IsConnected(c, request) && c.transferTo.None?
  {
    ConnectedMeans(c, request);
    hide RefuseUnlessOnConnectedCall, IsConnected;
  }

  /** The provider's answer to a hold is recorded exactly if it is news to a call not ending. */
  lemma HoldsAreRecordedExactly(w: World, c: Call, held: bool)
    requires w.slot == Live(c)
    ensures var after := Next(w, HoldAnswered(held));
      if c.ending || c.held == held then after == w
      else
        && after.slot.Live?
        && ComesTo(w, after, c.(version := after.slot.call.version, held := held), w.ops, [if held then Held else Resumed])
  {
    hide Commit, UsersLetGo, HoldChange, LetGo, Next;
    HoldStepIs(w, c, held);
    HoldComesTo(c, held);
    QuietComesToNothing(w, c, w.ops);
    if !c.ending && c.held != held {
      CommitComesTo(w, c, w.ops, HoldChange(c, held));
      assert w.ops + multiset{} == w.ops;
    }
  }

  lemma HoldStepIs(w: World, c: Call, held: bool)
    requires w.slot == Live(c)
    ensures Next(w, HoldAnswered(held)) == Commit(w, c, w.ops, HoldChange(c, held))
  {
    hide Commit, HoldChange;
  }

  lemma HoldComesTo(c: Call, held: bool)
    ensures HoldChange(c, held) ==
      if c.ending || c.held == held then Quiet(c)
      else Change(Some(c.(held := held)), multiset{}, multiset{}, [if held then Held else Resumed])
  {
  }

  // Turning a call down, hanging up ---------------------------------------------------------------

  /**
    A softphone that turns a call down takes a transfer to its user back, or,
    while the user's ring is out on a call nobody answered, lets the user go.
   */
  lemma DeclinesCountExactly(w: World, c: Call, user: UserId)
    requires w.slot == Live(c) && WellFormed(c)
    ensures Next(w, Decline(user)) ==
      if c.transferTo == Some(user) then w.(ops := w.ops + multiset{FailTransfer(user)})
      else if !c.answered && Agent(user) in (set leg | leg in c.pending :: leg.party) then
        w.(ops := w.ops + multiset{Release({user})})
      else w
  {
    if exists leg <- c.pending :: leg in c.agentLegs && c.agentLegs[leg] == user {
      var leg :| leg in c.pending && leg in c.agentLegs && c.agentLegs[leg] == user;
      assert leg.party == Agent(user);
    }
  }

  /**
    A hangup of a call not ending declines a transfer if its target hangs up a
    leg they are not talking on, and otherwise ends the call exactly if no
    transfer is pending and nobody answered, or the agent is the active one.
   */
  lemma HangupsArePlannedExactly(c: Call, request: Request)
    requires WellFormed(c) && request.leg.party == Agent(request.user)
    ensures PlanHangup(c, request).DeclineTransfer? <==>
      c.transferTo == Some(request.user) && c.agentLeg != Some(request.leg)
    ensures PlanHangup(c, request).EndTheCall? <==>
      c.ending || (c.transferTo.None? && (!c.answered || c.activeAgent == Some(request.user)))
  {
  }
}
