/**
  Where an operation that nothing disturbs ends up
  (apps/call-controller/src/calls/call-flow.ts and telephony.service.ts): a
  transfer reaches the teammate, a queue rings the user it has come to, a call
  out is answered; and exactly where each stops when a step of it fails.
 */
module CallCourses {
  import opened Options
  import opened CallState
  import opened CallControl
  import opened CallDecisions
  import opened CallWorld
  import opened CallInvariants
  import opened CallProgress
  import opened CallTheorems
  import opened CallAnswers
  import opened CallRequests

  // Transfers ------------------------------------------------------------------------------

  /** A stage of a transfer that does not come off. */
  predicate StageFails(c: Call, op: Op, answer: Answer) {
    match op
    case TransferOffer(_, _, _) => !answer.ok
    case TransferHold(_, _, _) => !answer.ok
    case TransferRing(_, target, starter) => c.transferTo != Some(target) || c.transferBy != Some(starter)
    case TransferDial(_, target, _) => c.ending || !answer.ok || answer.leg.party != Agent(target)
    case TransferRecord(_, target, _, leg) => c.ending || leg.party != Agent(target)
    case _ => false
  }

  /** What a failed stage owes: the transfer taken back, if it is still this one's, and the teammate let go, if they were claimed. */
  function OwedByStage(op: Op, target: UserId): multiset<Op> {
    (if op.TransferOffer? || op.TransferHold? || op.TransferDial? then multiset{FailTransfer(target)} else multiset{})
    + (if op.TransferOffer? then multiset{} else multiset{Release({target})})
  }

  /** The stage after this one. */
  function NextStage(op: Op, answer: Answer): (next: Op)
    requires MarkOf(op).Some? && !op.TransferRecord?
    ensures MarkOf(next) == MarkOf(op) && StepsLeft(next) == StepsLeft(op) - 1
    ensures next.TransferRecord? ==> next.leg == answer.leg
  {
    match op
    case TransferOffer(mark, target, starter) => TransferHold(mark, target, starter)
    case TransferHold(mark, target, starter) => TransferRing(mark, target, starter)
    case TransferRing(mark, target, starter) => TransferDial(mark, target, starter)
    case TransferDial(mark, target, starter) => TransferRecord(mark, target, starter, answer.leg)
  }

  /**
    A stage of a transfer that fails owes its settlement and claims nobody;
    one that comes off is followed by the next, or by a ring that is tracked.
   */
  lemma StagesGoOnExactly(w: World, c: Call, op: Op, answer: Answer)
    requires w.slot == Live(c) && op in w.ops && MarkOf(op).Some?
    ensures var after, rest, target := Next(w, Perform(op, answer)), w.ops - multiset{op}, MarkOf(op).value.1;
      if StageFails(c, op, answer) then after == w.(ops := rest + OwedByStage(op, target))
      else if op.TransferRecord? then
        after.slot.Live? && after == w.(slot := after.slot, ops := rest) && IsRung(c, after.slot.call, op.leg, target)
      else
        after == w.(ops := rest + multiset{NextStage(op, answer)},
                    claimed := if op.TransferOffer? then w.claimed + {target} else w.claimed)
  {
    PerformedIsTransferStep(w, op, answer);
    hide Performed, Write, LegsRegistered;
    if op.TransferRecord? {
      RecordStage(w, c, op, answer);
    } else if op.TransferOffer? || op.TransferHold? {
      AskingStage(w, op, answer);
    } else {
      CallingStage(w, c, op, answer);
    }
    hide StageFails, OwedByStage, TransferStep, NextStage;
  }

  lemma AskingStage(w: World, op: Op, answer: Answer)
    requires w.slot.Live? && (op.TransferOffer? || op.TransferHold?)
    ensures var rest := w.ops - multiset{op};
      TransferStep(w, op, rest, answer) ==
        if !answer.ok then w.(ops := rest + OwedByStage(op, op.target))
        else w.(ops := rest + multiset{NextStage(op, answer)},
                claimed := if op.TransferOffer? then w.claimed + {op.target} else w.claimed)
  {
    hide Write, LegsRegistered;
    assert multiset{FailTransfer(op.target)} + multiset{} == multiset{FailTransfer(op.target)};
  }

  lemma CallingStage(w: World, c: Call, op: Op, answer: Answer)
    requires w.slot == Live(c) && (op.TransferRing? || op.TransferDial?)
    ensures var rest := w.ops - multiset{op};
      TransferStep(w, op, rest, answer) ==
        if StageFails(c, op, answer) then w.(ops := rest + OwedByStage(op, op.target))
        else w.(ops := rest + multiset{NextStage(op, answer)})
  {
    hide Write, LegsRegistered;
    assert multiset{} + multiset{Release({op.target})} == multiset{Release({op.target})};
  }

  lemma RecordStage(w: World, c: Call, op: Op, answer: Answer)
    requires w.slot == Live(c) && op.TransferRecord?
    ensures var rest := w.ops - multiset{op};
      var after := TransferStep(w, op, rest, answer);
      if StageFails(c, op, answer) then after == w.(ops := rest + OwedByStage(op, op.target))
      else after.slot.Live? && after == w.(slot := after.slot, ops := rest) && IsRung(c, after.slot.call, op.leg, op.target)
  {
    hide Write, LegsRegistered, IsRung;
    if StageFails(c, op, answer) {
      assert multiset{} + multiset{Release({op.target})} == multiset{Release({op.target})};
    } else {
      RecordedIsRung(w.(ops := w.ops - multiset{op}), c, op.leg, op.target);
    }
  }

  /** This leg of the user is tracked and ringing beside what was tracked before, and nothing else is different. */
  predicate IsRung(c: Call, n: Call, leg: Leg, user: UserId) {
    n == c.(version := n.version, agentLegs := c.agentLegs[leg := user], pending := c.pending + {leg})
  }

  lemma RecordedIsRung(w: World, c: Call, leg: Leg, user: UserId)
    requires !c.ending && leg.party == Agent(user)
    ensures var after := Write(w, c, LegsRegistered(c, {leg}).0);
      after.slot.Live? && after == w.(slot := after.slot) && IsRung(c, after.slot.call, leg, user)
  {
    assert c.agentLegs + RingsOf({leg}) == c.agentLegs[leg := user];
  }

  /** The steps of a transfer to a teammate who is free and picks up. */
  function HandingOver(mark: nat, target: UserId, starter: UserId, leg: Leg): seq<Step> {
    var yes := Answer(true, {}, leg, {});
    [Perform(TransferOffer(mark, target, starter), yes),
     Perform(TransferHold(mark, target, starter), yes),
     Perform(TransferRing(mark, target, starter), yes),
     Perform(TransferDial(mark, target, starter), yes),
     Perform(TransferRecord(mark, target, starter, leg), yes),
     ReportJoined(leg)]
  }

  lemma RungIsWellFormed(c: Call, n: Call, leg: Leg, user: UserId)
    requires WellFormed(c) && IsRung(c, n, leg, user) && leg.party == Agent(user) && c.answered && !c.ending
    ensures WellFormed(n)
  {
    if c.direction.Inbound? {
      assert n.callerLeg.value in LegsOf(n);
    } else {
      assert n.externalLeg.value in LegsOf(n);
    }
  }

  lemma StageComesOff(w: World, c: Call, op: Op, next: Op, answer: Answer)
    requires w.slot == Live(c) && op in w.ops && MarkOf(op).Some? && !op.TransferRecord?
    requires !StageFails(c, op, answer) && next == NextStage(op, answer)
    ensures var after := Next(w, Perform(op, answer));
      && after.slot == w.slot && next in after.ops && after.timeline == w.timeline
      && after.claimed == if op.TransferOffer? then w.claimed + {op.target} else w.claimed
  {
    hide Next, NextStage, StageFails;
    StagesGoOnExactly(w, c, op, answer);
  }

  lemma RingIsTracked(w: World, c: Call, op: Op, answer: Answer)
    requires w.slot == Live(c) && op in w.ops && op.TransferRecord? && !StageFails(c, op, answer)
    ensures var after := Next(w, Perform(op, answer));
      && after.slot.Live? && IsRung(c, after.slot.call, op.leg, op.target)
      && after.timeline == w.timeline && after.claimed == w.claimed
  {
    hide Next, StageFails, IsRung;
    StagesGoOnExactly(w, c, op, answer);
  }

  /** The stages of a marked transfer, each coming off, end in a ring of the teammate that is tracked. */
  lemma StagesReach(w: World, c: Call, mark: nat, target: UserId, starter: UserId, leg: Leg)
    requires w.slot == Live(c) && TransferOffer(mark, target, starter) in w.ops && !c.ending && leg.party == Agent(target)
    requires c.transferTo == Some(target) && c.transferBy == Some(starter)
    ensures var after := Run(w, HandingOver(mark, target, starter, leg)[..5]);
      && after.slot.Live? && IsRung(c, after.slot.call, leg, target)
      && after.claimed == w.claimed + {target} && after.timeline == w.timeline
  {
    hide Next, Run, IsRung;
    var steps, yes := HandingOver(mark, target, starter, leg), Answer(true, {}, leg, {});
    var offer, hold, ring := TransferOffer(mark, target, starter), TransferHold(mark, target, starter), TransferRing(mark, target, starter);
    var dial, record := TransferDial(mark, target, starter), TransferRecord(mark, target, starter, leg);
    StageComesOff(w, c, offer, hold, yes);
    var one := Next(w, Perform(offer, yes));
    StageComesOff(one, c, hold, ring, yes);
    var two := Next(one, Perform(hold, yes));
    StageComesOff(two, c, ring, dial, yes);
    var three := Next(two, Perform(ring, yes));
    StageComesOff(three, c, dial, record, yes);
    RingIsTracked(Next(three, Perform(dial, yes)), c, record, yes);
    RunFive(w, steps[..5]);
  }

  lemma RunFive(w: World, steps: seq<Step>)
    requires |steps| == 5
    ensures Run(w, steps) == Next(Next(Next(Next(Next(w, steps[0]), steps[1]), steps[2]), steps[3]), steps[4])
  {
    hide Next;
    RunThen(w, steps[..4], steps[4]);
    RunThen(w, steps[..3], steps[3]);
    RunThen(w, steps[..2], steps[2]);
    RunThen(w, steps[..1], steps[1]);
    RunThen(w, [], steps[0]);
    assert steps == steps[..4] + [steps[4]] && steps[..4] == steps[..3] + [steps[3]] && steps[..3] == steps[..2] + [steps[2]];
    assert steps[..2] == steps[..1] + [steps[1]] && steps[..1] == [] + [steps[0]];
  }

  /**
    In every world that can be reached, a transfer that may be asked for, to a
    teammate who is free, whose phone rings and who picks up, hands the call to
    them: they are the one talking, and the transfer is over.
   */
  lemma TransfersReachTheTeammate(w: World, c: Call, request: Request, target: UserId, leg: Leg)
    requires Invariant(w) && w.slot == Live(c) && MayTransfer(c, request, target) && leg.party == Agent(target)
    ensures var marked := Next(w, RequestTransfer(request, target));
      var after := Run(marked, HandingOver(w.marks + 1, target, request.user, leg));
      && after.slot.Live?
      && after.slot.call.activeAgent == Some(target) && after.slot.call.agentLeg == Some(leg)
      && after.slot.call.transferTo.None? && leg in after.slot.call.agentLegs
      && after.claimed == w.claimed + {target}
      && after.timeline == w.timeline + [TransferMark(target), TransferComplete(target)]
  {
    hide Next, Run, Invariant, WellFormed, MayTransfer, IsMarked, IsRung;
    var marked := Next(w, RequestTransfer(request, target));
    var steps := HandingOver(w.marks + 1, target, request.user, leg);
    MarkedIsSetUp(w, c, request, target);
    var n := marked.slot.call;
    StagesReach(marked, n, w.marks + 1, target, request.user, leg);
    PickingUpCompletes(Run(marked, steps[..5]), n, leg, target);
    RunThen(marked, steps[..5], steps[5]);
    assert steps == steps[..5] + [steps[5]];
    assert w.timeline + [TransferMark(target)] + [TransferComplete(target)] == w.timeline + [TransferMark(target), TransferComplete(target)];
  }

  /** A transfer that was just marked, with its first stage in flight. */
  lemma MarkedIsSetUp(w: World, c: Call, request: Request, target: UserId)
    requires Invariant(w) && w.slot == Live(c) && MayTransfer(c, request, target)
    ensures var marked := Next(w, RequestTransfer(request, target));
      && marked.slot.Live? && WellFormed(marked.slot.call) && marked.slot.call.answered && !marked.slot.call.ending
      && marked.slot.call.transferTo == Some(target) && marked.slot.call.transferBy == Some(request.user)
      && TransferOffer(w.marks + 1, target, request.user) in marked.ops
      && marked.claimed == w.claimed && marked.timeline == w.timeline + [TransferMark(target)]
  {
    hide Next, Invariant, WellFormed, UsersLetGo, LetGo;
    StepKeeps(w, RequestTransfer(request, target));
    InvariantMeansForm(w);
    TransfersAreMarkedExactly(w, c, request, target);
    InvariantMeansForm(Next(w, RequestTransfer(request, target)));
  }

  /** The teammate whose ring is tracked picks up. */
  lemma PickingUpCompletes(w: World, c: Call, leg: Leg, target: UserId)
    requires WellFormed(c) && c.answered && !c.ending && c.transferTo == Some(target) && leg.party == Agent(target)
    requires w.slot.Live? && IsRung(c, w.slot.call, leg, target)
    ensures var after := Next(w, ReportJoined(leg));
      && after.slot.Live?
      && after.slot.call.activeAgent == Some(target) && after.slot.call.agentLeg == Some(leg)
      && after.slot.call.transferTo.None? && leg in after.slot.call.agentLegs
      && after.claimed == w.claimed && after.timeline == w.timeline + [TransferComplete(target)]
  {
    hide Next, WellFormed, UsersLetGo, LetGo;
    RungIsWellFormed(c, w.slot.call, leg, target);
    JoinsSeatExactly(w, w.slot.call, leg, target);
  }

  lemma InvariantMeansForm(w: World)
    requires Invariant(w) && w.slot.Live?
    ensures WellFormed(w.slot.call)
  {
  }
}
