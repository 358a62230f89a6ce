/**
  What is owed is delivered: the step of an operation in flight either does
  what the operation is for, or leaves one that is nearer to doing it.
 */
module CallProgress {
  import opened Options
  import opened CallState
  import opened CallControl
  import opened CallDecisions
  import opened CallWorld
  import opened CallInvariants
  import opened CallChanges
  import opened CallTheorems

  /** How many steps an operation that sets up rings, or that settles a transfer, has before it delivers. */
  function StepsLeft(op: Op): nat {
    match op
    case OfferAll(_) => 3
    case DialAll(_) => 2
    case RecordAll(_, _) => 1
    case DialExternal => 2
    case RecordExternal(_) => 1
    case DialFailed => 1
    case TransferOffer(_, _, _) => 5
    case TransferHold(_, _, _) => 4
    case TransferRing(_, _, _) => 3
    case TransferDial(_, _, _) => 2
    case TransferRecord(_, _, _, _) => 1
    case _ => 0
  }

  /** The operations of a mark are the stages of a transfer. */
  lemma PerformedIsTransferStep(w: World, op: Op, answer: Answer)
    requires op in w.ops && MarkOf(op).Some?
    ensures Performed(w, op, answer) == TransferStep(w, op, w.ops - multiset{op}, answer)
  {
    hide TransferStep, Commit, Write, RecordedAll, LegsRegistered, UsersLetGo, OccupantsOf, LetGo;
  }

  /** An operation that is to close a call leaves it gone, ending, in voicemail, or tended to. */
  lemma ClosingDelivers(worlds: seq<World>, steps: seq<Step>, i: nat, op: Op, answer: Answer)
    requires Traces(worlds, steps) && i <= |steps|
    requires op in worlds[i].ops && Closes(op) && worlds[i].slot.Live?
    ensures var after := Performed(worlds[i], op, answer).slot;
      after.Gone? || (after.Live? && Tended(after.call))
  {
    hide Next, Initial;
    var w := worlds[i];
    RunKeeps(worlds, steps, i);
    FitsNow(w, op);
    ClosingLeavesNoneWaiting(w, w.slot.call, op, answer);
  }

  lemma FitsNow(w: World, op: Op)
    requires Invariant(w) && op in w.ops && w.slot.Live?
    ensures OpFits(op, w.slot.call, w.marks) && WellFormed(w.slot.call)
  {
  }

  lemma ClosingLeavesNoneWaiting(w: World, c: Call, op: Op, answer: Answer)
    requires w.slot == Live(c) && WellFormed(c) && op in w.ops && Closes(op) && OpFits(op, c, w.marks)
    ensures var after := Performed(w, op, answer).slot; after.Gone? || (after.Live? && Tended(after.call))
  {
    match op
    case AnswerWithVoicemail => AnswerIsSound(c, 0);
    case RouteToVoicemail => RouteIsSound(c, 0);
    case EndCall => EndRequestIsSound(c, 0);
    case Finalize =>
  }

  /** An operation of this kind is in flight with fewer steps left. */
  ghost predicate SetUpGoesOn(ops: multiset<Op>, before: nat) {
    exists next <- ops :: SetsUp(next) && StepsLeft(next) < before
  }

  ghost predicate SettlementGoesOn(ops: multiset<Op>, target: UserId, mark: nat, before: nat) {
    exists next <- ops :: Settles(next, target, mark) && StepsLeft(next) < before
  }

  /** Setting up a ring of everybody ends in rings that are out, or in an operation that closes the call. */
  lemma RingTogetherAdvances(w: World, op: Op, answer: Answer)
    requires op in w.ops && w.slot.Live? && !w.slot.call.ending && !w.slot.call.answered && w.slot.call.direction.Inbound?
    requires op.OfferAll? || op.DialAll? || op.RecordAll?
    ensures var after := Performed(w, op, answer);
      after.slot.Live? && (Tended(after.slot.call) || Owed(after.ops) || SetUpGoesOn(after.ops, StepsLeft(op)))
  {
    hide Tended, Commit, TransferStep, UsersLetGo, LegsRegistered, LetGo, RecordedAll;
    var after := Performed(w, op, answer);
    match op
    case OfferAll(users) => assert DialAll(users * answer.users) in after.ops;
    case DialAll(offered) =>
      if offered == {} {
        assert AnswerWithVoicemail in after.ops;
      } else {
        var legs := set leg | leg in answer.legs && leg.party.Agent? && leg.party.user in offered;
        assert RecordAll(offered, legs) in after.ops;
      }
    case RecordAll(offered, legs) =>
      RecordingAdvances(w, w.ops - multiset{op}, offered, legs);
  }

  lemma RecordingAdvances(w: World, rest: multiset<Op>, offered: set<UserId>, legs: set<Leg>)
    requires w.slot.Live? && !w.slot.call.ending && !w.slot.call.answered && w.slot.call.direction.Inbound?
    ensures var after := RecordedAll(w, rest, offered, legs); after.slot.Live? && (Tended(after.slot.call) || Owed(after.ops))
  {
    hide Tended, LegsRegistered, LetGo, Stored;
    if legs != {} && forall leg <- legs :: leg.party.Agent? {
      RungAreOut(w.slot.call, legs);
    } else {
      assert AnswerWithVoicemail in RecordedAll(w, rest, offered, legs).ops;
    }
  }

  lemma RungAreOut(c: Call, legs: set<Leg>)
    requires legs != {} && !c.ending && !c.answered && c.direction.Inbound? && forall leg <- legs :: leg.party.Agent?
    ensures Tended(Stored(c, LegsRegistered(c, legs).0))
  {
    assert legs <= Stored(c, LegsRegistered(c, legs).0).pending;
  }

  /** Forwarding a caller ends in a leg that is out, or in an operation that closes the call. */
  lemma ForwardAdvances(w: World, op: Op, answer: Answer)
    requires op in w.ops && w.slot.Live? && !w.slot.call.ending && w.slot.call.direction.Inbound?
    requires op.DialExternal? || op.RecordExternal? || op.DialFailed?
    ensures var after := Performed(w, op, answer);
      after.slot.Live? && (Tended(after.slot.call) || Owed(after.ops) || SetUpGoesOn(after.ops, StepsLeft(op)))
  {
    hide Commit, TransferStep, RecordedAll, UsersLetGo;
    var after := Performed(w, op, answer);
    match op
    case DialExternal =>
      if answer.ok && answer.leg.party.External? {
        assert RecordExternal(answer.leg) in after.ops;
      } else {
        assert DialFailed in after.ops;
      }
    case RecordExternal(leg) => assert after.slot.call.externalLeg == Some(leg);
    case DialFailed => assert RouteToVoicemail in after.ops;
  }

  /** How far a fixed-order ring is from the end of the queue: positions left, then steps left at this one. */
  function RingStepsLeft(task: RingTask, positions: nat): (nat, nat) {
    match task
    case RingStart(_) => (positions + 1, 0)
    case RingTurn(_, index) => (if index < positions then positions - index else 0, 3)
    case RingOffer(_, index, _) => (if index < positions then positions - index else 0, 2)
    case RingDial(_, index, _) => (if index < positions then positions - index else 0, 1)
    case RingRecord(_, index, _, _) => (if index < positions then positions - index else 0, 0)
  }

  predicate Nearer(left: (nat, nat), before: (nat, nat)) {
    left.0 < before.0 || (left.0 == before.0 && left.1 < before.1)
  }

  /** What a step of a fixed-order ring leads to. */
  ghost predicate RingDelivers(after: World, task: RingTask, positions: nat) {
    || (after.ringing == multiset{} && Owed(after.ops))
    || (after.ringing == multiset{} && task.RingRecord? && after.slot.Live? && task.leg in after.slot.call.agentLegs)
    || (exists next :: after.ringing == multiset{next} && Nearer(RingStepsLeft(next, positions), RingStepsLeft(task, positions)))
  }

  /**
    At every moment of every run, a step of a fixed-order ring on a call that
    is not ending comes nearer to the end of the queue, or ends the ring: with
    its leg recorded, or with the operation that sends the caller to voicemail.
   */
  lemma RingAdvances(worlds: seq<World>, steps: seq<Step>, i: nat, task: RingTask, answer: Answer)
    requires Traces(worlds, steps) && i <= |steps|
    requires worlds[i].slot.Live? && !worlds[i].slot.call.ending && task in worlds[i].ringing
    ensures RingDelivers(RingStep(worlds[i], task, answer), task, |worlds[i].slot.call.queue|)
  {
    hide Next, Initial, RingDelivers, RingStep;
    var w := worlds[i];
    RunKeeps(worlds, steps, i);
    OnlyTask(w, task);
    match task
    case RingTurn(_, _) => TurnAdvances(w, task, answer);
    case RingRecord(_, _, _, _) => RecordEnds(w, task, answer);
    case RingDial(_, _, _) => DialAdvances(w, task, answer);
    case _ => OfferAdvances(w, task, answer);
  }

  /** A ring at work is the only one, and at a position of the queue. */
  lemma OnlyTask(w: World, task: RingTask)
    requires Invariant(w) && w.slot.Live? && task in w.ringing
    ensures w.ringing == multiset{task}
    ensures RingsWhom(task).Some? ==> PositionOf(task).Some? && PositionOf(task).value < |w.slot.call.queue|
  {
    hide OpsFit, NotStranded, TransfersBacked, ClaimsAnswered, RenewalsFit, TimelineTells, WellFormed;
    assert |w.ringing - multiset{task}| == 0;
    assert w.ringing == w.ringing - multiset{task} + multiset{task};
  }

  /** A ring that is recorded is over; one whose leg is not its user's goes on to the next position. */
  lemma RecordEnds(w: World, task: RingTask, answer: Answer)
    requires w.ringing == multiset{task} && w.slot.Live? && !w.slot.call.ending && task.RingRecord?
    requires task.index < |w.slot.call.queue|
    ensures RingDelivers(RingStep(w, task, answer), task, |w.slot.call.queue|)
  {
    hide Commit, UsersLetGo;
    if task.leg.party == Agent(task.user) {
      assert task.leg in RingStep(w, task, answer).slot.call.agentLegs;
    } else {
      NextRing(RingStep(w, task, answer), task, RingTurn(task.fallback, task.index + 1), |w.slot.call.queue|);
    }
  }

  lemma OfferAdvances(w: World, task: RingTask, answer: Answer)
    requires w.ringing == multiset{task} && w.slot.Live? && !w.slot.call.ending
    requires task.RingStart? || task.RingOffer?
    requires RingsWhom(task).Some? ==> PositionOf(task).value < |w.slot.call.queue|
    ensures RingDelivers(RingStep(w, task, answer), task, |w.slot.call.queue|)
  {
    hide Commit, Write, LegsRegistered, RingDelivers;
    var after := RingStep(w, task, answer);
    var positions := |w.slot.call.queue|;
    match task
    case RingStart(fallback) => NextRing(after, task, RingTurn(fallback, w.slot.call.queueIndex), positions);
    case RingOffer(fallback, index, user) =>
      NextRing(after, task, if answer.ok then RingDial(fallback, index, user) else RingTurn(fallback, index + 1), positions);
  }

  lemma DialAdvances(w: World, task: RingTask, answer: Answer)
    requires w.ringing == multiset{task} && w.slot.Live? && !w.slot.call.ending && task.RingDial?
    requires task.index < |w.slot.call.queue|
    ensures RingDelivers(RingStep(w, task, answer), task, |w.slot.call.queue|)
  {
    hide Commit, Write, LegsRegistered, RingDelivers, TurnTaken;
    NextRing(RingStep(w, task, answer), task,
             if answer.ok && answer.leg.party == Agent(task.user) then
               RingRecord(task.fallback, task.index, task.user, answer.leg)
             else RingTurn(task.fallback, task.index + 1),
             |w.slot.call.queue|);
  }

  lemma NextRing(after: World, task: RingTask, next: RingTask, positions: nat)
    requires after.ringing == multiset{next} && Nearer(RingStepsLeft(next, positions), RingStepsLeft(task, positions))
    ensures RingDelivers(after, task, positions)
  {
  }

  lemma TurnAdvances(w: World, task: RingTask, answer: Answer)
    requires w.ringing == multiset{task} && w.slot.Live? && !w.slot.call.ending && task.RingTurn?
    ensures RingDelivers(RingStep(w, task, answer), task, |w.slot.call.queue|)
  {
    hide UsersLetGo;
    var after := RingStep(w, task, answer);
    var c := w.slot.call;
    if task.index >= |c.queue| || !TurnTaken(c, task.index).1 {
      assert FallBack(task.fallback) in after.ops && Closes(FallBack(task.fallback));
    } else {
      NextRing(after, task, RingOffer(task.fallback, task.index, c.queue[task.index]), |c.queue|);
    }
  }

  /** A transfer's operation settles it, has its ring tracked, or leaves one with fewer steps left. */
  lemma SettlingAdvances(w: World, op: Op, target: UserId, answer: Answer)
    requires op in w.ops && w.slot.Live? && !w.slot.call.ending && OpFits(op, w.slot.call, w.marks)
    requires w.slot.call.transferTo == Some(target) && Settles(op, target, w.marks)
    ensures var after := Performed(w, op, answer);
      && after.slot.Live?
      && (|| after.slot.call.transferTo.None?
          || RingsUser(after.slot.call, target)
          || SettlementGoesOn(after.ops, target, w.marks, StepsLeft(op)))
  {
    hide RingsUser, UsersLetGo;
    match op
    case TransferRecord(mark, _, starter, leg) => RungIsTracked(w.slot.call, leg, target);
    case FailTransfer(_) =>
    case _ => TransferAdvances(w, op, target, answer);
  }

  lemma TransferAdvances(w: World, op: Op, target: UserId, answer: Answer)
    requires op in w.ops && w.slot.Live? && !w.slot.call.ending && OpFits(op, w.slot.call, w.marks)
    requires w.slot.call.transferTo == Some(target) && Settles(op, target, w.marks)
    requires op.TransferOffer? || op.TransferHold? || op.TransferRing? || op.TransferDial?
    ensures var after := Performed(w, op, answer);
      after.slot == w.slot && SettlementGoesOn(after.ops, target, w.marks, StepsLeft(op))
  {
    hide Performed, OpFits;
    var (mark, _, starter) := MarkOf(op).value;
    var next :=
      match op
      case TransferOffer(_, _, _) => TransferHold(mark, target, starter)
      case TransferHold(_, _, _) => TransferRing(mark, target, starter)
      case TransferRing(_, _, _) => TransferDial(mark, target, starter)
      case _ => TransferRecord(mark, target, starter, answer.leg);
    TransferGoesOn(w, op, target, starter, next, answer);
    assert Settles(next, target, w.marks) && Settles(FailTransfer(target), target, w.marks);
  }

  /** The operation that takes over, or the one that settles the transfer as failed. */
  lemma TransferGoesOn(w: World, op: Op, target: UserId, starter: UserId, next: Op, answer: Answer)
    requires op in w.ops && w.slot.Live? && !w.slot.call.ending && OpFits(op, w.slot.call, w.marks)
    requires w.slot.call.transferTo == Some(target) && MarkOf(op) == Some((w.marks, target, starter))
    requires match op
      case TransferOffer(mark, _, _) => next == TransferHold(mark, target, starter)
      case TransferHold(mark, _, _) => next == TransferRing(mark, target, starter)
      case TransferRing(mark, _, _) => next == TransferDial(mark, target, starter)
      case TransferDial(mark, _, _) => next == TransferRecord(mark, target, starter, answer.leg)
      case _ => false
    ensures var after := Performed(w, op, answer);
      after.slot == w.slot && (next in after.ops || FailTransfer(target) in after.ops)
  {
    hide Commit, Write, RecordedAll, LegsRegistered, UsersLetGo, LetGo;
  }

  lemma RungIsTracked(c: Call, leg: Leg, target: UserId)
    requires leg.party == Agent(target) && !c.ending
    ensures RingsUser(Stored(c, LegsRegistered(c, {leg}).0), target)
  {
    var n := Stored(c, LegsRegistered(c, {leg}).0);
    assert leg in n.agentLegs && n.agentLegs[leg] == target;
  }
}
