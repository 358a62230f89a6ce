/**
  What every reachable world satisfies. Each predicate is one promise of the
  call flow; together they are inductive.
 */
module CallInvariants {
  import opened Options
  import opened CallState
  import opened CallDecisions
  import opened CallWorld

  // Nobody is stranded -----------------------------------------------------------------

  /**
    The record alone answers for the other party: the call is being torn down
    or is in voicemail, an agent is talking, a teammate is to take it over, or
    a caller has a forwarded leg or a ring that can still be answered.
   */
  predicate Tended(c: Call) {
    || c.ending
    || c.voicemail
    || c.agentLeg.Some?
    || c.transferTo.Some?
    || (c.direction.Inbound? && (c.externalLeg.Some? || (!c.answered && c.pending != {})))
  }

  /** The operation will send the caller to voicemail or end the call. */
  predicate Closes(op: Op) {
    op.AnswerWithVoicemail? || op.RouteToVoicemail? || op.EndCall? || op.Finalize?
  }

  /** The operation is setting up the rings, or the forwarded leg, of a call nobody has answered. */
  predicate SetsUp(op: Op) {
    || op.DialExternal? || op.RecordExternal? || op.DialFailed?
    || op.OfferAll? || op.DialAll? || op.RecordAll?
  }

  ghost predicate Owed(ops: multiset<Op>) {
    exists op :: op in ops && Closes(op)
  }

  ghost predicate BeingSetUp(ops: multiset<Op>) {
    exists op :: op in ops && SetsUp(op)
  }

  /** The other party of a live call is tended to, or an operation in flight owes it. */
  ghost predicate CaredFor(c: Call, ops: multiset<Op>, ringing: multiset<RingTask>) {
    Tended(c) || Owed(ops) || (!c.answered && (ringing != multiset{} || BeingSetUp(ops)))
  }

  ghost predicate NotStranded(w: World) {
    w.slot.Live? ==> CaredFor(w.slot.call, w.ops, w.ringing)
  }

  // Transfers have somebody to settle them -------------------------------------------------

  /** The mark an operation of a transfer belongs to. */
  function MarkOf(op: Op): Option<(nat, UserId, UserId)> {
    match op
    case TransferOffer(mark, target, starter) => Some((mark, target, starter))
    case TransferHold(mark, target, starter) => Some((mark, target, starter))
    case TransferRing(mark, target, starter) => Some((mark, target, starter))
    case TransferDial(mark, target, starter) => Some((mark, target, starter))
    case TransferRecord(mark, target, starter, _) => Some((mark, target, starter))
    case _ => None
  }

  /** The operation will settle a transfer to this user, or record the ring whose end settles it. */
  predicate Settles(op: Op, target: UserId, mark: nat) {
    op == FailTransfer(target) || (MarkOf(op).Some? && MarkOf(op).value.0 == mark && MarkOf(op).value.1 == target)
  }

  ghost predicate SettlementOwed(ops: multiset<Op>, target: UserId, mark: nat) {
    exists op :: op in ops && Settles(op, target, mark)
  }

  /** A pending transfer has a tracked leg of its target, or an operation that will settle it. */
  ghost predicate Backed(c: Call, ops: multiset<Op>, marks: nat) {
    c.transferTo.Some? ==>
      RingsUser(c, c.transferTo.value) || SettlementOwed(ops, c.transferTo.value, marks)
  }

  ghost predicate TransfersBacked(w: World) {
    w.slot.Live? && !w.slot.call.voicemail ==> Backed(w.slot.call, w.ops, w.marks)
  }

  // Claims are answered for -------------------------------------------------------------

  /** The operation will release this user, or record the ring their claim was taken for. */
  predicate Owes(op: Op, user: UserId) {
    match op
    case Create(agent, _) => user == agent
    case DialAll(offered) => user in offered
    case RecordAll(offered, _) => user in offered
    case TransferHold(_, target, _) => user == target
    case TransferRing(_, target, _) => user == target
    case TransferDial(_, target, _) => user == target
    case TransferRecord(_, target, _, _) => user == target
    case Release(users) => user in users
    case CheckRenewal(seen) => user in OccupantsOf(seen)
    case _ => false
  }

  predicate RingOwes(task: RingTask, user: UserId) {
    match task
    case RingDial(_, _, rung) => user == rung
    case RingRecord(_, _, rung, _) => user == rung
    case _ => false
  }

  ghost predicate ReleaseOwed(ops: multiset<Op>, user: UserId) {
    exists op :: op in ops && Owes(op, user)
  }

  ghost predicate RingReleaseOwed(ringing: multiset<RingTask>, user: UserId) {
    exists task :: task in ringing && RingOwes(task, user)
  }

  /** The claim on a user is the call's to hold, or an operation in flight will let it go. */
  ghost predicate Answered(slot: Slot, ops: multiset<Op>, ringing: multiset<RingTask>, user: UserId) {
    || (slot.Live? && user in HoldsOn(slot.call))
    || ReleaseOwed(ops, user)
    || RingReleaseOwed(ringing, user)
  }

  ghost predicate ClaimsAnswered(w: World) {
    forall user <- w.claimed :: Answered(w.slot, w.ops, w.ringing, user)
  }

  // Renewals see the past of the call ------------------------------------------------------

  /** The call a renewal read is an earlier version, or this one. */
  ghost predicate SeenBefore(seen: Call, c: Call) {
    seen.version <= c.version && (seen.version == c.version ==> seen == c)
  }

  ghost predicate RenewalsFit(slot: Slot, ops: multiset<Op>) {
    forall op :: op in ops && (op.RenewClaims? || op.CheckRenewal?) ==>
      !slot.Unborn? && (slot.Live? ==> SeenBefore(op.seen, slot.call))
  }

  // Operations fit the call ------------------------------------------------------------------

  /** The operation can be in flight on this call after this many marks. */
  ghost predicate OpFits(op: Op, c: Call, marks: nat) {
    && (op.AnswerWithVoicemail? || op.RouteToVoicemail? ==> c.direction.Inbound?)
    && (op.OfferAll? || op.DialAll? || op.RecordAll? ==> c.direction.Inbound? && c.strategy != FixedOrder)
    && (op.RecordExternal? ==> op.leg.party.External?)
    && (op.TransferRecord? ==> op.leg.party == Agent(op.target))
    && (op.DialExternal? || op.RecordExternal? || op.DialFailed? ==> c.strategy != FixedOrder)
    && (MarkOf(op).Some? ==>
          var (mark, target, starter) := MarkOf(op).value;
          && c.answered
          && 0 < mark <= marks
          && (mark == marks && c.transferTo.Some? ==> c.transferTo == Some(target) && c.transferBy == Some(starter)))
  }

  ghost predicate OpsFit(w: World) {
    && (w.slot.Live? ==> forall op <- w.ops :: OpFits(op, w.slot.call, w.marks))
    && (w.slot.Unborn? ==>
          && w.ringing == multiset{}
          && w.marks == 0
          && w.turns == []
          && w.queue == []
          && forall op <- w.ops :: op.Occupy? || op.Create? || op.Release? || op.EndCall? || op.Finalize?)
  }

  // The timeline tells the truth -------------------------------------------------------------

  /** What a listener of the timeline knows, and whether everything it heard made sense. */
  datatype Tally = Tally(open: Option<UserId>, held: bool, started: bool, over: bool, orderly: bool)

  const SILENCE := Tally(None, false, false, false, true)

  function Hear(t: Tally, e: Event): Tally {
    var t := t.(orderly := t.orderly && !t.over);
    match e
    case CallStarted => t.(started := true, orderly := t.orderly && !t.started)
    case CallEnded => t.(over := true)
    case TransferMark(target) => t.(open := Some(target), orderly := t.orderly && t.open.None?)
    case TransferComplete(target) => t.(open := None, orderly := t.orderly && t.open == Some(target))
    case TransferFailure(target) => t.(open := None, orderly := t.orderly && t.open == Some(target))
    case TransferCalledOff => t.(open := None, orderly := t.orderly && t.open.Some?)
    case Held => t.(held := true, orderly := t.orderly && !t.held)
    case Resumed => t.(held := false, orderly := t.orderly && t.held)
  }

  function HearAll(t: Tally, events: seq<Event>): Tally
    decreases |events|
  {
    if events == [] then t else HearAll(Hear(t, events[0]), events[1..])
  }

  /** What was heard is how the call stands. */
  predicate Agrees(t: Tally, c: Call) {
    t.orderly && !t.over && t.open == c.transferTo && t.held == c.held && (t.started ==> c.answered)
  }

  ghost predicate TimelineTells(w: World) {
    var t := HearAll(SILENCE, w.timeline);
    match w.slot
    case Unborn => w.timeline == []
    case Live(c) => Agrees(t, c)
    case Gone => t.orderly && t.over
  }

  // A fixed-order ring takes the queue in order ---------------------------------------------------

  /** The queue position a ring is about. */
  function PositionOf(task: RingTask): Option<nat> {
    match task
    case RingStart(_) => None
    case RingTurn(_, index) => Some(index)
    case RingOffer(_, index, _) => Some(index)
    case RingDial(_, index, _) => Some(index)
    case RingRecord(_, index, _, _) => Some(index)
  }

  /** The user a ring is for, once its turn was taken. */
  function RingsWhom(task: RingTask): Option<UserId> {
    match task
    case RingOffer(_, _, user) => Some(user)
    case RingDial(_, _, user) => Some(user)
    case RingRecord(_, _, user, _) => Some(user)
    case _ => None
  }

  /** A ring at work is at the first position not tried yet. */
  ghost predicate TaskFits(task: RingTask, c: Call, tried: nat) {
    && c.direction.Inbound?
    && c.strategy.FixedOrder?
    && (PositionOf(task).None? ==> c.queueIndex == tried)
    && (PositionOf(task).Some? ==> PositionOf(task).value == tried)
    && (RingsWhom(task).Some? ==>
          tried < |c.queue| && RingsWhom(task).value == c.queue[tried] && c.queueIndex == tried)
  }

  /** The tried positions are the first ones of the queue, each tried once for the user at it. */
  ghost predicate TriedInOrder(c: Call, turns: seq<Turn>) {
    |turns| <= |c.queue| && forall i | 0 <= i < |turns| :: turns[i].user == c.queue[i]
  }

  /** At most one ring is at work or out while nobody has answered, and the one that is out was the last tried. */
  ghost predicate OneRingAtATime(c: Call, ringing: multiset<RingTask>, turns: seq<Turn>) {
    && |ringing| <= 1
    && (c.strategy.FixedOrder? && !c.answered ==>
          && |ringing| + |c.agentLegs| <= 1
          && (c.agentLegs != map[] ==>
                |turns| == c.queueIndex + 1 && turns[c.queueIndex].Rung? && turns[c.queueIndex].leg in c.agentLegs))
  }

  /** An unanswered caller is sent to voicemail by a fixed-order ring only when nobody is left to try. */
  ghost predicate ExhaustedFirst(c: Call, ops: multiset<Op>, turns: seq<Turn>) {
    c.strategy.FixedOrder? && !c.answered && !c.ending &&
    (c.voicemail || AnswerWithVoicemail in ops || RouteToVoicemail in ops) ==>
      |turns| == |c.queue|
  }

  /** Everything a fixed-order ring promises. */
  ghost predicate RingFitsCall(c: Call, ringing: multiset<RingTask>, ops: multiset<Op>, turns: seq<Turn>) {
    && (forall task <- ringing :: TaskFits(task, c, |turns|))
    && OneRingAtATime(c, ringing, turns)
    && (c.strategy.FixedOrder? ==>
          c.direction.Inbound? && TriedInOrder(c, turns) && (!c.answered ==> c.externalLeg.None?))
    && ExhaustedFirst(c, ops, turns)
  }

  ghost predicate RingFits(w: World) {
    w.slot.Live? ==> RingFitsCall(w.slot.call, w.ringing, w.ops, w.turns)
  }

  // All of it --------------------------------------------------------------------------------

  ghost predicate Invariant(w: World) {
    && (w.slot.Live? ==> WellFormed(w.slot.call) && w.slot.call.queue == w.queue)
    && OpsFit(w)
    && NotStranded(w)
    && TransfersBacked(w)
    && ClaimsAnswered(w)
    && RenewalsFit(w.slot, w.ops)
    && TimelineTells(w)
    && RingFits(w)
  }
}
