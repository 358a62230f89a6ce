/**
  What a report that a leg ended makes of the call
  (apps/call-controller/src/calls/call-flow.ts): exactly which ends remove the
  call, and what each call that goes on is owed.
 */
module CallEndings {
  import opened Options
  import opened CallState
  import opened CallControl
  import opened CallDecisions
  import opened CallWorld
  import opened CallInvariants

  /** The call is over once this leg ended. */
  predicate TakesTheCall(c: Call, leg: Leg) {
    if c.ending then LegsOf(c) == {leg}
    else
      match leg.party
      case Caller => true
      case External => c.direction.Outbound? || c.answered
      case Agent(_) => if c.answered then c.agentLeg == Some(leg) && c.transferTo.None? else c.direction.Outbound?
  }

  /** No other leg of this user is tracked. */
  predicate IsLastRing(c: Call, leg: Leg, user: UserId) {
    forall other <- c.agentLegs :: other != leg ==> c.agentLegs[other] != user
  }

  /**
    What a call that goes on is owed. A forwarded leg that ends, and the last
    of the rings out at once, owe the caller voicemail; the last leg of a
    transfer's target owes its settlement.
   */
  function OwedByEnd(c: Call, leg: Leg): multiset<Op> {
    if c.ending then multiset{}
    else
      match leg.party
      case Agent(user) =>
        if !c.answered then if !c.strategy.FixedOrder? && c.pending <= {leg} then multiset{RouteToVoicemail} else multiset{}
        else if c.transferTo == Some(user) && IsLastRing(c, leg, user) then multiset{FailTransfer(user)}
        else multiset{}
      case _ => multiset{RouteToVoicemail}
  }

  /** The next position of a fixed-order queue has its turn. */
  function RungAfter(c: Call, leg: Leg): multiset<RingTask> {
    if !c.ending && leg.party.Agent? && !c.answered && c.strategy.FixedOrder? then multiset{RingStart(InConference)} else multiset{}
  }

  /** The call without the leg; a fixed-order ring that ended moves on by one position. */
  function LeftBy(c: Call, version: nat, leg: Leg): Call {
    RemoveLeg(c, leg).(
      version := version,
      queueIndex := if RungAfter(c, leg) != multiset{} then c.queueIndex + 1 else c.queueIndex)
  }

  lemma NoRingLeft(c: Call, leg: Leg, user: UserId)
    ensures RingsUser(RemoveLeg(c, leg), user) <==> !IsLastRing(c, leg, user)
  {
    var left := RemoveLeg(c, leg);
    if !IsLastRing(c, leg, user) {
      var other :| other in c.agentLegs && other != leg && c.agentLegs[other] == user;
      assert other in left.agentLegs && left.agentLegs[other] == user;
    }
  }

  lemma EndingComesTo(c: Call, leg: Leg)
    requires c.ending && leg in LegsOf(c)
    ensures var change := EndChange(c, leg);
      if TakesTheCall(c, leg) then change == Removal([])
      else change == Change(Some(LeftBy(c, c.version, leg)), OwedByEnd(c, leg), RungAfter(c, leg), [])
  {
    RemoveLegForgetsExactlyOne(c, leg);
    hide LegsOf;
    assert LeftBy(c, c.version, leg) == RemoveLeg(c, leg);
    hide RemoveLeg, LeftBy;
  }

  lemma OtherPartyComesTo(c: Call, leg: Leg)
    requires !c.ending && !leg.party.Agent? && leg in LegsOf(c)
    requires c.direction.Inbound? ==> c.callerLeg.Some? && c.callerLeg.value.party.Caller?
    ensures var change := EndChange(c, leg);
      if TakesTheCall(c, leg) then change == Removal([])
      else change == Change(Some(LeftBy(c, c.version, leg)), OwedByEnd(c, leg), RungAfter(c, leg), [])
  {
    hide LegsOf;
    assert LeftBy(c, c.version, leg) == RemoveLeg(c, leg);
  }

  lemma RingComesTo(c: Call, leg: Leg)
    requires !c.ending && leg.party.Agent? && leg in LegsOf(c) && !c.answered
    ensures var change := EndChange(c, leg);
      if TakesTheCall(c, leg) then change == Removal([])
      else change == Change(Some(LeftBy(c, c.version, leg)), OwedByEnd(c, leg), RungAfter(c, leg), [])
  {
    hide LegsOf, RingsUser, IsLastRing;
    var left := RemoveLeg(c, leg);
    assert left.pending == {} <==> c.pending <= {leg};
    assert LegEnded(c, leg) == AgentEnded(left, leg, c.agentLeg == Some(leg));
    hide LegEnded;
  }

  lemma AgentComesTo(c: Call, leg: Leg)
    requires !c.ending && leg.party.Agent? && leg in LegsOf(c) && c.answered
    ensures var change := EndChange(c, leg);
      if TakesTheCall(c, leg) then change == Removal([])
      else change == Change(Some(LeftBy(c, c.version, leg)), OwedByEnd(c, leg), RungAfter(c, leg), [])
  {
    NoRingLeft(c, leg, leg.party.user);
    assert LegEnded(c, leg) == AgentEnded(RemoveLeg(c, leg), leg, c.agentLeg == Some(leg));
    hide LegsOf, LegEnded, RingsUser, IsLastRing;
  }

  lemma EndComesTo(c: Call, leg: Leg)
    requires WellFormed(c) && leg in LegsOf(c)
    ensures var change := EndChange(c, leg);
      if TakesTheCall(c, leg) then change == Removal([])
      else change == Change(Some(LeftBy(c, c.version, leg)), OwedByEnd(c, leg), RungAfter(c, leg), [])
  {
    hide EndChange, TakesTheCall, LeftBy, OwedByEnd, RungAfter, LegsOf;
    if c.ending {
      EndingComesTo(c, leg);
    } else if leg.party.Agent? {
      if c.answered { AgentComesTo(c, leg); } else { RingComesTo(c, leg); }
    } else {
      OtherPartyComesTo(c, leg);
    }
  }

  lemma EndingCommits(w: World, c: Call, leg: Leg)
    requires w.slot == Live(c)
    ensures var after, change := Next(w, ReportEnded(leg)), EndChange(c, leg);
      if change.draft.Some? then
        var n := Stored(c, change.draft.value);
        && after.slot == Live(n)
        && after.ops == w.ops + change.follow + LetGo(UsersLetGo(c, Some(n)))
        && after.ringing == w.ringing + change.ring && after.timeline == w.timeline + change.events
      else
        && after.slot.Gone?
        && after.ops == w.ops + change.follow + LetGo(UsersLetGo(c, None))
        && after.ringing == w.ringing + change.ring && after.timeline == w.timeline + change.events
  {
    hide EndChange, UsersLetGo, LetGo;
  }

  /**
    On every call, the end of a leg of it removes the record exactly if the
    call was ending and this was its last leg, or if it was not ending and the
    leg was the caller's, the outside party's of an outbound or answered call,
    that of the agent placing a call nobody answered, or the talking agent's
    with no transfer pending. Every other call goes on without the leg, owed
    exactly what `OwedByEnd` and `RungAfter` say.
   */
  lemma EndsExactly(w: World, c: Call, leg: Leg)
    requires w.slot == Live(c) && WellFormed(c) && leg in LegsOf(c)
    ensures var after := Next(w, ReportEnded(leg));
      && (after.slot.Gone? <==> TakesTheCall(c, leg))
      && (after.slot.Live? <==> !TakesTheCall(c, leg))
      && (after.slot.Live? ==>
            && after.slot.call == LeftBy(c, after.slot.call.version, leg)
            && after.ops == w.ops + OwedByEnd(c, leg) + LetGo(UsersLetGo(c, Some(after.slot.call)))
            && after.ringing == w.ringing + RungAfter(c, leg)
            && after.timeline == w.timeline)
      && (after.slot.Gone? ==>
            && after.ops == w.ops + LetGo(UsersLetGo(c, None))
            && after.ringing == w.ringing
            && after.timeline == w.timeline + [CallEnded])
  {
    hide Next, EndChange, UsersLetGo, LegsOf, OwedByEnd, RungAfter, TakesTheCall, WellFormed, RemoveLeg, LetGo;
    EndComesTo(c, leg);
    EndingCommits(w, c, leg);
    assert w.ops + multiset{} == w.ops && w.ringing + multiset{} == w.ringing && w.timeline + [] == w.timeline;
  }
}
