/**
  The changes of a live call as the controller makes them: a copy of the
  record is taken, its fields are updated in place, and the decision comes
  back beside it (the `changeCall` callbacks of call-flow.ts, `removeLeg` of
  call-state.ts, the two direct writes of telephony.service.ts). Every method
  makes exactly the change `CallDecisions` gives as a value.
 */
module CallDraft {
  import opened Options
  import opened CallState
  import opened CallControl
  import opened CallDecisions

  class Draft {
    var version: nat
    var conference: Option<nat>
    var direction: Direction
    var activeAgent: Option<UserId>
    var callerLeg: Option<Leg>
    var agentLeg: Option<Leg>
    var externalLeg: Option<Leg>
    var agentLegs: map<Leg, UserId>
    var pending: set<Leg>
    var queue: seq<UserId>
    var queueIndex: nat
    var strategy: Strategy
    var answered: bool
    var voicemail: bool
    var held: bool
    var transferTo: Option<UserId>
    var transferBy: Option<UserId>
    var transferOrigin: Option<Leg>
    var ending: bool

    /** A copy of the stored call, to be changed. */
    constructor (c: Call)
      ensures Value() == c
    {
      version, conference, direction, activeAgent := c.version, c.conference, c.direction, c.activeAgent;
      callerLeg, agentLeg, externalLeg := c.callerLeg, c.agentLeg, c.externalLeg;
      agentLegs, pending, queue, queueIndex, strategy := c.agentLegs, c.pending, c.queue, c.queueIndex, c.strategy;
      answered, voicemail, held, ending := c.answered, c.voicemail, c.held, c.ending;
      transferTo, transferBy, transferOrigin := c.transferTo, c.transferBy, c.transferOrigin;
    }

    /** The call the draft stands for. */
    function Value(): Call
      reads this
    {
      Call(version, conference, direction, activeAgent, callerLeg, agentLeg, externalLeg, agentLegs, pending, queue,
           queueIndex, strategy, answered, voicemail, held, transferTo, transferBy, transferOrigin, ending)
    }

    // Legs --------------------------------------------------------------------------

    method ForgetLeg(leg: Leg)
      modifies this
      ensures Value() == RemoveLeg(old(Value()), leg)
    {
      Untrack({leg});
      callerLeg := Vacated(callerLeg, leg);
      agentLeg := Vacated(agentLeg, leg);
      externalLeg := Vacated(externalLeg, leg);
      transferOrigin := Vacated(transferOrigin, leg);
    }

    method Untrack(legs: set<Leg>)
      modifies `agentLegs, `pending
      ensures agentLegs == old(agentLegs) - legs && pending == old(pending) - legs
    {
      agentLegs := agentLegs - legs;
      pending := pending - legs;
    }

    static method Vacated(slot: Option<Leg>, leg: Leg) returns (left: Option<Leg>)
      ensures left == Without(slot, leg)
    {
      left := slot;
      if slot == Some(leg) { left := None; }
    }

    /** Dialed legs are recorded one by one, unless the call is ending. */
    method RegisterLegs(legs: seq<Leg>) returns (recorded: bool)
      requires forall leg <- legs :: leg.party.Agent?
      modifies this
      ensures (Value(), recorded) == LegsRegistered(old(Value()), set leg | leg in legs)
    {
      if ending { return false; }
      TrackLegs(legs);
      AwaitLegs(set leg | leg in legs);
      return true;
    }

    method AwaitLegs(legs: set<Leg>)
      modifies `pending
      ensures pending == old(pending) + legs
    {
      pending := pending + legs;
    }

    method TrackLegs(legs: seq<Leg>)
      requires forall leg <- legs :: leg.party.Agent?
      modifies `agentLegs
      ensures agentLegs == old(agentLegs) + RingsOf(set leg | leg in legs)
    {
      var i := 0;
      while i < |legs|
        invariant i <= |legs|
        invariant agentLegs == old(agentLegs) + map leg | leg in legs[..i] :: leg.party.user
      {
        agentLegs := agentLegs[legs[i] := legs[i].party.user];
        i := i + 1;
      }
      assert legs[..i] == legs;
      assert RingsOf(set leg | leg in legs) == map leg | leg in legs :: leg.party.user;
    }

    method RecordExternal(leg: Leg) returns (recorded: bool)
      modifies this
      ensures (Value(), recorded) == ExternalRecorded(old(Value()), leg)
    {
      if ending { return false; }
      externalLeg := Some(leg);
      return true;
    }

    method NoteConference(name: nat)
      modifies this
      ensures Value() == ConferenceNoted(old(Value()), name)
    {
      conference := Some(name);
    }

    // Joins -------------------------------------------------------------------------

    method CallerJoins(leg: Leg)
      modifies this
      ensures Value() == CallerJoined(old(Value()), leg)
    {
      callerLeg := Some(leg);
    }

    method ExternalJoins(leg: Leg) returns (firstAnswer: bool)
      modifies this
      ensures (Value(), firstAnswer) == ExternalJoined(old(Value()), leg)
    {
      firstAnswer := !answered && direction.Outbound?;
      answered := true;
      externalLeg := Some(leg);
    }

    method AgentJoins(user: UserId, leg: Leg) returns (join: AgentJoin)
      modifies this
      ensures (Value(), join) == AgentJoined(old(Value()), user, leg)
    {
      var wasAnswered := answered;
      var previous := activeAgent;
      var isTarget := transferTo == Some(user);

      if wasAnswered && !isTarget && previous.Some? && previous != Some(user) {
        return Intruder;
      }

      var others := agentLegs.Keys - {leg};
      var transfer := None;
      if isTarget && previous.Some? {
        var from := if transferBy.Some? then transferBy.value else previous.value;
        transfer := Some(Handover(from, user, transferBy, others));
      }
      Seat(user, leg);
      if transfer.Some? {
        ClearTransfer();
      }

      var firstAnswer := !wasAnswered && direction.Inbound?;
      if firstAnswer {
        answered := true;
      }
      return Joined(firstAnswer, if firstAnswer then others else {}, transfer);
    }

    method Seat(user: UserId, leg: Leg)
      modifies this
      ensures Value() == old(Value()).(agentLeg := Some(leg), activeAgent := Some(user), pending := old(pending) - {leg})
    {
      agentLeg := Some(leg);
      activeAgent := Some(user);
      pending := pending - {leg};
    }

    method ClearTransfer()
      modifies this
      ensures Value() == TransferCleared(old(Value()))
    {
      transferTo, transferBy, transferOrigin := None, None, None;
    }

    // Ends --------------------------------------------------------------------------

    /** What the end of a leg makes of the call; `remove` takes its record away. */
    method LegEnds(leg: Leg) returns (plan: LegEndPlan, remove: bool)
      modifies this
      ensures LegEnded(old(Value()), leg) == (if remove then None else Some(Value()), plan)
    {
      if leg !in LegsOf(Value()) {
        return Ignored, false;
      }

      if ending {
        ForgetLeg(leg);
        if HasActiveLegs(Value()) {
          return Forgotten, false;
        }
        return Ended({}), true;
      }

      if leg.party.Caller? {
        return Ended(LegsOf(Value()) - {leg}), true;
      }

      var wasActive := agentLeg == Some(leg);
      ForgetLeg(leg);
      if leg.party.External? {
        plan, remove := ExternalEnds();
      } else {
        plan, remove := AgentEnds(leg, wasActive);
      }
    }

    method ExternalEnds() returns (plan: LegEndPlan, remove: bool)
      modifies this
      ensures ExternalEnded(old(Value())) == (if remove then None else Some(Value()), plan)
    {
      if direction.Outbound? {
        return Ended(LegsOf(Value())), true;
      }
      if !answered && callerLeg.Some? {
        return ToVoicemail, false;
      }
      return Ended({}), true;
    }

    method AgentEnds(leg: Leg, wasActive: bool) returns (plan: LegEndPlan, remove: bool)
      requires leg.party.Agent?
      modifies this
      ensures AgentEnded(old(Value()), leg, wasActive) == (if remove then None else Some(Value()), plan)
    {
      if !answered {
        if direction.Outbound? {
          return Ended(LegsOf(Value())), true;
        }
        if strategy.FixedOrder? {
          queueIndex := queueIndex + 1;
          return RingNext, false;
        }
        return if pending != {} then Forgotten else ToVoicemail, false;
      }

      if wasActive && transferTo.None? {
        return Ended(LegsOf(Value())), true;
      }

      var user := leg.party.user;
      if transferTo == Some(user) && user !in agentLegs.Values {
        return TransferFellThrough(user), false;
      }
      return Forgotten, false;
    }

    method RequestEnd()
      modifies this
      ensures Value() == EndRequested(old(Value()))
    {
      if !ending {
        ending := true;
        ClearTransfer();
      }
    }

    // Transfers and holds ---------------------------------------------------------------

    /** The teammate's lost rings are forgotten one by one before the transfer is marked. */
    method MarkTransfer(request: Request, target: UserId) returns (refusal: Option<Refusal>, lost: set<Leg>)
      modifies this
      ensures (Value(), refusal) == TransferMarked(old(Value()), request, target)
      ensures lost == if refusal.Some? then {} else set leg | leg in old(agentLegs) && old(agentLegs)[leg] == target
    {
      refusal := RefuseTransfer(Value(), request, target);
      if refusal.Some? {
        return refusal, {};
      }

      lost := set leg | leg in agentLegs && agentLegs[leg] == target;
      ForgetLegs(lost);

      transferTo := Some(target);
      transferBy := Some(request.user);
      transferOrigin := Some(request.leg);
    }

    method ForgetLegs(lost: set<Leg>)
      modifies this
      ensures Value() == WithoutLegs(old(Value()), lost)
    {
      ghost var before := Value();
      var left := lost;
      assert Value() == WithoutLegs(before, {});
      while left != {}
        invariant left <= lost
        invariant Value() == WithoutLegs(before, lost - left)
      {
        var leg :| leg in left;
        ForgetLeg(leg);
        OneLegMore(before, lost - left, leg);
        assert lost - left + {leg} == lost - (left - {leg});
        left := left - {leg};
      }
      assert lost - left == lost;
    }

    method FailTransfer(target: UserId) returns (settled: Option<Settlement>)
      modifies this
      ensures (Value(), settled) == TransferFailed(old(Value()), target)
    {
      if ending || transferTo != Some(target) {
        return None;
      }
      var ringing := set leg | leg in agentLegs && agentLegs[leg] == target && agentLeg != Some(leg);
      settled := Some(Settlement(PlanTransferFailure(Value()), transferBy, ringing));
      ClearTransfer();
    }

    method RecordHold(hold: bool) returns (changed: bool)
      modifies this
      ensures (Value(), changed) == HoldRecorded(old(Value()), hold)
    {
      if ending || held == hold {
        return false;
      }
      held := hold;
      return true;
    }

    // Voicemail and turns -------------------------------------------------------------

    method AnswerByVoicemail() returns (answers: bool)
      modifies this
      ensures (Value(), answers) == AnsweredByVoicemail(old(Value()))
    {
      if ending {
        return false;
      }
      voicemail := true;
      return true;
    }

    method PullIntoVoicemail() returns (moved: Option<Moved>)
      modifies this
      ensures (Value(), moved) == PulledIntoVoicemail(old(Value()))
    {
      var stillRinging := !answered && pending != {};
      if callerLeg.None? || ending || voicemail || stillRinging {
        return None;
      }
      moved := Some(Moved(agentLegs.Keys + SetOf(externalLeg), held));
      voicemail := true;
      LeaveEverybody();
      held := false;
    }

    method LeaveEverybody()
      modifies `pending, `agentLegs, `agentLeg, `externalLeg
      ensures pending == {} && agentLegs == map[] && agentLeg.None? && externalLeg.None?
    {
      pending := {};
      agentLegs := map[];
      agentLeg := None;
      externalLeg := None;
    }

    method TakeTurn(index: nat) returns (taken: bool)
      modifies this
      ensures (Value(), taken) == TurnTaken(old(Value()), index)
    {
      if ending || answered || voicemail {
        return false;
      }
      queueIndex := index;
      return true;
    }
  }
}
