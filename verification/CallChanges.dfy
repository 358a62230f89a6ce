/**
  Each change of a live call keeps what every stored call satisfies, leaves
  nobody without care, settles what it takes over, and tells the timeline
  exactly what it did.
 */
module CallChanges {
  import opened Options
  import opened CallState
  import opened CallControl
  import opened CallDecisions
  import opened CallWorld
  import opened CallInvariants

  // What makes a change sound -----------------------------------------------------------

  /** What no change takes back, and what none touches. */
  predicate Monotone(c: Call, n: Call) {
    && n.version == c.version
    && n.direction == c.direction
    && n.queue == c.queue
    && n.strategy == c.strategy
    && (c.answered ==> n.answered)
    && (c.ending ==> n.ending)
    && (c.voicemail ==> n.voicemail)
  }

  /** A call that was tended to, or was just answered, is tended to or owed after the change. */
  ghost predicate KeepsCare(c: Call, n: Call, change: Change) {
    && (Tended(c) ==> Tended(n) || Owed(change.follow) || (!n.answered && change.ring != multiset{}))
    && (!c.answered && n.answered ==> Tended(n))
  }

  predicate Marks(change: Change) {
    change.events != [] && change.events[0].TransferMark?
  }

  /** The caller is pulled into voicemail, away from every leg the call tracks. */
  predicate Pulls(c: Call, n: Call) {
    n.voicemail && !c.voicemail && n.agentLegs == map[]
  }

  /** A pending transfer keeps its ring or is handed to an operation, but for a pull; a new one starts with its own. */
  ghost predicate KeepsBacking(c: Call, n: Call, change: Change, mark: nat) {
    && (Marks(change) ==>
          && n.transferTo.Some? && n.transferBy.Some? && n.answered
          && change.follow == multiset{TransferOffer(mark, n.transferTo.value, n.transferBy.value)})
    && (!Marks(change) && n.transferTo.Some? ==>
          && n.transferTo == c.transferTo
          && n.transferBy == c.transferBy
          && (RingsUser(c, c.transferTo.value) ==>
                || RingsUser(n, n.transferTo.value)
                || FailTransfer(n.transferTo.value) in change.follow
                || Pulls(c, n)))
  }

  /** Whoever knew how the call stood knows it still once they heard the events. */
  ghost predicate Tells(c: Call, change: Change) {
    forall t :: Agrees(t, c) ==>
      var after := HearAll(t, change.events);
      if change.draft.Some? then Agrees(after, change.draft.value) else after.orderly && after.over
  }

  /** What a change may start: nothing that needs more than the call provides. */
  ghost predicate FollowsUp(n: Call, change: Change, mark: nat) {
    forall op <- change.follow ::
      OpFits(op, n, mark) && !op.RenewClaims? && !op.CheckRenewal? && (MarkOf(op).Some? ==> Marks(change))
  }

  ghost predicate Sound(c: Call, change: Change, mark: nat) {
    && Tells(c, change)
    && (change.draft.None? ==> change.follow == multiset{} && change.ring == multiset{} && !Marks(change))
    && (change.draft.Some? ==>
          var n := change.draft.value;
          && WellFormed(n)
          && Monotone(c, n)
          && KeepsCare(c, n, change)
          && KeepsBacking(c, n, change, mark)
          && FollowsUp(n, change, mark))
  }

  // Joins --------------------------------------------------------------------------------

  lemma AgentJoinedIsWellFormed(c: Call, user: UserId, leg: Leg)
    requires WellFormed(c) && leg.party == Agent(user)
    ensures WellFormed(AgentJoined(c, user, leg).0)
  {
    AgentJoinedLegsFit(c, user, leg);
    AgentJoinedPartiesFit(c, user, leg);
    hide LegsFit, PartiesFit, IsIntruder;
  }

  lemma AgentJoinedLegsFit(c: Call, user: UserId, leg: Leg)
    requires LegsFit(c) && leg.party == Agent(user)
    ensures LegsFit(AgentJoined(c, user, leg).0)
  {
    hide IsIntruder;
  }

  lemma AgentJoinedPartiesFit(c: Call, user: UserId, leg: Leg)
    requires PartiesFit(c) && leg.party == Agent(user)
    ensures PartiesFit(AgentJoined(c, user, leg).0)
  {
    hide IsIntruder;
    var n := AgentJoined(c, user, leg).0;
    assert leg in LegsOf(n) || n == c;
  }

  lemma OtherJoinsAreWellFormed(c: Call, leg: Leg)
    requires WellFormed(c)
    ensures leg.party.Caller? ==> WellFormed(CallerJoined(c, leg))
    ensures leg.party.External? ==> WellFormed(ExternalJoined(c, leg).0)
  {
    assert leg in LegsOf(CallerJoined(c, leg));
    assert leg in LegsOf(ExternalJoined(c, leg).0);
  }

  /** An agent who joins is on the line, or an intruder; a transfer that stays pending is the one there was. */
  lemma AgentJoinOutcome(c: Call, leg: Leg)
    requires leg.party.Agent?
    ensures var change := JoinChange(c, leg);
      && change.draft == Some(AgentJoined(c, leg.party.user, leg).0)
      && change.follow == multiset{} && change.ring == multiset{} && !Marks(change)
    ensures var n := JoinChange(c, leg).draft.value;
      && Monotone(c, n)
      && n.agentLegs == c.agentLegs
      && (n == c || n.agentLeg.Some?)
      && (n.transferTo.Some? ==> n.transferTo == c.transferTo && n.transferBy == c.transferBy)
  {
  }

  lemma AgentJoinIsSound(c: Call, leg: Leg, mark: nat)
    requires WellFormed(c) && leg.party.Agent?
    ensures Sound(c, JoinChange(c, leg), mark)
  {
    hide Tells, Monotone, Marks, JoinChange, AgentJoined, WellFormed;
    AgentJoinedIsWellFormed(c, leg.party.user, leg);
    AgentJoinOutcome(c, leg);
    AgentJoinTells(c, leg) by {
      FormMeansTransferFits(c);
    }
  }

  lemma FormMeansTransferFits(c: Call)
    requires WellFormed(c)
    ensures TransferFits(c)
  {
  }

  lemma AgentJoinTells(c: Call, leg: Leg)
    requires TransferFits(c) && leg.party.Agent?
    ensures Tells(c, JoinChange(c, leg))
  {
    var change := JoinChange(c, leg);
    forall t | Agrees(t, c) ensures Agrees(HearAll(t, change.events), change.draft.value) {
      HearUpToTwo(t, change.events);
    }
  }

  lemma OtherJoinIsSound(c: Call, leg: Leg, mark: nat)
    requires WellFormed(c) && !leg.party.Agent?
    ensures Sound(c, JoinChange(c, leg), mark)
  {
    OtherJoinsAreWellFormed(c, leg);
    var change := JoinChange(c, leg);
    assert Tells(c, change) by {
      forall t | Agrees(t, c) ensures Agrees(HearAll(t, change.events), change.draft.value) {
        HearUpToTwo(t, change.events);
      }
    }
  }

  /** A leg that joins leaves the call sound, whoever it belongs to. */
  lemma JoinIsSound(c: Call, leg: Leg, mark: nat)
    requires WellFormed(c)
    ensures Sound(c, JoinChange(c, leg), mark)
  {
    if leg.party.Agent? {
      AgentJoinIsSound(c, leg, mark);
    } else {
      OtherJoinIsSound(c, leg, mark);
    }
  }

  // Ends ---------------------------------------------------------------------------------

  /** What is left of a call that goes on without one of its legs. */
  lemma RemainderIsWellFormed(c: Call, leg: Leg)
    requires WellFormed(c) && !c.ending && !leg.party.Caller?
    ensures var left := RemoveLeg(c, leg);
      && LegsFit(left)
      && TransferFits(left)
      && (left.direction.Inbound? ==> PartiesFit(left))
  {
    var left := RemoveLeg(c, leg);
    if left.direction.Inbound? {
      assert left.callerLeg == c.callerLeg;
      assert left.callerLeg.value in LegsOf(left);
    }
  }

  /** A call that was answered goes on without any of its agents' legs. */
  lemma AgentRemainderIsWellFormed(c: Call, leg: Leg)
    requires WellFormed(c) && !c.ending && leg.party.Agent? && c.answered
    ensures WellFormed(RemoveLeg(c, leg))
  {
    var left := RemoveLeg(c, leg);
    RemainderIsWellFormed(c, leg);
    if c.direction.Outbound? {
      assert left.externalLeg == c.externalLeg;
      assert left.externalLeg.value in LegsOf(left);
    }
  }

  lemma RemovalTells(c: Call)
    ensures Tells(c, Removal([]))
  {
    var events := Removal([]).events;
    assert events == [CallEnded];
    forall t | Agrees(t, c) ensures HearAll(t, events).orderly && HearAll(t, events).over {
      HearUpToTwo(t, events);
    }
  }

  lemma QuietTells(c: Call, change: Change)
    requires change.draft.Some? && change.events == []
    requires change.draft.value.transferTo == c.transferTo && change.draft.value.held == c.held
    requires c.answered ==> change.draft.value.answered
    ensures Tells(c, change)
  {
    forall t | Agrees(t, c) ensures Agrees(HearAll(t, change.events), change.draft.value) {
      HearUpToTwo(t, change.events);
    }
  }

  /** While a call is ending, its legs drop one by one. */
  lemma EndWhileEndingIsSound(c: Call, leg: Leg, mark: nat)
    requires WellFormed(c) && c.ending && leg in LegsOf(c)
    ensures Sound(c, EndChange(c, leg), mark)
  {
    var left := RemoveLeg(c, leg);
    RemovalTells(c);
    if HasActiveLegs(left) {
      QuietTells(c, EndChange(c, leg));
    }
  }

  lemma ExternalEndIsSound(c: Call, leg: Leg, mark: nat)
    requires WellFormed(c) && !c.ending && leg.party.External? && leg in LegsOf(c)
    ensures Sound(c, EndChange(c, leg), mark)
  {
    var left := RemoveLeg(c, leg);
    RemainderIsWellFormed(c, leg);
    RemovalTells(c);
    assert LegEnded(c, leg) == ExternalEnded(left);
    var change := EndChange(c, leg);
    if change.draft.Some? {
      QuietTells(c, change);
      assert RouteToVoicemail in change.follow;
    }
  }

  /** A ring of an unanswered caller stops. */
  lemma RingEndIsSound(c: Call, leg: Leg, mark: nat)
    requires WellFormed(c) && !c.ending && leg.party.Agent? && leg in LegsOf(c) && !c.answered && c.direction.Inbound?
    ensures Sound(c, EndChange(c, leg), mark)
  {
    var left := RemoveLeg(c, leg);
    RemainderIsWellFormed(c, leg);
    assert LegEnded(c, leg) == AgentEnded(left, leg, c.agentLeg == Some(leg));
    if c.strategy.FixedOrder? {
      var n := left.(queueIndex := left.queueIndex + 1);
      assert LegsOf(n) == LegsOf(left);
      assert EndChange(c, leg) == Change(Some(n), multiset{}, multiset{RingStart(InConference)}, []);
      hide EndChange, LegEnded, LegsOf, LegsFit;
      NextRingIsSound(c, n, mark);
    } else {
      var change := if left.pending != {} then Quiet(left) else Change(Some(left), multiset{RouteToVoicemail}, multiset{}, []);
      assert EndChange(c, leg) == change;
      hide EndChange, LegEnded, LegsOf, LegsFit;
      OtherRingsAreSound(c, left, change, mark);
    }
  }

  lemma NextRingIsSound(c: Call, n: Call, mark: nat)
    requires WellFormed(c) && WellFormed(n) && !c.answered && !c.ending
    requires Monotone(c, n) && n.answered == c.answered && n.transferTo == c.transferTo && n.held == c.held
    ensures Sound(c, Change(Some(n), multiset{}, multiset{RingStart(InConference)}, []), mark)
  {
    QuietTells(c, Change(Some(n), multiset{}, multiset{RingStart(InConference)}, []));
    hide LegsFit, PartiesFit, Monotone, Tells;
  }

  lemma OtherRingsAreSound(c: Call, n: Call, change: Change, mark: nat)
    requires WellFormed(c) && WellFormed(n) && !c.answered && !c.ending && c.direction.Inbound?
    requires Monotone(c, n) && n.answered == c.answered && n.transferTo == c.transferTo && n.held == c.held
    requires c.strategy != FixedOrder
    requires change == if n.pending != {} then Quiet(n) else Change(Some(n), multiset{RouteToVoicemail}, multiset{}, [])
    ensures Sound(c, change, mark)
  {
    QuietTells(c, change);
    assert n.pending == {} ==> RouteToVoicemail in change.follow;
    hide LegsFit, Tells, LegsOf;
  }

  /** An agent leaves a call that was answered. */
  lemma AgentEndIsSound(c: Call, leg: Leg, mark: nat)
    requires WellFormed(c) && !c.ending && leg.party.Agent? && leg in LegsOf(c) && c.answered
    ensures Sound(c, EndChange(c, leg), mark)
  {
    var left := RemoveLeg(c, leg);
    var wasActive := c.agentLeg == Some(leg);
    assert LegEnded(c, leg) == AgentEnded(left, leg, wasActive);
    if wasActive && left.transferTo.None? {
      RemovalTells(c);
      assert EndChange(c, leg) == Removal([]);
    } else {
      var user := leg.party.user;
      var change := if left.transferTo == Some(user) && !RingsUser(left, user)
        then Change(Some(left), multiset{FailTransfer(user)}, multiset{}, []) else Quiet(left);
      assert EndChange(c, leg) == change;
      AgentRemainderIsSound(c, leg, change, mark);
    }
  }

  lemma AgentRemainderIsSound(c: Call, leg: Leg, change: Change, mark: nat)
    requires WellFormed(c) && !c.ending && leg.party.Agent? && leg in LegsOf(c) && c.answered
    requires !(c.agentLeg == Some(leg) && c.transferTo.None?)
    requires var left, user := RemoveLeg(c, leg), leg.party.user;
      change == if left.transferTo == Some(user) && !RingsUser(left, user)
        then Change(Some(left), multiset{FailTransfer(user)}, multiset{}, []) else Quiet(left)
    ensures Sound(c, change, mark)
  {
    QuietTells(c, change);
    AgentRemainderIsWellFormed(c, leg);
    AgentRemainderKeepsBacking(c, leg, change, mark);
    hide WellFormed, LegsOf, RingsUser, HoldsOn, OccupantsOf, Tells, KeepsBacking;
  }

  lemma AgentRemainderKeepsBacking(c: Call, leg: Leg, change: Change, mark: nat)
    requires LegsFit(c) && leg.party.Agent?
    requires var left, user := RemoveLeg(c, leg), leg.party.user;
      change == if left.transferTo == Some(user) && !RingsUser(left, user)
        then Change(Some(left), multiset{FailTransfer(user)}, multiset{}, []) else Quiet(left)
    ensures KeepsBacking(c, RemoveLeg(c, leg), change, mark)
  {
    RingLostOrKept(c, leg);
    hide LegsFit, RingsUser;
  }

  /** Without one of its legs a user is still rung by another, unless that leg was theirs and their last. */
  lemma RingLostOrKept(c: Call, leg: Leg)
    requires LegsFit(c)
    ensures forall user | RingsUser(c, user) :: RingsUser(RemoveLeg(c, leg), user) || leg.party == Agent(user)
  {
    var left := RemoveLeg(c, leg);
    forall user | RingsUser(c, user) && leg.party != Agent(user) ensures RingsUser(left, user) {
      var ring :| ring in c.agentLegs && c.agentLegs[ring] == user;
      assert ring in left.agentLegs && left.agentLegs[ring] == user;
    }
  }

  /** A leg that ends leaves the call sound or removes it. */
  lemma EndIsSound(c: Call, leg: Leg, mark: nat)
    requires WellFormed(c)
    ensures Sound(c, EndChange(c, leg), mark)
  {
    if leg !in LegsOf(c) {
      QuietTells(c, EndChange(c, leg));
    } else if c.ending {
      EndWhileEndingIsSound(c, leg, mark);
    } else {
      match leg.party
      case Caller => RemovalTells(c);
      case External => ExternalEndIsSound(c, leg, mark);
      case Agent(_) =>
        if c.answered {
          AgentEndIsSound(c, leg, mark);
        } else if c.direction.Inbound? {
          RingEndIsSound(c, leg, mark);
        } else {
          RemovalTells(c);
        }
    }
  }

  // Transfers ------------------------------------------------------------------------------

  /** A user who did not join the call is not talking on it, so forgetting their rings takes nothing else. */
  lemma RingsForgottenIsWellFormed(c: Call, user: UserId)
    requires WellFormed(c) && c.answered && !c.ending && c.activeAgent != Some(user)
    ensures var n := RingsForgotten(c, user);
      && WellFormed(n.(transferOrigin := c.transferOrigin))
      && n.agentLeg == c.agentLeg && n.callerLeg == c.callerLeg && n.externalLeg == c.externalLeg
  {
    var n := RingsForgotten(c, user);
    assert n.callerLeg == c.callerLeg && n.externalLeg == c.externalLeg && n.agentLeg == c.agentLeg;
    assert LegsOf(n.(transferOrigin := c.transferOrigin)) == LegsOf(n);
    if c.direction.Inbound? {
      assert n.callerLeg.value in LegsOf(n);
    } else {
      assert n.externalLeg.value in LegsOf(n);
    }
  }

  lemma MarkIsSound(c: Call, request: Request, target: UserId, mark: nat)
    requires WellFormed(c) && 0 < mark
    ensures Sound(c, MarkChange(c, request, target, mark), mark)
  {
    var change := MarkChange(c, request, target, mark);
    if RefuseTransfer(c, request, target).Some? {
      QuietTells(c, change);
    } else {
      RingsForgottenIsWellFormed(c, target);
      var n := change.draft.value;
      assert LegsOf(n) == LegsOf(RingsForgotten(c, target));
      forall t | Agrees(t, c) ensures Agrees(HearAll(t, change.events), n) {
        HearUpToTwo(t, change.events);
      }
    }
  }

  lemma ClearedIsWellFormed(c: Call)
    requires WellFormed(c)
    ensures WellFormed(TransferCleared(c)) && WellFormed(EndRequested(c))
  {
    assert LegsOf(TransferCleared(c)) == LegsOf(c);
    assert LegsOf(EndRequested(c)) == LegsOf(c);
  }

  lemma FailIsSound(c: Call, target: UserId, mark: nat)
    requires WellFormed(c)
    ensures Sound(c, FailChange(c, target), mark)
  {
    var change := FailChange(c, target);
    if c.ending || c.transferTo != Some(target) {
      QuietTells(c, change);
    } else {
      ClearedIsWellFormed(c);
      var plan := PlanTransferFailure(c);
      assert plan.SendToVoicemail? ==> RouteToVoicemail in change.follow;
      assert plan.EndForEveryone? ==> EndCall in change.follow;
      forall t | Agrees(t, c) ensures Agrees(HearAll(t, change.events), change.draft.value) {
        HearUpToTwo(t, change.events);
      }
    }
  }

  // Ending, holding, voicemail ---------------------------------------------------------------

  lemma EndRequestIsSound(c: Call, mark: nat)
    requires WellFormed(c)
    ensures Sound(c, EndRequestChange(c), mark) && Tended(EndRequested(c))
  {
    var change := EndRequestChange(c);
    ClearedIsWellFormed(c);
    forall t | Agrees(t, c) ensures Agrees(HearAll(t, change.events), change.draft.value) {
      HearUpToTwo(t, change.events);
    }
  }

  lemma HoldIsSound(c: Call, held: bool, mark: nat)
    requires WellFormed(c)
    ensures Sound(c, HoldChange(c, held), mark)
  {
    var change := HoldChange(c, held);
    assert LegsOf(change.draft.value) == LegsOf(c);
    forall t | Agrees(t, c) ensures Agrees(HearAll(t, change.events), change.draft.value) {
      HearUpToTwo(t, change.events);
    }
  }

  lemma AnswerIsSound(c: Call, mark: nat)
    requires WellFormed(c) && c.direction.Inbound?
    ensures Sound(c, AnswerChange(c), mark) && Tended(AnswerChange(c).draft.value)
  {
    assert LegsOf(AnswerChange(c).draft.value) == LegsOf(c);
    QuietTells(c, AnswerChange(c));
  }

  /** A caller routed to voicemail gets there, unless the call ends or a ring is still out for them. */
  lemma RouteIsSound(c: Call, mark: nat)
    requires WellFormed(c) && c.direction.Inbound?
    ensures Sound(c, RouteChange(c), mark) && Tended(RouteChange(c).draft.value)
  {
    var change := RouteChange(c);
    var n := change.draft.value;
    if !StaysOffVoicemail(c) {
      assert n.callerLeg.value in LegsOf(n);
    }
    forall t | Agrees(t, c) ensures Agrees(HearAll(t, change.events), n) {
      HearUpToTwo(t, change.events);
    }
  }

  lemma TurnIsSound(c: Call, index: nat, ring: multiset<RingTask>, mark: nat)
    requires WellFormed(c)
    ensures Sound(c, Change(Some(TurnTaken(c, index).0), multiset{}, ring, []), mark)
  {
    var change := Change(Some(TurnTaken(c, index).0), multiset{}, ring, []);
    assert LegsOf(change.draft.value) == LegsOf(c);
    QuietTells(c, change);
  }

  // Direct writes ------------------------------------------------------------------------------

  /** A write that records legs takes nothing away. */
  ghost predicate Grows(c: Call, n: Call) {
    && WellFormed(n)
    && Monotone(c, n)
    && n.answered == c.answered && n.ending == c.ending && n.voicemail == c.voicemail
    && (Tended(c) ==> Tended(n))
    && n.transferTo == c.transferTo && n.transferBy == c.transferBy && n.held == c.held
    && n.queueIndex == c.queueIndex
    && c.agentLegs.Values <= n.agentLegs.Values
    && HoldsOn(c) <= HoldsOn(n)
  }

  lemma RegisteredIsWellFormed(c: Call, legs: set<Leg>)
    requires WellFormed(c) && !c.ending && forall leg <- legs :: leg.party.Agent?
    requires c.direction.Inbound? || c.answered
    ensures WellFormed(LegsRegistered(c, legs).0)
  {
    assert LegsOf(LegsRegistered(c, legs).0) == LegsOf(c) + legs;
  }

  lemma RegisteredHoldsMore(c: Call, legs: set<Leg>)
    requires LegsFit(c) && !c.ending && forall leg <- legs :: leg.party.Agent?
    ensures var n := LegsRegistered(c, legs).0;
      && OwnersOf(legs) <= n.agentLegs.Values
      && c.agentLegs.Values <= n.agentLegs.Values
      && HoldsOn(c) <= HoldsOn(n)
  {
    var n := LegsRegistered(c, legs).0;
    forall leg <- legs ensures leg.party.user in n.agentLegs.Values {
      assert n.agentLegs[leg] == leg.party.user;
    }
    forall leg <- c.agentLegs ensures c.agentLegs[leg] in n.agentLegs.Values {
      assert n.agentLegs[leg] == c.agentLegs[leg];
    }
  }

  /** Recorded rings are out, their users are held, and nobody who was held is forgotten. */
  lemma RegisteredGrows(c: Call, legs: set<Leg>)
    requires WellFormed(c) && !c.ending && forall leg <- legs :: leg.party.Agent?
    requires c.direction.Inbound? || c.answered
    ensures var n := LegsRegistered(c, legs).0;
      && Grows(c, n)
      && n.version == c.version && n.transferTo == c.transferTo && n.queue == c.queue
      && OwnersOf(legs) <= n.agentLegs.Values
      && (legs != {} && c.direction.Inbound? ==> Tended(n) || n.answered)
  {
    RegisteredIsWellFormed(c, legs);
    RegisteredHoldsMore(c, legs);
    assert c.pending <= LegsRegistered(c, legs).0.pending;
    assert legs <= LegsRegistered(c, legs).0.pending;
  }

  lemma ExternalRecordedGrows(c: Call, leg: Leg)
    requires WellFormed(c) && !c.ending && leg.party.External?
    ensures var n := ExternalRecorded(c, leg).0;
      Grows(c, n) && n.version == c.version && (Tended(n) || n.answered) && n.transferTo == c.transferTo
  {
    var n := ExternalRecorded(c, leg).0;
    assert leg in LegsOf(n);
    assert OccupantsOf(n) == OccupantsOf(c);
  }

  lemma ConferenceGrows(c: Call, conference: nat)
    requires WellFormed(c)
    ensures Grows(c, ConferenceNoted(c, conference))
  {
    var n := ConferenceNoted(c, conference);
    assert LegsOf(n) == LegsOf(c);
    assert OccupantsOf(n) == OccupantsOf(c);
  }

  /** The sum of at most two events, heard one by one. */
  lemma HearUpToTwo(t: Tally, events: seq<Event>)
    requires |events| <= 2
    ensures events == [] ==> HearAll(t, events) == t
    ensures |events| == 1 ==> HearAll(t, events) == Hear(t, events[0])
    ensures |events| == 2 ==> HearAll(t, events) == Hear(Hear(t, events[0]), events[1])
  {
    if |events| > 0 {
      var rest := events[1..];
      assert HearAll(t, events) == HearAll(Hear(t, events[0]), rest);
      if |events| == 2 {
        assert rest[1..] == [];
        assert HearAll(Hear(t, events[0]), rest) == HearAll(Hear(Hear(t, events[0]), events[1]), []);
      }
    }
  }
}
