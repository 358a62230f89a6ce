/**
  Where rings and calls out that nothing disturbs end up
  (apps/call-controller/src/calls/call-flow.ts and telephony.service.ts), and
  the only steps that claim a user or give a claim up.
 */
module CallRingCourses {
  import opened Options
  import opened CallState
  import opened CallDecisions
  import opened CallWorld
  import opened CallInvariants
  import opened CallProgress
  import opened CallRequests
  import opened CallCourses

  // In the queue's order ------------------------------------------------------------------------

  lemma TurnComesOff(w: World, c: Call, fallback: Fallback, index: nat, answer: Answer)
    requires w.slot == Live(c) && RingTurn(fallback, index) in w.ringing && index < |c.queue|
    requires !c.ending && !c.answered && !c.voicemail
    ensures var after := Next(w, Ring(RingTurn(fallback, index), answer));
      && after.slot.Live? && after.slot.call == c.(version := after.slot.call.version, queueIndex := index)
      && after == w.(slot := after.slot, ringing := w.ringing - multiset{RingTurn(fallback, index)}
                                                    + multiset{RingOffer(fallback, index, c.queue[index])})
  {
    var n := Stored(c, c.(queueIndex := index));
    assert UsersLetGo(c, Some(n)) == {} by {
      assert OccupantsOf(n) == OccupantsOf(c);
    }
    hide UsersLetGo;
    assert w.ops + multiset{} + multiset{} == w.ops;
  }

  lemma OfferComesOff(w: World, fallback: Fallback, index: nat, user: UserId, answer: Answer)
    requires RingOffer(fallback, index, user) in w.ringing && answer.ok
    ensures Next(w, Ring(RingOffer(fallback, index, user), answer)) ==
      w.(claimed := w.claimed + {user},
         ringing := w.ringing - multiset{RingOffer(fallback, index, user)} + multiset{RingDial(fallback, index, user)})
  {
    hide Commit, Write, LegsRegistered, TurnTaken;
  }

  lemma DialComesOff(w: World, c: Call, fallback: Fallback, index: nat, user: UserId, answer: Answer)
    requires w.slot == Live(c) && RingDial(fallback, index, user) in w.ringing && !c.ending
    requires answer.ok && answer.leg.party == Agent(user)
    ensures Next(w, Ring(RingDial(fallback, index, user), answer)) ==
      w.(ringing := w.ringing - multiset{RingDial(fallback, index, user)} + multiset{RingRecord(fallback, index, user, answer.leg)})
  {
    hide Commit, Write, LegsRegistered, TurnTaken;
  }

  lemma RecordComesOff(w: World, c: Call, fallback: Fallback, index: nat, user: UserId, leg: Leg, answer: Answer)
    requires w.slot == Live(c) && RingRecord(fallback, index, user, leg) in w.ringing && !c.ending && leg.party == Agent(user)
    ensures var after := Next(w, Ring(RingRecord(fallback, index, user, leg), answer));
      && after.slot.Live? && IsRung(c, after.slot.call, leg, user)
      && after == w.(slot := after.slot, ringing := w.ringing - multiset{RingRecord(fallback, index, user, leg)},
                     turns := w.turns + [Rung(user, leg)])
  {
    hide Commit, TurnTaken, LegsRegistered, IsRung;
    RecordedIsRung(w.(ringing := w.ringing - multiset{RingRecord(fallback, index, user, leg)}, turns := w.turns + [Rung(user, leg)]),
                   c, leg, user);
    hide Write;
  }

  lemma TakenBack(tasks: multiset<RingTask>, task: RingTask)
    ensures tasks + multiset{task} - multiset{task} == tasks
  {
  }

  /**
    A queue that has come to a user who is free and whose phone rings has them
    claimed, rung by a tracked leg and noted as tried, and the ring is over.
   */
  lemma QueuesRingWhomTheyReach(w: World, c: Call, fallback: Fallback, index: nat, leg: Leg)
    requires w.slot == Live(c) && RingTurn(fallback, index) in w.ringing && index < |c.queue|
    requires !c.ending && !c.answered && !c.voicemail && leg.party == Agent(c.queue[index])
    ensures var user, yes := c.queue[index], Answer(true, {}, leg, {});
      var offered := Next(w, Ring(RingTurn(fallback, index), yes));
      var dialed := Next(offered, Ring(RingOffer(fallback, index, user), yes));
      var dialing := Next(dialed, Ring(RingDial(fallback, index, user), yes));
      var after := Next(dialing, Ring(RingRecord(fallback, index, user, leg), yes));
      && after.slot.Live? && IsRung(c.(queueIndex := index), after.slot.call, leg, user)
      && after.claimed == w.claimed + {user}
      && after.turns == w.turns + [Rung(user, leg)]
      && after.ringing == w.ringing - multiset{RingTurn(fallback, index)}
      && after.ops == w.ops
  {
    var user, yes := c.queue[index], Answer(true, {}, leg, {});
    var turn, offer, dial, record :=
      RingTurn(fallback, index), RingOffer(fallback, index, user), RingDial(fallback, index, user), RingRecord(fallback, index, user, leg);
    hide Next, IsRung;
    TurnComesOff(w, c, fallback, index, yes);
    var offered := Next(w, Ring(turn, yes));
    OfferComesOff(offered, fallback, index, user, yes);
    var dialed := Next(offered, Ring(offer, yes));
    DialComesOff(dialed, offered.slot.call, fallback, index, user, yes);
    var dialing := Next(dialed, Ring(dial, yes));
    RecordComesOff(dialing, dialed.slot.call, fallback, index, user, leg, yes);
    var left := w.ringing - multiset{turn};
    TakenBack(left, offer);
    TakenBack(left, dial);
    TakenBack(left, record);
  }

  // All at once -------------------------------------------------------------------------------------

  /** The legs that were dialed of those offered. */
  function RungOf(offered: set<UserId>, dialed: set<Leg>): set<Leg> {
    set leg | leg in dialed && leg.party.Agent? && leg.party.user in offered
  }

  /**
    A ring of everybody at once claims exactly those of the users who are free,
    rings every leg that is dialed of them, and lets go of exactly those whose
    leg was not; with nobody free, or no leg dialed, it owes voicemail.
   */
  lemma RingsTogetherReach(w: World, c: Call, users: set<UserId>, free: set<UserId>, dialed: set<Leg>)
    requires w.slot == Live(c) && OfferAll(users) in w.ops && !c.ending
    ensures var offered, yes := users * free, Answer(true, free, Leg(0, Caller), dialed);
      var legs, rest := RungOf(offered, dialed), w.ops - multiset{OfferAll(users)};
      var asked := Next(w, Perform(OfferAll(users), yes));
      var ringing := Next(asked, Perform(DialAll(offered), yes));
      && ringing.claimed == w.claimed + offered && ringing.slot == w.slot
      && (offered == {} ==> ringing.ops == rest + multiset{AnswerWithVoicemail})
      && (offered != {} ==>
            var after := Next(ringing, Perform(RecordAll(offered, legs), yes));
            && after.claimed == w.claimed + offered && after.slot.Live?
            && (legs == {} ==> after.slot == w.slot && after.ops == rest + multiset{Release(offered), AnswerWithVoicemail})
            && (legs != {} ==>
                  && AreRung(c, after.slot.call, legs)
                  && after.ops == rest + LetGo(set user | user in offered && forall leg <- legs :: leg.party != Agent(user))))
  {
    hide Next;
    var offered, yes := users * free, Answer(true, free, Leg(0, Caller), dialed);
    var legs, rest := RungOf(offered, dialed), w.ops - multiset{OfferAll(users)};
    AskingEverybody(w, users, yes);
    var asked := Next(w, Perform(OfferAll(users), yes));
    assert rest + multiset{DialAll(offered)} - multiset{DialAll(offered)} == rest;
    DialingEverybody(asked, c, offered, yes);
    var ringing := Next(asked, Perform(DialAll(offered), yes));
    if offered != {} {
      assert rest + multiset{RecordAll(offered, legs)} - multiset{RecordAll(offered, legs)} == rest;
      RecordingEverybody(ringing, c, offered, legs, yes);
    }
  }

  /** These legs are tracked and ringing beside what was tracked before, each for its user, and nothing else is different. */
  predicate AreRung(c: Call, n: Call, legs: set<Leg>) {
    && n == c.(version := n.version, agentLegs := n.agentLegs, pending := c.pending + legs)
    && n.agentLegs.Keys == c.agentLegs.Keys + legs
    && (forall leg <- c.agentLegs :: leg !in legs ==> n.agentLegs[leg] == c.agentLegs[leg])
    && (forall leg <- legs :: leg.party == Agent(n.agentLegs[leg]))
  }

  lemma AskingEverybody(w: World, users: set<UserId>, answer: Answer)
    requires OfferAll(users) in w.ops
    ensures Next(w, Perform(OfferAll(users), answer)) ==
      w.(claimed := w.claimed + users * answer.users,
         ops := w.ops - multiset{OfferAll(users)} + multiset{DialAll(users * answer.users)})
  {
    hide Commit, Write, RecordedAll, TransferStep, UsersLetGo, OccupantsOf;
  }

  lemma DialingEverybody(w: World, c: Call, offered: set<UserId>, answer: Answer)
    requires w.slot == Live(c) && DialAll(offered) in w.ops && !c.ending
    ensures Next(w, Perform(DialAll(offered), answer)) ==
      w.(ops := w.ops - multiset{DialAll(offered)}
                + if offered == {} then multiset{AnswerWithVoicemail} else multiset{RecordAll(offered, RungOf(offered, answer.legs))})
  {
    hide Commit, Write, RecordedAll, TransferStep, UsersLetGo, OccupantsOf;
    var rest := w.ops - multiset{DialAll(offered)};
    assert rest + multiset{} + multiset{AnswerWithVoicemail} == rest + multiset{AnswerWithVoicemail};
  }

  lemma RecordingEverybody(w: World, c: Call, offered: set<UserId>, legs: set<Leg>, answer: Answer)
    requires w.slot == Live(c) && RecordAll(offered, legs) in w.ops && !c.ending && offered != {}
    requires forall leg <- legs :: leg.party.Agent? && leg.party.user in offered
    ensures var after, rest := Next(w, Perform(RecordAll(offered, legs), answer)), w.ops - multiset{RecordAll(offered, legs)};
      && after.claimed == w.claimed && after.slot.Live?
      && (legs == {} ==> after.slot == w.slot && after.ops == rest + multiset{Release(offered), AnswerWithVoicemail})
      && (legs != {} ==>
            && AreRung(c, after.slot.call, legs)
            && after.ops == rest + LetGo(set user | user in offered && forall leg <- legs :: leg.party != Agent(user)))
  {
    var rest := w.ops - multiset{RecordAll(offered, legs)};
    PerformingRecords(w, offered, legs, answer);
    hide Next;
    if legs == {} {
      assert rest + multiset{Release(offered)} + multiset{AnswerWithVoicemail} == rest + multiset{Release(offered), AnswerWithVoicemail};
    } else {
      OthersHaveNoLeg(offered, legs);
      RegisteredAreRung(c, legs);
      hide LegsRegistered, AreRung, OwnersOf, LetGo;
    }
  }

  lemma PerformingRecords(w: World, offered: set<UserId>, legs: set<Leg>, answer: Answer)
    requires RecordAll(offered, legs) in w.ops
    ensures Next(w, Perform(RecordAll(offered, legs), answer)) == RecordedAll(w, w.ops - multiset{RecordAll(offered, legs)}, offered, legs)
  {
    hide Commit, Write, RecordedAll, TransferStep, UsersLetGo, OccupantsOf;
  }

  lemma RegisteredAreRung(c: Call, legs: set<Leg>)
    requires !c.ending && forall leg <- legs :: leg.party.Agent?
    ensures AreRung(c, Stored(c, LegsRegistered(c, legs).0), legs)
  {
  }

  lemma OthersHaveNoLeg(offered: set<UserId>, legs: set<Leg>)
    requires forall leg <- legs :: leg.party.Agent?
    ensures offered - OwnersOf(legs) == set user | user in offered && forall leg <- legs :: leg.party != Agent(user)
  {
    forall user <- offered ensures user in OwnersOf(legs) <==> exists leg <- legs :: leg.party == Agent(user) {
      if leg :| leg in legs && leg.party == Agent(user) {
        assert leg.party.user in OwnersOf(legs);
      }
    }
  }

  // Calls out, and calls forwarded --------------------------------------------------------------------

  lemma OutsideLegIsDialed(w: World, c: Call, external: Leg)
    requires w.slot == Live(c) && DialExternal in w.ops && !c.ending && external.party.External?
    ensures Next(w, Perform(DialExternal, Answer(true, {}, external, {}))) ==
      w.(ops := w.ops - multiset{DialExternal} + multiset{RecordExternal(external)})
  {
    hide Commit, Write, RecordedAll, TransferStep, UsersLetGo, OccupantsOf;
  }

  lemma OutsideLegIsRecorded(w: World, c: Call, external: Leg, answer: Answer)
    requires w.slot == Live(c) && RecordExternal(external) in w.ops && !c.ending
    ensures var after := Next(w, Perform(RecordExternal(external), answer));
      && after.slot.Live? && after.slot.call == c.(version := after.slot.call.version, externalLeg := Some(external))
      && after == w.(slot := after.slot, ops := w.ops - multiset{RecordExternal(external)})
  {
    hide Commit, RecordedAll, TransferStep, UsersLetGo, OccupantsOf;
  }

  /** The outside party picks up: the call is answered, and a call out starts. */
  lemma OutsidePartyPicksUp(w: World, c: Call, external: Leg)
    requires w.slot == Live(c) && external.party.External? && c.agentLegs.Keys !! c.pending && !c.voicemail
    ensures var after := Next(w, ReportJoined(external));
      && after.slot.Live?
      && after.slot.call == c.(version := after.slot.call.version, answered := true, externalLeg := Some(external))
      && after == w.(slot := after.slot,
                     timeline := w.timeline + if !c.answered && c.direction.Outbound? then [CallStarted] else [])
  {
    var n := Stored(c, c.(answered := true, externalLeg := Some(external)));
    assert UsersLetGo(c, Some(n)) == {} by {
      assert UsersRinging(c) == {} && OccupantsOf(n) == OccupantsOf(c);
    }
    hide UsersLetGo;
    assert w.ops + multiset{} + multiset{} == w.ops && w.ringing + multiset{} == w.ringing && w.timeline + [] == w.timeline;
  }

  /** A call out whose steps come off has its agent talking to the number they dialed, and starts once it picks up. */
  lemma CallsOutConnect(agent: UserId, leg: Leg, external: Leg)
    requires leg.party == Agent(agent) && external.party.External?
    ensures var yes := Answer(true, {}, external, {});
      var placed := Next(OutboundStart(agent, leg), Perform(Occupy(agent, leg), yes));
      var made := Next(placed, Perform(Create(agent, leg), yes));
      var dialed := Next(made, Perform(DialExternal, yes));
      var out := Next(dialed, Perform(RecordExternal(external), yes));
      var after := Next(out, ReportJoined(external));
      && after.slot.Live? && after.slot.call == OutboundCall(agent, leg).(version := after.slot.call.version, answered := true, externalLeg := Some(external))
      && after.claimed == {agent} && after.timeline == [CallStarted] && after.ops == multiset{}
  {
    var yes := Answer(true, {}, external, {});
    var start := OutboundStart(agent, leg);
    CallsAreMade(agent, leg, yes);
    hide Next;
    var made := Next(Next(start, Perform(Occupy(agent, leg), yes)), Perform(Create(agent, leg), yes));
    var c := OutboundCall(agent, leg);
    OutsideLegIsDialed(made, c, external);
    var dialed := Next(made, Perform(DialExternal, yes));
    OutsideLegIsRecorded(dialed, c, external, yes);
    var out := Next(dialed, Perform(RecordExternal(external), yes));
    OutsidePartyPicksUp(out, out.slot.call, external);
  }

  lemma CallsAreMade(agent: UserId, leg: Leg, answer: Answer)
    requires leg.party == Agent(agent)
    ensures var placed := Next(OutboundStart(agent, leg), Perform(Occupy(agent, leg), answer));
      var made := Next(placed, Perform(Create(agent, leg), answer));
      && placed.claimed == {agent}
      && made == placed.(slot := if answer.ok then Live(OutboundCall(agent, leg)) else Unborn,
                         ops := if answer.ok then multiset{DialExternal} else multiset{Release({agent})})
  {
    hide Commit, Write, RecordedAll, TransferStep, UsersLetGo, OccupantsOf;
  }

  /** A caller who is forwarded and picked up for talks to the outside party. */
  lemma ForwardedCallsConnect(caller: Leg, external: Leg)
    requires caller.party.Caller? && external.party.External?
    ensures var yes := Answer(true, {}, external, {});
      var dialed := Next(InboundStart(caller, Forward), Perform(DialExternal, yes));
      var out := Next(dialed, Perform(RecordExternal(external), yes));
      var after := Next(out, ReportJoined(external));
      && after.slot.Live? && after.slot.call.answered && !after.slot.call.voicemail
      && after.slot.call.callerLeg == Some(caller) && after.slot.call.externalLeg == Some(external)
      && after.ops == multiset{}
  {
    var yes := Answer(true, {}, external, {});
    var start, c := InboundStart(caller, Forward), InboundCall(caller, [], NoRing, false);
    hide Next;
    OutsideLegIsDialed(start, c, external);
    var dialed := Next(start, Perform(DialExternal, yes));
    OutsideLegIsRecorded(dialed, c, external, yes);
    var out := Next(dialed, Perform(RecordExternal(external), yes));
    OutsidePartyPicksUp(out, out.slot.call, external);
  }

  /** An outside leg that could not be dialed sends a caller to voicemail and takes a call out away, unless the call is over or ending. */
  lemma FailedDialsAreOwed(w: World, answer: Answer)
    requires DialExternal in w.ops && !answer.ok
    ensures var failed := Next(w, Perform(DialExternal, answer));
      var after, rest := Next(failed, Perform(DialFailed, answer)), w.ops - multiset{DialExternal};
      after == w.(ops := rest +
        if !w.slot.Live? || w.slot.call.ending then multiset{}
        else if w.slot.call.direction.Inbound? then multiset{RouteToVoicemail}
        else multiset{Finalize})
  {
    hide Next;
    var rest := w.ops - multiset{DialExternal};
    DialFails(w, answer);
    FailedDialIsOwed(Next(w, Perform(DialExternal, answer)), answer);
    assert rest + multiset{DialFailed} - multiset{DialFailed} == rest && rest + multiset{} == rest;
  }

  lemma DialFails(w: World, answer: Answer)
    requires DialExternal in w.ops && !answer.ok
    ensures Next(w, Perform(DialExternal, answer)) == w.(ops := w.ops - multiset{DialExternal} + multiset{DialFailed})
  {
    hide Commit, Write, RecordedAll, TransferStep, UsersLetGo, OccupantsOf;
  }

  lemma FailedDialIsOwed(w: World, answer: Answer)
    requires DialFailed in w.ops
    ensures Next(w, Perform(DialFailed, answer)) == w.(ops := w.ops - multiset{DialFailed} +
      if !w.slot.Live? || w.slot.call.ending then multiset{}
      else if w.slot.call.direction.Inbound? then multiset{RouteToVoicemail}
      else multiset{Finalize})
  {
    hide Commit, Write, RecordedAll, TransferStep, UsersLetGo, OccupantsOf;
    assert w.ops - multiset{DialFailed} + multiset{} == w.ops - multiset{DialFailed};
  }

  // How callers are met ----------------------------------------------------------------------------------

  lemma RingBegins(w: World, c: Call, fallback: Fallback, answer: Answer)
    requires w.slot == Live(c) && RingStart(fallback) in w.ringing
    ensures Next(w, Ring(RingStart(fallback), answer)) ==
      w.(ringing := w.ringing - multiset{RingStart(fallback)} + multiset{RingTurn(fallback, c.queueIndex)})
  {
    hide Commit, Write, LegsRegistered, TurnTaken;
  }

  /** A caller whose number rings a queue in order has its first user rung, if they are free and their phone rings. */
  lemma QueuesStartWithTheFirst(caller: Leg, queue: seq<UserId>, leg: Leg)
    requires queue != [] && leg.party == Agent(queue[0])
    ensures var yes := Answer(true, {}, leg, {});
      var begun := Next(InboundStart(caller, RingInOrder(queue)), Ring(RingStart(BeforeConference), yes));
      var offered := Next(begun, Ring(RingTurn(BeforeConference, 0), yes));
      var dialed := Next(offered, Ring(RingOffer(BeforeConference, 0, queue[0]), yes));
      var dialing := Next(dialed, Ring(RingDial(BeforeConference, 0, queue[0]), yes));
      var after := Next(dialing, Ring(RingRecord(BeforeConference, 0, queue[0], leg), yes));
      && after.slot.Live? && after.slot.call.callerLeg == Some(caller) && !after.slot.call.voicemail
      && after.slot.call.agentLegs == map[leg := queue[0]] && after.slot.call.pending == {leg}
      && after.claimed == {queue[0]} && after.ringing == multiset{} && after.ops == multiset{}
  {
    hide Next;
    var yes := Answer(true, {}, leg, {});
    var start, c := InboundStart(caller, RingInOrder(queue)), InboundCall(caller, queue, FixedOrder, false);
    RingBegins(start, c, BeforeConference, yes);
    var begun := Next(start, Ring(RingStart(BeforeConference), yes));
    QueuesRingWhomTheyReach(begun, c, BeforeConference, 0, leg);
  }

  /** A caller whose number rings everybody at once has all of them rung who are free and whose leg is dialed. */
  lemma CallersRingEverybody(caller: Leg, users: set<UserId>, queue: seq<UserId>, dialed: set<Leg>)
    requires exists leg <- dialed :: leg.party.Agent? && leg.party.user in users
    ensures var yes, legs := Answer(true, users, Leg(0, Caller), dialed), RungOf(users, dialed);
      var asked := Next(InboundStart(caller, RingTogether(users, queue)), Perform(OfferAll(users), yes));
      var ringing := Next(asked, Perform(DialAll(users), yes));
      var after := Next(ringing, Perform(RecordAll(users, legs), yes));
      && after.slot.Live? && after.slot.call.callerLeg == Some(caller) && !after.slot.call.voicemail
      && after.slot.call.agentLegs.Keys == legs == after.slot.call.pending && after.claimed == users
  {
    hide Next;
    var leg :| leg in dialed && leg.party.Agent? && leg.party.user in users;
    assert leg in RungOf(users, dialed) && users * users == users;
    RingsTogetherReach(InboundStart(caller, RingTogether(users, queue)), InboundCall(caller, queue, Simultaneous, false),
                       users, users, dialed);
  }

  /** A caller whose number has voicemail, or no routing at all, is in voicemail once that is answered, or at once. */
  lemma VoicemailCallersGetIt(caller: Leg, answer: Answer)
    ensures var start := InboundStart(caller, NoRouting); start.slot.call.voicemail && start.ops == multiset{}
    ensures var start := InboundStart(caller, Voicemail);
      var after := Next(start, Perform(AnswerWithVoicemail, answer));
      && !start.slot.call.voicemail && start.ops == multiset{AnswerWithVoicemail}
      && after.slot.Live? && after.slot.call.voicemail && after.slot.call.callerLeg == Some(caller)
  {
    var c := InboundCall(caller, [], NoRing, false);
    VoicemailAnswersExactly(InboundStart(caller, Voicemail), c, answer);
    hide Next;
  }

  // Claims --------------------------------------------------------------------------------------------

  /** The step claims this user for the call: an accepted offer, a call out being placed, or a renewal. */
  predicate ClaimsUser(w: World, step: Step, user: UserId) {
    match step
    case Perform(op, answer) =>
      && op in w.ops
      && (match op
          case Occupy(agent, _) => agent == user
          case OfferAll(users) => user in users && user in answer.users
          case TransferOffer(_, target, _) => target == user && answer.ok
          case RenewClaims(seen) => user in OccupantsOf(seen)
          case _ => false)
    case Ring(RingOffer(_, _, offered), answer) => step.task in w.ringing && offered == user && answer.ok
    case _ => false
  }

  /** The step gives the user's claim up: a release the store answers, or the claim running out. */
  predicate GivesUp(w: World, step: Step, user: UserId) {
    match step
    case Perform(op, answer) => op in w.ops && op.Release? && user in op.users && user in answer.users
    case ClaimRunsOut(other) => other == user
    case _ => false
  }

  /** No other step claims anybody or gives a claim up. */
  lemma ClaimsMoveExactly(w: World, step: Step, user: UserId)
    ensures user in Next(w, step).claimed <==> ClaimsUser(w, step, user) || (user in w.claimed && !GivesUp(w, step, user))
  {
    hide Performed, RingStep, ClaimsUser, GivesUp, UsersLetGo, OccupantsOf;
    match step
    case Perform(op, answer) => PerformingMovesClaims(w, op, answer, user);
    case Ring(task, answer) => RingingMovesClaims(w, task, answer, user);
    case _ => OtherStepsMoveNone(w, step, user);
  }

  lemma OtherStepsMoveNone(w: World, step: Step, user: UserId)
    requires !step.Perform? && !step.Ring?
    ensures user in Next(w, step).claimed <==> ClaimsUser(w, step, user) || (user in w.claimed && !GivesUp(w, step, user))
  {
    hide UsersLetGo, OccupantsOf;
  }

  lemma PerformingMovesClaims(w: World, op: Op, answer: Answer, user: UserId)
    ensures var step := Perform(op, answer);
      user in Next(w, step).claimed <==> ClaimsUser(w, step, user) || (user in w.claimed && !GivesUp(w, step, user))
  {
    if op in w.ops && MarkOf(op).Some? {
      PerformedIsTransferStep(w, op, answer);
      hide Performed, Write, LegsRegistered, OccupantsOf, LetGo;
      assert !op.OfferAll? && !op.RenewClaims? && !op.Occupy? && !op.Release?;
      StageMovesClaims(w, op, answer, user);
    } else if op in w.ops {
      hide Commit, Write, RecordedAll, LegsRegistered, UsersLetGo, OccupantsOf, LetGo;
      OtherOpsMoveClaims(w, op, answer, user);
    }
  }

  lemma StageMovesClaims(w: World, op: Op, answer: Answer, user: UserId)
    requires MarkOf(op).Some?
    ensures user in TransferStep(w, op, w.ops - multiset{op}, answer).claimed <==>
      user in w.claimed || (op.TransferOffer? && op.target == user && answer.ok)
  {
    hide LegsRegistered, LetGo;
  }

  lemma OtherOpsMoveClaims(w: World, op: Op, answer: Answer, user: UserId)
    requires op in w.ops && MarkOf(op).None?
    ensures var step := Perform(op, answer);
      user in Next(w, step).claimed <==> ClaimsUser(w, step, user) || (user in w.claimed && !GivesUp(w, step, user))
  {
    hide LegsRegistered, UsersLetGo, OccupantsOf, LetGo, TransferStep;
  }

  lemma RingingMovesClaims(w: World, task: RingTask, answer: Answer, user: UserId)
    ensures var step := Ring(task, answer);
      user in Next(w, step).claimed <==> ClaimsUser(w, step, user) || (user in w.claimed && !GivesUp(w, step, user))
  {
    hide LegsRegistered, UsersLetGo, OccupantsOf, TurnTaken;
  }

  /** A release gives up the claims the store answers for, and is tried again for the others, and touches nothing else. */
  lemma ReleasesGoOn(w: World, users: set<UserId>, answer: Answer)
    requires Release(users) in w.ops
    ensures Next(w, Perform(Release(users), answer)) ==
      w.(claimed := w.claimed - (users * answer.users),
         ops := w.ops - multiset{Release(users)}
                + if users <= answer.users then multiset{} else multiset{Release(users - answer.users)})
  {
    hide Commit, Write, RecordedAll, TransferStep, UsersLetGo, OccupantsOf;
    assert users * answer.users == answer.users * users;
    if users - answer.users == {} {
      assert forall user <- users :: user in answer.users || user in users - answer.users;
    }
  }

  /**
    A renewal claims everybody the call occupied when it was read, and then
    lets go of exactly those whom changes since then have let go; of nobody if
    the call did not change.
   */
  lemma RenewalsAreChecked(w: World, seen: Call, answer: Answer)
    requires RenewClaims(seen) in w.ops
    ensures var renewed := Next(w, Perform(RenewClaims(seen), answer));
      var after, rest := Next(renewed, Perform(CheckRenewal(seen), answer)), w.ops - multiset{RenewClaims(seen)};
      && after == w.(claimed := w.claimed + OccupantsOf(seen), ops := after.ops)
      && (w.slot.Live? && w.slot.call.version == seen.version ==> after.ops == rest)
      && (w.slot.Live? && w.slot.call.version != seen.version ==> after.ops == rest + LetGo(UsersLetGo(seen, Some(w.slot.call))))
      && (!w.slot.Live? ==> after.ops == rest + LetGo(UsersLetGo(seen, None)))
  {
    hide Next, UsersLetGo, OccupantsOf, LetGo;
    var rest := w.ops - multiset{RenewClaims(seen)};
    Renewing(w, seen, answer);
    CheckingRenewal(Next(w, Perform(RenewClaims(seen), answer)), seen, answer);
    assert rest + multiset{CheckRenewal(seen)} - multiset{CheckRenewal(seen)} == rest;
  }

  lemma Renewing(w: World, seen: Call, answer: Answer)
    requires RenewClaims(seen) in w.ops
    ensures Next(w, Perform(RenewClaims(seen), answer)) ==
      w.(claimed := w.claimed + OccupantsOf(seen), ops := w.ops - multiset{RenewClaims(seen)} + multiset{CheckRenewal(seen)})
  {
    hide Commit, Write, RecordedAll, TransferStep, UsersLetGo, OccupantsOf, LetGo;
  }

  lemma CheckingRenewal(w: World, seen: Call, answer: Answer)
    requires CheckRenewal(seen) in w.ops
    ensures Next(w, Perform(CheckRenewal(seen), answer)) ==
      w.(ops := w.ops - multiset{CheckRenewal(seen)}
                + if w.slot.Live? && w.slot.call.version == seen.version then multiset{}
                  else LetGo(UsersLetGo(seen, if w.slot.Live? then Some(w.slot.call) else None)))
  {
    hide Commit, Write, RecordedAll, TransferStep, UsersLetGo, OccupantsOf, LetGo;
    assert w.ops - multiset{CheckRenewal(seen)} + multiset{} == w.ops - multiset{CheckRenewal(seen)};
  }
}
