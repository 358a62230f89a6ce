/**
  Where the call flow keeps less than one might expect of it. Each finding is
  one concrete run from an inbound call that rings one user; the conditions
  under which the expectation is met are proved beside it, or in the module
  the finding names.
 */
module CallFindings {
  import opened Options
  import opened CallState
  import opened CallControl
  import opened CallDecisions
  import opened CallWorld
  import opened CallInvariants

  const CALLER := Leg(0, Caller)
  const FIRST := Leg(1, Agent(1))
  const SECOND := Leg(2, Agent(2))

  /** The call of the runs, by what varies in them. */
  function OnTheLine(version: nat, talking: bool, ring: map<Leg, UserId>, pending: set<Leg>): Call {
    Call(version, None, Inbound, if talking then Some(1) else None, Some(CALLER), if talking then Some(FIRST) else None,
         None, ring, pending, [1], 0, Simultaneous, talking, false, false, None, None, None, false)
  }

  function Yes(): Answer {
    Answer(true, {1}, SECOND, {FIRST})
  }

  /** Everybody is rung, the one leg is gone, and then a report that it joined comes late. */
  function LateJoin(): seq<Step> {
    [Perform(OfferAll({1}), Yes()), Perform(DialAll({1}), Yes()), Perform(RecordAll({1}, {FIRST}), Yes()),
     ReportEnded(FIRST), ReportJoined(FIRST)]
  }

  function RingingStart(): World {
    InboundStart(CALLER, RingTogether({1}, [1]))
  }

  /** The one user claimed, and these operations in flight. */
  function At(c: Call, ops: multiset<Op>): World {
    World(Live(c), [1], ops, multiset{}, {1}, 0, if c.answered then [CallStarted] else [], [])
  }

  lemma Offered()
    ensures Next(RingingStart(), LateJoin()[0]) == At(OnTheLine(1, false, map[], {}), multiset{DialAll({1})})
  {
    hide Commit, Write, RecordedAll, TransferStep;
    assert {1} * Yes().users == {1};
  }

  lemma Dialed()
    ensures Next(At(OnTheLine(1, false, map[], {}), multiset{DialAll({1})}), LateJoin()[1])
         == At(OnTheLine(1, false, map[], {}), multiset{RecordAll({1}, {FIRST})})
  {
    hide Commit, Write, RecordedAll, TransferStep;
    var offered: set<UserId> := {1};
    assert 1 in offered;
    assert (set leg | leg in Yes().legs && leg.party.Agent? && leg.party.user in offered) == {FIRST};
  }

  lemma Recorded()
    ensures Next(At(OnTheLine(1, false, map[], {}), multiset{RecordAll({1}, {FIRST})}), LateJoin()[2])
         == At(OnTheLine(2, false, map[FIRST := 1], {FIRST}), multiset{})
  {
    hide Commit, TransferStep;
    var c := OnTheLine(1, false, map[], {});
    assert LegsRegistered(c, {FIRST}).0 == OnTheLine(1, false, map[FIRST := 1], {FIRST});
    assert OwnersOf({FIRST}) == {1};
    assert LetGo({1} - OwnersOf({FIRST})) == multiset{};
  }

  lemma DroppedChange()
    ensures EndChange(OnTheLine(2, false, map[FIRST := 1], {FIRST}), FIRST)
         == Change(Some(OnTheLine(2, false, map[], {})), multiset{RouteToVoicemail}, multiset{}, [])
  {
    var c := OnTheLine(2, false, map[FIRST := 1], {FIRST});
    assert RemoveLeg(c, FIRST) == OnTheLine(2, false, map[], {});
  }

  lemma DroppedLetsGo()
    ensures UsersLetGo(OnTheLine(2, false, map[FIRST := 1], {FIRST}), Some(OnTheLine(3, false, map[], {}))) == {1}
  {
    var c := OnTheLine(2, false, map[FIRST := 1], {FIRST});
    assert FIRST in c.agentLegs;
  }

  lemma Dropped()
    ensures Next(At(OnTheLine(2, false, map[FIRST := 1], {FIRST}), multiset{}), LateJoin()[3])
         == At(OnTheLine(3, false, map[], {}), multiset{RouteToVoicemail, Release({1})})
  {
    hide EndChange, UsersLetGo;
    DroppedChange();
    DroppedLetsGo();
  }

  lemma JoinedChange()
    ensures JoinChange(OnTheLine(3, false, map[], {}), FIRST)
         == Change(Some(OnTheLine(3, true, map[], {})), multiset{}, multiset{}, [CallStarted])
    ensures UsersLetGo(OnTheLine(3, false, map[], {}), Some(OnTheLine(4, true, map[], {}))) == {}
  {
    var c := OnTheLine(3, false, map[], {});
    assert c.agentLegs.Keys - {FIRST} == {} && c.pending - {FIRST} == {};
    assert AgentJoined(c, 1, FIRST) == (OnTheLine(3, true, map[], {}), Joined(true, {}, None));
  }

  lemma JoinedLate()
    ensures Next(At(OnTheLine(3, false, map[], {}), multiset{RouteToVoicemail, Release({1})}), LateJoin()[4])
         == At(OnTheLine(4, true, map[], {}), multiset{RouteToVoicemail, Release({1})})
  {
    hide JoinChange, UsersLetGo;
    JoinedChange();
  }

  /** The agent talks on the call, and the operation that was to send the unanswered caller to voicemail is still in flight. */
  lemma TalkingAgainst()
    ensures Run(RingingStart(), LateJoin()[..3]) == At(OnTheLine(2, false, map[FIRST := 1], {FIRST}), multiset{})
    ensures Run(RingingStart(), LateJoin()[..4]) == At(OnTheLine(3, false, map[], {}), multiset{RouteToVoicemail, Release({1})})
    ensures Run(RingingStart(), LateJoin()) == At(OnTheLine(4, true, map[], {}), multiset{RouteToVoicemail, Release({1})})
  {
    hide Next, RingingStart;
    var w, steps := RingingStart(), LateJoin();
    assert Run(w, []) == w;
    RunThen(w, [], steps[0]); Offered();
    RunThen(w, steps[..1], steps[1]); Dialed();
    RunThen(w, steps[..2], steps[2]); Recorded();
    RunThen(w, steps[..3], steps[3]); Dropped();
    RunThen(w, steps[..4], steps[4]); JoinedLate();
    assert steps[..1] == [] + [steps[0]] && steps[..2] == steps[..1] + [steps[1]] && steps[..3] == steps[..2] + [steps[2]];
    assert steps[..4] == steps[..3] + [steps[3]] && steps == steps[..4] + [steps[4]];
  }

  lemma RingingStartIsInitial()
    ensures Initial(RingingStart())
  {
  }

  lemma TalkingEnds()
    ensures Next(At(OnTheLine(4, true, map[], {}), multiset{RouteToVoicemail, Release({1})}), ReportEnded(FIRST)).slot.Gone?
  {
    hide UsersLetGo, OccupantsOf;
  }

  /**
    A late join has a leg tracked again, so the end of one leg takes effect
    twice: first it sends the caller to voicemail, then it ends the call. That
    a leg is not brought back is exactly what an end with one effect takes
    (`CallLegs.EndsStayIgnored`, `CallLegs.EndTakesEffectOnlyWhileTracked`).
   */
  lemma OneLegEndsTwice()
    ensures Initial(RingingStart())
    ensures LateJoin()[3] == ReportEnded(FIRST)
    ensures Run(RingingStart(), LateJoin()[..4]) != Run(RingingStart(), LateJoin()[..3])
    ensures Next(Run(RingingStart(), LateJoin()), ReportEnded(FIRST)).slot.Gone?
  {
    hide Run, Next, Initial, RingingStart;
    RingingStartIsInitial();
    TalkingAgainst();
    TalkingEnds();
  }

  lemma TalkingPulled()
    ensures RouteChange(OnTheLine(4, true, map[], {})) == Quiet(OnTheLine(4, true, map[], {}).(voicemail := true, agentLeg := None))
    ensures PulledIntoVoicemail(OnTheLine(4, true, map[], {})).1 == Some(Moved({}, false))
  {
    assert OnTheLine(4, true, map[], {}).agentLegs.Keys + SetOf(None) == {};
  }

  lemma TalkingAway()
    ensures Next(At(OnTheLine(4, true, map[], {}), multiset{RouteToVoicemail, Release({1})}), Perform(RouteToVoicemail, Yes())).slot
         == Live(OnTheLine(5, true, map[], {}).(voicemail := true, agentLeg := None))
  {
    hide RouteChange, UsersLetGo;
    TalkingPulled();
  }

  /** A caller an agent is talking to is pulled into voicemail by an operation decided on before the agent joined. */
  lemma AnsweredCallGoesToVoicemail()
    ensures Initial(RingingStart())
    ensures var w := Run(RingingStart(), LateJoin());
      && w.slot.Live? && w.slot.call.answered && w.slot.call.agentLeg == Some(FIRST)
      && var after := Next(w, Perform(RouteToVoicemail, Yes()));
         after.slot.Live? && after.slot.call.voicemail && after.slot.call.agentLeg.None?
  {
    hide Run, Next, RingingStart, LateJoin, Initial;
    RingingStartIsInitial();
    TalkingAgainst();
    TalkingAway();
  }

  /** Exactly the calls that stay off voicemail keep the agent who is talking. */
  lemma RoutingKeepsTheAgentOnlyOffVoicemail(w: World, answer: Answer)
    requires RouteToVoicemail in w.ops && w.slot.Live? && w.slot.call.agentLeg.Some?
    ensures var after := Performed(w, RouteToVoicemail, answer);
      after.slot.Live? && (after.slot.call.agentLeg == w.slot.call.agentLeg <==> StaysOffVoicemail(w.slot.call))
  {
    hide UsersLetGo;
  }

  // A brought-back leg is forgotten without being hung up --------------------------------------------

  /**
    The leg a late join brought back is on the call before the pull into
    voicemail, not after it, and not among those the pull hangs up.
   */
  lemma BroughtBackLegIsNotHungUp()
    ensures var w := Run(RingingStart(), LateJoin());
      && w.slot.Live? && FIRST in LegsOf(w.slot.call)
      && var moved := PulledIntoVoicemail(w.slot.call).1;
         var after := Next(w, Perform(RouteToVoicemail, Yes()));
         && moved.Some? && FIRST !in moved.value.hangUp
         && after.slot.Live? && after.slot.call.voicemail && FIRST !in LegsOf(after.slot.call)
  {
    hide Run, Next, RingingStart, LateJoin, PulledIntoVoicemail;
    TalkingAgainst();
    TalkingPulled();
    TalkingAway();
  }

  // A transfer is left with nobody to settle it ----------------------------------------------------------

  function Marked(version: nat, ring: map<Leg, UserId>, pending: set<Leg>): Call {
    OnTheLine(version, true, ring, pending).(transferTo := Some(2), transferBy := Some(1), transferOrigin := Some(FIRST))
  }

  function Pulled(): Call {
    Marked(7, map[], {}).(voicemail := true, agentLeg := None)
  }

  function Handing(c: Call, ops: multiset<Op>, claimed: set<UserId>): World {
    World(Live(c), [1], ops, multiset{}, claimed, 1, [CallStarted, TransferMark(2)], [])
  }

  /** The talking agent transfers the call, the teammate's ring is recorded, and the pull decided on before comes last. */
  function TransferAndPull(): seq<Step> {
    [RequestTransfer(Request(1, FIRST), 2),
     Perform(TransferOffer(1, 2, 1), Yes()),
     Perform(TransferHold(1, 2, 1), Yes()),
     Perform(TransferRing(1, 2, 1), Yes()),
     Perform(TransferDial(1, 2, 1), Yes()),
     Perform(TransferRecord(1, 2, 1, SECOND), Yes()),
     Perform(RouteToVoicemail, Yes())]
  }

  lemma MarkedChange()
    ensures MarkChange(OnTheLine(4, true, map[], {}), Request(1, FIRST), 2, 1)
         == Change(Some(Marked(4, map[], {})), multiset{TransferOffer(1, 2, 1)}, multiset{}, [TransferMark(2)])
    ensures UsersLetGo(OnTheLine(4, true, map[], {}), Some(Marked(5, map[], {}))) == {}
  {
    var c := OnTheLine(4, true, map[], {});
    assert RefuseTransfer(c, Request(1, FIRST), 2).None?;
    assert RingsForgotten(c, 2) == c;
  }

  lemma PulledChange()
    ensures RouteChange(Marked(6, map[SECOND := 2], {SECOND})) == Quiet(Pulled().(version := 6))
    ensures UsersLetGo(Marked(6, map[SECOND := 2], {SECOND}), Some(Pulled())) == {1, 2}
  {
    assert SECOND in Marked(6, map[SECOND := 2], {SECOND}).agentLegs;
  }

  lemma MarkIsMade()
    ensures Next(At(OnTheLine(4, true, map[], {}), multiset{RouteToVoicemail, Release({1})}), TransferAndPull()[0])
         == Handing(Marked(5, map[], {}), multiset{RouteToVoicemail, Release({1}), TransferOffer(1, 2, 1)}, {1})
  {
    hide UsersLetGo, MarkChange;
    MarkedChange();
  }

  lemma OfferIsTaken()
    ensures Next(Handing(Marked(5, map[], {}), multiset{RouteToVoicemail, Release({1}), TransferOffer(1, 2, 1)}, {1}), TransferAndPull()[1])
         == Handing(Marked(5, map[], {}), multiset{RouteToVoicemail, Release({1}), TransferHold(1, 2, 1)}, {1, 2})
  {
    hide Commit, Write, RecordedAll;
  }

  lemma HoldIsPlaced()
    ensures Next(Handing(Marked(5, map[], {}), multiset{RouteToVoicemail, Release({1}), TransferHold(1, 2, 1)}, {1, 2}), TransferAndPull()[2])
         == Handing(Marked(5, map[], {}), multiset{RouteToVoicemail, Release({1}), TransferRing(1, 2, 1)}, {1, 2})
  {
    hide Commit, Write, RecordedAll;
  }

  lemma RingIsDue()
    ensures Next(Handing(Marked(5, map[], {}), multiset{RouteToVoicemail, Release({1}), TransferRing(1, 2, 1)}, {1, 2}), TransferAndPull()[3])
         == Handing(Marked(5, map[], {}), multiset{RouteToVoicemail, Release({1}), TransferDial(1, 2, 1)}, {1, 2})
  {
    hide Commit, Write, RecordedAll;
  }

  lemma RingIsDialed()
    ensures Next(Handing(Marked(5, map[], {}), multiset{RouteToVoicemail, Release({1}), TransferDial(1, 2, 1)}, {1, 2}), TransferAndPull()[4])
         == Handing(Marked(5, map[], {}), multiset{RouteToVoicemail, Release({1}), TransferRecord(1, 2, 1, SECOND)}, {1, 2})
  {
    hide Commit, Write, RecordedAll;
  }

  lemma RingIsRecorded()
    ensures Next(Handing(Marked(5, map[], {}), multiset{RouteToVoicemail, Release({1}), TransferRecord(1, 2, 1, SECOND)}, {1, 2}), TransferAndPull()[5])
         == Handing(Marked(6, map[SECOND := 2], {SECOND}), multiset{RouteToVoicemail, Release({1})}, {1, 2})
  {
    hide Commit, RecordedAll;
    assert LegsRegistered(Marked(5, map[], {}), {SECOND}).0 == Marked(5, map[SECOND := 2], {SECOND});
  }

  lemma PullComesLast()
    ensures Next(Handing(Marked(6, map[SECOND := 2], {SECOND}), multiset{RouteToVoicemail, Release({1})}, {1, 2}), TransferAndPull()[6])
         == Handing(Pulled(), multiset{Release({1}), Release({1, 2})}, {1, 2})
  {
    hide UsersLetGo, RouteChange;
    PulledChange();
  }

  lemma TransferAndPullRun()
    ensures Run(RingingStart(), LateJoin() + TransferAndPull()) == Handing(Pulled(), multiset{Release({1}), Release({1, 2})}, {1, 2})
  {
    var start, past, steps := RingingStart(), LateJoin(), TransferAndPull();
    TalkingAgainst();
    MarkIsMade(); OfferIsTaken(); HoldIsPlaced(); RingIsDue(); RingIsDialed(); RingIsRecorded(); PullComesLast();
    hide Next, RingingStart, LateJoin, Run, At, Handing, Marked, Pulled, OnTheLine;
    assert past + steps[..0] == past;
    RunThen(start, past + steps[..0], steps[0]);
    assert past + steps[..0] + [steps[0]] == past + steps[..1];
    RunThen(start, past + steps[..1], steps[1]);
    assert past + steps[..1] + [steps[1]] == past + steps[..2];
    RunThen(start, past + steps[..2], steps[2]);
    assert past + steps[..2] + [steps[2]] == past + steps[..3];
    RunThen(start, past + steps[..3], steps[3]);
    assert past + steps[..3] + [steps[3]] == past + steps[..4];
    RunThen(start, past + steps[..4], steps[4]);
    assert past + steps[..4] + [steps[4]] == past + steps[..5];
    RunThen(start, past + steps[..5], steps[5]);
    assert past + steps[..5] + [steps[5]] == past + steps[..6];
    RunThen(start, past + steps[..6], steps[6]);
    assert past + steps[..6] + [steps[6]] == past + steps[..7];
    assert steps[..7] == steps;
  }

  /**
    The transfer is pending, its target is not rung, and nothing in flight
    will settle it; `CallAdrift.TransferIsAdriftExactlyAfterAPull` says when.
   */
  lemma TransferIsLeftAdrift()
    ensures var w := Run(RingingStart(), LateJoin() + TransferAndPull());
      && w.slot.Live? && w.slot.call.transferTo == Some(2) && w.slot.call.voicemail && !w.slot.call.ending
      && w.ops == multiset{Release({1}), Release({1, 2})} && w.ringing == multiset{}
      && !Backed(w.slot.call, w.ops, w.marks)
  {
    hide Run, Next;
    TransferAndPullRun();
  }
}
