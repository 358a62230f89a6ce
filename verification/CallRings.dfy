/** The steps of a fixed-order ring: each queue position is tried once, in order, one ring at a time. */
module CallRings {
  import opened Options
  import opened CallState
  import opened CallDecisions
  import opened CallWorld
  import opened CallInvariants
  import opened CallChanges
  import opened CallCommits
  import opened CallSteps
  import opened CallOps

  /** A ring done with its step: another takes its place, or an operation does. */
  function Passed(w: World, task: RingTask, tasks: multiset<RingTask>, ops: multiset<Op>, claimed: set<UserId>,
                  turns: seq<Turn>): World {
    w.(ringing := w.ringing - multiset{task} + tasks, ops := w.ops + ops, claimed := claimed, turns := turns)
  }

  /** What a ring owed the caller and the user it was for is handed on. */
  ghost predicate PassesOn(w: World, task: RingTask, tasks: multiset<RingTask>, ops: multiset<Op>, claimed: set<UserId>) {
    && (tasks != multiset{} || Owed(ops) || (w.slot.Live? && (Tended(w.slot.call) || w.slot.call.answered)) || !w.slot.Live?)
    && (forall user <- claimed | user !in w.claimed || RingOwes(task, user) ::
          || RingReleaseOwed(tasks, user)
          || ReleaseOwed(ops, user)
          || (w.slot.Live? && user in HoldsOn(w.slot.call)))
    && (forall op <- ops :: op.Release? || op.AnswerWithVoicemail? || op.RouteToVoicemail?)
  }

  lemma RingsRemain(ringing: multiset<RingTask>, task: RingTask, tasks: multiset<RingTask>)
    ensures var more := ringing - multiset{task} + tasks;
      && (forall user :: RingReleaseOwed(ringing, user) ==> RingReleaseOwed(more, user) || RingOwes(task, user))
      && (forall user :: RingReleaseOwed(tasks, user) ==> RingReleaseOwed(more, user))
      && (tasks != multiset{} ==> more != multiset{})
  {
    var more := ringing - multiset{task} + tasks;
    assert forall other :: other in ringing && other != task ==> other in more;
    assert forall other :: other in tasks ==> other in more;
    if tasks != multiset{} {
      var some :| some in tasks;
      assert some in more;
    }
  }

  lemma PassingKeepsClaims(w: World, task: RingTask, tasks: multiset<RingTask>, ops: multiset<Op>, claimed: set<UserId>,
                           turns: seq<Turn>)
    requires ClaimsAnswered(w) && PassesOn(w, task, tasks, ops, claimed)
    ensures ClaimsAnswered(Passed(w, task, tasks, ops, claimed, turns))
  {
    var after := Passed(w, task, tasks, ops, claimed, turns);
    RingsRemain(w.ringing, task, tasks);
    MoreIsOwed(w.ops, after.ops);
    MoreIsOwed(ops, after.ops);
    forall user <- claimed ensures Answered(after.slot, after.ops, after.ringing, user) {
      if user in w.claimed && !RingOwes(task, user) {
        assert Answered(w.slot, w.ops, w.ringing, user);
      }
    }
  }

  lemma PassingKeepsDuties(w: World, task: RingTask, tasks: multiset<RingTask>, ops: multiset<Op>, claimed: set<UserId>,
                           turns: seq<Turn>)
    requires NotStranded(w) && TransfersBacked(w) && PassesOn(w, task, tasks, ops, claimed)
    ensures var after := Passed(w, task, tasks, ops, claimed, turns); NotStranded(after) && TransfersBacked(after)
  {
    var after := Passed(w, task, tasks, ops, claimed, turns);
    RingsRemain(w.ringing, task, tasks);
    MoreIsOwed(w.ops, after.ops);
    MoreIsOwed(ops, after.ops);
  }

  /** A ring that hands on what it owes keeps the whole invariant, if it is where a ring should be. */
  lemma PassingKeeps(w: World, task: RingTask, tasks: multiset<RingTask>, ops: multiset<Op>, claimed: set<UserId>,
                     turns: seq<Turn>)
    requires Invariant(w) && task in w.ringing
    requires PassesOn(w, task, tasks, ops, claimed)
    requires RingFits(Passed(w, task, tasks, ops, claimed, turns))
    ensures Invariant(Passed(w, task, tasks, ops, claimed, turns))
  {
    hide WellFormed, NotStranded, TransfersBacked, ClaimsAnswered, PassesOn, HoldsOn;
    var after := Passed(w, task, tasks, ops, claimed, turns);
    PassingKeepsClaims(w, task, tasks, ops, claimed, turns);
    PassingKeepsDuties(w, task, tasks, ops, claimed, turns);
    PassedOpsFit(w, task, tasks, ops, claimed, turns);
  }

  lemma PassedOpsFit(w: World, task: RingTask, tasks: multiset<RingTask>, ops: multiset<Op>, claimed: set<UserId>,
                     turns: seq<Turn>)
    requires OpsFit(w) && RenewalsFit(w.slot, w.ops) && RingFits(w) && task in w.ringing
    requires PassesOn(w, task, tasks, ops, claimed)
    ensures var after := Passed(w, task, tasks, ops, claimed, turns); OpsFit(after) && RenewalsFit(after.slot, after.ops)
  {
    var after := Passed(w, task, tasks, ops, claimed, turns);
    assert forall op <- after.ops :: op in w.ops || op in ops;
    assert w.slot.Live? ==> TaskFits(task, w.slot.call, |w.turns|);
  }

  // Where a ring should be ---------------------------------------------------------------------------

  lemma OnlyRing(w: World, task: RingTask)
    requires w.slot.Live? && RingFits(w) && task in w.ringing
    ensures w.ringing == multiset{task}
    ensures w.ringing - multiset{task} == multiset{}
    ensures w.slot.call.strategy.FixedOrder? && w.slot.call.direction.Inbound?
    ensures !w.slot.call.answered ==> w.slot.call.agentLegs == map[]
  {
    assert TaskFits(task, w.slot.call, |w.turns|);
    assert |w.ringing - multiset{task}| == 0;
    assert w.ringing == w.ringing - multiset{task} + multiset{task};
  }

  /** The ring moves on without touching the call: to its next stage, or to the next position. */
  lemma PassingFits(w: World, task: RingTask, next: RingTask, claimed: set<UserId>, turns: seq<Turn>, ops: multiset<Op>)
    requires w.slot.Live? && RingFits(w) && task in w.ringing
    requires TaskFits(next, w.slot.call, |turns|) && TriedInOrder(w.slot.call, turns)
    requires AnswerWithVoicemail !in ops && RouteToVoicemail !in ops
    requires turns == w.turns || |w.turns| < |w.slot.call.queue|
    ensures RingFits(Passed(w, task, multiset{next}, ops, claimed, turns))
  {
    OnlyRing(w, task);
    var after := Passed(w, task, multiset{next}, ops, claimed, turns);
    assert after.ringing == multiset{next};
    assert ExhaustedFirst(after.slot.call, after.ops, after.turns);
  }

  /** Nobody is left to ring, or nobody needs to be rung. */
  lemma FallingBackFits(w: World, task: RingTask, fallback: Fallback)
    requires w.slot.Live? && RingFits(w) && task in w.ringing && task.RingTurn?
    requires task.index >= |w.slot.call.queue| || !TurnTaken(w.slot.call, task.index).1
    ensures RingFits(Passed(w, task, multiset{}, multiset{FallBack(fallback)}, w.claimed, w.turns))
  {
    OnlyRing(w, task);
    var after := Passed(w, task, multiset{}, multiset{FallBack(fallback)}, w.claimed, w.turns);
    assert TaskFits(task, w.slot.call, |w.turns|);
    assert after.ringing == multiset{};
  }

  lemma FallBackStepKeeps(w: World, task: RingTask)
    requires Invariant(w) && task in w.ringing && (task.RingStart? || task.RingTurn?)
    requires !w.slot.Live? || (task.RingTurn? && (task.index >= |w.slot.call.queue| || !TurnTaken(w.slot.call, task.index).1))
    ensures Invariant(w.(ringing := w.ringing - multiset{task}, ops := w.ops + multiset{FallBack(task.fallback)}))
  {
    hide WellFormed, NotStranded, TransfersBacked, ClaimsAnswered, TimelineTells, OpsFit, RenewalsFit;
    var ops := multiset{FallBack(task.fallback)};
    assert FallBack(task.fallback) in ops && Closes(FallBack(task.fallback));
    if w.slot.Live? {
      FallingBackFits(w, task, task.fallback);
    }
    PassingKeeps(w, task, multiset{}, ops, w.claimed, w.turns);
    assert w.(ringing := w.ringing - multiset{task}, ops := w.ops + ops) == Passed(w, task, multiset{}, ops, w.claimed, w.turns);
  }

  // The stages -----------------------------------------------------------------------------------------

  lemma RingStartKeeps(w: World, task: RingTask, answer: Answer)
    requires Invariant(w) && task in w.ringing && task.RingStart?
    ensures Invariant(RingStep(w, task, answer))
  {
    hide WellFormed, NotStranded, TransfersBacked, ClaimsAnswered, TimelineTells, OpsFit, RenewalsFit;
    if w.slot.Live? {
      var next := RingTurn(task.fallback, w.slot.call.queueIndex);
      assert TaskFits(task, w.slot.call, |w.turns|);
      PassingFits(w, task, next, w.claimed, w.turns, multiset{});
      PassingKeeps(w, task, multiset{next}, multiset{}, w.claimed, w.turns);
      assert RingStep(w, task, answer) == Passed(w, task, multiset{next}, multiset{}, w.claimed, w.turns);
    } else {
      FallBackStepKeeps(w, task);
    }
  }

  /** One more position has been tried. */
  lemma TriedOneMore(w: World, task: RingTask, turn: Turn)
    requires w.slot.Live? && RingFits(w) && task in w.ringing && RingsWhom(task).Some? && turn.user == RingsWhom(task).value
    ensures TriedInOrder(w.slot.call, w.turns + [turn]) && |w.turns| < |w.slot.call.queue|
  {
    OnlyRing(w, task);
    assert TaskFits(task, w.slot.call, |w.turns|);
  }

  /** The user takes the offer: their claim is the ring's to answer for. */
  lemma RingOfferedKeeps(w: World, task: RingTask)
    requires Invariant(w) && task in w.ringing && task.RingOffer?
    ensures Invariant(Passed(w, task, multiset{RingDial(task.fallback, task.index, task.user)}, multiset{},
                             w.claimed + {task.user}, w.turns))
  {
    hide WellFormed, NotStranded, TransfersBacked, ClaimsAnswered, TimelineTells, OpsFit, RenewalsFit, HoldsOn;
    var next := RingDial(task.fallback, task.index, task.user);
    assert next in multiset{next} && RingOwes(next, task.user);
    if w.slot.Live? {
      assert TaskFits(task, w.slot.call, |w.turns|);
      OnlyRing(w, task);
      PassingFits(w, task, next, w.claimed + {task.user}, w.turns, multiset{});
    }
    PassingKeeps(w, task, multiset{next}, multiset{}, w.claimed + {task.user}, w.turns);
  }

  lemma RingRefusedKeeps(w: World, task: RingTask)
    requires Invariant(w) && task in w.ringing && task.RingOffer?
    ensures Invariant(Passed(w, task, multiset{RingTurn(task.fallback, task.index + 1)}, multiset{}, w.claimed,
                             w.turns + [NotOffered(task.user)]))
  {
    hide WellFormed, NotStranded, TransfersBacked, ClaimsAnswered, TimelineTells, OpsFit, RenewalsFit, HoldsOn;
    var next := RingTurn(task.fallback, task.index + 1);
    var turns := w.turns + [NotOffered(task.user)];
    if w.slot.Live? {
      assert TaskFits(task, w.slot.call, |w.turns|);
      TriedOneMore(w, task, NotOffered(task.user));
      PassingFits(w, task, next, w.claimed, turns, multiset{});
    }
    PassingKeeps(w, task, multiset{next}, multiset{}, w.claimed, turns);
  }

  /** A ring that was not recorded lets its user go and gives the next position its turn. */
  lemma RingMissedKeeps(w: World, task: RingTask)
    requires Invariant(w) && task in w.ringing && (task.RingDial? || task.RingRecord?)
    ensures Invariant(RingMissed(w, w.ringing - multiset{task}, task.fallback, task.index, task.user))
  {
    hide WellFormed, NotStranded, TransfersBacked, ClaimsAnswered, TimelineTells, OpsFit, RenewalsFit, HoldsOn;
    var next := RingTurn(task.fallback, task.index + 1);
    var ops := multiset{Release({task.user})};
    var turns := w.turns + [NotRecorded(task.user)];
    assert Release({task.user}) in ops && Owes(Release({task.user}), task.user);
    if w.slot.Live? {
      assert TaskFits(task, w.slot.call, |w.turns|);
      TriedOneMore(w, task, NotRecorded(task.user));
      PassingFits(w, task, next, w.claimed, turns, ops);
    }
    PassingKeeps(w, task, multiset{next}, ops, w.claimed, turns);
    assert RingMissed(w, w.ringing - multiset{task}, task.fallback, task.index, task.user)
        == Passed(w, task, multiset{next}, ops, w.claimed, turns);
  }

  lemma RingDialKeeps(w: World, task: RingTask, answer: Answer)
    requires Invariant(w) && task in w.ringing && task.RingDial?
    ensures Invariant(RingStep(w, task, answer))
  {
    hide WellFormed, NotStranded, TransfersBacked, ClaimsAnswered, TimelineTells, OpsFit, RenewalsFit, HoldsOn;
    if w.slot.Live? && !w.slot.call.ending && answer.ok && answer.leg.party == Agent(task.user) {
      var next := RingRecord(task.fallback, task.index, task.user, answer.leg);
      assert next in multiset{next} && RingOwes(next, task.user);
      assert TaskFits(task, w.slot.call, |w.turns|);
      OnlyRing(w, task);
      PassingFits(w, task, next, w.claimed, w.turns, multiset{});
      PassingKeeps(w, task, multiset{next}, multiset{}, w.claimed, w.turns);
      assert RingStep(w, task, answer) == Passed(w, task, multiset{next}, multiset{}, w.claimed, w.turns);
    } else {
      RingMissedKeeps(w, task);
    }
  }

  // The writes ---------------------------------------------------------------------------------------------

  /** A position has its turn: it is the one the call is at, and the first not tried. */
  lemma TurnFits(w: World, task: RingTask)
    requires w.slot.Live? && RingFits(w) && task in w.ringing && task.RingTurn?
    requires var c := w.slot.call; task.index < |c.queue| && TurnTaken(c, task.index).1
    ensures var c := w.slot.call;
      RingFitsCall(TurnTaken(c, task.index).0,
                   multiset{RingOffer(task.fallback, task.index, c.queue[task.index])}, w.ops, w.turns)
  {
    OnlyRing(w, task);
    var c := w.slot.call;
    var n := TurnTaken(c, task.index).0;
    assert TaskFits(task, c, |w.turns|);
    assert n.agentLegs == c.agentLegs;
  }

  lemma TurnKeepsClaims(w: World, c: Call, task: RingTask, change: Change)
    requires w.slot == Live(c) && WellFormed(c) && ClaimsAnswered(w) && task.RingTurn? && Sound(c, change, w.marks + 1)
    ensures ClaimsAnswered(Commit(w.(ringing := w.ringing - multiset{task}), c, w.ops, change))
  {
    hide Sound, Commit, WellFormed, HoldsOn;
    var before := w.(ringing := w.ringing - multiset{task});
    RingsRemain(w.ringing, task, multiset{});
    assert w.ringing - multiset{task} + multiset{} == before.ringing;
    forall user <- w.claimed ensures Answered(before.slot, w.ops, before.ringing, user) {
      assert Answered(w.slot, w.ops, w.ringing, user);
    }
    CommitKeepsClaims(before, c, w.ops, change);
  }

  lemma TurnTakenKeeps(w: World, c: Call, task: RingTask)
    requires Invariant(w) && w.slot == Live(c) && task in w.ringing && task.RingTurn?
    requires task.index < |c.queue| && TurnTaken(c, task.index).1
    ensures var next := RingOffer(task.fallback, task.index, c.queue[task.index]);
      Invariant(Commit(w.(ringing := w.ringing - multiset{task}), c, w.ops,
                       Change(Some(TurnTaken(c, task.index).0), multiset{}, multiset{next}, [])))
  {
    hide Sound, WellFormed, ClaimsAnswered, UsersLetGo, Owed, BeingSetUp, SettlementOwed, Settles;
    hide RingsUser, OpFits, RingFitsCall, RenewalsFit, TaskFits;
    var next := RingOffer(task.fallback, task.index, c.queue[task.index]);
    var n := TurnTaken(c, task.index).0;
    var change := Change(Some(n), multiset{}, multiset{next}, []);
    var before := w.(ringing := w.ringing - multiset{task});
    var after := Commit(before, c, w.ops, change);
    TurnIsSound(c, task.index, multiset{next}, w.marks + 1);
    assert AboutToCommit(before, c, w.ops, change);
    OnlyRing(w, task);
    assert after.ringing == multiset{next};
    CommitKeepsForm(before, c, w.ops, change);
    CommitKeepsOps(before, c, w.ops, change);
    CommitKeepsBacking(before, c, w.ops, change);
    CommitKeepsRenewals(before, c, w.ops, change);
    CommitKeepsTimeline(before, c, w.ops, change);
    TurnKeepsClaims(w, c, task, change);
    TurnKeepsRing(w, c, task, after);
    assert NotStranded(after) by {
      assert next in after.ringing && !n.answered;
      RingMeansCare(after);
    }
  }

  lemma RingMeansCare(w: World)
    requires w.slot.Live? && !w.slot.call.answered && w.ringing != multiset{}
    ensures NotStranded(w)
  {
  }

  lemma TurnKeepsRing(w: World, c: Call, task: RingTask, after: World)
    requires w.slot == Live(c) && RingFits(w) && task in w.ringing && task.RingTurn?
    requires task.index < |c.queue| && TurnTaken(c, task.index).1
    requires after.slot == Live(Stored(c, TurnTaken(c, task.index).0)) && after.turns == w.turns
    requires after.ringing == multiset{RingOffer(task.fallback, task.index, c.queue[task.index])}
    requires forall op <- after.ops :: op in w.ops || op.Release?
    ensures RingFits(after)
  {
    TurnFits(w, task);
    StoredKeepsRing(c, TurnTaken(c, task.index).0, after.ringing, after.ops, after.turns);
    assert AnswerWithVoicemail in after.ops ==> AnswerWithVoicemail in w.ops;
    assert RouteToVoicemail in after.ops ==> RouteToVoicemail in w.ops;
  }

  /** The ring is out: its position was tried, and its leg is the one the call tracks. */
  lemma RungFits(w: World, c: Call, task: RingTask)
    requires w.slot == Live(c) && RingFits(w) && task in w.ringing && task.RingRecord? && !c.ending
    requires task.leg.party == Agent(task.user)
    ensures var turns := w.turns + [Rung(task.user, task.leg)];
      RingFitsCall(LegsRegistered(c, {task.leg}).0, multiset{}, w.ops, turns)
  {
    OnlyRing(w, task);
    TriedOneMore(w, task, Rung(task.user, task.leg));
    assert TaskFits(task, c, |w.turns|);
    var n := LegsRegistered(c, {task.leg}).0;
    if !c.answered {
      assert n.agentLegs == map[task.leg := task.user];
    }
  }

  lemma RungKeepsDuties(w: World, c: Call, n: Call, task: RingTask, ringing: multiset<RingTask>)
    requires w.slot == Live(c) && NotStranded(w) && TransfersBacked(w) && ClaimsAnswered(w)
    requires Grows(c, n) && (Tended(n) || n.answered)
    requires ringing == w.ringing - multiset{task} && task.RingRecord? && task.user in n.agentLegs.Values
    ensures var after := Write(w.(ringing := ringing), c, n);
      NotStranded(after) && TransfersBacked(after) && ClaimsAnswered(after)
  {
    StoredIsWellFormed(c, n);
    var after := Write(w.(ringing := ringing), c, n);
    RingsRemain(w.ringing, task, multiset{});
    assert w.ringing - multiset{task} + multiset{} == ringing;
    assert task.user in HoldsOn(Stored(c, n));
    forall user <- after.claimed ensures Answered(after.slot, after.ops, after.ringing, user) {
      assert Answered(w.slot, w.ops, w.ringing, user);
    }
  }

  lemma RungKeeps(w: World, c: Call, task: RingTask)
    requires Invariant(w) && w.slot == Live(c) && task in w.ringing && task.RingRecord? && !c.ending
    requires task.leg.party == Agent(task.user)
    ensures Invariant(Write(w.(ringing := w.ringing - multiset{task}, turns := w.turns + [Rung(task.user, task.leg)]), c,
                            LegsRegistered(c, {task.leg}).0))
  {
    hide WellFormed, NotStranded, TransfersBacked, ClaimsAnswered, TimelineTells, OpsFit, RenewalsFit, RingFitsCall;
    hide LegsRegistered, Grows, Tended;
    var n := LegsRegistered(c, {task.leg}).0;
    var ringing := w.ringing - multiset{task};
    var turns := w.turns + [Rung(task.user, task.leg)];
    OnlyRing(w, task);
    RegisteredGrows(c, {task.leg});
    var after := Write(w.(ringing := ringing, turns := turns), c, n);
    assert task.user in OwnersOf({task.leg});
    WritingKeepsForm(w, c, n);
    FormIsOfTheRest(w, c, n, ringing, turns);
    RungKeepsDuties(w, c, n, task, ringing);
    DutiesForgetTurns(Write(w.(ringing := ringing), c, n), after);
    RungFits(w, c, task);
    StoredKeepsRing(c, n, ringing, w.ops, turns);
  }

  lemma FormIsOfTheRest(w: World, c: Call, n: Call, ringing: multiset<RingTask>, turns: seq<Turn>)
    requires w.slot == Live(c) && n.version == c.version
    requires var before := Write(w, c, n); OpsFit(before) && TimelineTells(before) && RenewalsFit(before.slot, before.ops)
    ensures var after := Write(w.(ringing := ringing, turns := turns), c, n);
      OpsFit(after) && TimelineTells(after) && RenewalsFit(after.slot, after.ops)
  {
  }

  lemma DutiesForgetTurns(before: World, after: World)
    requires NotStranded(before) && TransfersBacked(before) && ClaimsAnswered(before)
    requires after == before.(turns := after.turns)
    ensures NotStranded(after) && TransfersBacked(after) && ClaimsAnswered(after)
  {
  }

  lemma RingRecordKeeps(w: World, task: RingTask, answer: Answer)
    requires Invariant(w) && task in w.ringing && task.RingRecord?
    ensures Invariant(RingStep(w, task, answer))
  {
    hide Invariant, Write, LegsRegistered, RingMissed;
    if w.slot.Live? && !w.slot.call.ending && task.leg.party == Agent(task.user) {
      RungKeeps(w, w.slot.call, task);
    } else {
      RingMissedKeeps(w, task);
    }
  }

  lemma RingTurnKeeps(w: World, task: RingTask, answer: Answer)
    requires Invariant(w) && task in w.ringing && task.RingTurn?
    ensures Invariant(RingStep(w, task, answer))
  {
    hide Invariant, Commit;
    if !w.slot.Live? || task.index >= |w.slot.call.queue| || !TurnTaken(w.slot.call, task.index).1 {
      FallBackStepKeeps(w, task);
    } else {
      TurnTakenKeeps(w, w.slot.call, task);
    }
  }

  lemma RingOfferKeeps(w: World, task: RingTask, answer: Answer)
    requires Invariant(w) && task in w.ringing && task.RingOffer?
    ensures Invariant(RingStep(w, task, answer))
  {
    hide Invariant;
    if answer.ok {
      RingOfferedKeeps(w, task);
      assert RingStep(w, task, answer) == Passed(w, task, multiset{RingDial(task.fallback, task.index, task.user)}, multiset{},
                                                w.claimed + {task.user}, w.turns);
    } else {
      RingRefusedKeeps(w, task);
      assert RingStep(w, task, answer) == Passed(w, task, multiset{RingTurn(task.fallback, task.index + 1)}, multiset{},
                                                w.claimed, w.turns + [NotOffered(task.user)]);
    }
  }

  /** Whatever a fixed-order ring does next, the whole invariant is kept. */
  lemma RingStepKeeps(w: World, task: RingTask, answer: Answer)
    requires Invariant(w) && task in w.ringing
    ensures Invariant(RingStep(w, task, answer))
  {
    hide Invariant, RingStep;
    match task
    case RingStart(_) => RingStartKeeps(w, task, answer);
    case RingTurn(_, _) => RingTurnKeeps(w, task, answer);
    case RingOffer(_, _, _) => RingOfferKeeps(w, task, answer);
    case RingDial(_, _, _) => RingDialKeeps(w, task, answer);
    case RingRecord(_, _, _, _) => RingRecordKeeps(w, task, answer);
  }
}
