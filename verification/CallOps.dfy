/** The steps of the operations in flight: each hands on what it owes, or writes what settles it. */
module CallOps {
  import opened Options
  import opened CallState
  import opened CallControl
  import opened CallDecisions
  import opened CallWorld
  import opened CallInvariants
  import opened CallChanges
  import opened CallCommits
  import opened CallSteps

  // Writes that settle what was owed -----------------------------------------------------------

  /** A sound and calm change consumes the operation that asked for it. */
  lemma SettlingCommitKeeps(w: World, c: Call, op: Op, change: Change)
    requires Invariant(w) && w.slot == Live(c) && op in w.ops
    requires Sound(c, change, w.marks + 1)
    requires change.draft.Some? ==> Calm(c, change.draft.value, change, w.ops)
    requires Closes(op) ==> change.draft.None? || Tended(change.draft.value)
    requires !SetsUp(op) && forall user :: !Owes(op, user)
    requires change.draft.None?
      || change.draft.value.transferTo.None?
      || (c.transferTo.Some? ==> !Settles(op, c.transferTo.value, w.marks))
    ensures Invariant(Commit(w, c, w.ops - multiset{op}, change))
  {
    hide Sound, Calm, UsersLetGo, WellFormed, Owed, BeingSetUp, SettlementOwed, ReleaseOwed, RingReleaseOwed, Tended, HoldsOn;
    hide OpsFit, RenewalsFit, TimelineTells, RingFits, RingsUser, Settles, Closes, SetsUp, Owes;
    var rest := w.ops - multiset{op};
    OthersRemain(w.ops, op);
    CommitKeepsRing(w, c, rest, change);
    CommitKeepsForm(w, c, rest, change);
    CommitKeepsOps(w, c, rest, change);
    CommitKeepsRenewals(w, c, rest, change);
    CommitKeepsTimeline(w, c, rest, change);
    forall user <- w.claimed ensures Answered(w.slot, rest, w.ringing, user) {
      assert Answered(w.slot, w.ops, w.ringing, user);
    }
    CommitKeepsClaims(w, c, rest, change);
    if change.draft.Some? {
      CommitKeepsCare(w, c, rest, change);
      CommitKeepsBacking(w, c, rest, change);
    }
  }

  lemma AnswerIsCalm(c: Call, ops: multiset<Op>)
    requires AnswerWithVoicemail in ops
    ensures Calm(c, AnswerChange(c).draft.value, AnswerChange(c), ops)
  {
  }

  lemma RouteIsCalm(c: Call, ops: multiset<Op>)
    requires RouteToVoicemail in ops && (c.strategy.FixedOrder? && !c.answered ==> c.externalLeg.None?)
    ensures Calm(c, RouteChange(c).draft.value, RouteChange(c), ops)
  {
    var n := RouteChange(c).draft.value;
    assert n == c || (n.agentLegs == map[] && n.externalLeg.None?);
  }

  lemma EndRequestIsCalm(c: Call, ops: multiset<Op>)
    ensures Calm(c, EndRequestChange(c).draft.value, EndRequestChange(c), ops)
  {
  }

  lemma FailIsCalm(c: Call, target: UserId, ops: multiset<Op>)
    requires c.transferTo.Some? ==> c.answered && !c.ending
    ensures var change := FailChange(c, target);
      && Calm(c, change.draft.value, change, ops)
      && (change.draft.value.transferTo.None? || c.transferTo != Some(target))
  {
  }

  lemma AnswerStepKeeps(w: World, c: Call)
    requires Invariant(w) && w.slot == Live(c) && AnswerWithVoicemail in w.ops
    ensures Invariant(Commit(w, c, w.ops - multiset{AnswerWithVoicemail}, AnswerChange(c)))
  {
    hide Commit, Sound, Calm, AnswerChange;
    AnswerIsSound(c, w.marks + 1);
    AnswerIsCalm(c, w.ops);
    SettlingCommitKeeps(w, c, AnswerWithVoicemail, AnswerChange(c));
  }

  lemma RouteStepKeeps(w: World, c: Call)
    requires Invariant(w) && w.slot == Live(c) && RouteToVoicemail in w.ops
    ensures Invariant(Commit(w, c, w.ops - multiset{RouteToVoicemail}, RouteChange(c)))
  {
    hide Commit, Sound, Calm, RouteChange;
    RouteIsSound(c, w.marks + 1);
    RouteIsCalm(c, w.ops);
    SettlingCommitKeeps(w, c, RouteToVoicemail, RouteChange(c));
  }

  lemma EndCallStepKeeps(w: World, c: Call)
    requires Invariant(w) && w.slot == Live(c) && EndCall in w.ops
    ensures Invariant(Commit(w, c, w.ops - multiset{EndCall}, EndRequestChange(c)))
  {
    hide Commit, Sound, Calm;
    EndRequestIsSound(c, w.marks + 1);
    EndRequestIsCalm(c, w.ops);
    SettlingCommitKeeps(w, c, EndCall, EndRequestChange(c));
  }

  lemma FinalizeStepKeeps(w: World, c: Call)
    requires Invariant(w) && w.slot == Live(c) && Finalize in w.ops
    ensures Invariant(Commit(w, c, w.ops - multiset{Finalize}, Removal([])))
  {
    hide Commit;
    RemovalTells(c);
    SettlingCommitKeeps(w, c, Finalize, Removal([]));
  }

  lemma FailStepKeeps(w: World, c: Call, target: UserId)
    requires Invariant(w) && w.slot == Live(c) && FailTransfer(target) in w.ops
    ensures Invariant(Commit(w, c, w.ops - multiset{FailTransfer(target)}, FailChange(c, target)))
  {
    hide Commit, Sound, Calm, FailChange, PartiesFit, LegsFit, NotStranded, ClaimsAnswered, RenewalsFit, TimelineTells, OpsFit;
    FailIsSound(c, target, w.marks + 1);
    FailIsCalm(c, target, w.ops);
    SettlingCommitKeeps(w, c, FailTransfer(target), FailChange(c, target));
  }

  // Placing an outbound call ----------------------------------------------------------------------

  lemma OccupyStepKeeps(w: World, op: Op, answer: Answer)
    requires Invariant(w) && op in w.ops && op.Occupy?
    ensures Invariant(Performed(w, op, answer))
  {
    hide NotStranded, TransfersBacked, ClaimsAnswered, RenewalsFit, TimelineTells, RingFits, WellFormed;
    var more := multiset{Create(op.agent, op.leg)};
    assert Owes(Create(op.agent, op.leg), op.agent);
    HandingKeeps(w, op, more, w.claimed + {op.agent});
    assert Performed(w, op, answer) == Handed(w, op, more, w.claimed + {op.agent});
  }

  lemma NewbornIsWellFormed(agent: UserId, leg: Leg)
    requires leg.party == Agent(agent)
    ensures WellFormed(OutboundCall(agent, leg)) && agent in OccupantsOf(OutboundCall(agent, leg))
  {
    assert leg in LegsOf(OutboundCall(agent, leg));
  }

  lemma BirthKeepsClaims(w: World, op: Op, c: Call, ops: multiset<Op>)
    requires ClaimsAnswered(w) && !w.slot.Live? && op.Create? && op.agent in OccupantsOf(c)
    requires w.ops - multiset{op} <= ops
    ensures ClaimsAnswered(w.(slot := Live(c), ops := ops))
  {
    hide OccupantsOf;
    OthersRemain(w.ops, op);
    MoreIsOwed(w.ops - multiset{op}, ops);
    forall user <- w.claimed ensures Answered(Live(c), ops, w.ringing, user) {
      assert Answered(w.slot, w.ops, w.ringing, user);
    }
  }

  /** A call is born with its agent on it and the number being dialed. */
  lemma BirthKeeps(w: World, op: Op)
    requires Invariant(w) && op in w.ops && op.Create? && w.slot.Unborn? && op.leg.party == Agent(op.agent)
    ensures Invariant(w.(slot := Live(OutboundCall(op.agent, op.leg)), ops := w.ops - multiset{op} + multiset{DialExternal}))
  {
    hide WellFormed, ClaimsAnswered, OccupantsOf;
    var c := OutboundCall(op.agent, op.leg);
    var ops := w.ops - multiset{op} + multiset{DialExternal};
    var after := w.(slot := Live(c), ops := ops);
    assert forall other <- ops :: other in w.ops || other == DialExternal;
    NewbornIsWellFormed(op.agent, op.leg);
    BirthKeepsClaims(w, op, c, ops);
    assert OpsFit(after);
    assert RenewalsFit(after.slot, after.ops);
  }

  lemma CreateStepKeeps(w: World, op: Op, answer: Answer)
    requires Invariant(w) && op in w.ops && op.Create?
    ensures Invariant(Performed(w, op, answer))
  {
    if answer.ok && w.slot.Unborn? && op.leg.party == Agent(op.agent) {
      BirthKeeps(w, op);
    } else {
      LettingGoKeeps(w, op, {op.agent}, w.claimed);
      assert Performed(w, op, answer) == Handed(w, op, LetGo({op.agent}), w.claimed);
    }
  }

  /** An operation that owed nothing but these releases hands them on. */
  lemma LettingGoKeeps(w: World, op: Op, users: set<UserId>, claimed: set<UserId>)
    requires Invariant(w) && op in w.ops && claimed <= w.claimed
    requires w.slot.Live? && !Tended(w.slot.call) ==> !Closes(op) && (SetsUp(op) ==> w.slot.call.answered)
    requires w.slot.Live? && w.slot.call.transferTo.Some? ==> !Settles(op, w.slot.call.transferTo.value, w.marks)
    requires forall user <- claimed | Owes(op, user) :: user in users || (w.slot.Live? && user in HoldsOn(w.slot.call))
    ensures Invariant(Handed(w, op, LetGo(users), claimed))
  {
    hide Invariant, HandsOnCare, HandsOnTransfer, HandsOnClaims, HandsOverToFitting, Owes, HoldsOn;
    LetGoHandsOn(w, op, users);
    LetGoHandsOnClaims(w, op, users, claimed);
    ClaimsKnown(w);
    HandingKeeps(w, op, LetGo(users), claimed);
  }

  lemma ClaimsKnown(w: World)
    requires Invariant(w)
    ensures ClaimsAnswered(w)
  {
  }

  lemma LetGoHandsOn(w: World, op: Op, users: set<UserId>)
    requires w.slot.Live? && !Tended(w.slot.call) ==> !Closes(op) && (SetsUp(op) ==> w.slot.call.answered)
    requires w.slot.Live? && w.slot.call.transferTo.Some? ==> !Settles(op, w.slot.call.transferTo.value, w.marks)
    ensures HandsOnCare(w, op, LetGo(users)) && HandsOnTransfer(w, op, LetGo(users)) && HandsOverToFitting(w, op, LetGo(users))
  {
    hide Tended, Closes, SetsUp, Settles;
  }

  lemma LetGoHandsOnClaims(w: World, op: Op, users: set<UserId>, claimed: set<UserId>)
    requires claimed <= w.claimed
    requires forall user <- claimed | Owes(op, user) :: user in users || (w.slot.Live? && user in HoldsOn(w.slot.call))
    ensures HandsOnClaims(w, op, LetGo(users), claimed)
  {
    var more := LetGo(users);
    forall user <- users ensures ReleaseOwed(more, user) {
      assert Release(users) in more && Owes(Release(users), user);
    }
    hide Owes, HoldsOn;
  }

  // Dialing an outside number --------------------------------------------------------------------------

  lemma DialExternalStepKeeps(w: World, op: Op, answer: Answer)
    requires Invariant(w) && op in w.ops && op.DialExternal?
    ensures Invariant(Performed(w, op, answer))
  {
    var next := if w.slot.Live? && !w.slot.call.ending && answer.ok && answer.leg.party.External?
      then RecordExternal(answer.leg) else DialFailed;
    assert SetsUp(next) && next in multiset{next};
    assert OpsFit(w);
    HandingKeeps(w, op, multiset{next}, w.claimed);
    assert Performed(w, op, answer) == Handed(w, op, multiset{next}, w.claimed);
  }

  lemma DialFailedStepKeeps(w: World, op: Op, answer: Answer)
    requires Invariant(w) && op in w.ops && op.DialFailed?
    ensures Invariant(Performed(w, op, answer))
  {
    hide Invariant, Commit, TransferStep, RecordedAll, LetGo;
    if !w.slot.Live? || w.slot.call.ending {
      FailedDialIsOver(w, op);
      assert w.ops - multiset{op} + multiset{} == w.ops - multiset{op};
      assert Performed(w, op, answer) == Handed(w, op, multiset{}, w.claimed);
    } else {
      var next := if w.slot.call.direction.Inbound? then RouteToVoicemail else Finalize;
      FailedDialCloses(w, op, next);
      assert Performed(w, op, answer) == Handed(w, op, multiset{next}, w.claimed);
    }
  }

  lemma FailedDialIsOver(w: World, op: Op)
    requires Invariant(w) && op in w.ops && op.DialFailed? && (w.slot.Live? ==> w.slot.call.ending)
    ensures Invariant(Handed(w, op, multiset{}, w.claimed))
  {
    hide NotStranded, TransfersBacked, ClaimsAnswered, RenewalsFit, TimelineTells, RingFits, WellFormed, HoldsOn;
    HandingKeeps(w, op, multiset{}, w.claimed);
  }

  lemma FailedDialCloses(w: World, op: Op, next: Op)
    requires Invariant(w) && op in w.ops && op.DialFailed? && w.slot.Live?
    requires next == if w.slot.call.direction.Inbound? then RouteToVoicemail else Finalize
    ensures Invariant(Handed(w, op, multiset{next}, w.claimed))
  {
    hide NotStranded, TransfersBacked, ClaimsAnswered, RenewalsFit, TimelineTells, RingFits, WellFormed, HoldsOn;
    assert Closes(next) && next in multiset{next};
    assert OpFits(op, w.slot.call, w.marks);
    HandingKeeps(w, op, multiset{next}, w.claimed);
  }

  /** An operation whose write added what it was for, and that owes nothing more. */
  lemma WrittenAndDoneKeeps(w: World, c: Call, n: Call, op: Op, users: set<UserId>)
    requires Invariant(w) && w.slot == Live(c) && op in w.ops && !Closes(op)
    requires n.version == c.version && Invariant(Write(w, c, n))
    requires SetsUp(op) ==> Tended(n) || n.answered
    requires n.transferTo.Some? && Settles(op, n.transferTo.value, w.marks) ==> RingsUser(n, n.transferTo.value)
    requires forall user <- w.claimed | Owes(op, user) :: user in users || user in HoldsOn(n)
    ensures Invariant(Handed(Write(w, c, n), op, LetGo(users), w.claimed))
  {
    hide Invariant, HandsOnCare, HandsOnTransfer, HandsOnClaims, HandsOverToFitting, Owes, HoldsOn;
    DoneHandsOnDuties(w, c, n, op, users);
    DoneHandsOnClaims(w, c, n, op, users);
    DoneHandsOverFitting(w, c, n, op, users);
    HandingKeeps(Write(w, c, n), op, LetGo(users), w.claimed);
  }

  lemma DoneHandsOnDuties(w: World, c: Call, n: Call, op: Op, users: set<UserId>)
    requires n.version == c.version && !Closes(op)
    requires SetsUp(op) ==> Tended(n) || n.answered
    requires n.transferTo.Some? && Settles(op, n.transferTo.value, w.marks) ==> RingsUser(n, n.transferTo.value)
    ensures HandsOnCare(Write(w, c, n), op, LetGo(users)) && HandsOnTransfer(Write(w, c, n), op, LetGo(users))
  {
    hide Closes, SetsUp, Settles;
  }

  lemma DoneHandsOnClaims(w: World, c: Call, n: Call, op: Op, users: set<UserId>)
    requires n.version == c.version
    requires forall user <- w.claimed | Owes(op, user) :: user in users || user in HoldsOn(n)
    ensures HandsOnClaims(Write(w, c, n), op, LetGo(users), w.claimed)
  {
    var more := LetGo(users);
    forall user <- users ensures ReleaseOwed(more, user) {
      assert Release(users) in more && Owes(Release(users), user);
    }
    assert HoldsOn(Stored(c, n)) == HoldsOn(n);
    hide Owes, HoldsOn;
  }

  lemma DoneHandsOverFitting(w: World, c: Call, n: Call, op: Op, users: set<UserId>)
    requires n.version == c.version
    ensures HandsOverToFitting(Write(w, c, n), op, LetGo(users))
  {
    hide Stored;
  }

  lemma ExternalWriteKeeps(w: World, c: Call, op: Op)
    requires Invariant(w) && w.slot == Live(c) && op in w.ops && op.RecordExternal? && !c.ending
    ensures Invariant(Handed(Write(w, c, ExternalRecorded(c, op.leg).0), op, LetGo({}), w.claimed))
  {
    hide NotStranded, TransfersBacked, ClaimsAnswered, RenewalsFit, TimelineTells, RingFits, WellFormed, Grows, Write;
    hide ExternalRecorded, HoldsOn, RingsUser, Tended;
    assert OpFits(op, c, w.marks);
    ExternalRecordedGrows(c, op.leg);
    WritingKeeps(w, c, ExternalRecorded(c, op.leg).0);
    WrittenAndDoneKeeps(w, c, ExternalRecorded(c, op.leg).0, op, {});
  }

  lemma RecordExternalStepKeeps(w: World, op: Op, answer: Answer)
    requires Invariant(w) && op in w.ops && op.RecordExternal?
    ensures Invariant(Performed(w, op, answer))
  {
    hide Invariant;
    if w.slot.Live? && !w.slot.call.ending {
      var c := w.slot.call;
      ExternalWriteKeeps(w, c, op);
      assert Performed(w, op, answer) == Handed(Write(w, c, ExternalRecorded(c, op.leg).0), op, LetGo({}), w.claimed);
    } else {
      LettingGoKeeps(w, op, {}, w.claimed);
      assert Performed(w, op, answer) == Handed(w, op, multiset{}, w.claimed);
    }
  }

  // Ringing everybody at once ---------------------------------------------------------------------

  lemma OfferAllStepKeeps(w: World, op: Op, answer: Answer)
    requires Invariant(w) && op in w.ops && op.OfferAll?
    ensures Invariant(Performed(w, op, answer))
  {
    hide NotStranded, TransfersBacked, ClaimsAnswered, RenewalsFit, TimelineTells, RingFits, WellFormed, HoldsOn;
    var offered := op.users * answer.users;
    var next := DialAll(offered);
    assert next in multiset{next} && SetsUp(next);
    forall user <- offered ensures ReleaseOwed(multiset{next}, user) {
      assert Owes(next, user);
    }
    assert w.slot.Live? ==> OpFits(op, w.slot.call, w.marks);
    HandingKeeps(w, op, multiset{next}, w.claimed + offered);
    assert Performed(w, op, answer) == Handed(w, op, multiset{next}, w.claimed + offered);
  }

  /** Nobody could be rung: everybody offered is let go and the caller is answered with voicemail. */
  lemma GivingUpKeeps(w: World, op: Op, offered: set<UserId>)
    requires Invariant(w) && op in w.ops && (op == DialAll(offered) || (op.RecordAll? && op.offered == offered))
    ensures Invariant(Handed(w, op, LetGo(offered) + multiset{AnswerWithVoicemail}, w.claimed))
  {
    hide NotStranded, TransfersBacked, ClaimsAnswered, RenewalsFit, TimelineTells, RingFits, WellFormed, HoldsOn;
    var more := LetGo(offered) + multiset{AnswerWithVoicemail};
    assert AnswerWithVoicemail in more && Closes(AnswerWithVoicemail);
    forall user <- offered ensures ReleaseOwed(more, user) {
      assert Release(offered) in more && Owes(Release(offered), user);
    }
    assert w.slot.Live? ==> OpFits(op, w.slot.call, w.marks);
    assert !w.slot.Unborn?;
    HandingKeeps(w, op, more, w.claimed);
  }

  lemma DialAllStepKeeps(w: World, op: Op, answer: Answer)
    requires Invariant(w) && op in w.ops && op.DialAll?
    ensures Invariant(Performed(w, op, answer))
  {
    hide Invariant, Commit, TransferStep, RecordedAll, LetGo, Owes, HoldsOn, OccupantsOf;
    assert forall user :: Owes(op, user) <==> user in op.offered by { DialedOwes(op); }
    if !w.slot.Live? {
      LettingGoKeeps(w, op, op.offered, w.claimed);
      assert Performed(w, op, answer) == Handed(w, op, LetGo(op.offered), w.claimed);
    } else if w.slot.call.ending || op.offered == {} {
      GivingUpKeeps(w, op, op.offered);
      assert Performed(w, op, answer) == Handed(w, op, LetGo(op.offered) + multiset{AnswerWithVoicemail}, w.claimed);
    } else {
      var legs := set leg | leg in answer.legs && leg.party.Agent? && leg.party.user in op.offered;
      DialedAllKeeps(w, op, legs);
      assert Performed(w, op, answer) == Handed(w, op, multiset{RecordAll(op.offered, legs)}, w.claimed);
    }
  }

  lemma DialedOwes(op: Op)
    requires op.DialAll?
    ensures forall user :: Owes(op, user) <==> user in op.offered
  {
  }

  lemma DialedAllKeeps(w: World, op: Op, legs: set<Leg>)
    requires Invariant(w) && op in w.ops && op.DialAll? && w.slot.Live?
    ensures Invariant(Handed(w, op, multiset{RecordAll(op.offered, legs)}, w.claimed))
  {
    hide NotStranded, TransfersBacked, ClaimsAnswered, RenewalsFit, TimelineTells, RingFits, WellFormed, HoldsOn;
    var next := RecordAll(op.offered, legs);
    assert next in multiset{next} && SetsUp(next);
    assert forall user :: Owes(op, user) == Owes(next, user);
    assert OpFits(op, w.slot.call, w.marks);
    HandingKeeps(w, op, multiset{next}, w.claimed);
  }

  /** Everybody rung is recorded in one write: they are held, and the others are let go. */
  lemma RecordedAllKeeps(w: World, c: Call, op: Op)
    requires Invariant(w) && w.slot == Live(c) && op in w.ops && op.RecordAll? && !c.ending
    requires op.legs != {} && forall leg <- op.legs :: leg.party.Agent?
    ensures Invariant(Handed(Write(w, c, LegsRegistered(c, op.legs).0), op, LetGo(op.offered - OwnersOf(op.legs)), w.claimed))
  {
    hide NotStranded, TransfersBacked, ClaimsAnswered, RenewalsFit, TimelineTells, RingFits, WellFormed, Grows, Write;
    hide LegsRegistered, OccupantsOf, RingsUser, Tended, OwnersOf;
    assert OpFits(op, c, w.marks);
    RegisteredGrows(c, op.legs);
    WritingKeeps(w, c, LegsRegistered(c, op.legs).0);
    WrittenAndDoneKeeps(w, c, LegsRegistered(c, op.legs).0, op, op.offered - OwnersOf(op.legs));
  }

  lemma RecordAllStepKeeps(w: World, op: Op, answer: Answer)
    requires Invariant(w) && op in w.ops && op.RecordAll?
    ensures Invariant(Performed(w, op, answer))
  {
    hide Invariant, Write, OwnersOf;
    if op.legs != {} && w.slot.Live? && !w.slot.call.ending && forall leg <- op.legs :: leg.party.Agent? {
      var c := w.slot.call;
      RecordedAllKeeps(w, c, op);
      HandingCommutesWithWriting(w, c, LegsRegistered(c, op.legs).0, op, LetGo(op.offered - OwnersOf(op.legs)));
    } else {
      GivingUpKeeps(w, op, op.offered);
      assert Performed(w, op, answer) == Handed(w, op, LetGo(op.offered) + multiset{AnswerWithVoicemail}, w.claimed);
    }
  }

  lemma HandingCommutesWithWriting(w: World, c: Call, n: Call, op: Op, more: multiset<Op>)
    requires n.version == c.version
    ensures Handed(Write(w, c, n), op, more, w.claimed) == Write(w.(ops := w.ops - multiset{op} + more), c, n)
  {
  }

  // Claims -----------------------------------------------------------------------------------------

  lemma ReleaseStepKeeps(w: World, op: Op, answer: Answer)
    requires Invariant(w) && op in w.ops && op.Release?
    ensures Invariant(Performed(w, op, answer))
  {
    hide Invariant;
    LettingGoKeeps(w, op, op.users - answer.users, w.claimed - answer.users * op.users);
  }

  /** A renewal takes claims whether or not they are still due; its own check answers for them. */
  lemma RenewClaimsStepKeeps(w: World, op: Op, answer: Answer)
    requires Invariant(w) && op in w.ops && op.RenewClaims?
    ensures Invariant(Performed(w, op, answer))
  {
    hide NotStranded, TransfersBacked, ClaimsAnswered, TimelineTells, RingFits, WellFormed, HoldsOn, OccupantsOf;
    var next := CheckRenewal(op.seen);
    assert next in multiset{next};
    assert forall user <- OccupantsOf(op.seen) :: Owes(next, user);
    HandingKeeps(w, op, multiset{next}, w.claimed + OccupantsOf(op.seen));
    assert Performed(w, op, answer) == Handed(w, op, multiset{next}, w.claimed + OccupantsOf(op.seen));
  }

  /** The call did not move while it was renewed, or whoever it let go meanwhile is let go again. */
  lemma CheckRenewalStepKeeps(w: World, op: Op, answer: Answer)
    requires Invariant(w) && op in w.ops && op.CheckRenewal?
    ensures Invariant(Performed(w, op, answer))
  {
    hide NotStranded, TransfersBacked, ClaimsAnswered, TimelineTells, RingFits, WellFormed, OccupantsOf, UsersOfLegsGone;
    if w.slot.Live? && w.slot.call.version == op.seen.version {
      assert SeenBefore(op.seen, w.slot.call);
      LettingGoKeeps(w, op, {}, w.claimed);
      assert Performed(w, op, answer) == Handed(w, op, LetGo({}), w.claimed);
    } else {
      var now := if w.slot.Live? then Some(w.slot.call) else None;
      LettingGoKeeps(w, op, UsersLetGo(op.seen, now), w.claimed);
      assert Performed(w, op, answer) == Handed(w, op, LetGo(UsersLetGo(op.seen, now)), w.claimed);
    }
  }

  // Transfers --------------------------------------------------------------------------------------

  /** A transfer goes on: the next of its operations stands for the same mark. */
  lemma TransferGoesOn(w: World, op: Op, next: Op, claimed: set<UserId>)
    requires Invariant(w) && op in w.ops
    requires MarkOf(op).Some? && MarkOf(next) == MarkOf(op) && !Closes(next)
    requires next.TransferRecord? ==> next.leg.party == Agent(next.target)
    requires claimed <= w.claimed + {MarkOf(op).value.1}
    requires Owes(next, MarkOf(op).value.1)
    ensures Invariant(Handed(w, op, multiset{next}, claimed))
  {
    hide NotStranded, TransfersBacked, ClaimsAnswered, RenewalsFit, TimelineTells, RingFits, WellFormed, HoldsOn;
    assert next in multiset{next};
    assert w.slot.Live? ==> OpFits(op, w.slot.call, w.marks);
    forall user | Owes(op, user) ensures user == MarkOf(op).value.1 {
    }
    assert !w.slot.Unborn?;
    HandingKeeps(w, op, multiset{next}, claimed);
  }

  /** A transfer that cannot go on fails, and its target is let go if they were claimed. */
  lemma TransferFails(w: World, op: Op, target: UserId)
    requires Invariant(w) && op in w.ops && MarkOf(op).Some? && MarkOf(op).value.1 == target
    ensures Invariant(Handed(w, op, multiset{FailTransfer(target), Release({target})}, w.claimed))
    ensures op.TransferOffer? ==> Invariant(Handed(w, op, multiset{FailTransfer(target)}, w.claimed))
  {
    hide NotStranded, TransfersBacked, ClaimsAnswered, RenewalsFit, TimelineTells, RingFits, WellFormed, HoldsOn;
    var more := multiset{FailTransfer(target), Release({target})};
    assert FailTransfer(target) in more && Release({target}) in more && Owes(Release({target}), target);
    assert Settles(FailTransfer(target), target, w.marks) && FailTransfer(target) in multiset{FailTransfer(target)};
    assert forall user | Owes(op, user) :: user == target;
    assert w.slot.Live? ==> OpFits(op, w.slot.call, w.marks);
    assert !w.slot.Unborn?;
    HandingKeeps(w, op, more, w.claimed);
    if op.TransferOffer? {
      HandingKeeps(w, op, multiset{FailTransfer(target)}, w.claimed);
    }
  }

  /** A transfer that is no longer pending has nothing left but its claim. */
  lemma TransferIsOver(w: World, op: Op, target: UserId)
    requires Invariant(w) && op in w.ops && MarkOf(op).Some? && MarkOf(op).value.1 == target
    requires w.slot.Live? ==> w.slot.call.transferTo != Some(target) || w.slot.call.transferBy != Some(MarkOf(op).value.2)
    ensures Invariant(Handed(w, op, LetGo({target}), w.claimed))
  {
    hide NotStranded, TransfersBacked, ClaimsAnswered, RenewalsFit, TimelineTells, RingFits, WellFormed, HoldsOn;
    assert w.slot.Live? ==> OpFits(op, w.slot.call, w.marks);
    assert forall user | Owes(op, user) :: user == target;
    LettingGoKeeps(w, op, {target}, w.claimed);
  }

  /** The teammate's ring is recorded: the call tracks it from here on. */
  lemma TransferRings(w: World, c: Call, op: Op)
    requires Invariant(w) && w.slot == Live(c) && op in w.ops && !c.ending
    requires op.TransferRecord? && op.leg.party == Agent(op.target)
    ensures Invariant(Handed(Write(w, c, LegsRegistered(c, {op.leg}).0), op, LetGo({}), w.claimed))
  {
    hide NotStranded, TransfersBacked, ClaimsAnswered, RenewalsFit, TimelineTells, RingFits, WellFormed, Grows, Write;
    hide LegsRegistered, OccupantsOf, Tended;
    assert OpFits(op, c, w.marks);
    RegisteredGrows(c, {op.leg});
    assert op.target in OwnersOf({op.leg});
    WritingKeeps(w, c, LegsRegistered(c, {op.leg}).0);
    WrittenAndDoneKeeps(w, c, LegsRegistered(c, {op.leg}).0, op, {});
  }

  lemma TransferStepKeeps(w: World, op: Op, answer: Answer)
    requires Invariant(w) && op in w.ops && MarkOf(op).Some?
    ensures Invariant(TransferStep(w, op, w.ops - multiset{op}, answer))
  {
    hide Invariant, Write, LegsRegistered;
    var target := op.target;
    TransferFails(w, op, target);
    var (mark, _, starter) := MarkOf(op).value;
    match op
    case TransferOffer(_, _, _) =>
      TransferGoesOn(w, op, TransferHold(mark, target, starter), w.claimed + {target});
    case TransferHold(_, _, _) =>
      TransferGoesOn(w, op, TransferRing(mark, target, starter), w.claimed);
    case TransferRing(_, _, _) =>
      TransferGoesOn(w, op, TransferDial(mark, target, starter), w.claimed);
      if w.slot.Live? && (w.slot.call.transferTo != Some(target) || w.slot.call.transferBy != Some(starter)) {
        TransferIsOver(w, op, target);
      }
    case TransferDial(_, _, _) =>
      if answer.leg.party == Agent(target) {
        TransferGoesOn(w, op, TransferRecord(mark, target, starter, answer.leg), w.claimed);
      }
    case TransferRecord(_, _, _, leg) =>
      TransferRecordStepKeeps(w, op, answer);
  }

  lemma TransferRecordStepKeeps(w: World, op: Op, answer: Answer)
    requires Invariant(w) && op in w.ops && op.TransferRecord?
    ensures Invariant(TransferStep(w, op, w.ops - multiset{op}, answer))
  {
    hide Invariant, Write;
    if w.slot.Live? {
      RecordedLegIsTheTargets(w, op);
    }
    if w.slot.Live? && !w.slot.call.ending {
      var c := w.slot.call;
      TransferRings(w, c, op);
      HandingCommutesWithWriting(w, c, LegsRegistered(c, {op.leg}).0, op, multiset{});
      assert w.ops - multiset{op} + multiset{} == w.ops - multiset{op};
    } else {
      TransferLeavesNoRing(w, op);
    }
  }

  lemma RecordedLegIsTheTargets(w: World, op: Op)
    requires Invariant(w) && op in w.ops && op.TransferRecord? && w.slot.Live?
    ensures op.leg.party == Agent(op.target)
  {
    assert OpFits(op, w.slot.call, w.marks);
  }

  /** The call is gone or ending when the teammate's ring would be recorded. */
  lemma TransferLeavesNoRing(w: World, op: Op)
    requires Invariant(w) && op in w.ops && op.TransferRecord?
    requires !w.slot.Live? || w.slot.call.ending
    ensures Invariant(w.(ops := w.ops - multiset{op} + multiset{Release({op.target})}))
  {
    hide NotStranded, TransfersBacked, ClaimsAnswered, RenewalsFit, TimelineTells, RingFits, HoldsOn;
    assert w.slot.Live? ==> OpFits(op, w.slot.call, w.marks);
    LettingGoKeeps(w, op, {op.target}, w.claimed);
    assert LetGo({op.target}) == multiset{Release({op.target})};
  }

  /** An operation that finds the call gone is done. */
  lemma DroppingKeeps(w: World, op: Op)
    requires Invariant(w) && op in w.ops && !w.slot.Live? && forall user :: !Owes(op, user)
    ensures Invariant(w.(ops := w.ops - multiset{op}))
  {
    hide Invariant;
    LettingGoKeeps(w, op, {}, w.claimed);
    assert w.(ops := w.ops - multiset{op}) == Handed(w, op, LetGo({}), w.claimed);
  }

  /** Whichever operation takes its next step, the whole invariant is kept. */
  lemma PerformKeeps(w: World, op: Op, answer: Answer)
    requires Invariant(w) && op in w.ops
    ensures Invariant(Performed(w, op, answer))
  {
    hide Invariant, Commit, TransferStep, RecordedAll, AnswerChange, RouteChange, EndRequestChange, FailChange, Removal;
    if w.slot.Live? {
      var c := w.slot.call;
      match op
      case AnswerWithVoicemail => AnswerStepKeeps(w, c);
      case RouteToVoicemail => RouteStepKeeps(w, c);
      case EndCall => EndCallStepKeeps(w, c);
      case Finalize => FinalizeStepKeeps(w, c);
      case FailTransfer(target) => FailStepKeeps(w, c, target);
      case _ => OtherPerformKeeps(w, op, answer);
    } else {
      match op
      case AnswerWithVoicemail => DroppingKeeps(w, op);
      case RouteToVoicemail => DroppingKeeps(w, op);
      case EndCall => DroppingKeeps(w, op);
      case Finalize => DroppingKeeps(w, op);
      case FailTransfer(_) => DroppingKeeps(w, op);
      case _ => OtherPerformKeeps(w, op, answer);
    }
  }

  lemma OtherPerformKeeps(w: World, op: Op, answer: Answer)
    requires Invariant(w) && op in w.ops
    requires !op.AnswerWithVoicemail? && !op.RouteToVoicemail? && !op.EndCall? && !op.Finalize? && !op.FailTransfer?
    ensures Invariant(Performed(w, op, answer))
  {
    hide Invariant, Performed;
    match op
    case Occupy(_, _) => OccupyStepKeeps(w, op, answer);
    case Create(_, _) => CreateStepKeeps(w, op, answer);
    case DialExternal => DialExternalStepKeeps(w, op, answer);
    case RecordExternal(_) => RecordExternalStepKeeps(w, op, answer);
    case DialFailed => DialFailedStepKeeps(w, op, answer);
    case OfferAll(_) => OfferAllStepKeeps(w, op, answer);
    case DialAll(_) => DialAllStepKeeps(w, op, answer);
    case RecordAll(_, _) => RecordAllStepKeeps(w, op, answer);
    case Release(_) => ReleaseStepKeeps(w, op, answer);
    case RenewClaims(_) => RenewClaimsStepKeeps(w, op, answer);
    case CheckRenewal(_) => CheckRenewalStepKeeps(w, op, answer);
    case _ =>
      TransferStepKeeps(w, op, answer);
      TransferIsPerformed(w, op, answer);
  }

  lemma TransferIsPerformed(w: World, op: Op, answer: Answer)
    requires op in w.ops && MarkOf(op).Some?
    ensures Performed(w, op, answer) == TransferStep(w, op, w.ops - multiset{op}, answer)
  {
  }
}
