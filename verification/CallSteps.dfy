/**
  The steps that write nothing, and the writes that only add: an operation
  hands what it owes to the next, or is done with it.
 */
module CallSteps {
  import opened Options
  import opened CallState
  import opened CallDecisions
  import opened CallWorld
  import opened CallInvariants
  import opened CallChanges
  import opened CallCommits

  // One operation makes way for others -----------------------------------------------------

  /** An operation done with its step: others take its place, and some users are claimed or let go. */
  function Handed(w: World, op: Op, more: multiset<Op>, claimed: set<UserId>): World {
    w.(ops := w.ops - multiset{op} + more, claimed := claimed)
  }

  lemma OthersRemain(ops: multiset<Op>, op: Op)
    ensures var rest := ops - multiset{op};
      && rest <= ops
      && (Owed(ops) ==> Owed(rest) || Closes(op))
      && (BeingSetUp(ops) ==> BeingSetUp(rest) || SetsUp(op))
      && (forall target, mark :: SettlementOwed(ops, target, mark) ==>
            SettlementOwed(rest, target, mark) || Settles(op, target, mark))
      && (forall user :: ReleaseOwed(ops, user) ==> ReleaseOwed(rest, user) || Owes(op, user))
  {
    var rest := ops - multiset{op};
    assert forall other :: other in ops && other != op ==> other in rest;
  }

  /** What an operation owed the other party is handed on, or no longer needed. */
  ghost predicate HandsOnCare(w: World, op: Op, more: multiset<Op>) {
    w.slot.Live? && !Tended(w.slot.call) ==>
      && (Closes(op) ==> Owed(more))
      && (SetsUp(op) && !w.slot.call.answered ==> Owed(more) || BeingSetUp(more))
  }

  /** What an operation owed a pending transfer is handed on, unless its target is rung by now. */
  ghost predicate HandsOnTransfer(w: World, op: Op, more: multiset<Op>) {
    w.slot.Live? && w.slot.call.transferTo.Some? && Settles(op, w.slot.call.transferTo.value, w.marks) ==>
      || SettlementOwed(more, w.slot.call.transferTo.value, w.marks)
      || RingsUser(w.slot.call, w.slot.call.transferTo.value)
  }

  /** The claims an operation answered for, and those it takes, are answered for still. */
  ghost predicate HandsOnClaims(w: World, op: Op, more: multiset<Op>, claimed: set<UserId>) {
    forall user <- claimed ::
      (user !in w.claimed || Owes(op, user)) ==>
        ReleaseOwed(more, user) || (w.slot.Live? && user in HoldsOn(w.slot.call))
  }

  /** The operations that take over fit the call. */
  ghost predicate HandsOverToFitting(w: World, op: Op, more: multiset<Op>) {
    && (w.slot.Live? ==> forall next <- more :: OpFits(next, w.slot.call, w.marks))
    && (w.slot.Unborn? ==> forall next <- more :: next.Occupy? || next.Create? || next.Release?)
    && (forall next <- more | next.RenewClaims? || next.CheckRenewal? ::
          op == RenewClaims(next.seen) && !w.slot.Unborn?)
    && (w.slot.Live? && w.slot.call.strategy.FixedOrder? && !w.slot.call.answered && !w.slot.call.ending ==>
          AnswerWithVoicemail !in more && RouteToVoicemail !in more)
  }

  lemma HandingKeepsCare(w: World, op: Op, more: multiset<Op>, claimed: set<UserId>)
    requires NotStranded(w) && HandsOnCare(w, op, more)
    ensures NotStranded(Handed(w, op, more, claimed))
  {
    var rest := w.ops - multiset{op};
    OthersRemain(w.ops, op);
    MoreIsOwed(rest, rest + more);
    MoreIsOwed(more, rest + more);
  }

  lemma HandingKeepsBacking(w: World, op: Op, more: multiset<Op>, claimed: set<UserId>)
    requires TransfersBacked(w) && HandsOnTransfer(w, op, more)
    ensures TransfersBacked(Handed(w, op, more, claimed))
  {
    var rest := w.ops - multiset{op};
    OthersRemain(w.ops, op);
    MoreIsOwed(rest, rest + more);
    MoreIsOwed(more, rest + more);
  }

  lemma HandingKeepsClaims(w: World, op: Op, more: multiset<Op>, claimed: set<UserId>)
    requires ClaimsAnswered(w) && HandsOnClaims(w, op, more, claimed)
    ensures ClaimsAnswered(Handed(w, op, more, claimed))
  {
    var rest := w.ops - multiset{op};
    OthersRemain(w.ops, op);
    MoreIsOwed(rest, rest + more);
    MoreIsOwed(more, rest + more);
    forall user <- claimed ensures Answered(w.slot, rest + more, w.ringing, user) {
      if user in w.claimed && !Owes(op, user) {
        assert Answered(w.slot, w.ops, w.ringing, user);
      }
    }
  }

  lemma HandingKeepsTheRest(w: World, op: Op, more: multiset<Op>, claimed: set<UserId>)
    requires op in w.ops
    requires OpsFit(w) && RenewalsFit(w.slot, w.ops) && TimelineTells(w) && RingFits(w)
    requires HandsOverToFitting(w, op, more)
    ensures var after := Handed(w, op, more, claimed);
      OpsFit(after) && RenewalsFit(after.slot, after.ops) && TimelineTells(after) && RingFits(after)
  {
    var after := Handed(w, op, more, claimed);
    assert forall next <- after.ops :: next in w.ops || next in more;
    assert OpsFit(after);
    assert RenewalsFit(after.slot, after.ops);
  }

  /** An operation that hands on what it owes keeps the whole invariant. */
  lemma HandingKeeps(w: World, op: Op, more: multiset<Op>, claimed: set<UserId>)
    requires Invariant(w) && op in w.ops
    requires HandsOnCare(w, op, more) && HandsOnTransfer(w, op, more)
    requires HandsOnClaims(w, op, more, claimed) && HandsOverToFitting(w, op, more)
    ensures Invariant(Handed(w, op, more, claimed))
  {
    HandingKeepsCare(w, op, more, claimed);
    HandingKeepsBacking(w, op, more, claimed);
    HandingKeepsClaims(w, op, more, claimed);
    HandingKeepsTheRest(w, op, more, claimed);
  }

  // One operation more ------------------------------------------------------------------------

  /** An operation anybody may start at any time. */
  lemma SpawningKeeps(w: World, op: Op)
    requires Invariant(w)
    requires w.slot.Live? ==> OpFits(op, w.slot.call, w.marks)
    requires w.slot.Unborn? ==> op.EndCall? || op.Finalize?
    requires !op.AnswerWithVoicemail? && !op.RouteToVoicemail? && !op.CheckRenewal?
    requires op.RenewClaims? ==> w.slot == Live(op.seen)
    ensures Invariant(Spawn(w, op))
  {
    hide WellFormed, OccupantsOf, HoldsOn, Tended, RingsUser;
    var after := Spawn(w, op);
    MoreIsOwed(w.ops, after.ops);
    assert forall other <- after.ops :: other in w.ops || other == op;
    assert OpsFit(after);
    assert NotStranded(after);
    assert TransfersBacked(after);
    forall user <- after.claimed ensures Answered(after.slot, after.ops, after.ringing, user) {
      assert Answered(w.slot, w.ops, w.ringing, user);
    }
    assert RenewalsFit(after.slot, after.ops);
    assert RingFits(after);
  }

  // A write that only adds -----------------------------------------------------------------

  lemma WritingKeepsForm(w: World, c: Call, n: Call)
    requires w.slot == Live(c) && Grows(c, n)
    requires OpsFit(w) && RenewalsFit(w.slot, w.ops) && TimelineTells(w)
    ensures var after := Write(w, c, n);
      && WellFormed(after.slot.call)
      && OpsFit(after)
      && RenewalsFit(after.slot, after.ops)
      && TimelineTells(after)
  {
    hide WellFormed, OccupantsOf, HoldsOn, Tended;
    StoredIsWellFormed(c, n);
    forall op <- w.ops ensures OpFits(op, Stored(c, n), w.marks) {
      assert OpFits(op, c, w.marks);
      OpFitsStored(op, c, n, w.marks);
    }
  }

  lemma WritingKeepsDuties(w: World, c: Call, n: Call)
    requires w.slot == Live(c) && Grows(c, n)
    requires NotStranded(w) && TransfersBacked(w) && ClaimsAnswered(w)
    ensures var after := Write(w, c, n);
      NotStranded(after) && TransfersBacked(after) && ClaimsAnswered(after)
  {
    StoredIsWellFormed(c, n);
    var after := Write(w, c, n);
    forall user <- after.claimed ensures Answered(after.slot, after.ops, after.ringing, user) {
      assert Answered(w.slot, w.ops, w.ringing, user);
    }
  }

  lemma RingKeepsFitting(c: Call, n: Call, w: World)
    requires Grows(c, n) && RingFitsCall(c, w.ringing, w.ops, w.turns)
    requires c.strategy.FixedOrder? && !c.answered ==> n.agentLegs == c.agentLegs && n.externalLeg == c.externalLeg
    ensures RingFitsCall(n, w.ringing, w.ops, w.turns)
  {
  }

  /** A write that adds nothing to a ring under way keeps the whole invariant. */
  lemma WritingKeeps(w: World, c: Call, n: Call)
    requires Invariant(w) && w.slot == Live(c) && Grows(c, n)
    requires c.strategy.FixedOrder? && !c.answered ==> n.agentLegs == c.agentLegs && n.externalLeg == c.externalLeg
    ensures Invariant(Write(w, c, n))
  {
    WritingKeepsForm(w, c, n);
    WritingKeepsDuties(w, c, n);
    RingKeepsFitting(c, n, w);
    StoredKeepsRing(c, n, w.ringing, w.ops, w.turns);
  }
}
