/**
  What a write keeps, whatever it decided: a sound change keeps every part of
  the invariant. The lemmas here know nothing of the single changes.
 */
module CallCommits {
  import opened Options
  import opened CallState
  import opened CallDecisions
  import opened CallWorld
  import opened CallInvariants
  import opened CallChanges

  /** A sound change about to be written to the live call of a world, in place of the operations it consumed. */
  ghost predicate AboutToCommit(w: World, c: Call, rest: multiset<Op>, change: Change) {
    && w.slot == Live(c)
    && WellFormed(c)
    && rest <= w.ops
    && Sound(c, change, w.marks + 1)
  }

  lemma StoredIsWellFormed(c: Call, n: Call)
    requires n.version == c.version
    ensures WellFormed(n) <==> WellFormed(Stored(c, n))
    ensures HoldsOn(Stored(c, n)) == HoldsOn(n) && OccupantsOf(Stored(c, n)) == OccupantsOf(n)
  {
    var s := Stored(c, n);
    assert LegsOf(s) == LegsOf(n);
    assert UsersJoined(s) == UsersJoined(n) && UsersRinging(s) == UsersRinging(n);
  }

  lemma CommitKeepsForm(w: World, c: Call, rest: multiset<Op>, change: Change)
    requires AboutToCommit(w, c, rest, change)
    ensures var after := Commit(w, c, rest, change).slot; after.Live? ==> WellFormed(after.call) && after.call.queue == c.queue
  {
    if change.draft.Some? {
      StoredIsWellFormed(c, change.draft.value);
    }
  }

  lemma MoreIsOwed(ops: multiset<Op>, more: multiset<Op>)
    requires ops <= more
    ensures Owed(ops) ==> Owed(more)
    ensures BeingSetUp(ops) ==> BeingSetUp(more)
    ensures forall target, mark :: SettlementOwed(ops, target, mark) ==> SettlementOwed(more, target, mark)
    ensures forall user :: ReleaseOwed(ops, user) ==> ReleaseOwed(more, user)
  {
    assert forall op :: op in ops ==> op in more;
  }

  lemma CommitKeepsCare(w: World, c: Call, rest: multiset<Op>, change: Change)
    requires AboutToCommit(w, c, rest, change)
    requires CaredFor(c, rest, w.ringing) || (change.draft.Some? && Tended(change.draft.value))
    ensures NotStranded(Commit(w, c, rest, change))
  {
    var after := Commit(w, c, rest, change);
    MoreIsOwed(rest, after.ops);
    MoreIsOwed(change.follow, after.ops);
  }

  /** After a change, a pending transfer is the one just marked, the one that was rung, or the one that was owed. */
  lemma ChangeKeepsBacking(c: Call, n: Call, rest: multiset<Op>, change: Change, marks: nat, more: multiset<Op>)
    requires KeepsBacking(c, n, change, marks + 1) && n.transferTo.Some? && !Pulls(c, n)
    requires Backed(c, rest, marks)
    requires rest <= more && change.follow <= more
    ensures Backed(n, more, if Marks(change) then marks + 1 else marks)
  {
    var target := n.transferTo.value;
    if Marks(change) {
      var offer := TransferOffer(marks + 1, target, n.transferBy.value);
      assert offer in change.follow && offer in more;
      assert Settles(offer, target, marks + 1);
    } else if RingsUser(c, target) {
      if !RingsUser(n, target) {
        assert FailTransfer(target) in more && Settles(FailTransfer(target), target, marks);
      }
    } else {
      MoreIsOwed(rest, more);
      assert SettlementOwed(rest, target, marks);
    }
  }

  lemma CommitKeepsBacking(w: World, c: Call, rest: multiset<Op>, change: Change)
    requires AboutToCommit(w, c, rest, change)
    requires c.voicemail || Backed(c, rest, w.marks) || (change.draft.Some? && change.draft.value.transferTo.None?)
    ensures TransfersBacked(Commit(w, c, rest, change))
  {
    hide WellFormed, Tells, KeepsCare, FollowsUp, UsersLetGo, SettlementOwed;
    var after := Commit(w, c, rest, change);
    if change.draft.Some? {
      var n := change.draft.value;
      if n.transferTo.Some? && !n.voicemail {
        ChangeKeepsBacking(c, n, rest, change, w.marks, after.ops);
      }
    }
  }

  lemma CommitKeepsClaims(w: World, c: Call, rest: multiset<Op>, change: Change)
    requires AboutToCommit(w, c, rest, change)
    requires forall user <- w.claimed :: Answered(w.slot, rest, w.ringing, user)
    ensures ClaimsAnswered(Commit(w, c, rest, change))
  {
    var after := Commit(w, c, rest, change);
    MoreIsOwed(rest, after.ops);
    var stored := if after.slot.Live? then Some(after.slot.call) else None;
    if stored.Some? {
      StoredIsWellFormed(c, change.draft.value);
    }
    forall user <- after.claimed ensures Answered(after.slot, after.ops, after.ringing, user) {
      if RingReleaseOwed(w.ringing, user) {
        assert RingReleaseOwed(after.ringing, user);
      } else if !ReleaseOwed(rest, user) && (stored.None? || user !in HoldsOn(stored.value)) {
        NobodyIsForgotten(c, stored, user);
        var release := Release(UsersLetGo(c, stored));
        assert release in after.ops && Owes(release, user);
      }
    }
  }

  lemma CommitKeepsRenewals(w: World, c: Call, rest: multiset<Op>, change: Change)
    requires AboutToCommit(w, c, rest, change)
    requires RenewalsFit(w.slot, w.ops)
    ensures var after := Commit(w, c, rest, change); RenewalsFit(after.slot, after.ops)
  {
    var after := Commit(w, c, rest, change);
    forall op | op in after.ops && (op.RenewClaims? || op.CheckRenewal?)
      ensures after.slot.Live? ==> SeenBefore(op.seen, after.slot.call)
    {
      assert op in rest && op in w.ops;
    }
  }

  /** An operation that fitted the call fits it after a change, which marks a transfer under a new number. */
  lemma OpKeepsFitting(op: Op, c: Call, n: Call, change: Change, marks: nat)
    requires Monotone(c, n) && KeepsBacking(c, n, change, marks + 1)
    requires OpFits(op, c, marks)
    ensures OpFits(op, n, if Marks(change) then marks + 1 else marks)
  {
  }

  lemma OpFitsStored(op: Op, c: Call, n: Call, marks: nat)
    requires n.version == c.version
    ensures OpFits(op, n, marks) == OpFits(op, Stored(c, n), marks)
  {
  }

  lemma ChangeKeepsOps(c: Call, n: Call, rest: multiset<Op>, change: Change, marks: nat, more: multiset<Op>)
    requires Monotone(c, n) && KeepsBacking(c, n, change, marks + 1) && FollowsUp(n, change, marks + 1)
    requires forall op <- rest :: OpFits(op, c, marks)
    requires forall op <- more :: op in rest || op in change.follow || op.Release?
    ensures forall op <- more :: OpFits(op, Stored(c, n), if Marks(change) then marks + 1 else marks)
  {
    forall op <- more ensures OpFits(op, Stored(c, n), if Marks(change) then marks + 1 else marks) {
      OpFitsStored(op, c, n, if Marks(change) then marks + 1 else marks);
      if op in rest {
        OpKeepsFitting(op, c, n, change, marks);
      } else if op in change.follow {
        assert OpFits(op, n, marks + 1);
      }
    }
  }

  lemma CommitKeepsOps(w: World, c: Call, rest: multiset<Op>, change: Change)
    requires AboutToCommit(w, c, rest, change)
    requires OpsFit(w)
    ensures OpsFit(Commit(w, c, rest, change))
  {
    hide WellFormed, Tells, KeepsCare, KeepsBacking, FollowsUp, UsersLetGo, OpFits;
    if change.draft.Some? {
      ChangeKeepsOps(c, change.draft.value, rest, change, w.marks, Commit(w, c, rest, change).ops);
    }
  }

  lemma HearAllTogether(t: Tally, first: seq<Event>, second: seq<Event>)
    ensures HearAll(t, first + second) == HearAll(HearAll(t, first), second)
    decreases |first|
  {
    if first == [] {
      assert first + second == second;
    } else {
      assert (first + second)[1..] == first[1..] + second;
      HearAllTogether(Hear(t, first[0]), first[1..], second);
    }
  }

  lemma CommitKeepsTimeline(w: World, c: Call, rest: multiset<Op>, change: Change)
    requires AboutToCommit(w, c, rest, change)
    requires TimelineTells(w)
    ensures TimelineTells(Commit(w, c, rest, change))
  {
    HearAllTogether(SILENCE, w.timeline, change.events);
    assert Agrees(HearAll(SILENCE, w.timeline), c);
  }

  // Rings ------------------------------------------------------------------------------------

  /** A change that leaves a fixed-order ring where it is, or takes the ring that was out away. */
  ghost predicate Calm(c: Call, n: Call, change: Change, ops: multiset<Op>) {
    && change.ring == multiset{}
    && n.queueIndex == c.queueIndex
    && (c.strategy.FixedOrder? && !n.answered ==>
          && (n.agentLegs == c.agentLegs || n.agentLegs == map[])
          && n.externalLeg == c.externalLeg
          && AnswerWithVoicemail !in change.follow
          && RouteToVoicemail !in change.follow
          && (n.voicemail ==> n.ending || c.voicemail || AnswerWithVoicemail in ops || RouteToVoicemail in ops))
  }

  lemma CalmKeepsRing(c: Call, n: Call, change: Change, w: World, more: multiset<Op>)
    requires Monotone(c, n) && Calm(c, n, change, w.ops)
    requires RingFitsCall(c, w.ringing, w.ops, w.turns)
    requires forall op <- more :: op in w.ops || op in change.follow || op.Release?
    ensures RingFitsCall(n, w.ringing, more, w.turns)
  {
    assert OneRingAtATime(n, w.ringing, w.turns);
    if c.strategy.FixedOrder? && !n.answered && !n.ending {
      assert AnswerWithVoicemail in more ==> AnswerWithVoicemail in w.ops;
      assert RouteToVoicemail in more ==> RouteToVoicemail in w.ops;
    }
  }

  lemma StoredKeepsRing(c: Call, n: Call, ringing: multiset<RingTask>, ops: multiset<Op>, turns: seq<Turn>)
    requires n.version == c.version
    ensures RingFitsCall(Stored(c, n), ringing, ops, turns) == RingFitsCall(n, ringing, ops, turns)
  {
    forall task <- ringing ensures TaskFits(task, Stored(c, n), |turns|) == TaskFits(task, n, |turns|) {
    }
  }

  lemma CommitKeepsRing(w: World, c: Call, rest: multiset<Op>, change: Change)
    requires AboutToCommit(w, c, rest, change)
    requires RingFits(w)
    requires change.draft.Some? ==> Calm(c, change.draft.value, change, w.ops)
    ensures RingFits(Commit(w, c, rest, change))
  {
    var after := Commit(w, c, rest, change);
    if change.draft.Some? {
      var n := change.draft.value;
      assert after.ringing == w.ringing;
      CalmKeepsRing(c, n, change, w, after.ops);
      StoredKeepsRing(c, n, w.ringing, after.ops, w.turns);
    }
  }

  /** A sound change keeps the whole invariant, if what it consumed was not needed or is owed still. */
  lemma CommitKeeps(w: World, c: Call, rest: multiset<Op>, change: Change)
    requires Invariant(w) && AboutToCommit(w, c, rest, change)
    requires CaredFor(c, rest, w.ringing) || (change.draft.Some? && Tended(change.draft.value))
    requires c.voicemail || Backed(c, rest, w.marks) || (change.draft.Some? && change.draft.value.transferTo.None?)
    requires forall user <- w.claimed :: Answered(w.slot, rest, w.ringing, user)
    requires RingFits(Commit(w, c, rest, change))
    ensures Invariant(Commit(w, c, rest, change))
  {
    CommitKeepsForm(w, c, rest, change);
    CommitKeepsOps(w, c, rest, change);
    CommitKeepsCare(w, c, rest, change);
    CommitKeepsBacking(w, c, rest, change);
    CommitKeepsClaims(w, c, rest, change);
    CommitKeepsRenewals(w, c, rest, change);
    CommitKeepsTimeline(w, c, rest, change);
  }
}
