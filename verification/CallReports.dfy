/** Reports about legs, requests and holds: every step that changes the call without consuming an operation. */
module CallReports {
  import opened Options
  import opened CallState
  import opened CallControl
  import opened CallDecisions
  import opened CallWorld
  import opened CallInvariants
  import opened CallChanges
  import opened CallCommits
  import opened CallSteps

  /** A sound and calm change that consumes nothing keeps the whole invariant. */
  lemma FreeCommitKeeps(w: World, c: Call, change: Change)
    requires Invariant(w) && w.slot == Live(c) && Sound(c, change, w.marks + 1)
    requires change.draft.Some? ==> Calm(c, change.draft.value, change, w.ops)
    ensures Invariant(Commit(w, c, w.ops, change))
  {
    CommitKeepsRing(w, c, w.ops, change);
    CommitKeeps(w, c, w.ops, change);
  }

  lemma JoinIsCalm(c: Call, leg: Leg, ops: multiset<Op>)
    ensures Calm(c, JoinChange(c, leg).draft.value, JoinChange(c, leg), ops)
  {
    var change := JoinChange(c, leg);
    assert change.follow == multiset{} && change.ring == multiset{};
  }

  lemma JoinStepKeeps(w: World, c: Call, leg: Leg)
    requires Invariant(w) && w.slot == Live(c)
    ensures Invariant(Commit(w, c, w.ops, JoinChange(c, leg)))
  {
    hide Sound, Calm, Commit, JoinChange;
    JoinIsSound(c, leg, w.marks + 1);
    JoinIsCalm(c, leg, w.ops);
    FreeCommitKeeps(w, c, JoinChange(c, leg));
  }

  lemma HoldStepKeeps(w: World, c: Call, held: bool)
    requires Invariant(w) && w.slot == Live(c)
    ensures Invariant(Commit(w, c, w.ops, HoldChange(c, held)))
  {
    HoldIsSound(c, held, w.marks + 1);
    FreeCommitKeeps(w, c, HoldChange(c, held));
  }

  lemma MarkIsCalm(c: Call, request: Request, target: UserId, mark: nat, ops: multiset<Op>)
    ensures var change := MarkChange(c, request, target, mark); Calm(c, change.draft.value, change, ops)
  {
  }

  lemma MarkStepKeeps(w: World, c: Call, request: Request, target: UserId)
    requires Invariant(w) && w.slot == Live(c)
    ensures Invariant(Commit(w, c, w.ops, MarkChange(c, request, target, w.marks + 1)))
  {
    hide Sound, Calm, Commit, MarkChange;
    MarkIsSound(c, request, target, w.marks + 1);
    MarkIsCalm(c, request, target, w.marks + 1, w.ops);
    FreeCommitKeeps(w, c, MarkChange(c, request, target, w.marks + 1));
  }

  /** At most one tracked leg: without one of its legs the call has the same legs or none. */
  lemma FewLegs(legs: map<Leg, UserId>, leg: Leg)
    requires |legs| <= 1
    ensures legs - {leg} == legs || legs - {leg} == map[]
  {
    var left := legs - {leg};
    if leg !in legs {
      assert left == legs;
    } else {
      assert legs.Keys == left.Keys + {leg};
      assert |left.Keys| == 0;
    }
  }

  lemma LegEndTouchesLittle(c: Call, leg: Leg)
    ensures var (after, plan) := LegEnded(c, leg);
      after.Some? ==>
        && (plan.RingNext? || after.value.queueIndex == c.queueIndex)
        && after.value.voicemail == c.voicemail
        && (after.value.agentLegs == c.agentLegs || after.value.agentLegs == c.agentLegs - {leg})
        && (after.value.externalLeg == c.externalLeg || after.value.externalLeg == Without(c.externalLeg, leg))
  {
    hide LegsOf, HasActiveLegs, RingsUser, Without;
  }

  /** What the end of a leg can change of a ring. */
  lemma EndTouchesLittle(c: Call, leg: Leg)
    requires EndChange(c, leg).draft.Some? && !LegEnded(c, leg).1.RingNext?
    ensures var n := EndChange(c, leg).draft.value;
      && n.queueIndex == c.queueIndex
      && n.voicemail == c.voicemail
      && (n.agentLegs == c.agentLegs || n.agentLegs == c.agentLegs - {leg})
      && (n.externalLeg == c.externalLeg || n.externalLeg == Without(c.externalLeg, leg))
      && EndChange(c, leg).ring == multiset{}
  {
    hide LegEnded, Without;
    LegEndTouchesLittle(c, leg);
  }

  /** The end of a leg sends nobody to voicemail while a fixed-order ring goes on. */
  lemma EndFollowsUp(c: Call, leg: Leg)
    requires LegsFit(c) && c.strategy.FixedOrder? && !c.answered && c.externalLeg.None?
    ensures AnswerWithVoicemail !in EndChange(c, leg).follow && RouteToVoicemail !in EndChange(c, leg).follow
  {
    assert leg.party.External? ==> leg !in LegsOf(c);
  }

  lemma EndIsCalm(w: World, c: Call, leg: Leg)
    requires w.slot == Live(c) && WellFormed(c) && RingFits(w)
    requires !LegEnded(c, leg).1.RingNext? && EndChange(c, leg).draft.Some?
    ensures Calm(c, EndChange(c, leg).draft.value, EndChange(c, leg), w.ops)
  {
    hide EndChange, LegEnded;
    EndTouchesLittle(c, leg);
    EndIsSound(c, leg, 0);
    if c.strategy.FixedOrder? && !c.answered {
      FewLegs(c.agentLegs, leg);
      EndFollowsUp(c, leg);
    }
  }

  /** When the next user is to be rung, the one ring that was out has stopped. */
  lemma RingNextMeans(c: Call, leg: Leg)
    requires WellFormed(c) && LegEnded(c, leg).1.RingNext?
    ensures c.strategy.FixedOrder? && c.direction.Inbound? && !c.answered && !c.ending && leg in c.agentLegs
    ensures EndChange(c, leg) ==
              Change(Some(RemoveLeg(c, leg).(queueIndex := c.queueIndex + 1)), multiset{}, multiset{RingStart(InConference)}, [])
  {
  }

  lemma RemovesTheRing(c: Call, leg: Leg)
    ensures var left := RemoveLeg(c, leg);
      && left.agentLegs == c.agentLegs - {leg} && left.queue == c.queue && left.queueIndex == c.queueIndex
      && left.direction == c.direction && left.strategy == c.strategy && left.version == c.version
      && left.answered == c.answered && left.ending == c.ending && left.voicemail == c.voicemail
      && (c.externalLeg.None? ==> left.externalLeg.None?)
  {
  }

  /** The one ring that was out is gone: the next one starts where the queue has not been tried yet. */
  lemma RingNextKeepsRing(w: World, c: Call, leg: Leg)
    requires w.slot == Live(c) && WellFormed(c) && RingFits(w)
    requires LegEnded(c, leg).1.RingNext?
    ensures RingFits(Commit(w, c, w.ops, EndChange(c, leg)))
  {
    hide EndChange, LegEnded, WellFormed, UsersLetGo, RemoveLeg;
    RingNextMeans(c, leg);
    RemovesTheRing(c, leg);
    var n := RemoveLeg(c, leg).(queueIndex := c.queueIndex + 1);
    var after := Commit(w, c, w.ops, EndChange(c, leg));
    FewLegs(c.agentLegs, leg);
    assert w.ringing == multiset{};
    assert after.ringing == multiset{RingStart(InConference)};
    assert RingFitsCall(n, after.ringing, after.ops, w.turns) by {
      assert AnswerWithVoicemail in after.ops ==> AnswerWithVoicemail in w.ops;
      assert RouteToVoicemail in after.ops ==> RouteToVoicemail in w.ops;
    }
    StoredKeepsRing(c, n, after.ringing, after.ops, w.turns);
  }

  lemma EndStepKeeps(w: World, c: Call, leg: Leg)
    requires Invariant(w) && w.slot == Live(c)
    ensures Invariant(Commit(w, c, w.ops, EndChange(c, leg)))
  {
    hide Sound, Calm, Commit, EndChange, LegEnded;
    var change := EndChange(c, leg);
    EndIsSound(c, leg, w.marks + 1);
    if LegEnded(c, leg).1.RingNext? {
      RingNextKeepsRing(w, c, leg);
      CommitKeeps(w, c, w.ops, change);
    } else {
      if change.draft.Some? {
        EndIsCalm(w, c, leg);
      }
      FreeCommitKeeps(w, c, change);
    }
  }

  lemma ConferenceStepKeeps(w: World, c: Call, conference: nat)
    requires Invariant(w) && w.slot == Live(c)
    ensures Invariant(Write(w, c, ConferenceNoted(c, conference)))
  {
    ConferenceGrows(c, conference);
    WritingKeeps(w, c, ConferenceNoted(c, conference));
  }

  lemma ExpiryKeeps(w: World, user: UserId)
    requires Invariant(w)
    ensures Invariant(Next(w, ClaimRunsOut(user)))
  {
    assert forall other <- w.claimed - {user} :: Answered(w.slot, w.ops, w.ringing, other);
  }

  lemma DeclineKeeps(w: World, c: Call, user: UserId)
    requires Invariant(w) && w.slot == Live(c)
    ensures Invariant(Declined(w, c, user))
  {
    hide Invariant;
    if c.transferTo == Some(user) {
      SpawningKeeps(w, FailTransfer(user));
    } else {
      SpawningKeeps(w, Release({user}));
    }
  }

  /** Whatever arrives from outside, in whatever order, keeps the whole invariant. */
  lemma ReportKeeps(w: World, step: Step)
    requires Invariant(w) && !step.Perform? && !step.Ring?
    ensures Invariant(Next(w, step))
  {
    hide Invariant, Commit, Write, Declined, JoinChange, EndChange, HoldChange, MarkChange, ConferenceNoted;
    if w.slot.Live? {
      var c := w.slot.call;
      match step
      case ReportJoined(leg) => JoinStepKeeps(w, c, leg);
      case ReportEnded(leg) => EndStepKeeps(w, c, leg);
      case ReportConference(conference) => ConferenceStepKeeps(w, c, conference);
      case RequestEnd => SpawningKeeps(w, EndCall);
      case HoldAnswered(held) => HoldStepKeeps(w, c, held);
      case RequestTransfer(request, target) => MarkStepKeeps(w, c, request, target);
      case RequestCancel(request) => if c.transferTo.Some? { SpawningKeeps(w, FailTransfer(c.transferTo.value)); }
      case Decline(user) => DeclineKeeps(w, c, user);
      case VoicemailLeft => SpawningKeeps(w, Finalize);
      case StartRenewal => SpawningKeeps(w, RenewClaims(c));
      case ClaimRunsOut(user) => ExpiryKeeps(w, user);
    } else {
      match step
      case RequestEnd => SpawningKeeps(w, EndCall);
      case VoicemailLeft => SpawningKeeps(w, Finalize);
      case ClaimRunsOut(user) => ExpiryKeeps(w, user);
      case _ =>
    }
  }
}
