/**
  Where the legs of a call come from and how they go: a leg is tracked only
  from a join or a recorded dial, its end takes effect only while it is, and
  a call that is ending loses its legs in any order until it is gone.
 */
module CallLegs {
  import opened Options
  import opened CallState
  import opened CallControl
  import opened CallDecisions
  import opened CallWorld
  import opened CallInvariants
  import opened CallTheorems

  /** The legs a step may bring into a live call. */
  function BroughtBy(w: World, step: Step): set<Leg> {
    match step
    case ReportJoined(leg) => {leg}
    case Perform(op, _) =>
      if op !in w.ops then {}
      else (match op
            case RecordExternal(leg) => {leg}
            case RecordAll(_, legs) => legs
            case TransferRecord(_, _, _, leg) => {leg}
            case _ => {})
    case Ring(task, _) => if task in w.ringing && task.RingRecord? then {task.leg} else {}
    case _ => {}
  }

  /** From one live call to the next, no leg appears but those a step brings; an ending call takes none but joins. */
  ghost predicate LegsAccounted(c: Call, n: Call, brought: set<Leg>, joining: bool) {
    && LegsOf(n) <= LegsOf(c) + brought
    && (c.ending ==> n.ending && (!joining ==> LegsOf(n) <= LegsOf(c)))
  }

  lemma AgentJoinAccounts(c: Call, user: UserId, leg: Leg)
    ensures LegsAccounted(c, AgentJoined(c, user, leg).0, {leg}, true)
  {
    var n := AgentJoined(c, user, leg).0;
    assert n.callerLeg == c.callerLeg && n.externalLeg == c.externalLeg && n.ending == c.ending;
    assert n.agentLegs == c.agentLegs && n.pending <= c.pending;
    assert n.agentLeg == c.agentLeg || n.agentLeg == Some(leg);
  }

  lemma JoinAccounts(c: Call, leg: Leg)
    ensures LegsAccounted(c, JoinChange(c, leg).draft.value, {leg}, true)
  {
    hide AgentJoined;
    match leg.party
    case Agent(user) => AgentJoinAccounts(c, user, leg);
    case _ =>
  }

  /** The end of a leg takes that leg out of the call, and no other leg that stays tracked. */
  lemma EndAccounts(c: Call, leg: Leg)
    ensures EndChange(c, leg).draft.Some? ==>
              var n := EndChange(c, leg).draft.value;
              LegsOf(n) == LegsOf(c) - {leg} && (c.ending ==> n.ending)
  {
    var after := LegEnded(c, leg).0;
    EndRemovesOrNothing(c, leg);
    hide LegEnded;
    if after.Some? && leg in LegsOf(c) {
      RemoveLegForgetsExactlyOne(c, leg);
      var left := RemoveLeg(c, leg);
      assert LegsOf(after.value) == LegsOf(left);
    }
  }

  lemma EndRemovesOrNothing(c: Call, leg: Leg)
    ensures var after, left := LegEnded(c, leg).0, RemoveLeg(c, leg);
      after.Some? ==>
        if leg in LegsOf(c) then after.value == left || after.value == left.(queueIndex := left.queueIndex + 1)
        else after.value == c
  {
    hide RemoveLeg;
  }

  lemma ClosingAccounts(c: Call)
    ensures LegsAccounted(c, EndRequestChange(c).draft.value, {}, false)
    ensures LegsAccounted(c, AnswerChange(c).draft.value, {}, false)
    ensures LegsAccounted(c, RouteChange(c).draft.value, {}, false)
  {
  }

  lemma HoldAccounts(c: Call, held: bool)
    ensures LegsAccounted(c, HoldChange(c, held).draft.value, {}, false)
  {
  }

  lemma TransferAccounts(c: Call, request: Request, target: UserId, mark: nat)
    ensures LegsAccounted(c, MarkChange(c, request, target, mark).draft.value, {}, false)
    ensures LegsAccounted(c, FailChange(c, target).draft.value, {}, false)
  {
  }

  lemma StoredAccounts(c: Call, n: Call, brought: set<Leg>, joining: bool)
    requires n.version == c.version && LegsAccounted(c, n, brought, joining)
    ensures LegsAccounted(c, Stored(c, n), brought, joining)
  {
    assert LegsOf(Stored(c, n)) == LegsOf(n);
  }

  lemma RegisteredAccounts(c: Call, legs: set<Leg>)
    requires forall other <- legs :: other.party.Agent?
    ensures LegsAccounted(c, Stored(c, LegsRegistered(c, legs).0), legs, false)
  {
    StoredAccounts(c, LegsRegistered(c, legs).0, legs, false);
  }

  lemma ExternalAccounts(c: Call, leg: Leg)
    ensures LegsAccounted(c, Stored(c, ExternalRecorded(c, leg).0), {leg}, false)
  {
    StoredAccounts(c, ExternalRecorded(c, leg).0, {leg}, false);
  }

  lemma ConferenceAccounts(c: Call, conference: nat)
    ensures LegsAccounted(c, Stored(c, ConferenceNoted(c, conference)), {}, false)
  {
    StoredAccounts(c, ConferenceNoted(c, conference), {}, false);
  }

  lemma TurnAccounts(c: Call, index: nat)
    ensures LegsAccounted(c, TurnTaken(c, index).0, {}, false)
  {
  }

  /** What a change accounts for, its commit does. */
  lemma CommitAccounts(w: World, c: Call, rest: multiset<Op>, change: Change, brought: set<Leg>, joining: bool)
    requires change.draft.Some? ==>
               change.draft.value.version == c.version && LegsAccounted(c, change.draft.value, brought, joining)
    ensures var after := Commit(w, c, rest, change).slot;
      if change.draft.Some? then after.Live? && LegsAccounted(c, after.call, brought, joining) else after.Gone?
  {
    hide LegsAccounted, UsersLetGo;
    if change.draft.Some? {
      StoredAccounts(c, change.draft.value, brought, joining);
    }
  }

  ghost predicate SlotAccounted(c: Call, after: Slot, brought: set<Leg>, joining: bool) {
    !after.Unborn? && (after.Live? ==> LegsAccounted(c, after.call, brought, joining))
  }

  lemma PerformAccounts(w: World, c: Call, op: Op, answer: Answer)
    requires w.slot == Live(c) && op in w.ops
    ensures SlotAccounted(c, Performed(w, op, answer).slot, BroughtBy(w, Perform(op, answer)), false)
  {
    hide Commit, LegsAccounted, AnswerChange, RouteChange, EndRequestChange, FailChange, TransferStep, RecordedAll;
    var rest := w.ops - multiset{op};
    match op
    case AnswerWithVoicemail =>
      ClosingAccounts(c);
      CommitAccounts(w, c, rest, AnswerChange(c), {}, false);
    case RouteToVoicemail =>
      ClosingAccounts(c);
      CommitAccounts(w, c, rest, RouteChange(c), {}, false);
    case EndCall =>
      ClosingAccounts(c);
      CommitAccounts(w, c, rest, EndRequestChange(c), {}, false);
    case FailTransfer(target) =>
      TransferAccounts(c, Request(0, Leg(0, Caller)), target, 0);
      CommitAccounts(w, c, rest, FailChange(c, target), {}, false);
    case Finalize =>
      CommitAccounts(w, c, rest, Removal([]), {}, false);
    case _ => OtherPerformsAccount(w, c, op, answer);
  }

  lemma OtherPerformsAccount(w: World, c: Call, op: Op, answer: Answer)
    requires w.slot == Live(c) && op in w.ops
    requires !op.AnswerWithVoicemail? && !op.RouteToVoicemail? && !op.EndCall? && !op.Finalize? && !op.FailTransfer?
    ensures SlotAccounted(c, Performed(w, op, answer).slot, BroughtBy(w, Perform(op, answer)), false)
  {
    hide LegsAccounted;
    Unchanged(c);
    match op
    case RecordExternal(leg) => ExternalAccounts(c, leg);
    case RecordAll(_, legs) =>
      Wider(c, c, {}, legs);
      if forall leg <- legs :: leg.party.Agent? {
        RegisteredAccounts(c, legs);
      }
    case TransferRecord(_, target, _, leg) =>
      Wider(c, c, {}, {leg});
      if leg.party == Agent(target) {
        RegisteredAccounts(c, {leg});
      }
    case _ =>
  }

  lemma Unchanged(c: Call)
    ensures LegsAccounted(c, c, {}, false)
  {
  }

  lemma Wider(c: Call, n: Call, brought: set<Leg>, more: set<Leg>)
    requires LegsAccounted(c, n, brought, false) && brought <= more
    ensures LegsAccounted(c, n, more, false)
  {
  }

  lemma RingAccounts(w: World, c: Call, task: RingTask, answer: Answer)
    requires w.slot == Live(c) && task in w.ringing
    ensures SlotAccounted(c, RingStep(w, task, answer).slot, BroughtBy(w, Ring(task, answer)), false)
  {
    hide LegsAccounted, Commit;
    Unchanged(c);
    match task
    case RingTurn(fallback, index) =>
      if index < |c.queue| && TurnTaken(c, index).1 {
        TurnAccounts(c, index);
        CommitAccounts(w.(ringing := w.ringing - multiset{task}), c, w.ops,
                       Change(Some(TurnTaken(c, index).0), multiset{}, multiset{RingOffer(fallback, index, c.queue[index])}, []),
                       {}, false);
      }
    case RingRecord(_, _, user, leg) =>
      Wider(c, c, {}, {leg});
      if leg.party == Agent(user) {
        RegisteredAccounts(c, {leg});
      }
    case _ =>
  }

  /** From any live call, whatever the step, no leg appears but those the step brings. */
  lemma StepAccounts(w: World, c: Call, step: Step)
    requires w.slot == Live(c)
    ensures SlotAccounted(c, Next(w, step).slot, BroughtBy(w, step), step.ReportJoined?)
  {
    hide LegsAccounted, Commit, Performed, RingStep, JoinChange, EndChange, HoldChange, MarkChange, ConferenceNoted;
    Unchanged(c);
    match step
    case Perform(op, answer) => if op in w.ops { PerformAccounts(w, c, op, answer); }
    case Ring(task, answer) => if task in w.ringing { RingAccounts(w, c, task, answer); }
    case ReportJoined(leg) =>
      JoinAccounts(c, leg);
      CommitAccounts(w, c, w.ops, JoinChange(c, leg), {leg}, true);
    case ReportEnded(leg) =>
      EndReportAccounts(w, c, leg);
    case ReportConference(conference) => ConferenceAccounts(c, conference);
    case HoldAnswered(held) =>
      HoldAccounts(c, held);
      CommitAccounts(w, c, w.ops, HoldChange(c, held), {}, false);
    case RequestTransfer(request, target) =>
      TransferAccounts(c, request, target, w.marks + 1);
      CommitAccounts(w, c, w.ops, MarkChange(c, request, target, w.marks + 1), {}, false);
    case _ =>
  }

  lemma EndReportAccounts(w: World, c: Call, leg: Leg)
    requires w.slot == Live(c)
    ensures SlotAccounted(c, Commit(w, c, w.ops, EndChange(c, leg)).slot, {}, false)
  {
    EndAccounts(c, leg);
    CommitAccounts(w, c, w.ops, EndChange(c, leg), {}, false);
  }

  // A leg's end takes effect once --------------------------------------------------------------

  /** A report that a leg ended takes effect exactly while the call tracks the leg, and then the leg is tracked no more. */
  lemma EndTakesEffectOnlyWhileTracked(w: World, c: Call, leg: Leg)
    requires w.slot == Live(c)
    ensures var after := Next(w, ReportEnded(leg));
      && (after != w <==> leg in LegsOf(c))
      && (after.slot.Live? ==> leg !in LegsOf(after.slot.call))
  {
    var change := EndChange(c, leg);
    EndAccounts(c, leg);
    if leg !in LegsOf(c) {
      assert change == Quiet(c);
      assert UsersLetGo(c, Some(c)) == {};
      assert Commit(w, c, w.ops, change) == w;
    } else if change.draft.Some? {
      assert LegsOf(Stored(c, change.draft.value)) == LegsOf(change.draft.value);
    }
  }

  /** Over any run that does not bring a leg back, a leg that is not tracked stays so, and reports of its end change nothing. */
  lemma {:induction false} EndsStayIgnored(w: World, steps: seq<Step>, leg: Leg)
    requires !w.slot.Unborn? && (w.slot.Live? ==> leg !in LegsOf(w.slot.call))
    requires forall i | 0 <= i < |steps| :: leg !in BroughtBy(Run(w, steps[..i]), steps[i])
    ensures var after := Run(w, steps);
      && !after.slot.Unborn?
      && (after.slot.Live? ==> leg !in LegsOf(after.slot.call))
      && Next(after, ReportEnded(leg)) == after
    decreases |steps|
  {
    hide Next, BroughtBy, LegsOf;
    if steps != [] {
      var shorter := steps[..|steps| - 1];
      forall i | 0 <= i < |shorter| ensures leg !in BroughtBy(Run(w, shorter[..i]), shorter[i]) {
        assert shorter[..i] == steps[..i];
      }
      EndsStayIgnored(w, shorter, leg);
      StepKeepsItOut(Run(w, shorter), steps[|steps| - 1], leg);
    }
    ReportIsIgnored(Run(w, steps), leg);
  }

  lemma StepKeepsItOut(w: World, step: Step, leg: Leg)
    requires !w.slot.Unborn? && (w.slot.Live? ==> leg !in LegsOf(w.slot.call)) && leg !in BroughtBy(w, step)
    ensures var after := Next(w, step).slot; !after.Unborn? && (after.Live? ==> leg !in LegsOf(after.call))
  {
    if w.slot.Live? {
      hide Next, BroughtBy;
      StepAccounts(w, w.slot.call, step);
    } else {
      GoneStaysGone(w, step);
    }
  }

  lemma GoneStaysGone(w: World, step: Step)
    requires w.slot.Gone?
    ensures Next(w, step).slot.Gone?
  {
  }

  lemma ReportIsIgnored(w: World, leg: Leg)
    requires w.slot.Live? ==> leg !in LegsOf(w.slot.call)
    ensures Next(w, ReportEnded(leg)) == w
  {
    if w.slot.Live? {
      EndTakesEffectOnlyWhileTracked(w, w.slot.call, leg);
    }
  }
}
