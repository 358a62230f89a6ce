/**
  When a pending transfer has neither a tracked leg of its target nor an
  operation that will settle it (apps/call-controller/src/calls/call-flow.ts):
  exactly after the caller was pulled into voicemail with the ring recorded
  and nothing of the transfer in flight, and until its target is rung again
  or somebody takes it back.
 */
module CallAdrift {
  import opened Options
  import opened CallState
  import opened CallControl
  import opened CallDecisions
  import opened CallWorld
  import opened CallInvariants
  import opened CallChanges
  import opened CallCommits
  import opened CallTheorems
  import opened CallReports
  import opened CallProgress

  /** The transfer to this user is pending in this world. */
  predicate IsPending(w: World, target: UserId) {
    w.slot.Live? && w.slot.call.transferTo == Some(target)
  }

  ghost predicate IsBacked(w: World)
    requires w.slot.Live?
  {
    Backed(w.slot.call, w.ops, w.marks)
  }

  /** The step pulls the caller into voicemail while no operation in flight will settle the pending transfer. */
  ghost predicate CutsLoose(w: World, step: Step, target: UserId) {
    && IsPending(w, target)
    && step.Perform? && step.op.RouteToVoicemail? && step.op in w.ops
    && !StaysOffVoicemail(w.slot.call)
    && !SettlementOwed(w.ops, target, w.marks)
  }

  // What is backed stays so, but for such a pull ----------------------------------------------

  lemma StillBacked(c: Call, ops: multiset<Op>, n: Call, more: multiset<Op>, marks: nat)
    requires Backed(c, ops, marks) && n.transferTo == c.transferTo && ops <= more
    requires c.transferTo.Some? && RingsUser(c, c.transferTo.value) ==> RingsUser(n, c.transferTo.value)
    ensures Backed(n, more, marks)
  {
    MoreIsOwed(ops, more);
  }

  /** A change that marks nothing keeps the number of marks, and a pending transfer backed unless it is a pull. */
  lemma CommitStaysBacked(w: World, c: Call, rest: multiset<Op>, change: Change)
    requires change.draft.Some? && change.draft.value.version == c.version && Sound(c, change, w.marks + 1)
    requires c.transferTo.Some? && change.draft.value.transferTo.Some? && !Marks(change)
    requires !Pulls(c, change.draft.value) && Backed(c, rest, w.marks)
    ensures var after := Commit(w, c, rest, change);
      after.slot.Live? && after.marks == w.marks && Backed(after.slot.call, after.ops, after.marks)
  {
    hide WellFormed, Tells, KeepsCare, FollowsUp, UsersLetGo, SettlementOwed, Pulls;
    var after := Commit(w, c, rest, change);
    ChangeKeepsBacking(c, change.draft.value, rest, change, w.marks, after.ops);
    assert RingsUser(change.draft.value, change.draft.value.transferTo.value)
       ==> RingsUser(after.slot.call, change.draft.value.transferTo.value);
  }

  lemma JoinMarksNothing(c: Call, leg: Leg)
    ensures var change := JoinChange(c, leg); !Marks(change) && change.draft.value.voicemail == c.voicemail
  {
  }

  lemma EndMarksNothing(c: Call, leg: Leg)
    ensures var change := EndChange(c, leg);
      !Marks(change) && (change.draft.Some? ==> change.draft.value.voicemail == c.voicemail)
  {
    hide LegEnded;
    LegEndTouchesLittle(c, leg);
    var change := EndChange(c, leg);
    assert change.events == [] || change.events == [CallEnded];
    assert change.draft == LegEnded(c, leg).0;
  }

  lemma HoldMarksNothing(c: Call, held: bool)
    ensures var change := HoldChange(c, held);
      !Marks(change) && change.draft.value.voicemail == c.voicemail && change.draft.value.transferTo == c.transferTo
  {
  }

  /** Reports of joins, ends and holds: a transfer that is still pending is still backed. */
  lemma ReportStaysBacked(w: World, c: Call, change: Change)
    requires WellFormed(c) && c.transferTo.Some? && Backed(c, w.ops, w.marks)
    requires (exists leg :: change == JoinChange(c, leg)) || (exists leg :: change == EndChange(c, leg))
          || (exists held :: change == HoldChange(c, held))
    ensures change.draft.Some? ==> change.draft.value.version == c.version
    ensures var after := Commit(w, c, w.ops, change);
      && after.marks == w.marks
      && (after.slot.Live? && after.slot.call.transferTo.Some? ==> Backed(after.slot.call, after.ops, after.marks))
  {
    hide WellFormed, Sound, Backed, JoinChange, EndChange, HoldChange;
    if leg :| change == JoinChange(c, leg) {
      JoinMarksNothing(c, leg);
      JoinIsSound(c, leg, w.marks + 1);
    } else if leg :| change == EndChange(c, leg) {
      EndMarksNothing(c, leg);
      EndIsSound(c, leg, w.marks + 1);
    } else {
      var held :| change == HoldChange(c, held);
      HoldMarksNothing(c, held);
      HoldIsSound(c, held, w.marks + 1);
    }
    if change.draft.Some? && change.draft.value.transferTo.Some? {
      CommitStaysBacked(w, c, w.ops, change);
    }
  }

  /** A transfer that is pending refuses another. */
  lemma MarkChangesNothing(w: World, c: Call, request: Request, target: UserId)
    requires w.slot == Live(c) && c.transferTo.Some?
    ensures Next(w, RequestTransfer(request, target)) == w
  {
    assert UsersLetGo(c, Some(c)) == {};
  }

  /** The pull: a transfer that is still pending is backed, or was cut loose. */
  lemma PullStaysBacked(w: World, c: Call, op: Op, target: UserId)
    requires w.slot == Live(c) && c.transferTo == Some(target) && op in w.ops && Backed(c, w.ops, w.marks)
    requires op.RouteToVoicemail?
    ensures var after := Commit(w, c, w.ops - multiset{op}, RouteChange(c));
      && after.slot.Live? && after.marks == w.marks
      && (Backed(after.slot.call, after.ops, after.marks) <==> StaysOffVoicemail(c) || SettlementOwed(w.ops, target, w.marks))
  {
    var rest := w.ops - multiset{op};
    var after := Commit(w, c, rest, RouteChange(c));
    OneLess(w.ops, op, target, w.marks);
    hide UsersLetGo;
    ReleasesSettleNothing(rest, after.ops - rest, target, w.marks);
    assert rest + (after.ops - rest) == after.ops;
    hide SettlementOwed;
    if StaysOffVoicemail(c) {
      StillBacked(c, rest, after.slot.call, after.ops, w.marks);
    }
  }

  lemma ReleasesSettleNothing(ops: multiset<Op>, more: multiset<Op>, target: UserId, mark: nat)
    requires forall op <- more :: op.Release?
    ensures SettlementOwed(ops + more, target, mark) <==> SettlementOwed(ops, target, mark)
  {
    if SettlementOwed(ops + more, target, mark) {
      var op :| op in ops + more && Settles(op, target, mark);
      assert op in ops;
    }
    MoreIsOwed(ops, ops + more);
  }

  /** A change that leaves the transfer and the rings leaves it backed. */
  lemma CommitLeavesBacked(w: World, c: Call, rest: multiset<Op>, change: Change)
    requires change.draft.Some? && change.draft.value.version == c.version && !Marks(change) && Backed(c, rest, w.marks)
    requires change.draft.value.transferTo == c.transferTo && change.draft.value.agentLegs == c.agentLegs
    ensures var after := Commit(w, c, rest, change);
      after.slot.Live? && after.marks == w.marks && Backed(after.slot.call, after.ops, after.marks)
  {
    hide UsersLetGo, SettlementOwed;
    var after := Commit(w, c, rest, change);
    StillBacked(c, rest, after.slot.call, after.ops, w.marks);
  }

  /** Answering with voicemail, and a settlement that is of another transfer, leave the rings and owe no less. */
  lemma OtherCommitsStayBacked(w: World, c: Call, op: Op, answer: Answer, target: UserId)
    requires w.slot == Live(c) && TransferFits(c) && c.transferTo == Some(target) && op in w.ops && Backed(c, w.ops, w.marks)
    requires op.AnswerWithVoicemail? || op.EndCall? || op.Finalize? || op.FailTransfer?
    requires IsPending(Performed(w, op, answer), target)
    ensures var n := Performed(w, op, answer); n.marks == w.marks && IsBacked(n)
  {
    hide Performed, SettlementOwed, RingsUser, FailChange, AnswerChange, Commit, Marks, Settles;
    var rest := w.ops - multiset{op};
    OneLess(w.ops, op, target, w.marks);
    EndingLeavesNone(w, c, op, answer, target);
    ClosingChanges(c);
    if op.AnswerWithVoicemail? {
      AnswerOrFailureCommits(w, c, op, answer);
      CommitLeavesBacked(w, c, rest, AnswerChange(c)) by {
        OthersSettleNothing(op, target, w.marks);
      }
    } else if op.FailTransfer? && op.target != target {
      AnswerOrFailureCommits(w, c, op, answer);
      OtherFailure(c, op.target);
      QuietMarksNothing(c);
      CommitLeavesBacked(w, c, rest, FailChange(c, op.target)) by {
        OthersSettleNothing(op, target, w.marks);
      }
    }
  }

  lemma OthersSettleNothing(op: Op, target: UserId, mark: nat)
    requires op.AnswerWithVoicemail? || (op.FailTransfer? && op.target != target)
    ensures !Settles(op, target, mark)
  {
  }

  lemma AnswerOrFailureCommits(w: World, c: Call, op: Op, answer: Answer)
    requires w.slot == Live(c) && op in w.ops && (op.AnswerWithVoicemail? || op.FailTransfer?)
    ensures Performed(w, op, answer)
         == Commit(w, c, w.ops - multiset{op}, if op.FailTransfer? then FailChange(c, op.target) else AnswerChange(c))
  {
    hide Commit, FailChange, AnswerChange, TransferStep, RecordedAll, Write, UsersLetGo, OccupantsOf;
  }

  lemma QuietMarksNothing(c: Call)
    ensures !Marks(Quiet(c))
  {
  }

  /** Ending the call, or settling this transfer, leaves none pending. */
  lemma EndingLeavesNone(w: World, c: Call, op: Op, answer: Answer, target: UserId)
    requires w.slot == Live(c) && TransferFits(c) && c.transferTo == Some(target) && op in w.ops
    ensures op.EndCall? || op.Finalize? || op == FailTransfer(target) ==> !IsPending(Performed(w, op, answer), target)
  {
    ClosingChanges(c);
    OtherFailure(c, target);
    hide UsersLetGo, FailChange, EndRequestChange, TransferStep, RecordedAll, Write;
  }

  lemma ClosingChanges(c: Call)
    requires TransferFits(c) && c.transferTo.Some?
    ensures var n := AnswerChange(c).draft.value; n.transferTo == c.transferTo && n.agentLegs == c.agentLegs && !Marks(AnswerChange(c))
    ensures EndRequestChange(c).draft.value.transferTo.None?
  {
  }

  lemma OtherFailure(c: Call, target: UserId)
    requires TransferFits(c)
    ensures c.transferTo == Some(target) ==> FailChange(c, target).draft.value.transferTo.None?
    ensures c.transferTo != Some(target) ==> FailChange(c, target) == Quiet(c)
  {
  }

  /** Without an operation that settles nothing, what is owed is owed still. */
  lemma OneLess(ops: multiset<Op>, op: Op, target: UserId, mark: nat)
    ensures SettlementOwed(ops - multiset{op}, target, mark) ==> SettlementOwed(ops, target, mark)
    ensures SettlementOwed(ops, target, mark) && !Settles(op, target, mark) ==> SettlementOwed(ops - multiset{op}, target, mark)
  {
    var rest := ops - multiset{op};
    assert forall other :: other in ops && other != op ==> other in rest;
  }

  /** Every operation that is not a commit: its transfer goes on or is settled, and no leg is forgotten. */
  lemma OperationStaysBacked(w: World, c: Call, op: Op, answer: Answer, target: UserId)
    requires w.slot == Live(c) && LegsFit(c) && !c.ending && c.transferTo == Some(target) && op in w.ops
    requires Backed(c, w.ops, w.marks)
    requires OpFits(op, c, w.marks)
    requires !op.AnswerWithVoicemail? && !op.RouteToVoicemail? && !op.EndCall? && !op.Finalize? && !op.FailTransfer?
    requires IsPending(Performed(w, op, answer), target)
    ensures var n := Performed(w, op, answer); n.marks == w.marks && IsBacked(n)
  {
    hide Performed, OpFits, RingsUser, SettlementOwed, Settles;
    OperationAdds(w, c, op, answer);
    if Settles(op, target, w.marks) {
      SettlingAdvances(w, op, target, answer);
      GoesOn(Performed(w, op, answer).ops, target, w.marks, StepsLeft(op));
    } else {
      OneLess(w.ops, op, target, w.marks);
      var n := Performed(w, op, answer);
      StillBacked(c, w.ops - multiset{op}, n.slot.call, n.ops, w.marks);
    }
  }

  lemma GoesOn(ops: multiset<Op>, target: UserId, mark: nat, before: nat)
    ensures SettlementGoesOn(ops, target, mark, before) ==> SettlementOwed(ops, target, mark)
  {
  }

  /** The operation records legs. */
  predicate Writes(op: Op) {
    op.RecordExternal? || op.RecordAll? || op.TransferRecord?
  }

  /** Such an operation leaves the transfer's fields and the marks, and takes no ring and no other operation away. */
  lemma OperationAdds(w: World, c: Call, op: Op, answer: Answer)
    requires w.slot == Live(c) && LegsFit(c) && op in w.ops
    requires !op.AnswerWithVoicemail? && !op.RouteToVoicemail? && !op.EndCall? && !op.Finalize? && !op.FailTransfer?
    ensures var n := Performed(w, op, answer);
      && n.slot.Live? && n.marks == w.marks && w.ops - multiset{op} <= n.ops
      && n.slot.call.transferTo == c.transferTo
      && forall user | RingsUser(c, user) :: RingsUser(n.slot.call, user)
  {
    hide RingsUser, LegsFit, Performed;
    if Writes(op) {
      WritingOperationAdds(w, c, op, answer);
    } else if MarkOf(op).Some? {
      TransferOperationAdds(w, op, answer);
    } else {
      QuietOperationAdds(w, c, op, answer);
    }
  }

  lemma WritingOperationAdds(w: World, c: Call, op: Op, answer: Answer)
    requires w.slot == Live(c) && LegsFit(c) && op in w.ops && Writes(op)
    ensures var n := Performed(w, op, answer);
      && n.slot.Live? && n.marks == w.marks && w.ops - multiset{op} <= n.ops
      && n.slot.call.transferTo == c.transferTo
      && forall user | RingsUser(c, user) :: RingsUser(n.slot.call, user)
  {
    hide RingsUser, Write, Commit, LegsRegistered, ExternalRecorded, RecordedAll, LetGo, LegsFit;
    var left := w.(ops := w.ops - multiset{op});
    match op
    case RecordExternal(leg) =>
      WritingExternalKeepsRings(left, c, leg);
    case RecordAll(offered, legs) => RecordingAdds(w, c, w.ops - multiset{op}, offered, legs);
    case TransferRecord(_, target, _, leg) =>
      if !c.ending && leg.party == Agent(target) { WritingRingsKeepsRings(left, c, {leg}); }
    case _ =>
  }

  lemma TransferOperationAdds(w: World, op: Op, answer: Answer)
    requires w.slot.Live? && op in w.ops && MarkOf(op).Some? && !op.TransferRecord?
    ensures var n := Performed(w, op, answer); n.slot == w.slot && n.marks == w.marks && w.ops - multiset{op} <= n.ops
  {
    PerformedIsTransferStep(w, op, answer);
    hide Performed, Write, LegsRegistered, LetGo;
  }

  lemma QuietOperationAdds(w: World, c: Call, op: Op, answer: Answer)
    requires w.slot == Live(c) && op in w.ops && !Writes(op) && MarkOf(op).None?
    requires !op.AnswerWithVoicemail? && !op.RouteToVoicemail? && !op.EndCall? && !op.Finalize? && !op.FailTransfer?
    ensures var n := Performed(w, op, answer); n.slot == w.slot && n.marks == w.marks && w.ops - multiset{op} <= n.ops
  {
    hide Performed;
    if op.Release? || op.RenewClaims? || op.CheckRenewal? {
      ReleasingAdds(w, c, op, answer);
    } else if op.OfferAll? || op.DialAll? {
      RingingAdds(w, c, op, answer);
    } else {
      DialingAdds(w, c, op, answer);
    }
  }

  lemma ReleasingAdds(w: World, c: Call, op: Op, answer: Answer)
    requires w.slot == Live(c) && op in w.ops && (op.Release? || op.RenewClaims? || op.CheckRenewal?)
    ensures var n := Performed(w, op, answer); n.slot == w.slot && n.marks == w.marks && w.ops - multiset{op} <= n.ops
  {
    hide Write, Commit, LegsRegistered, RecordedAll, LetGo, TransferStep, UsersLetGo, OccupantsOf;
  }

  lemma RingingAdds(w: World, c: Call, op: Op, answer: Answer)
    requires w.slot == Live(c) && op in w.ops && (op.OfferAll? || op.DialAll?)
    ensures var n := Performed(w, op, answer); n.slot == w.slot && n.marks == w.marks && w.ops - multiset{op} <= n.ops
  {
    hide Write, Commit, LegsRegistered, RecordedAll, LetGo, TransferStep, UsersLetGo, OccupantsOf;
  }

  lemma DialingAdds(w: World, c: Call, op: Op, answer: Answer)
    requires w.slot == Live(c) && op in w.ops && (op.Occupy? || op.Create? || op.DialExternal? || op.DialFailed?)
    ensures var n := Performed(w, op, answer); n.slot == w.slot && n.marks == w.marks && w.ops - multiset{op} <= n.ops
  {
    hide Write, Commit, LegsRegistered, RecordedAll, LetGo, TransferStep, UsersLetGo, OccupantsOf;
  }

  lemma WritingExternalKeepsRings(w: World, c: Call, leg: Leg)
    ensures var n := Write(w, c, ExternalRecorded(c, leg).0);
      && n == w.(slot := n.slot) && n.slot.Live? && n.slot.call.transferTo == c.transferTo
      && forall user | RingsUser(c, user) :: RingsUser(n.slot.call, user)
  {
  }

  lemma WritingRingsKeepsRings(w: World, c: Call, legs: set<Leg>)
    requires forall leg <- legs :: leg.party.Agent?
    requires LegsFit(c)
    ensures var n := Write(w, c, LegsRegistered(c, legs).0);
      && n == w.(slot := n.slot) && n.slot.Live? && n.slot.call.transferTo == c.transferTo
      && forall user | RingsUser(c, user) :: RingsUser(n.slot.call, user)
  {
    var n := Write(w, c, LegsRegistered(c, legs).0).slot.call;
    forall user | RingsUser(c, user) ensures RingsUser(n, user) {
      var leg :| leg in c.agentLegs && c.agentLegs[leg] == user;
      assert leg in n.agentLegs && n.agentLegs[leg] == user;
    }
  }

  lemma RecordingAdds(w: World, c: Call, rest: multiset<Op>, offered: set<UserId>, legs: set<Leg>)
    requires w.slot == Live(c) && LegsFit(c)
    ensures var n := RecordedAll(w, rest, offered, legs);
      && n.slot.Live? && n.marks == w.marks && rest <= n.ops
      && n.slot.call.transferTo == c.transferTo
      && forall user | RingsUser(c, user) :: RingsUser(n.slot.call, user)
  {
    hide Write, LegsRegistered, RingsUser, LetGo;
    if legs != {} && !c.ending && forall leg <- legs :: leg.party.Agent? {
      WritingRingsKeepsRings(w.(ops := rest + LetGo(offered - OwnersOf(legs))), c, legs);
    }
  }

  /** A fixed-order ring takes no operation and no ring away. */
  lemma RingStepAdds(w: World, c: Call, task: RingTask, answer: Answer)
    requires w.slot == Live(c) && LegsFit(c) && task in w.ringing
    ensures var n := RingStep(w, task, answer);
      && n.slot.Live? && n.marks == w.marks && w.ops <= n.ops
      && n.slot.call.transferTo == c.transferTo
      && forall user | RingsUser(c, user) :: RingsUser(n.slot.call, user)
  {
    hide UsersLetGo, LetGo, RingsUser, LegsRegistered, Write;
    match task
    case RingRecord(fallback, index, user, leg) =>
      if !c.ending && leg.party == Agent(user) {
        var ringing := w.ringing - multiset{task};
        WritingRingsKeepsRings(w.(ringing := ringing, turns := w.turns + [Rung(user, leg)]), c, {leg});
      }
    case RingTurn(fallback, index) => TurnKeepsLegs(c, index);
    case _ =>
  }

  lemma TurnKeepsLegs(c: Call, index: nat)
    ensures var n := Stored(c, TurnTaken(c, index).0); n.transferTo == c.transferTo
    ensures forall user | RingsUser(c, user) :: RingsUser(Stored(c, TurnTaken(c, index).0), user)
  {
  }

  /** A step after which a backed transfer is still pending leaves it backed, unless the step cuts it loose. */
  lemma StepStaysBacked(w: World, step: Step, target: UserId)
    requires Invariant(w) && IsPending(w, target) && IsBacked(w) && IsPending(Next(w, step), target)
    ensures Next(w, step).marks == w.marks
    ensures IsBacked(Next(w, step)) <==> !CutsLoose(w, step, target)
  {
    hide Invariant, Next, Backed, WellFormed, OpFits, TransferFits, LegsFit, RingsUser, SettlementOwed, StaysOffVoicemail;
    var c := w.slot.call;
    PendingFits(w);
    match step
    case Perform(op, answer) => PerformStepStaysBacked(w, c, op, answer, target);
    case Ring(task, answer) => RingStaysBacked(w, c, task, answer, target);
    case ReportJoined(_) => ReportStepStaysBacked(w, c, step);
    case ReportEnded(_) => ReportStepStaysBacked(w, c, step);
    case HoldAnswered(_) => ReportStepStaysBacked(w, c, step);
    case RequestTransfer(request, other) => MarkChangesNothing(w, c, request, other);
    case _ => FreeStepStaysBacked(w, c, step);
  }

  lemma PerformStepStaysBacked(w: World, c: Call, op: Op, answer: Answer, target: UserId)
    requires w.slot == Live(c) && TransferFits(c) && LegsFit(c) && forall one <- w.ops :: OpFits(one, c, w.marks)
    requires c.transferTo == Some(target) && Backed(c, w.ops, w.marks) && IsPending(Next(w, Perform(op, answer)), target)
    ensures var n := Next(w, Perform(op, answer));
      n.marks == w.marks && (IsBacked(n) <==> !CutsLoose(w, Perform(op, answer), target))
  {
    hide Performed, Backed, OpFits, LegsFit, TransferFits, SettlementOwed, StaysOffVoicemail;
    if op in w.ops {
      PerformStaysBacked(w, c, op, answer, target);
    }
  }

  lemma ReportStepStaysBacked(w: World, c: Call, step: Step)
    requires w.slot == Live(c) && WellFormed(c) && c.transferTo.Some? && Backed(c, w.ops, w.marks)
    requires step.ReportJoined? || step.ReportEnded? || step.HoldAnswered?
    ensures var after := Next(w, step);
      && after.marks == w.marks
      && (after.slot.Live? && after.slot.call.transferTo.Some? ==> IsBacked(after))
  {
    hide Commit, JoinChange, EndChange, HoldChange, Backed, WellFormed;
    match step
    case ReportJoined(leg) => ReportStaysBacked(w, c, JoinChange(c, leg));
    case ReportEnded(leg) => ReportStaysBacked(w, c, EndChange(c, leg));
    case HoldAnswered(held) => ReportStaysBacked(w, c, HoldChange(c, held));
  }

  lemma RingStaysBacked(w: World, c: Call, task: RingTask, answer: Answer, target: UserId)
    requires w.slot == Live(c) && LegsFit(c) && c.transferTo == Some(target) && Backed(c, w.ops, w.marks)
    ensures var n := Next(w, Ring(task, answer)); IsPending(n, target) && n.marks == w.marks && IsBacked(n)
  {
    hide RingStep, Backed, LegsFit, RingsUser;
    if task in w.ringing {
      RingStepAdds(w, c, task, answer);
      var n := RingStep(w, task, answer);
      StillBacked(c, w.ops, n.slot.call, n.ops, w.marks);
    }
  }

  lemma PendingFits(w: World)
    requires Invariant(w) && w.slot.Live?
    ensures WellFormed(w.slot.call) && TransferFits(w.slot.call) && LegsFit(w.slot.call)
    ensures forall op <- w.ops :: OpFits(op, w.slot.call, w.marks)
  {
  }

  lemma PerformStaysBacked(w: World, c: Call, op: Op, answer: Answer, target: UserId)
    requires w.slot == Live(c) && op in w.ops && TransferFits(c) && LegsFit(c) && OpFits(op, c, w.marks)
    requires c.transferTo == Some(target) && Backed(c, w.ops, w.marks) && IsPending(Performed(w, op, answer), target)
    ensures var n := Performed(w, op, answer);
      n.marks == w.marks && (IsBacked(n) <==> !CutsLoose(w, Perform(op, answer), target))
  {
    hide Backed, LegsFit, OpFits, SettlementOwed, StaysOffVoicemail, Commit;
    if op.RouteToVoicemail? {
      PullStaysBacked(w, c, op, target);
      assert Performed(w, op, answer) == Commit(w, c, w.ops - multiset{op}, RouteChange(c));
    } else if op.AnswerWithVoicemail? || op.EndCall? || op.Finalize? || op.FailTransfer? {
      OtherCommitsStayBacked(w, c, op, answer, target);
    } else {
      OperationStaysBacked(w, c, op, answer, target);
    }
  }

  lemma FreeStepStaysBacked(w: World, c: Call, step: Step)
    requires w.slot == Live(c) && Backed(c, w.ops, w.marks)
    requires step.ReportConference? || step.RequestEnd? || step.RequestCancel? || step.Decline? || step.VoicemailLeft?
          || step.StartRenewal? || step.ClaimRunsOut?
    ensures var n := Next(w, step); n.slot.Live? && n.marks == w.marks && Backed(n.slot.call, n.ops, n.marks)
  {
    hide SettlementOwed, OccupantsOf, RefuseTransferCancel, Commit, Performed, RingStep, JoinChange, EndChange, HoldChange;
    hide MarkChange, UsersLetGo;
    var n := Next(w, step);
    assert RingsUser(c, if c.transferTo.Some? then c.transferTo.value else 0)
       ==> RingsUser(n.slot.call, if c.transferTo.Some? then c.transferTo.value else 0);
    StillBacked(c, w.ops, n.slot.call, n.ops, w.marks);
  }

  // What is cut loose stays so until the target is rung, or the transfer is taken back --------------

  /** An operation of this mark of the transfer is in flight. */
  ghost predicate MarkInFlight(ops: multiset<Op>, target: UserId, mark: nat) {
    exists op :: op in ops && MarkOf(op).Some? && MarkOf(op).value.0 == mark && MarkOf(op).value.1 == target
  }

  /** Operations of a mark come only from operations of that mark. */
  ghost predicate MarksComeFrom(ops: multiset<Op>, more: multiset<Op>) {
    forall next :: next in more && MarkOf(next).Some? ==> exists op :: op in ops && MarkOf(op) == MarkOf(next)
  }

  lemma OwedIsOne(ops: multiset<Op>, target: UserId, mark: nat)
    ensures SettlementOwed(ops, target, mark) <==> FailTransfer(target) in ops || MarkInFlight(ops, target, mark)
  {
    if FailTransfer(target) in ops {
      assert Settles(FailTransfer(target), target, mark);
    }
    if op :| op in ops && MarkOf(op).Some? && MarkOf(op).value.0 == mark && MarkOf(op).value.1 == target {
      assert Settles(op, target, mark);
    }
  }

  lemma MarksCarryOver(ops: multiset<Op>, more: multiset<Op>, target: UserId, mark: nat)
    requires MarksComeFrom(ops, more)
    ensures MarkInFlight(more, target, mark) ==> MarkInFlight(ops, target, mark)
  {
    if next :| next in more && MarkOf(next).Some? && MarkOf(next).value.0 == mark && MarkOf(next).value.1 == target {
      var op :| op in ops && MarkOf(op) == MarkOf(next);
    }
  }

  lemma CommitStartsNoMark(w: World, c: Call, rest: multiset<Op>, change: Change)
    requires change.draft.Some? ==> change.draft.value.version == c.version
    requires rest <= w.ops && !Marks(change) && forall op <- change.follow :: MarkOf(op).None?
    ensures var n := Commit(w, c, rest, change); n.marks == w.marks && MarksComeFrom(w.ops, n.ops)
  {
    hide UsersLetGo, Stored;
    var n := Commit(w, c, rest, change);
    forall next | next in n.ops && MarkOf(next).Some? ensures next in w.ops {
      assert next in rest;
    }
  }

  lemma ChangesStartNoMark(c: Call, leg: Leg, held: bool, target: UserId)
    ensures forall op <- JoinChange(c, leg).follow :: MarkOf(op).None?
    ensures forall op <- EndChange(c, leg).follow :: MarkOf(op).None?
    ensures forall op <- HoldChange(c, held).follow :: MarkOf(op).None?
    ensures !Marks(FailChange(c, target)) && forall op <- FailChange(c, target).follow :: MarkOf(op).None?
    ensures !Marks(AnswerChange(c)) && !Marks(RouteChange(c)) && !Marks(EndRequestChange(c)) && !Marks(Removal([]))
    ensures AnswerChange(c).follow == RouteChange(c).follow == EndRequestChange(c).follow == Removal([]).follow == multiset{}
  {
    hide LegEnded, AgentJoined, ExternalJoined, TransferFailed, PulledIntoVoicemail;
    assert Removal([]).events == [CallEnded];
  }

  lemma PerformStartsNoMark(w: World, op: Op, answer: Answer)
    requires w.slot.Live? && op in w.ops
    ensures var n := Performed(w, op, answer); n.marks == w.marks && MarksComeFrom(w.ops, n.ops)
  {
    var c := w.slot.call;
    var rest := w.ops - multiset{op};
    if op.AnswerWithVoicemail? || op.RouteToVoicemail? || op.EndCall? || op.Finalize? || op.FailTransfer? {
      ClosingStartsNoMark(w, c, op, answer);
    } else if Writes(op) {
      WritingStartsNoMark(w, c, op, answer);
    } else {
      OtherStartsNoMark(w, c, op, answer);
    }
  }

  lemma ClosingStartsNoMark(w: World, c: Call, op: Op, answer: Answer)
    requires w.slot == Live(c) && op in w.ops
    requires op.AnswerWithVoicemail? || op.RouteToVoicemail? || op.EndCall? || op.Finalize? || op.FailTransfer?
    ensures var n := Performed(w, op, answer); n.marks == w.marks && MarksComeFrom(w.ops, n.ops)
  {
    hide Commit, JoinChange, EndChange, HoldChange, FailChange, AnswerChange, RouteChange, EndRequestChange;
    hide Marks, MarkOf, MarksComeFrom, TransferStep, RecordedAll, Write;
    var change :=
      match op
      case AnswerWithVoicemail => AnswerChange(c)
      case RouteToVoicemail => RouteChange(c)
      case EndCall => EndRequestChange(c)
      case FailTransfer(target) => FailChange(c, target)
      case _ => Removal([]);
    ChangesStartNoMark(c, Leg(0, Caller), false, if op.FailTransfer? then op.target else 0);
    CommitStartsNoMark(w, c, w.ops - multiset{op}, change);
  }

  lemma WritingStartsNoMark(w: World, c: Call, op: Op, answer: Answer)
    requires w.slot == Live(c) && op in w.ops && Writes(op)
    ensures var n := Performed(w, op, answer); n.marks == w.marks && MarksComeFrom(w.ops, n.ops)
  {
    hide Stored, LegsRegistered, ExternalRecorded, Commit, MarksComeFrom, MarkOf;
    var rest := w.ops - multiset{op};
    assert rest + multiset{} == rest;
    match op
    case RecordExternal(leg) => NextOfNoOtherMark(w.ops, op, multiset{});
    case RecordAll(offered, legs) =>
      hide RecordedAll;
      RecordingStartsNoMark(w, op);
    case TransferRecord(_, target, _, _) =>
      NextOfNoOtherMark(w.ops, op, multiset{});
      NoMarksAmong({target});
      NextOfNoOtherMark(w.ops, op, multiset{Release({target})});
    case _ =>
  }

  lemma RecordingStartsNoMark(w: World, op: Op)
    requires op in w.ops && op.RecordAll?
    ensures var n := RecordedAll(w, w.ops - multiset{op}, op.offered, op.legs); n.marks == w.marks && MarksComeFrom(w.ops, n.ops)
  {
    hide LegsRegistered, Stored, MarksComeFrom, MarkOf, LetGo;
    var rest, offered, others := w.ops - multiset{op}, op.offered, op.offered - OwnersOf(op.legs);
    NoMarksAmong(offered);
    NoMarksAmong(others);
    NextOfNoOtherMark(w.ops, op, LetGo(others));
    NextOfNoOtherMark(w.ops, op, LetGo(offered) + multiset{AnswerWithVoicemail});
    assert rest + (LetGo(offered) + multiset{AnswerWithVoicemail}) == rest + LetGo(offered) + multiset{AnswerWithVoicemail};
  }

  lemma NoMarksAmong(users: set<UserId>)
    ensures forall next <- LetGo(users) :: MarkOf(next).None?
    ensures forall next <- LetGo(users) + multiset{AnswerWithVoicemail} :: MarkOf(next).None?
    ensures forall next <- multiset{Release(users)} :: MarkOf(next).None?
    ensures forall next <- multiset{} :: MarkOf(next).None?
  {
  }

  /** An operation makes way for others, none of them of a mark but its own. */
  lemma NextOfNoOtherMark(ops: multiset<Op>, op: Op, more: multiset<Op>)
    requires op in ops && forall next <- more :: MarkOf(next).None? || MarkOf(next) == MarkOf(op)
    ensures MarksComeFrom(ops, ops - multiset{op} + more)
  {
    forall next | next in ops - multiset{op} + more && MarkOf(next).Some? ensures exists one :: one in ops && MarkOf(one) == MarkOf(next) {
      if next in ops {
        assert MarkOf(next) == MarkOf(next);
      } else {
        assert next in more;
      }
    }
  }

  lemma OtherStartsNoMark(w: World, c: Call, op: Op, answer: Answer)
    requires w.slot == Live(c) && op in w.ops && !Writes(op)
    requires !op.AnswerWithVoicemail? && !op.RouteToVoicemail? && !op.EndCall? && !op.Finalize? && !op.FailTransfer?
    ensures var n := Performed(w, op, answer); n.marks == w.marks && MarksComeFrom(w.ops, n.ops)
  {
    hide Commit, Write, RecordedAll, UsersLetGo, OccupantsOf, LegsRegistered, MarksComeFrom, LetGo;
    if MarkOf(op).Some? {
      TransferStartsNoMark(w, c, op, answer);
    } else {
      QuietStartsNoMark(w, c, op, answer);
    }
  }

  lemma TransferStartsNoMark(w: World, c: Call, op: Op, answer: Answer)
    requires w.slot == Live(c) && op in w.ops && !Writes(op) && MarkOf(op).Some?
    ensures var n := Performed(w, op, answer); n.marks == w.marks && MarksComeFrom(w.ops, n.ops)
  {
    hide Performed, MarksComeFrom;
    if op.TransferOffer? || op.TransferHold? {
      AskingStartsNoMark(w, op, answer);
    } else {
      CallingStartsNoMark(w, c, op, answer);
    }
  }

  lemma AskingStartsNoMark(w: World, op: Op, answer: Answer)
    requires op in w.ops && (op.TransferOffer? || op.TransferHold?)
    ensures var n := Performed(w, op, answer); n.marks == w.marks && MarksComeFrom(w.ops, n.ops)
  {
    hide MarksComeFrom, Performed;
    var next := AskingMakesWay(w, op, answer);
    NextOfNoOtherMark(w.ops, op, next);
  }

  /** What takes the place of a transfer's offer or hold: nothing of a mark but its own. */
  lemma AskingMakesWay(w: World, op: Op, answer: Answer) returns (next: multiset<Op>)
    requires op in w.ops && (op.TransferOffer? || op.TransferHold?)
    ensures Performed(w, op, answer).marks == w.marks && Performed(w, op, answer).ops == w.ops - multiset{op} + next
    ensures forall one <- next :: MarkOf(one).None? || MarkOf(one) == MarkOf(op)
  {
    PerformedIsTransferStep(w, op, answer);
    AskingAsks(w, op, w.ops - multiset{op}, answer);
    hide Performed, TransferStep, AskedFor, MarkOf;
    next := AskedFor(op, answer);
  }

  function AskedFor(op: Op, answer: Answer): (next: multiset<Op>)
    requires op.TransferOffer? || op.TransferHold?
    ensures forall one <- next :: MarkOf(one).None? || MarkOf(one) == MarkOf(op)
  {
    match op
    case TransferOffer(mark, target, starter) =>
      if answer.ok then multiset{TransferHold(mark, target, starter)} else multiset{FailTransfer(target)}
    case TransferHold(mark, target, starter) =>
      if answer.ok then multiset{TransferRing(mark, target, starter)} else multiset{FailTransfer(target), Release({target})}
  }

  lemma AskingAsks(w: World, op: Op, rest: multiset<Op>, answer: Answer)
    requires op.TransferOffer? || op.TransferHold?
    ensures var n := TransferStep(w, op, rest, answer); n.marks == w.marks && n.ops == rest + AskedFor(op, answer)
  {
    hide Write, LegsRegistered;
  }

  lemma CallingStartsNoMark(w: World, c: Call, op: Op, answer: Answer)
    requires w.slot == Live(c) && op in w.ops && (op.TransferRing? || op.TransferDial?)
    ensures var n := Performed(w, op, answer); n.marks == w.marks && MarksComeFrom(w.ops, n.ops)
  {
    hide MarksComeFrom, Performed;
    var next := CallingMakesWay(w, c, op, answer);
    NextOfNoOtherMark(w.ops, op, next);
  }

  /** What takes the place of a transfer's ring or dial: nothing of a mark but its own. */
  lemma CallingMakesWay(w: World, c: Call, op: Op, answer: Answer) returns (next: multiset<Op>)
    requires w.slot == Live(c) && op in w.ops && (op.TransferRing? || op.TransferDial?)
    ensures Performed(w, op, answer) == w.(ops := w.ops - multiset{op} + next)
    ensures forall one <- next :: MarkOf(one).None? || MarkOf(one) == MarkOf(op)
  {
    PerformedIsTransferStep(w, op, answer);
    CallingCalls(w, c, op, w.ops - multiset{op}, answer);
    hide Performed, TransferStep, CalledFor, MarkOf;
    next := CalledFor(c, op, answer);
  }

  function CalledFor(c: Call, op: Op, answer: Answer): (next: multiset<Op>)
    requires op.TransferRing? || op.TransferDial?
    ensures forall one <- next :: MarkOf(one).None? || MarkOf(one) == MarkOf(op)
  {
    match op
    case TransferRing(mark, target, starter) =>
      if c.transferTo == Some(target) && c.transferBy == Some(starter) then multiset{TransferDial(mark, target, starter)}
      else multiset{Release({target})}
    case TransferDial(mark, target, starter) =>
      if !c.ending && answer.ok && answer.leg.party == Agent(target) then
        multiset{TransferRecord(mark, target, starter, answer.leg)}
      else multiset{FailTransfer(target), Release({target})}
  }

  lemma CallingCalls(w: World, c: Call, op: Op, rest: multiset<Op>, answer: Answer)
    requires w.slot == Live(c) && (op.TransferRing? || op.TransferDial?)
    ensures TransferStep(w, op, rest, answer) == w.(ops := rest + CalledFor(c, op, answer))
  {
    hide Write, LegsRegistered;
  }

  lemma QuietStartsNoMark(w: World, c: Call, op: Op, answer: Answer)
    requires w.slot == Live(c) && op in w.ops && !Writes(op) && MarkOf(op).None?
    requires !op.AnswerWithVoicemail? && !op.RouteToVoicemail? && !op.EndCall? && !op.Finalize? && !op.FailTransfer?
    ensures var n := Performed(w, op, answer); n.marks == w.marks && MarksComeFrom(w.ops, n.ops)
  {
    hide MarksComeFrom, Performed;
    if op.Release? || op.RenewClaims? || op.CheckRenewal? {
      ReleasingStartsNoMark(w, c, op, answer);
    } else if op.OfferAll? || op.DialAll? {
      RingingStartsNoMark(w, c, op, answer);
    } else {
      DialingStartsNoMark(w, c, op, answer);
    }
  }

  lemma ReleasingStartsNoMark(w: World, c: Call, op: Op, answer: Answer)
    requires w.slot == Live(c) && op in w.ops && (op.Release? || op.RenewClaims? || op.CheckRenewal?)
    ensures var n := Performed(w, op, answer); n.marks == w.marks && MarksComeFrom(w.ops, n.ops)
  {
    hide MarksComeFrom, UsersLetGo, OccupantsOf, LetGo, TransferStep, Commit, Write, RecordedAll;
    var rest := w.ops - multiset{op};
    assert rest + multiset{} == rest;
    match op
    case Release(users) =>
      NoMarksAmong(users - answer.users);
      NextOfNoOtherMark(w.ops, op, LetGo(users - answer.users));
    case RenewClaims(seen) => NextOfNoOtherMark(w.ops, op, multiset{CheckRenewal(seen)});
    case CheckRenewal(seen) =>
      NoMarksAmong(UsersLetGo(seen, Some(c)));
      NextOfNoOtherMark(w.ops, op, multiset{});
      NextOfNoOtherMark(w.ops, op, LetGo(UsersLetGo(seen, Some(c))));
  }

  lemma RingingStartsNoMark(w: World, c: Call, op: Op, answer: Answer)
    requires w.slot == Live(c) && op in w.ops && (op.OfferAll? || op.DialAll?)
    ensures var n := Performed(w, op, answer); n.marks == w.marks && MarksComeFrom(w.ops, n.ops)
  {
    hide MarksComeFrom, LetGo, TransferStep, Commit, Write, RecordedAll;
    var rest := w.ops - multiset{op};
    match op
    case OfferAll(users) => NextOfNoOtherMark(w.ops, op, multiset{DialAll(users * answer.users)});
    case DialAll(offered) =>
      var legs := set leg | leg in answer.legs && leg.party.Agent? && leg.party.user in offered;
      NoMarksAmong(offered);
      NextOfNoOtherMark(w.ops, op, LetGo(offered) + multiset{AnswerWithVoicemail});
      NextOfNoOtherMark(w.ops, op, multiset{RecordAll(offered, legs)});
      assert rest + (LetGo(offered) + multiset{AnswerWithVoicemail}) == rest + LetGo(offered) + multiset{AnswerWithVoicemail};
  }

  lemma DialingStartsNoMark(w: World, c: Call, op: Op, answer: Answer)
    requires w.slot == Live(c) && op in w.ops && (op.Occupy? || op.Create? || op.DialExternal? || op.DialFailed?)
    ensures var n := Performed(w, op, answer); n.marks == w.marks && MarksComeFrom(w.ops, n.ops)
  {
    hide MarksComeFrom, LetGo, TransferStep, Commit, Write, RecordedAll;
    var rest := w.ops - multiset{op};
    assert rest + multiset{} == rest;
    match op
    case Occupy(agent, leg) => NextOfNoOtherMark(w.ops, op, multiset{Create(agent, leg)});
    case Create(agent, leg) =>
      NoMarksAmong({agent});
      NextOfNoOtherMark(w.ops, op, LetGo({agent}));
    case DialExternal =>
      NextOfNoOtherMark(w.ops, op, multiset{RecordExternal(answer.leg)});
      NextOfNoOtherMark(w.ops, op, multiset{DialFailed});
    case DialFailed =>
      NextOfNoOtherMark(w.ops, op, multiset{});
      NextOfNoOtherMark(w.ops, op, multiset{if c.direction.Inbound? then RouteToVoicemail else Finalize});
  }

  lemma RingStartsNoMark(w: World, c: Call, task: RingTask, answer: Answer)
    requires w.slot == Live(c) && task in w.ringing
    ensures var n := RingStep(w, task, answer); n.marks == w.marks && MarksComeFrom(w.ops, n.ops)
  {
    hide UsersLetGo, Stored, LegsRegistered, MarksComeFrom, Commit, MarkOf, TurnTaken;
    SameMarks(w.ops);
    NoMarkMore(w.ops, FallBack(task.fallback));
    match task
    case RingTurn(fallback, index) =>
      if index < |c.queue| && TurnTaken(c, index).1 {
        var left := w.(ringing := w.ringing - multiset{task});
        TurnKeepsVersion(c, index);
        CommitStartsNoMark(left, c, w.ops, Change(Some(TurnTaken(c, index).0), multiset{},
                                                 multiset{RingOffer(fallback, index, c.queue[index])}, []));
      }
    case RingDial(_, _, user) => NoMarkMore(w.ops, Release({user}));
    case RingRecord(_, _, user, _) => NoMarkMore(w.ops, Release({user}));
    case _ =>
  }

  lemma TurnKeepsVersion(c: Call, index: nat)
    ensures TurnTaken(c, index).0.version == c.version
  {
  }

  lemma NoMarkMore(ops: multiset<Op>, op: Op)
    ensures MarkOf(op).None? ==> MarksComeFrom(ops, ops + multiset{op})
    ensures op.Release? || Closes(op) ==> MarkOf(op).None?
  {
    if MarkOf(op).None? {
      forall next | next in ops + multiset{op} && MarkOf(next).Some? ensures next in ops {
      }
    }
  }

  /** No step but a mark starts an operation of a mark. */
  lemma StepStartsNoMark(w: World, step: Step)
    requires w.slot.Live? && w.slot.call.transferTo.Some?
    ensures var n := Next(w, step); n.marks == w.marks && MarksComeFrom(w.ops, n.ops)
  {
    var c := w.slot.call;
    hide Next, MarksComeFrom;
    SameMarks(w.ops);
    match step
    case Perform(op, answer) => WorkStartsNoMark(w, step);
    case Ring(task, answer) => WorkStartsNoMark(w, step);
    case ReportJoined(_) => ReportStepStartsNoMark(w, c, step);
    case ReportEnded(_) => ReportStepStartsNoMark(w, c, step);
    case HoldAnswered(_) => ReportStepStartsNoMark(w, c, step);
    case RequestTransfer(request, other) => MarkChangesNothing(w, c, request, other);
    case _ => FreeStepStartsNoMark(w, c, step);
  }

  lemma WorkStartsNoMark(w: World, step: Step)
    requires w.slot.Live? && (step.Perform? || step.Ring?)
    ensures var n := Next(w, step); n.marks == w.marks && MarksComeFrom(w.ops, n.ops)
  {
    hide Performed, RingStep, MarksComeFrom;
    SameMarks(w.ops);
    if step.Perform? && step.op in w.ops {
      PerformStartsNoMark(w, step.op, step.answer);
    } else if step.Ring? && step.task in w.ringing {
      RingStartsNoMark(w, w.slot.call, step.task, step.answer);
    }
  }

  lemma ReportStepStartsNoMark(w: World, c: Call, step: Step)
    requires w.slot == Live(c) && (step.ReportJoined? || step.ReportEnded? || step.HoldAnswered?)
    ensures var n := Next(w, step); n.marks == w.marks && MarksComeFrom(w.ops, n.ops)
  {
    hide Commit, JoinChange, EndChange, HoldChange, MarksComeFrom;
    match step
    case ReportJoined(leg) => ReportStartsNoMark(w, c, JoinChange(c, leg), leg, false);
    case ReportEnded(leg) => ReportStartsNoMark(w, c, EndChange(c, leg), leg, false);
    case HoldAnswered(held) => ReportStartsNoMark(w, c, HoldChange(c, held), Leg(0, Caller), held);
  }

  lemma SameMarks(ops: multiset<Op>)
    ensures MarksComeFrom(ops, ops)
  {
  }

  lemma ReportStartsNoMark(w: World, c: Call, change: Change, leg: Leg, held: bool)
    requires w.slot == Live(c)
    requires change == JoinChange(c, leg) || change == EndChange(c, leg) || change == HoldChange(c, held)
    ensures change.draft.Some? ==> change.draft.value.version == c.version
    ensures var n := Commit(w, c, w.ops, change); n.marks == w.marks && MarksComeFrom(w.ops, n.ops)
  {
    hide JoinChange, EndChange, HoldChange, Marks, MarkOf, MarksComeFrom, Commit;
    ChangesStartNoMark(c, leg, held, 0);
    JoinMarksNothing(c, leg);
    EndMarksNothing(c, leg);
    HoldMarksNothing(c, held);
    CommitStartsNoMark(w, c, w.ops, change);
  }

  lemma FreeStepStartsNoMark(w: World, c: Call, step: Step)
    requires w.slot == Live(c)
    requires step.ReportConference? || step.RequestEnd? || step.RequestCancel? || step.Decline? || step.VoicemailLeft?
          || step.StartRenewal? || step.ClaimRunsOut?
    ensures var n := Next(w, step); n.marks == w.marks && MarksComeFrom(w.ops, n.ops)
  {
    hide OccupantsOf, RefuseTransferCancel, Commit, Performed, RingStep, Stored, JoinChange, EndChange, HoldChange;
    hide MarkChange, UsersLetGo;
    var n := Next(w, step);
    forall next | next in n.ops && MarkOf(next).Some? ensures next in w.ops {
    }
  }

  // Exactly when ------------------------------------------------------------------------------------

  /** The transfer is pending, its target is not rung, and nobody has taken it back. */
  predicate IsLeft(w: World, target: UserId) {
    IsPending(w, target) && !RingsUser(w.slot.call, target) && FailTransfer(target) !in w.ops
  }

  /** The pull at this moment cut the transfer loose, and it has been left since. */
  ghost predicate CutLooseAt(worlds: seq<World>, steps: seq<Step>, p: nat, i: nat, target: UserId)
    requires |worlds| == |steps| + 1 && p < i <= |steps|
  {
    CutsLoose(worlds[p], steps[p], target) && forall k | p < k <= i :: IsLeft(worlds[k], target)
  }

  /**
    At every moment of every run, a pending transfer has neither a tracked leg
    of its target nor an operation that will settle it exactly if an earlier
    step pulled the caller into voicemail while nothing in flight was to
    settle it, and since then its target was not rung and nobody took it back.
   */
  lemma TransferIsAdriftExactlyAfterAPull(worlds: seq<World>, steps: seq<Step>, i: nat, target: UserId)
    requires Traces(worlds, steps) && i <= |steps| && IsPending(worlds[i], target)
    ensures !IsBacked(worlds[i]) <==> exists p | 0 <= p < i :: CutLooseAt(worlds, steps, p, i, target)
  {
    hide Next, Initial, IsBacked, CutsLoose, IsLeft;
    if !IsBacked(worlds[i]) {
      AdriftWasCutLoose(worlds, steps, i, target);
    }
    if p :| 0 <= p < i && CutLooseAt(worlds, steps, p, i, target) {
      CutLooseIsAdrift(worlds, steps, p, i, target);
    }
  }

  lemma {:induction false} CutLooseIsAdrift(worlds: seq<World>, steps: seq<Step>, p: nat, i: nat, target: UserId)
    requires Traces(worlds, steps) && p < i <= |steps| && CutLooseAt(worlds, steps, p, i, target)
    ensures IsPending(worlds[i], target) && !IsBacked(worlds[i])
  {
    hide Next, Initial, Invariant;
    NoMarkSince(worlds, steps, p, i, target);
    assert IsLeft(worlds[i], target);
    OwedIsOne(worlds[i].ops, target, worlds[i].marks);
  }

  lemma {:induction false} NoMarkSince(worlds: seq<World>, steps: seq<Step>, p: nat, i: nat, target: UserId)
    requires Traces(worlds, steps) && p < i <= |steps| && CutLooseAt(worlds, steps, p, i, target)
    ensures !MarkInFlight(worlds[i].ops, target, worlds[i].marks)
    decreases i
  {
    hide Next, Initial, MarkInFlight, MarksComeFrom, StaysOffVoicemail, RingsUser, MarkOf;
    if i == p + 1 {
      OwedIsOne(worlds[p].ops, target, worlds[p].marks);
    } else {
      NoMarkSince(worlds, steps, p, i - 1, target);
      assert IsLeft(worlds[i - 1], target);
    }
    StepStartsNoMark(worlds[i - 1], steps[i - 1]);
    MarksCarryOver(worlds[i - 1].ops, worlds[i].ops, target, worlds[i].marks);
  }

  lemma {:induction false} AdriftWasCutLoose(worlds: seq<World>, steps: seq<Step>, i: nat, target: UserId)
    requires Traces(worlds, steps) && i <= |steps| && IsPending(worlds[i], target) && !IsBacked(worlds[i])
    ensures exists p | 0 <= p < i :: CutLooseAt(worlds, steps, p, i, target)
    decreases i
  {
    hide Next, Initial, Invariant, CutsLoose;
    RunKeeps(worlds, steps, i);
    AdriftIsLeft(worlds[i], target);
    hide IsBacked, IsLeft;
    if i == 0 {
      NothingPendsAtFirst(worlds[0]);
    } else {
      RunKeeps(worlds, steps, i - 1);
      if !IsPending(worlds[i - 1], target) {
        NewTransfersAreBacked(worlds[i - 1], steps[i - 1], target);
      } else if IsBacked(worlds[i - 1]) {
        StepStaysBacked(worlds[i - 1], steps[i - 1], target);
        assert CutLooseAt(worlds, steps, i - 1, i, target);
      } else {
        AdriftWasCutLoose(worlds, steps, i - 1, target);
        var p :| 0 <= p < i - 1 && CutLooseAt(worlds, steps, p, i - 1, target);
        assert CutLooseAt(worlds, steps, p, i, target);
      }
    }
  }

  lemma AdriftIsLeft(w: World, target: UserId)
    requires IsPending(w, target) && !IsBacked(w)
    ensures IsLeft(w, target)
  {
    OwedIsOne(w.ops, target, w.marks);
  }

  lemma NothingPendsAtFirst(w: World)
    requires Initial(w)
    ensures w.slot.Live? ==> w.slot.call.transferTo.None?
  {
  }

  /** A transfer that was not pending before a step is pending after it only by its mark, whose operation is in flight. */
  lemma NewTransfersAreBacked(w: World, step: Step, target: UserId)
    requires Invariant(w) && !IsPending(w, target) && IsPending(Next(w, step), target)
    ensures IsBacked(Next(w, step))
  {
    hide Invariant, Next;
    StepKeeps(w, step);
    if step.RequestTransfer? && w.slot.Live? {
      MarkedOffVoicemail(w, w.slot.call, step.request, step.target, target);
      BackedOffVoicemail(Next(w, step));
    } else {
      OnlyMarksStartTransfers(w, step, target);
    }
  }

  lemma BackedOffVoicemail(w: World)
    requires Invariant(w) && w.slot.Live? && !w.slot.call.voicemail
    ensures IsBacked(w)
  {
  }

  lemma MarkedOffVoicemail(w: World, c: Call, request: Request, other: UserId, target: UserId)
    requires w.slot == Live(c) && c.transferTo != Some(target) && IsPending(Next(w, RequestTransfer(request, other)), target)
    ensures !Next(w, RequestTransfer(request, other)).slot.call.voicemail
  {
    hide UsersLetGo, RingsForgotten, HasJoined;
    assert TransferMarked(c, request, other).1.None?;
    MarkingKeepsVoicemail(c, request, other);
  }

  lemma MarkingKeepsVoicemail(c: Call, request: Request, target: UserId)
    requires TransferMarked(c, request, target).1.None?
    ensures !c.voicemail && !TransferMarked(c, request, target).0.voicemail
  {
  }

  lemma OnlyMarksStartTransfers(w: World, step: Step, target: UserId)
    requires Invariant(w) && IsPending(Next(w, step), target) && (step.RequestTransfer? ==> !w.slot.Live?)
    ensures IsPending(w, target)
  {
    hide Commit, Performed, RingStep, JoinChange, EndChange, HoldChange, OccupantsOf, Invariant, RefuseTransferCancel;
    hide WellFormed, TransferFits, LegsFit, OpFits, RingsUser, Sound, Marks;
    if !w.slot.Live? {
      UnbornHasNone(w, step);
    } else {
      var c := w.slot.call;
      PendingFits(w);
      match step
      case Perform(op, answer) => if op in w.ops { PerformStartsNoTransfer(w, c, op, answer, target); }
      case Ring(task, answer) => if task in w.ringing { RingStepAdds(w, c, task, answer); }
      case ReportJoined(leg) =>
        JoinIsSound(c, leg, w.marks + 1);
        JoinMarksNothing(c, leg);
        CommitStartsNoTransfer(w, c, w.ops, JoinChange(c, leg));
      case ReportEnded(leg) =>
        EndIsSound(c, leg, w.marks + 1);
        EndMarksNothing(c, leg);
        CommitStartsNoTransfer(w, c, w.ops, EndChange(c, leg));
      case HoldAnswered(held) =>
        HoldIsSound(c, held, w.marks + 1);
        HoldMarksNothing(c, held);
        CommitStartsNoTransfer(w, c, w.ops, HoldChange(c, held));
      case _ =>
    }
  }

  lemma CommitStartsNoTransfer(w: World, c: Call, rest: multiset<Op>, change: Change)
    requires change.draft.Some? ==> change.draft.value.version == c.version
    requires Sound(c, change, w.marks + 1) && !Marks(change)
    ensures var n := Commit(w, c, rest, change).slot;
      n.Live? && n.call.transferTo.Some? ==> n.call.transferTo == c.transferTo
  {
    hide WellFormed, Tells, KeepsCare, FollowsUp, UsersLetGo, Marks, Monotone;
  }

  lemma UnbornHasNone(w: World, step: Step)
    requires !w.slot.Live?
    ensures Next(w, step).slot.Live? ==> Next(w, step).slot.call.transferTo.None?
  {
    hide UsersLetGo, OccupantsOf, Commit, Write, LetGo;
  }

  lemma PerformStartsNoTransfer(w: World, c: Call, op: Op, answer: Answer, target: UserId)
    requires w.slot == Live(c) && LegsFit(c) && op in w.ops && IsPending(Performed(w, op, answer), target)
    ensures c.transferTo == Some(target)
  {
    hide LegsFit, FailChange, AnswerChange, RouteChange, EndRequestChange, TransferStep, RecordedAll, Write, Commit;
    if op.AnswerWithVoicemail? || op.RouteToVoicemail? || op.EndCall? || op.Finalize? || op.FailTransfer? {
      var change :=
        match op
        case AnswerWithVoicemail => AnswerChange(c)
        case RouteToVoicemail => RouteChange(c)
        case EndCall => EndRequestChange(c)
        case FailTransfer(other) => FailChange(c, other)
        case _ => Removal([]);
      ClosingsStartNoTransfer(c, if op.FailTransfer? then op.target else 0);
      CommitCarries(w, c, w.ops - multiset{op}, change);
    } else {
      hide Performed;
      OperationAdds(w, c, op, answer);
    }
  }

  lemma CommitCarries(w: World, c: Call, rest: multiset<Op>, change: Change)
    requires change.draft.Some? ==> change.draft.value.version == c.version
    ensures var n := Commit(w, c, rest, change).slot;
      n.Live? ==> change.draft.Some? && n.call.transferTo == change.draft.value.transferTo
  {
    hide UsersLetGo;
  }

  lemma ClosingsStartNoTransfer(c: Call, target: UserId)
    ensures AnswerChange(c).draft.value.transferTo == c.transferTo == RouteChange(c).draft.value.transferTo
    ensures var n := EndRequestChange(c).draft.value; n.transferTo.Some? ==> n.transferTo == c.transferTo
    ensures var n := FailChange(c, target).draft.value; n.transferTo.Some? ==> n.transferTo == c.transferTo
  {
  }
}
