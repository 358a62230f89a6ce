/** Who is talking on a call: the agent changes only by a first answer or a transfer marked for the one who joins. */
module CallHandover {
  import opened Options
  import opened CallState
  import opened CallControl
  import opened CallDecisions
  import opened CallWorld
  import opened CallInvariants

  /** A call that has been answered by an agent keeps this agent through the change. */
  predicate KeepsAgent(c: Call, n: Call) {
    c.answered && c.activeAgent.Some? ==> n.activeAgent == c.activeAgent
  }

  lemma EndKeepsAgent(c: Call, leg: Leg)
    ensures EndChange(c, leg).draft.Some? ==> KeepsAgent(c, EndChange(c, leg).draft.value)
  {
  }

  lemma ClosingKeepsAgent(c: Call)
    ensures KeepsAgent(c, EndRequestChange(c).draft.value)
    ensures KeepsAgent(c, AnswerChange(c).draft.value)
    ensures KeepsAgent(c, RouteChange(c).draft.value)
  {
  }

  lemma HoldKeepsAgent(c: Call, held: bool)
    ensures KeepsAgent(c, HoldChange(c, held).draft.value)
  {
  }

  lemma TransferKeepsAgent(c: Call, request: Request, target: UserId, mark: nat)
    ensures KeepsAgent(c, MarkChange(c, request, target, mark).draft.value)
    ensures KeepsAgent(c, FailChange(c, target).draft.value)
  {
  }

  lemma CommitKeepsAgent(w: World, c: Call, rest: multiset<Op>, change: Change)
    requires change.draft.Some? ==> change.draft.value.version == c.version && KeepsAgent(c, change.draft.value)
    ensures var after := Commit(w, c, rest, change).slot; after.Live? ==> KeepsAgent(c, after.call)
  {
  }

  lemma PerformKeepsAgent(w: World, op: Op, answer: Answer)
    requires w.slot.Live? && op in w.ops
    ensures var after := Performed(w, op, answer).slot; after.Live? ==> KeepsAgent(w.slot.call, after.call)
  {
    hide Commit, KeepsAgent, AnswerChange, RouteChange, EndRequestChange, FailChange, Removal, TransferStep, RecordedAll;
    var c := w.slot.call;
    var rest := w.ops - multiset{op};
    match op
    case AnswerWithVoicemail =>
      ClosingKeepsAgent(c);
      CommitKeepsAgent(w, c, rest, AnswerChange(c));
    case RouteToVoicemail =>
      ClosingKeepsAgent(c);
      CommitKeepsAgent(w, c, rest, RouteChange(c));
    case EndCall =>
      ClosingKeepsAgent(c);
      CommitKeepsAgent(w, c, rest, EndRequestChange(c));
    case FailTransfer(target) =>
      TransferKeepsAgent(c, Request(0, Leg(0, Caller)), target, 0);
      CommitKeepsAgent(w, c, rest, FailChange(c, target));
    case Finalize => RemovedHasNoAgent(w, c, rest);
    case _ => OtherPerformsKeepAgent(w, op, answer);
  }

  lemma RemovedHasNoAgent(w: World, c: Call, rest: multiset<Op>)
    ensures !Commit(w, c, rest, Removal([])).slot.Live?
  {
  }

  lemma OtherPerformsKeepAgent(w: World, op: Op, answer: Answer)
    requires w.slot.Live? && op in w.ops
    requires !op.AnswerWithVoicemail? && !op.RouteToVoicemail? && !op.EndCall? && !op.Finalize? && !op.FailTransfer?
    ensures var after := Performed(w, op, answer).slot; after.Live? && KeepsAgent(w.slot.call, after.call)
  {
    hide LetGo, UsersLetGo, OccupantsOf, OwnersOf, Commit;
  }

  lemma RingKeepsAgent(w: World, task: RingTask, answer: Answer)
    requires w.slot.Live? && task in w.ringing
    ensures var after := RingStep(w, task, answer).slot; after.Live? && KeepsAgent(w.slot.call, after.call)
  {
  }

  /** Only a join changes who is talking. */
  lemma OnlyJoinsChangeTheAgent(w: World, step: Step)
    requires w.slot.Live? && !step.ReportJoined?
    ensures var after := Next(w, step).slot; after.Live? ==> KeepsAgent(w.slot.call, after.call)
  {
    hide Commit, KeepsAgent, EndChange, HoldChange, MarkChange, Performed, RingStep;
    var c := w.slot.call;
    match step
    case Perform(op, answer) => if op in w.ops { PerformKeepsAgent(w, op, answer); } else { SameAgent(c); }
    case Ring(task, answer) => if task in w.ringing { RingKeepsAgent(w, task, answer); } else { SameAgent(c); }
    case ReportEnded(leg) =>
      EndKeepsAgent(c, leg);
      CommitKeepsAgent(w, c, w.ops, EndChange(c, leg));
    case ReportConference(conference) => SameAgent(c); ConferenceKeepsAgent(w, c, conference);
    case HoldAnswered(held) =>
      HoldKeepsAgent(c, held);
      CommitKeepsAgent(w, c, w.ops, HoldChange(c, held));
    case RequestTransfer(request, target) =>
      TransferKeepsAgent(c, request, target, w.marks + 1);
      CommitKeepsAgent(w, c, w.ops, MarkChange(c, request, target, w.marks + 1));
    case _ => SameAgent(c);
  }

  lemma SameAgent(c: Call)
    ensures KeepsAgent(c, c)
  {
  }

  lemma ConferenceKeepsAgent(w: World, c: Call, conference: nat)
    ensures KeepsAgent(c, Write(w, c, ConferenceNoted(c, conference)).slot.call)
  {
  }

  /** An agent whom an answered call is not being handed to changes nothing by joining. */
  lemma IntrudersChangeNothing(w: World, leg: Leg)
    requires w.slot.Live? && leg.party.Agent?
    requires var c, user := w.slot.call, leg.party.user;
      c.answered && c.activeAgent.Some? && c.activeAgent.value != user && c.transferTo != Some(user)
    ensures Next(w, ReportJoined(leg)) == w
  {
    var c := w.slot.call;
    assert JoinChange(c, leg) == Change(Some(c), multiset{}, multiset{}, []);
    assert UsersLetGo(c, Some(c)) == {};
  }

  lemma TakingOverCompletesATransfer(c: Call, leg: Leg)
    requires c.answered && c.activeAgent.Some?
    requires JoinChange(c, leg).draft.value.activeAgent != c.activeAgent
    ensures var n := JoinChange(c, leg).draft.value;
      && leg.party.Agent?
      && n.activeAgent == Some(leg.party.user)
      && c.transferTo == Some(leg.party.user)
      && n.transferTo.None?
      && n.agentLeg == Some(leg)
      && JoinChange(c, leg).events == [TransferComplete(leg.party.user)]
  {
    match leg.party
    case Agent(user) =>
      assert !IsIntruder(c, user);
      assert c.transferTo == Some(user);
    case _ =>
  }

  /** A join that takes the call over completes the transfer marked for the one who joins. */
  lemma JoinTakesOver(w: World, c: Call, leg: Leg, change: Change)
    requires w.slot == Live(c) && change == JoinChange(c, leg)
    ensures var after := Next(w, ReportJoined(leg));
      && after.slot.Live?
      && after.slot.call.activeAgent == change.draft.value.activeAgent
      && after.slot.call.transferTo == change.draft.value.transferTo
      && after.slot.call.agentLeg == change.draft.value.agentLeg
      && after.timeline == w.timeline + change.events
  {
    hide JoinChange, UsersLetGo;
  }

  /**
    Once a call is answered and an agent is on it, that agent stays, whatever
    the step, until a teammate joins whom a pending transfer was marked for;
    that join settles the transfer and puts the teammate's own leg on the call.
   */
  lemma AgentChangesOnlyByTransfer(before: World, step: Step)
    ensures var after := Next(before, step);
      before.slot.Live? && after.slot.Live? && before.slot.call.answered && before.slot.call.activeAgent.Some?
      && after.slot.call.activeAgent != before.slot.call.activeAgent ==>
        && step.ReportJoined?
        && after.slot.call.activeAgent.Some?
        && step.leg.party == Agent(after.slot.call.activeAgent.value)
        && before.slot.call.transferTo == after.slot.call.activeAgent
        && after.slot.call.transferTo.None?
        && after.slot.call.agentLeg == Some(step.leg)
        && after.timeline == before.timeline + [TransferComplete(step.leg.party.user)]
  {
    hide Next, KeepsAgent, JoinChange;
    if before.slot.Live? {
      var c := before.slot.call;
      if step.ReportJoined? {
        var change := JoinChange(c, step.leg);
        assert step == ReportJoined(step.leg);
        JoinTakesOver(before, c, step.leg, change);
        if c.answered && c.activeAgent.Some? && change.draft.value.activeAgent != c.activeAgent {
          TakingOverCompletesATransfer(c, step.leg);
        }
      } else {
        OnlyJoinsChangeTheAgent(before, step);
        if Next(before, step).slot.Live? && c.answered && c.activeAgent.Some? {
          KeptIsKept(c, Next(before, step).slot.call);
        }
      }
    }
  }

  lemma KeptIsKept(c: Call, n: Call)
    requires KeepsAgent(c, n) && c.answered && c.activeAgent.Some?
    ensures n.activeAgent == c.activeAgent
  {
  }
}
