/** What holds of every run of a call, whatever the order in which reports, requests and operations meet. */
module CallTheorems {
  import opened Options
  import opened CallState
  import opened CallControl
  import opened CallDecisions
  import opened CallWorld
  import opened CallInvariants
  import opened CallChanges
  import opened CallCommits
  import opened CallSteps
  import opened CallReports
  import opened CallOps
  import opened CallRings

  lemma InboundStartIsSound(caller: Leg, plan: InboundPlan)
    requires caller.party.Caller?
    ensures Invariant(InboundStart(caller, plan))
  {
    hide Invariant;
    match plan
    case NoRouting => NewCallIsSound(caller, [], NoRing, true, multiset{}, multiset{});
    case Voicemail =>
      FirstOpCares(AnswerWithVoicemail);
      NewCallIsSound(caller, [], NoRing, false, multiset{AnswerWithVoicemail}, multiset{});
    case Forward =>
      FirstOpCares(DialExternal);
      NewCallIsSound(caller, [], NoRing, false, multiset{DialExternal}, multiset{});
    case RingInOrder(queue) =>
      NewCallIsSound(caller, queue, FixedOrder, false, multiset{}, multiset{RingStart(BeforeConference)});
    case RingTogether(users, queue) =>
      FirstOpCares(OfferAll(users));
      NewCallIsSound(caller, queue, Simultaneous, false, multiset{OfferAll(users)}, multiset{});
  }

  lemma NewCallIsSound(caller: Leg, queue: seq<UserId>, strategy: Strategy, voicemail: bool, ops: multiset<Op>,
                       ringing: multiset<RingTask>)
    requires caller.party.Caller? && (voicemail ==> strategy == NoRing)
    requires voicemail || Owed(ops) || BeingSetUp(ops) || ringing != multiset{}
    requires forall op <- ops :: OpFits(op, InboundCall(caller, queue, strategy, voicemail), 0) && MarkOf(op).None?
    requires forall op <- ops :: !op.RenewClaims? && !op.CheckRenewal?
    requires strategy.FixedOrder? ==> ops == multiset{}
    requires ringing == multiset{} || (strategy.FixedOrder? && ringing == multiset{RingStart(BeforeConference)})
    ensures Invariant(Begin(Live(InboundCall(caller, queue, strategy, voicemail)), ops, ringing))
  {
    hide Owed, BeingSetUp, OpFits;
    var c := InboundCall(caller, queue, strategy, voicemail);
    var w := Begin(Live(c), ops, ringing);
    assert caller in LegsOf(c);
    assert WellFormed(c);
    hide WellFormed;
    NewRingFits(caller, queue, strategy, voicemail, ops, ringing);
    hide RingFits;
    assert OpsFit(w) && NotStranded(w) && TransfersBacked(w) && ClaimsAnswered(w) && RenewalsFit(w.slot, w.ops);
  }

  lemma NewRingFits(caller: Leg, queue: seq<UserId>, strategy: Strategy, voicemail: bool, ops: multiset<Op>,
                    ringing: multiset<RingTask>)
    requires voicemail ==> strategy == NoRing
    requires strategy.FixedOrder? ==> ops == multiset{}
    requires ringing == multiset{} || (strategy.FixedOrder? && ringing == multiset{RingStart(BeforeConference)})
    ensures RingFits(Begin(Live(InboundCall(caller, queue, strategy, voicemail)), ops, ringing))
  {
  }

  lemma FirstOpCares(op: Op)
    ensures Closes(op) ==> Owed(multiset{op})
    ensures SetsUp(op) ==> BeingSetUp(multiset{op})
  {
    assert op in multiset{op};
  }

  lemma OutboundStartIsSound(agent: UserId, leg: Leg)
    ensures Invariant(OutboundStart(agent, leg))
  {
  }

  /** Whatever happens to a world that keeps the invariant, it keeps it. */
  lemma {:induction false} RunPreserves(w: World, steps: seq<Step>)
    requires Invariant(w)
    ensures Invariant(Run(w, steps))
    decreases |steps|
  {
    hide Invariant, Next;
    if steps != [] {
      RunPreserves(w, steps[..|steps| - 1]);
      StepKeeps(Run(w, steps[..|steps| - 1]), steps[|steps| - 1]);
    }
  }

  lemma BeginningsAreSound(w: World)
    requires Initial(w)
    ensures Invariant(w)
  {
    hide Invariant, InboundStart, OutboundStart;
    if caller: Leg, plan: InboundPlan :| caller.party.Caller? && w == InboundStart(caller, plan) {
      InboundStartIsSound(caller, plan);
    } else {
      var agent: UserId, leg: Leg :| leg.party == Agent(agent) && w == OutboundStart(agent, leg);
      OutboundStartIsSound(agent, leg);
    }
  }

  /** The invariant holds of every world a call can begin as, and at every moment of every run. */
  lemma {:induction false} RunKeeps(worlds: seq<World>, steps: seq<Step>, i: nat)
    requires Traces(worlds, steps) && i <= |steps|
    ensures Invariant(worlds[i])
  {
    hide Invariant, Next, Initial;
    if i == 0 {
      BeginningsAreSound(worlds[0]);
    } else {
      RunKeeps(worlds, steps, i - 1);
      StepKeeps(worlds[i - 1], steps[i - 1]);
    }
  }

  lemma StepKeeps(w: World, step: Step)
    requires Invariant(w)
    ensures Invariant(Next(w, step))
  {
    hide Invariant, Performed, RingStep;
    match step
    case Perform(op, answer) => if op in w.ops { PerformKeeps(w, op, answer); }
    case Ring(task, answer) => if task in w.ringing { RingStepKeeps(w, task, answer); }
    case _ => ReportKeeps(w, step);
  }

  // Nobody is stranded -----------------------------------------------------------------------------

  /**
    While a call is neither ending nor in voicemail, its other party has an
    agent talking, a transfer or a forwarded leg or a ring, or an operation in
    flight that will ring somebody, send them to voicemail or end the call.
    A pending transfer has a tracked leg of its target, or an operation that
    will settle it.
   */
  lemma NobodyIsStranded(worlds: seq<World>, steps: seq<Step>, i: nat)
    requires Traces(worlds, steps) && i <= |steps|
    ensures var w := worlds[i];
      w.slot.Live? && !w.slot.call.ending && !w.slot.call.voicemail ==>
        var c := w.slot.call;
        && (|| c.agentLeg.Some?
            || c.transferTo.Some?
            || (c.direction.Inbound? && c.externalLeg.Some?)
            || (c.direction.Inbound? && !c.answered && c.pending != {})
            || (!c.answered && (w.ringing != multiset{} || exists op <- w.ops :: SetsUp(op)))
            || (exists op <- w.ops :: Closes(op)))
        && (c.transferTo.Some? ==>
              || (exists leg <- c.agentLegs :: c.agentLegs[leg] == c.transferTo.value)
              || (exists op <- w.ops :: Settles(op, c.transferTo.value, w.marks)))
  {
    RunKeeps(worlds, steps, i);
  }

  /** Once nothing is in flight, the record alone answers for the other party. */
  lemma QuietCallIsTended(worlds: seq<World>, steps: seq<Step>, i: nat)
    requires Traces(worlds, steps) && i <= |steps|
    ensures var w := worlds[i];
      w.slot.Live? && w.ops == multiset{} && w.ringing == multiset{} ==>
        && Tended(w.slot.call)
        && (w.slot.call.transferTo.Some? && !w.slot.call.voicemail ==> RingsUser(w.slot.call, w.slot.call.transferTo.value))
  {
    RunKeeps(worlds, steps, i);
  }

  // Claims do not leak ---------------------------------------------------------------------------------

  /**
    Once nothing is in flight, whoever is still claimed for the call occupies
    it or has a leg it tracks; a call that is gone claims nobody.
   */
  lemma ClaimsDoNotLeak(worlds: seq<World>, steps: seq<Step>, i: nat)
    requires Traces(worlds, steps) && i <= |steps|
    ensures var w := worlds[i];
      w.ops == multiset{} && w.ringing == multiset{} ==>
        w.claimed <= (if w.slot.Live? then HoldsOn(w.slot.call) else {})
  {
    RunKeeps(worlds, steps, i);
    var w := worlds[i];
    if w.ops == multiset{} && w.ringing == multiset{} {
      forall user <- w.claimed ensures w.slot.Live? && user in HoldsOn(w.slot.call) {
        assert Answered(w.slot, w.ops, w.ringing, user);
      }
    }
  }

  // A fixed-order ring takes the queue in order ------------------------------------------------------

  /**
    A fixed-order ring tries the positions of the queue its routing gave it
    one after the other, each once, for the user at it; while nobody has
    answered at most one ring is at work or out; and an unanswered caller is
    in voicemail only once every position was tried.
   */
  lemma RingTakesTheQueueInOrder(worlds: seq<World>, steps: seq<Step>, i: nat)
    requires Traces(worlds, steps) && i <= |steps|
    ensures var w := worlds[i];
      w.slot.Live? && w.slot.call.strategy.FixedOrder? ==>
        var c := w.slot.call;
        && |w.turns| <= |w.queue|
        && (forall i | 0 <= i < |w.turns| :: w.turns[i].user == w.queue[i])
        && (!c.answered ==> |w.ringing| + |c.agentLegs| <= 1 && c.pending == c.agentLegs.Keys)
        && (!c.answered && c.pending != {} ==>
              w.turns != [] && w.turns[|w.turns| - 1].Rung? && c.pending == {w.turns[|w.turns| - 1].leg})
        && (!c.answered && !c.ending && c.voicemail ==> |w.turns| == |w.queue|)
  {
    hide Next, Initial;
    RunKeeps(worlds, steps, i);
    var w := worlds[i];
    if w.slot.Live? && w.slot.call.strategy.FixedOrder? {
      RingOfOne(w);
    }
  }

  lemma RingOfOne(w: World)
    requires Invariant(w) && w.slot.Live? && w.slot.call.strategy.FixedOrder?
    ensures var c := w.slot.call;
        && |w.turns| <= |w.queue|
        && (forall i | 0 <= i < |w.turns| :: w.turns[i].user == w.queue[i])
        && (!c.answered ==> |w.ringing| + |c.agentLegs| <= 1 && c.pending == c.agentLegs.Keys)
        && (!c.answered && c.pending != {} ==>
              w.turns != [] && w.turns[|w.turns| - 1].Rung? && c.pending == {w.turns[|w.turns| - 1].leg})
        && (!c.answered && !c.ending && c.voicemail ==> |w.turns| == |w.queue|)
  {
    hide OpsFit, NotStranded, TransfersBacked, ClaimsAnswered, RenewalsFit, TimelineTells, TransferFits, LegsFit, HasActiveLegs;
    var c := w.slot.call;
    assert w.queue == c.queue;
    assert TriedInOrder(c, w.turns);
    if !c.answered && c.pending != {} {
      OneOut(c, w.ringing, w.turns);
    }
  }

  /** The one ring that is out is the last one tried. */
  lemma OneOut(c: Call, ringing: multiset<RingTask>, turns: seq<Turn>)
    requires OneRingAtATime(c, ringing, turns) && c.strategy.FixedOrder? && !c.answered
    requires c.pending == c.agentLegs.Keys && c.pending != {}
    ensures turns != [] && turns[|turns| - 1].Rung? && c.pending == {turns[|turns| - 1].leg}
  {
    var leg := turns[c.queueIndex].leg;
    assert |c.agentLegs.Keys| == 1;
    assert |c.agentLegs.Keys - {leg}| == 0;
    assert c.agentLegs.Keys == c.agentLegs.Keys - {leg} + {leg};
  }
}
