/** A call that is ending loses its legs in any order, and is gone exactly when the last of them is. */
module CallTeardown {
  import opened Options
  import opened CallState
  import opened CallDecisions
  import opened CallWorld
  import opened CallInvariants
  import opened CallTheorems
  import opened CallLegs

  /** What reports of ended legs, one after the other, leave of a call; `None` once it is removed. */
  function AfterReports(c: Call, reports: seq<Leg>): Option<Call> {
    if reports == [] then Some(c)
    else
      var before := AfterReports(c, reports[..|reports| - 1]);
      if before.None? then None
      else
        var after := EndChange(before.value, reports[|reports| - 1]).draft;
        if after.None? then None else Some(Stored(before.value, after.value))
  }

  lemma EndingReport(c: Call, leg: Leg)
    requires c.ending && HasActiveLegs(c)
    ensures var after := EndChange(c, leg).draft;
      && (after.None? <==> LegsOf(c) == {leg})
      && (after.Some? ==> after.value.ending && LegsOf(after.value) == LegsOf(c) - {leg})
  {
    RemoveLegForgetsExactlyOne(c, leg);
    EndAccounts(c, leg);
    var left := RemoveLeg(c, leg);
    if leg in LegsOf(c) {
      assert HasActiveLegs(left) <==> LegsOf(c) != {leg};
    }
  }

  /**
    Whatever the order and however often each end is reported, an ending call
    is removed exactly when every leg it tracked has been reported, and until
    then tracks exactly those that have not.
   */
  lemma {:induction false} TeardownConverges(c: Call, reports: seq<Leg>)
    requires c.ending && HasActiveLegs(c)
    ensures var reported := set leg | leg in reports;
      && (AfterReports(c, reports).None? <==> LegsOf(c) <= reported)
      && (AfterReports(c, reports).Some? ==>
            AfterReports(c, reports).value.ending && LegsOf(AfterReports(c, reports).value) == LegsOf(c) - reported)
    decreases |reports|
  {
    hide EndChange, LegsOf;
    if reports != [] {
      var shorter, last := reports[..|reports| - 1], reports[|reports| - 1];
      assert reports == shorter + [last];
      TeardownConverges(c, shorter);
      var earlier := set leg | leg in shorter;
      assert (set leg | leg in reports) == earlier + {last};
      var before := AfterReports(c, shorter);
      if before.Some? {
        var left :| left in LegsOf(c) && left !in earlier;
        assert left in LegsOf(before.value);
        EndingReport(before.value, last);
        StoredLegs(before.value, last);
      }
    }
  }

  lemma StoredLegs(c: Call, leg: Leg)
    ensures var after := EndChange(c, leg).draft;
      after.Some? ==>
        LegsOf(Stored(c, after.value)) == LegsOf(after.value) && Stored(c, after.value).ending == after.value.ending
  {
    EndAccounts(c, leg);
  }

  /** What is still tracked of an ending call was tracked when it began to end and has not been reported since. */
  ghost predicate TearingDown(w: World, legs: set<Leg>, steps: seq<Step>) {
    w.slot.Gone? || (w.slot.Live? && w.slot.call.ending && LegsOf(w.slot.call) <= legs - Reported(steps))
  }

  /** The legs whose end these steps report. */
  function Reported(steps: seq<Step>): set<Leg> {
    set i | 0 <= i < |steps| && steps[i].ReportEnded? :: steps[i].leg
  }

  lemma TearingDownGoesOn(w: World, legs: set<Leg>, steps: seq<Step>, step: Step)
    requires TearingDown(w, legs, steps) && !step.ReportJoined?
    ensures TearingDown(Next(w, step), legs, steps + [step])
  {
    hide Next, LegsOf;
    var more := steps + [step];
    assert forall leg <- Reported(more) :: leg in Reported(steps) || step == ReportEnded(leg);
    if w.slot.Live? {
      StepAccounts(w, w.slot.call, step);
      if step.ReportEnded? {
        EndTakesEffectOnlyWhileTracked(w, w.slot.call, step.leg);
        assert step == ReportEnded(step.leg);
      }
    } else {
      GoneStaysGone(w, step);
    }
  }

  lemma {:induction false} TearingDownAlways(w: World, legs: set<Leg>, steps: seq<Step>)
    requires TearingDown(w, legs, [])
    requires forall i | 0 <= i < |steps| :: !steps[i].ReportJoined?
    ensures TearingDown(Run(w, steps), legs, steps)
    decreases |steps|
  {
    hide Next;
    if steps != [] {
      var shorter := steps[..|steps| - 1];
      TearingDownAlways(w, legs, shorter);
      TearingDownGoesOn(Run(w, shorter), legs, shorter, steps[|steps| - 1]);
      assert steps == shorter + [steps[|steps| - 1]];
    }
  }

  /**
    Over any run in which nobody else joins, whatever else happens in between,
    an ending call is gone by the time each of its legs was reported ended.
   */
  lemma EndingCallsAreRemoved(worlds: seq<World>, steps: seq<Step>, i: nat, more: seq<Step>)
    requires Traces(worlds, steps) && i <= |steps| && worlds[i].slot.Live? && worlds[i].slot.call.ending
    requires forall k | 0 <= k < |more| :: !more[k].ReportJoined?
    requires LegsOf(worlds[i].slot.call) <= Reported(more)
    ensures Run(worlds[i], more).slot.Gone?
  {
    hide LegsOf, Next, Initial;
    var w := worlds[i];
    RunKeeps(worlds, steps, i);
    assert Reported([]) == {};
    TearingDownAlways(w, LegsOf(w.slot.call), more);
    RunPreserves(w, more);
  }
}
