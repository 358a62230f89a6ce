/**
  What the timeline of every run tells: transfers are settled once, holds and
  resumes alternate, the call starts at most once and ends exactly when its
  record is removed.
 */
module CallTimeline {
  import opened Options
  import opened CallState
  import opened CallWorld
  import opened CallInvariants
  import opened CallCommits
  import opened CallTheorems

  /** How many of these events satisfy a condition. */
  function Count(events: seq<Event>, counted: Event -> bool): nat {
    if events == [] then 0
    else (if counted(events[|events| - 1]) then 1 else 0) + Count(events[..|events| - 1], counted)
  }

  predicate IsMark(e: Event) { e.TransferMark? }
  predicate IsCompletion(e: Event) { e.TransferComplete? }
  predicate IsFailure(e: Event) { e.TransferFailure? }
  predicate IsCallOff(e: Event) { e.TransferCalledOff? }
  predicate IsStart(e: Event) { e.CallStarted? }
  predicate IsEnd(e: Event) { e.CallEnded? }
  predicate IsHold(e: Event) { e.Held? }
  predicate IsResume(e: Event) { e.Resumed? }

  function One(b: bool): nat {
    if b then 1 else 0
  }

  /** The tally of a longer timeline is the tally of the shorter one and the last event. */
  lemma HearLast(events: seq<Event>)
    requires events != []
    ensures HearAll(SILENCE, events) == Hear(HearAll(SILENCE, events[..|events| - 1]), events[|events| - 1])
  {
    var before, last := events[..|events| - 1], events[|events| - 1..];
    assert events == before + last;
    HearAllTogether(SILENCE, before, last);
    assert last[1..] == [];
  }

  /** An orderly timeline has as many settlements as marks, but for one transfer still open. */
  lemma {:induction false} OrderlyTransfers(events: seq<Event>)
    requires HearAll(SILENCE, events).orderly
    ensures Count(events, IsMark)
         == Count(events, IsCompletion) + Count(events, IsFailure) + Count(events, IsCallOff)
            + One(HearAll(SILENCE, events).open.Some?)
  {
    if events != [] {
      HearLast(events);
      OrderlyTransfers(events[..|events| - 1]);
    }
  }

  /** What hearing one event more says of what was heard before. */
  lemma HeardOne(t: Tally, e: Event)
    requires Hear(t, e).orderly
    ensures t.orderly
    ensures One(Hear(t, e).started) == One(t.started) + One(IsStart(e))
    ensures One(Hear(t, e).over) == One(t.over) + One(IsEnd(e))
    ensures One(Hear(t, e).held) + One(IsResume(e)) == One(t.held) + One(IsHold(e))
  {
  }

  /** An orderly timeline has at most one start, at most one end, and a hold more than resumes only while held. */
  lemma {:induction false} OrderlyLife(events: seq<Event>)
    requires HearAll(SILENCE, events).orderly
    ensures Count(events, IsStart) == One(HearAll(SILENCE, events).started)
    ensures Count(events, IsEnd) == One(HearAll(SILENCE, events).over)
    ensures Count(events, IsHold) == Count(events, IsResume) + One(HearAll(SILENCE, events).held)
  {
    if events != [] {
      HearLast(events);
      HeardOne(HearAll(SILENCE, events[..|events| - 1]), events[|events| - 1]);
      hide Hear;
      OrderlyLife(events[..|events| - 1]);
    }
  }

  /** Every beginning of an orderly timeline is orderly. */
  lemma {:induction false} OrderlyFromTheStart(events: seq<Event>, i: nat)
    requires i <= |events| && HearAll(SILENCE, events).orderly
    ensures HearAll(SILENCE, events[..i]).orderly
    decreases |events|
  {
    if i < |events| {
      HearLast(events);
      OrderlyFromTheStart(events[..|events| - 1], i);
      assert events[..|events| - 1][..i] == events[..i];
    } else {
      assert events[..i] == events;
    }
  }

  /** What was heard of a run is how its call stands. */
  lemma RunIsToldTruly(worlds: seq<World>, steps: seq<Step>, i: nat)
    requires Traces(worlds, steps) && i <= |steps|
    ensures var w := worlds[i];
      var t := HearAll(SILENCE, w.timeline);
      && t.orderly
      && t.over == w.slot.Gone?
      && (w.slot.Live? ==> t.open == w.slot.call.transferTo && t.held == w.slot.call.held && (t.started ==> w.slot.call.answered))
  {
    RunKeeps(worlds, steps, i);
  }

  /**
    Over any run, the transfers marked are those completed, failed and called
    off by an end, and one more if one is pending or was pending when the call
    was removed.
   */
  lemma TransfersSettleOnce(worlds: seq<World>, steps: seq<Step>, i: nat)
    requires Traces(worlds, steps) && i <= |steps|
    ensures var w := worlds[i];
      var settled := Count(w.timeline, IsCompletion) + Count(w.timeline, IsFailure) + Count(w.timeline, IsCallOff);
      && (w.slot.Live? ==> Count(w.timeline, IsMark) == settled + One(w.slot.call.transferTo.Some?))
      && settled <= Count(w.timeline, IsMark) <= settled + 1
  {
    RunIsToldTruly(worlds, steps, i);
    OrderlyTransfers(worlds[i].timeline);
  }

  /**
    A transfer event settles the transfer that was open just before it, which
    was marked for the same teammate; a mark is made only when none is open.
   */
  lemma SettlementsMatchTheirMarks(worlds: seq<World>, steps: seq<Step>, i: nat, k: nat)
    requires Traces(worlds, steps) && i <= |steps| && k < |worlds[i].timeline|
    ensures var events := worlds[i].timeline;
      var open := HearAll(SILENCE, events[..k]).open;
      match events[k]
      case TransferMark(target) => open.None? && HearAll(SILENCE, events[..k + 1]).open == Some(target)
      case TransferComplete(target) => open == Some(target) && HearAll(SILENCE, events[..k + 1]).open.None?
      case TransferFailure(target) => open == Some(target) && HearAll(SILENCE, events[..k + 1]).open.None?
      case TransferCalledOff => open.Some? && HearAll(SILENCE, events[..k + 1]).open.None?
      case _ => HearAll(SILENCE, events[..k + 1]).open == open
  {
    var events := worlds[i].timeline;
    RunIsToldTruly(worlds, steps, i);
    OrderlyFromTheStart(events, k + 1);
    HearLast(events[..k + 1]);
    assert events[..k + 1][..k] == events[..k];
  }

  /** Over any run the call starts at most once, and only if it was answered; it ends once, when its record is removed. */
  lemma StartsAndEndsOnce(worlds: seq<World>, steps: seq<Step>, i: nat)
    requires Traces(worlds, steps) && i <= |steps|
    ensures var w := worlds[i];
      && Count(w.timeline, IsStart) <= 1
      && (w.slot.Live? && Count(w.timeline, IsStart) == 1 ==> w.slot.call.answered)
      && Count(w.timeline, IsEnd) == One(w.slot.Gone?)
  {
    RunIsToldTruly(worlds, steps, i);
    OrderlyLife(worlds[i].timeline);
  }

  /** In an orderly timeline holds and resumes alternate, starting with a hold. */
  lemma OrderlyHolds(events: seq<Event>, i: nat)
    requires HearAll(SILENCE, events).orderly && i < |events|
    ensures var past := events[..i];
      && Count(past, IsResume) <= Count(past, IsHold) <= Count(past, IsResume) + 1
      && (events[i].Held? ==> Count(past, IsHold) == Count(past, IsResume))
      && (events[i].Resumed? ==> Count(past, IsHold) == Count(past, IsResume) + 1)
  {
    OrderlyFromTheStart(events, i);
    OrderlyLife(events[..i]);
    OrderlyFromTheStart(events, i + 1);
    HearLast(events[..i + 1]);
    assert events[..i + 1][..i] == events[..i];
  }

  /** Over any run, holds and resumes alternate, starting with a hold, and the last of them is how the call stands. */
  lemma HoldsAlternate(worlds: seq<World>, steps: seq<Step>, i: nat)
    requires Traces(worlds, steps) && i <= |steps|
    ensures var w := worlds[i];
      && (forall k | 0 <= k < |w.timeline| && w.timeline[k].Held? ::
            Count(w.timeline[..k], IsHold) == Count(w.timeline[..k], IsResume))
      && (forall k | 0 <= k < |w.timeline| && w.timeline[k].Resumed? ::
            Count(w.timeline[..k], IsHold) == Count(w.timeline[..k], IsResume) + 1)
      && (w.slot.Live? ==>
            w.slot.call.held == (Count(w.timeline, IsHold) == Count(w.timeline, IsResume) + 1))
  {
    hide Next, Initial, HearAll, Count;
    RunIsToldTruly(worlds, steps, i);
    var events := worlds[i].timeline;
    OrderlyLife(events);
    forall k | 0 <= k < |events|
      ensures events[k].Held? ==> Count(events[..k], IsHold) == Count(events[..k], IsResume)
      ensures events[k].Resumed? ==> Count(events[..k], IsHold) == Count(events[..k], IsResume) + 1
    {
      OrderlyHolds(events, k);
    }
  }
}
