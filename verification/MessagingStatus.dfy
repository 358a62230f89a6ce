/**
  What status callbacks make of an outbound message
  (apps/api/src/messaging/webhook.service.ts, `processStatusEvent`,
  `shouldApplyStatusTransition`, `statusDedupeKey`).
 */
module MessagingStatus {
  import opened Options

  type ProviderId = nat

  datatype Status = Received | Pending | Accepted | Delivered | Failed | Rejected | Expired | Buffered | Unknown

  /** What the provider reports. */
  datatype Reported = Submitted | WasDelivered | WasRejected | Undeliverable

  datatype Callback = Callback(id: ProviderId, reported: Reported, errorCode: Option<nat>)

  function Mapped(reported: Reported): Status {
    match reported
    case Submitted => Accepted
    case WasDelivered => Delivered
    case WasRejected => Rejected
    case Undeliverable => Failed
  }

  /** Delivery is final; a failure is final unless delivery arrives late. */
  predicate ShouldApply(current: Status, next: Status)
    requires next.Accepted? || next.Delivered? || next.Failed? || next.Rejected?
  {
    if current.Delivered? then false
    else if next.Delivered? then true
    else if current.Failed? || current.Rejected? then false
    else !(current.Accepted? && next.Accepted?)
  }

  /** Tables: the callbacks already seen, which are their own dedupe keys, and the messages by the id the provider gave them. */
  datatype Tables = Tables(seen: set<Callback>, messages: map<ProviderId, Status>)

  datatype Outcome = Processed(changed: bool) | Orphaned | Deduplicated

  function Process(t: Tables, c: Callback): (Tables, Outcome) {
    if c in t.seen then (t, Deduplicated)
    else
      var noted := t.(seen := t.seen + {c});
      if c.id !in t.messages then (noted, Orphaned)
      else
        var next := Mapped(c.reported);
        if ShouldApply(t.messages[c.id], next) then (noted.(messages := t.messages[c.id := next]), Processed(true))
        else (noted, Processed(false))
  }

  function ProcessAll(t: Tables, callbacks: seq<Callback>): Tables {
    if callbacks == [] then t
    else Process(ProcessAll(t, callbacks[..|callbacks| - 1]), callbacks[|callbacks| - 1]).0
  }

  /** How far a message has come. */
  function Rank(s: Status): nat {
    match s
    case Delivered => 3
    case Failed => 2
    case Rejected => 2
    case Accepted => 1
    case _ => 0
  }

  /** How far a message has come that this is reported of: sent, failed for good, or arrived. */
  function ReportRank(reported: Reported): nat {
    if reported.Submitted? then 1 else if reported.WasDelivered? then 3 else 2
  }

  /** The callback is about this message, and was not seen before. */
  predicate Counts(t: Tables, id: ProviderId, c: Callback) {
    c.id == id && c !in t.seen
  }

  /** The highest rank reported for a message, or its own. */
  function Highest(t: Tables, id: ProviderId, callbacks: seq<Callback>): nat
    requires id in t.messages
  {
    if callbacks == [] then Rank(t.messages[id])
    else
      var last := callbacks[|callbacks| - 1];
      var before := Highest(t, id, callbacks[..|callbacks| - 1]);
      if Counts(t, id, last) && ReportRank(last.reported) > before then ReportRank(last.reported) else before
  }

  /** The first failure reported for a message that had not failed or arrived. */
  function FirstFailure(t: Tables, id: ProviderId, callbacks: seq<Callback>): (r: Option<Reported>)
    ensures r.Some? ==> r.value.WasRejected? || r.value.Undeliverable?
  {
    if callbacks == [] then None
    else
      var last := callbacks[|callbacks| - 1];
      var before := FirstFailure(t, id, callbacks[..|callbacks| - 1]);
      if before.Some? then before
      else if Counts(t, id, last) && (last.reported.WasRejected? || last.reported.Undeliverable?) then Some(last.reported)
      else None
  }

  /** What was seen, and which messages there are, after some callbacks. */
  lemma {:induction false} SeenAfter(t: Tables, callbacks: seq<Callback>)
    ensures var after := ProcessAll(t, callbacks);
      && after.seen == t.seen + (set c | c in callbacks)
      && after.messages.Keys == t.messages.Keys
    decreases |callbacks|
  {
    if callbacks != [] {
      var shorter := callbacks[..|callbacks| - 1];
      SeenAfter(t, shorter);
      assert callbacks == shorter + [callbacks[|callbacks| - 1]];
    }
  }

  /** A callback that was seen among earlier ones adds nothing to them. */
  lemma {:induction false} RepeatAddsNothing(t: Tables, id: ProviderId, callbacks: seq<Callback>, c: Callback)
    requires id in t.messages && c in callbacks && Counts(t, id, c)
    ensures ReportRank(c.reported) <= Highest(t, id, callbacks)
    ensures ReportRank(c.reported) == 2 ==> FirstFailure(t, id, callbacks).Some?
    decreases |callbacks|
  {
    var shorter := callbacks[..|callbacks| - 1];
    if c != callbacks[|callbacks| - 1] {
      assert callbacks == shorter + [callbacks[|callbacks| - 1]];
      RepeatAddsNothing(t, id, shorter, c);
    }
  }

  /**
    After any callbacks, in any order and with repeats, a message stands at the
    highest rank that was reported for it, and if that is a failure it is the
    first one reported.
   */
  lemma {:induction false} StatusIsTheHighest(t: Tables, id: ProviderId, callbacks: seq<Callback>)
    requires id in t.messages
    ensures var after := ProcessAll(t, callbacks);
      && id in after.messages
      && Rank(after.messages[id]) == Highest(t, id, callbacks)
      && (Rank(after.messages[id]) == 2 ==>
            if Rank(t.messages[id]) == 2 then after.messages[id] == t.messages[id]
            else FirstFailure(t, id, callbacks) == Some(if after.messages[id].Rejected? then WasRejected else Undeliverable))
      && (FirstFailure(t, id, callbacks).Some? ==> Highest(t, id, callbacks) >= 2)
    decreases |callbacks|
  {
    if callbacks != [] {
      var shorter, last := callbacks[..|callbacks| - 1], callbacks[|callbacks| - 1];
      StatusIsTheHighest(t, id, shorter);
      SeenAfter(t, shorter);
      AtLeastItsOwn(t, id, shorter);
      var before := ProcessAll(t, shorter);
      assert last in before.seen <==> last in t.seen || last in shorter;
      if last in before.seen {
        assert ProcessAll(t, callbacks) == before;
        if Counts(t, id, last) {
          RepeatAddsNothing(t, id, shorter, last);
        }
      } else if last.id != id {
        assert ProcessAll(t, callbacks).messages[id] == before.messages[id];
      } else {
        var after := ProcessAll(t, callbacks);
        assert Counts(t, id, last) && after == Process(before, last).0;
      }
    }
  }

  /** This was reported of the message, in a callback that was not seen before. */
  predicate WasReported(t: Tables, id: ProviderId, callbacks: seq<Callback>, reported: Reported) {
    exists c <- callbacks :: Counts(t, id, c) && c.reported == reported
  }

  /**
    After any callbacks, in any order and with repeats, a message is delivered
    exactly if that was reported, or it was before; else it stays failed if it
    was; else it is rejected or failed as the first failure reported said; else
    it is accepted if it was reported submitted, and otherwise as it was.
   */
  lemma {:induction false} StatusIsWhatWasReported(t: Tables, id: ProviderId, callbacks: seq<Callback>)
    requires id in t.messages
    ensures var (before, after) := (t.messages[id], ProcessAll(t, callbacks).messages);
      && id in after
      && after[id] ==
           if before.Delivered? || WasReported(t, id, callbacks, WasDelivered) then Delivered
           else if before.Failed? || before.Rejected? then before
           else if FirstFailure(t, id, callbacks) == Some(WasRejected) then Rejected
           else if FirstFailure(t, id, callbacks) == Some(Undeliverable) then Failed
           else if WasReported(t, id, callbacks, Submitted) then Accepted
           else before
    decreases |callbacks|
  {
    if callbacks != [] {
      var shorter, last := callbacks[..|callbacks| - 1], callbacks[|callbacks| - 1];
      assert callbacks == shorter + [last];
      StatusIsWhatWasReported(t, id, shorter);
      SeenAfter(t, shorter);
      OneReportMore(t, id, shorter, last);
      assert ProcessAll(t, callbacks) == Process(ProcessAll(t, shorter), last).0;
      if Counts(t, id, last) && last in shorter {
        RepeatAddsNothing(t, id, shorter, last);
      }
    }
  }

  lemma OneReportMore(t: Tables, id: ProviderId, callbacks: seq<Callback>, last: Callback)
    ensures forall reported :: WasReported(t, id, callbacks + [last], reported) <==>
      WasReported(t, id, callbacks, reported) || (Counts(t, id, last) && last.reported == reported)
  {
    forall reported ensures WasReported(t, id, callbacks, reported) || (Counts(t, id, last) && last.reported == reported) ==>
                              WasReported(t, id, callbacks + [last], reported) {
      if c :| c in callbacks && Counts(t, id, c) && c.reported == reported {
        assert c in callbacks + [last];
      } else {
        assert last in callbacks + [last];
      }
    }
  }

  lemma {:induction false} HighestBounds(t: Tables, id: ProviderId, callbacks: seq<Callback>, other: seq<Callback>)
    requires id in t.messages && forall c <- callbacks :: c in other
    ensures Highest(t, id, callbacks) <= Highest(t, id, other)
    decreases |callbacks|
  {
    if callbacks != [] {
      var shorter, last := callbacks[..|callbacks| - 1], callbacks[|callbacks| - 1];
      HighestBounds(t, id, shorter, other);
      if Counts(t, id, last) {
        RepeatAddsNothing(t, id, other, last);
      }
    } else {
      AtLeastItsOwn(t, id, other);
    }
  }

  lemma {:induction false} AtLeastItsOwn(t: Tables, id: ProviderId, callbacks: seq<Callback>)
    requires id in t.messages
    ensures Rank(t.messages[id]) <= Highest(t, id, callbacks)
    decreases |callbacks|
  {
    if callbacks != [] {
      AtLeastItsOwn(t, id, callbacks[..|callbacks| - 1]);
    }
  }

  /** Neither the order of callbacks nor how often each arrives changes how far a message comes. */
  lemma OrderDoesNotMatter(t: Tables, id: ProviderId, callbacks: seq<Callback>, other: seq<Callback>)
    requires id in t.messages && forall c :: c in callbacks <==> c in other
    ensures var one, two := ProcessAll(t, callbacks).messages, ProcessAll(t, other).messages;
      id in one && id in two && Rank(one[id]) == Rank(two[id])
  {
    HighestBounds(t, id, callbacks, other);
    HighestBounds(t, id, other, callbacks);
    StatusIsTheHighest(t, id, callbacks);
    StatusIsTheHighest(t, id, other);
  }

  /** No callback takes a message back, and one that changes it either takes it further or starts it off. */
  lemma StatusNeverRegresses(t: Tables, c: Callback, id: ProviderId)
    requires id in t.messages
    ensures var (after, outcome) := Process(t, c);
      && id in after.messages
      && Rank(t.messages[id]) <= Rank(after.messages[id])
      && (after.messages[id] != t.messages[id] ==> Rank(t.messages[id]) < Rank(after.messages[id]))
      && (c.id == id ==> (outcome == Processed(true) <==> after.messages[id] != t.messages[id]))
  {
  }

  // A callback that comes too early -----------------------------------------------------------

  /** The send recorded which id the provider gave its message. */
  function IdRecorded(t: Tables, id: ProviderId): Tables {
    t.(messages := t.messages[id := Accepted])
  }

  /**
    A callback moves a message on exactly if the message's id was recorded
    when the callback first came; one that came earlier is noted as orphaned,
    and is a repeat each time it comes again.
   */
  lemma EarlyCallbackIsLost(t: Tables, c: Callback, again: nat)
    requires c !in t.seen && ReportRank(c.reported) > 1 && (c.id in t.messages ==> Rank(t.messages[c.id]) < 2)
    ensures var first := Process(t, c);
      var known := if c.id in t.messages then first.0 else IdRecorded(first.0, c.id);
      var after := ProcessAll(known, seq(again, _ => c));
      && after == known
      && (first.1.Orphaned? <==> c.id !in t.messages)
      && (Rank(after.messages[c.id]) == ReportRank(c.reported) <==> c.id in t.messages)
  {
    var first := Process(t, c);
    var known := if c.id in t.messages then first.0 else IdRecorded(first.0, c.id);
    RepeatsChangeNothing(known, c, again);
  }

  lemma {:induction false} RepeatsChangeNothing(t: Tables, c: Callback, again: nat)
    requires c in t.seen
    ensures ProcessAll(t, seq(again, _ => c)) == t
  {
    if again > 0 {
      RepeatsChangeNothing(t, c, again - 1);
      assert seq(again, _ => c)[..again - 1] == seq(again - 1, _ => c);
    }
  }
}
