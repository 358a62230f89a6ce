/**
  How a change of a live call is stored: optimistic writers around a
  compare-and-set script (apps/call-controller/src/calls/telephony.service.ts,
  `WRITE_CALL_STATE_SCRIPT` and `updateCallState`). Any number of writers
  interleave, one step per read and per script; the record may also run out.
 */
module CallStore {
  import opened Options
  import opened CallState
  import CallDecisions

  const WRITE_ATTEMPTS: nat := 10

  /** What is stored: a call whose version may be missing, if it was stored before versions existed. */
  datatype Payload = Payload(call: Call, versioned: bool)

  /** A state without a version counts as version 0. */
  function Read(p: Payload): Call {
    if p.versioned then p.call else p.call.(version := 0)
  }

  datatype Reply = Written | Conflict | Missing

  /** The compare-and-set script. */
  function WriteScript(stored: Option<Payload>, version: nat, next: Option<Call>): (Option<Payload>, Reply) {
    match stored
    case None => (None, Missing)
    case Some(p) =>
      if Read(p).version != version then (stored, Conflict)
      else (if next.Some? then Some(Payload(next.value, true)) else None, Written)
  }

  /** What a writer's decision about a call comes to. */
  datatype Decision = Keep | Replace(after: Option<Call>)

  type Decide = Call -> Option<Call>

  /** A draft that differs in nothing but its version is not written; one that does moves the version on. */
  function Decided(decide: Decide, before: Call): Decision {
    match decide(before)
    case None => Replace(None)
    case Some(draft) =>
      if draft.(version := before.version) == before then Keep
      else Replace(Some(draft.(version := before.version + 1)))
  }

  /** What a change of the live call stores in one step is what a writer with that decision writes, and no write is none. */
  lemma OneWritePerChange(decide: Decide, before: Call)
    requires decide(before).Some? ==> decide(before).value.version == before.version
    ensures match Decided(decide, before)
      case Keep => decide(before).Some? && CallDecisions.Stored(before, decide(before).value) == before
      case Replace(None) => decide(before).None?
      case Replace(Some(after)) =>
        decide(before).Some? && after == CallDecisions.Stored(before, decide(before).value) && after.version == before.version + 1
  {
  }

  datatype Outcome = NotThere | Unchanged(call: Call) | Changed(before: Call, after: Option<Call>) | GaveUp

  // Many writers ---------------------------------------------------------------------

  datatype Phase = Ready(attempt: nat) | Holding(attempt: nat, before: Call) | Done(outcome: Outcome)

  /** A writer, and how many writes had landed when it arrived. */
  datatype Writer = Writer(decide: Decide, arrived: nat, phase: Phase)

  /** One write that landed. */
  datatype Entry = Entry(writer: nat, before: Call, after: Option<Call>)

  datatype System = System(stored: Option<Payload>, writers: map<nat, Writer>, history: seq<Entry>)

  datatype Step = Arrive(writer: nat, decide: Decide) | Fetch(writer: nat) | Put(writer: nat) | RunOut

  function InPhase(s: System, writer: nat, phase: Phase): System
    requires writer in s.writers
  {
    s.(writers := s.writers[writer := s.writers[writer].(phase := phase)])
  }

  function Next(s: System, step: Step): System {
    match step
    case Arrive(writer, decide) =>
      if writer in s.writers then s else s.(writers := s.writers[writer := Writer(decide, |s.history|, Ready(1))])
    case Fetch(writer) =>
      if writer in s.writers && s.writers[writer].phase.Ready? then Fetched(s, writer, s.writers[writer].phase.attempt) else s
    case Put(writer) =>
      if writer in s.writers && s.writers[writer].phase.Holding? then
        PutBack(s, writer, s.writers[writer].phase.attempt, s.writers[writer].phase.before)
      else s
    case RunOut => s.(stored := None)
  }

  /** The call is read and decided on. */
  function Fetched(s: System, writer: nat, attempt: nat): System
    requires writer in s.writers
  {
    if s.stored.None? then InPhase(s, writer, Done(NotThere))
    else
      var before := Read(s.stored.value);
      if Decided(s.writers[writer].decide, before).Keep? then InPhase(s, writer, Done(Unchanged(before)))
      else InPhase(s, writer, Holding(attempt, before))
  }

  /** The decision is written, unless another write landed since the read. */
  function PutBack(s: System, writer: nat, attempt: nat, before: Call): System
    requires writer in s.writers
  {
    var decision := Decided(s.writers[writer].decide, before);
    var next := if decision.Replace? then decision.after else Some(before);
    var (stored, reply) := WriteScript(s.stored, before.version, next);
    match reply
    case Written =>
      InPhase(s, writer, Done(Changed(before, next)))
        .(stored := stored, history := s.history + [Entry(writer, before, next)])
    case Missing => InPhase(s, writer, Done(NotThere))
    case Conflict => InPhase(s, writer, if attempt < WRITE_ATTEMPTS then Ready(attempt + 1) else Done(GaveUp))
  }

  function Run(s: System, steps: seq<Step>): System {
    if steps == [] then s else Next(Run(s, steps[..|steps| - 1]), steps[|steps| - 1])
  }

  /** The call as it was created, or as an earlier release left it, before any of these writers. */
  function Start(first: Payload): System {
    System(Some(first), map[], [])
  }

  // What the writes come to ------------------------------------------------------------

  /** The call after this many writes; the writes before a removal leave one. */
  function CallAfter(first: Payload, history: seq<Entry>, writes: nat): Option<Call>
    requires writes <= |history|
  {
    if writes == 0 then Some(Read(first)) else history[writes - 1].after
  }

  /** The decisions of these writers, one after the other, each on what the one before it left. */
  function OneByOne(first: Call, decisions: seq<Decide>): Option<Call> {
    if decisions == [] then Some(first)
    else
      var past := OneByOne(first, decisions[..|decisions| - 1]);
      if past.None? then None
      else
        var decision := Decided(decisions[|decisions| - 1], past.value);
        if decision.Keep? then past else decision.after
  }

  // The invariant --------------------------------------------------------------------------

  /** Each write ran on exactly what the write before it left, one version on, and the last one left what is stored. */
  ghost predicate InLine(first: Payload, history: seq<Entry>, stored: Option<Payload>) {
    && (forall i | 0 <= i < |history| :: Follows(first, history, i))
    && (stored.Some? ==>
          && CallAfter(first, history, |history|) == Some(Read(stored.value))
          && Read(stored.value).version == Read(first).version + |history|)
  }

  ghost predicate Follows(first: Payload, history: seq<Entry>, i: nat)
    requires i < |history|
  {
    && CallAfter(first, history, i) == Some(history[i].before)
    && history[i].before.version == Read(first).version + i
  }

  /** The writer of this write decided on it, and was told so. */
  ghost predicate Told(s: System, e: Entry) {
    && e.writer in s.writers
    && s.writers[e.writer].phase == Done(Changed(e.before, e.after))
    && Decided(s.writers[e.writer].decide, e.before) == Replace(e.after)
  }

  ghost predicate Chain(s: System, first: Payload) {
    && InLine(first, s.history, s.stored)
    && (forall e <- s.history :: Told(s, e))
    && (forall i, j | 0 <= i < j < |s.history| :: s.history[i].writer != s.history[j].writer)
  }

  /** One write more, on what is stored. */
  lemma OneMoreInLine(first: Payload, history: seq<Entry>, stored: Payload, e: Entry)
    requires InLine(first, history, Some(stored)) && e.before == Read(stored)
    requires e.after.Some? ==> e.after.value.version == e.before.version + 1
    ensures InLine(first, history + [e], if e.after.Some? then Some(Payload(e.after.value, true)) else None)
  {
    forall i | 0 <= i < |history + [e]| ensures Follows(first, history + [e], i) {
      if i < |history| {
        assert Follows(first, history, i);
      }
    }
  }

  /** A call some writer read is what this many writes had left. */
  ghost predicate SeenAfter(s: System, first: Payload, seen: Call, writes: nat) {
    writes <= |s.history| && CallAfter(first, s.history, writes) == Some(seen) && seen.version == Read(first).version + writes
  }

  ghost predicate WriterFits(s: System, first: Payload, writer: nat)
    requires writer in s.writers
  {
    match s.writers[writer].phase
    case Ready(attempt) => 1 <= attempt <= WRITE_ATTEMPTS && s.writers[writer].arrived + attempt - 1 <= |s.history|
    case Holding(attempt, before) =>
      && 1 <= attempt <= WRITE_ATTEMPTS
      && Decided(s.writers[writer].decide, before).Replace?
      && exists writes :: SeenAfter(s, first, before, writes) && s.writers[writer].arrived + attempt - 1 <= writes
    case Done(Changed(before, after)) => exists i | 0 <= i < |s.history| :: s.history[i] == Entry(writer, before, after)
    case Done(Unchanged(call)) =>
      Decided(s.writers[writer].decide, call).Keep? && exists writes :: SeenAfter(s, first, call, writes)
    case Done(NotThere) => s.stored.None?
    case Done(GaveUp) => |s.history| >= s.writers[writer].arrived + WRITE_ATTEMPTS
  }

  ghost predicate Valid(s: System, first: Payload) {
    Chain(s, first) && forall writer <- s.writers :: WriterFits(s, first, writer)
  }

  lemma OthersStay(s: System, n: System, first: Payload, writer: nat, more: seq<Entry>)
    requires Valid(s, first) && n.history == s.history + more
    requires writer in s.writers && writer in n.writers && n.writers[writer] == s.writers[writer]
    requires s.stored.None? ==> n.stored.None?
    ensures WriterFits(n, first, writer)
  {
    assert WriterFits(s, first, writer);
    match s.writers[writer].phase
    case Holding(attempt, before) =>
      var writes :| SeenAfter(s, first, before, writes) && s.writers[writer].arrived + attempt - 1 <= writes;
      assert SeenAfter(n, first, before, writes);
    case Done(Changed(before, after)) =>
      var i :| 0 <= i < |s.history| && s.history[i] == Entry(writer, before, after);
      assert n.history[i] == s.history[i];
    case Done(Unchanged(call)) =>
      var writes :| SeenAfter(s, first, call, writes);
      assert SeenAfter(n, first, call, writes);
    case _ =>
  }

  /** A writer that has not written moves on, and nothing is written. */
  lemma MovingOnKeeps(s: System, first: Payload, writer: nat, phase: Phase)
    requires Valid(s, first) && writer in s.writers
    requires !s.writers[writer].phase.Done?
    requires WriterFits(InPhase(s, writer, phase), first, writer)
    ensures Valid(InPhase(s, writer, phase), first)
  {
    var n := InPhase(s, writer, phase);
    assert forall e <- n.history :: Told(s, e);
    forall other <- n.writers ensures WriterFits(n, first, other) {
      if other != writer {
        OthersStay(s, n, first, other, []);
      }
    }
  }

  lemma FetchKeeps(s: System, first: Payload, writer: nat, attempt: nat)
    requires Valid(s, first) && writer in s.writers && s.writers[writer].phase == Ready(attempt)
    ensures Valid(Fetched(s, writer, attempt), first)
  {
    assert WriterFits(s, first, writer);
    if s.stored.None? {
      MovingOnKeeps(s, first, writer, Done(NotThere));
    } else {
      var before := Read(s.stored.value);
      assert SeenAfter(s, first, before, |s.history|);
      var phase := if Decided(s.writers[writer].decide, before).Keep? then Done(Unchanged(before)) else Holding(attempt, before);
      assert SeenAfter(InPhase(s, writer, phase), first, before, |s.history|);
      MovingOnKeeps(s, first, writer, phase);
    }
  }

  lemma PutKeeps(s: System, first: Payload, writer: nat, attempt: nat, before: Call)
    requires Valid(s, first) && writer in s.writers && s.writers[writer].phase == Holding(attempt, before)
    ensures Valid(PutBack(s, writer, attempt, before), first)
  {
    assert WriterFits(s, first, writer);
    var writes :| SeenAfter(s, first, before, writes) && s.writers[writer].arrived + attempt - 1 <= writes;
    var (_, reply) := WriteScript(s.stored, before.version, Decided(s.writers[writer].decide, before).after);
    match reply
    case Missing => MovingOnKeeps(s, first, writer, Done(NotThere));
    case Conflict => MovingOnKeeps(s, first, writer, if attempt < WRITE_ATTEMPTS then Ready(attempt + 1) else Done(GaveUp));
    case Written => WriteKeeps(s, first, writer, attempt, before);
  }

  /** A writer who holds what it read has written nothing yet. */
  lemma WriterIsNew(s: System, first: Payload, writer: nat)
    requires Chain(s, first) && writer in s.writers && s.writers[writer].phase.Holding?
    ensures forall e <- s.history :: e.writer != writer
  {
    forall e <- s.history ensures e.writer != writer {
      assert Told(s, e);
    }
  }

  lemma WriteKeeps(s: System, first: Payload, writer: nat, attempt: nat, before: Call)
    requires Valid(s, first) && writer in s.writers && s.writers[writer].phase == Holding(attempt, before)
    requires s.stored.Some? && Read(s.stored.value).version == before.version
    ensures Valid(PutBack(s, writer, attempt, before), first)
  {
    assert WriterFits(s, first, writer);
    var writes :| SeenAfter(s, first, before, writes) && s.writers[writer].arrived + attempt - 1 <= writes;
    assert before == Read(s.stored.value);
    var n := PutBack(s, writer, attempt, before);
    var after := Decided(s.writers[writer].decide, before).after;
    assert n.history == s.history + [Entry(writer, before, after)];
    OneMoreInLine(first, s.history, s.stored.value, Entry(writer, before, after));
    WriterIsNew(s, first, writer);
    forall other <- n.writers ensures WriterFits(n, first, other) {
      if other != writer {
        OthersStay(s, n, first, other, [Entry(writer, before, after)]);
      } else {
        assert n.history[|s.history|] == Entry(writer, before, after);
      }
    }
  }

  lemma StepKeeps(s: System, first: Payload, step: Step)
    requires Valid(s, first)
    ensures Valid(Next(s, step), first)
  {
    var n := Next(s, step);
    match step
    case Fetch(writer) =>
      if writer in s.writers && s.writers[writer].phase.Ready? {
        FetchKeeps(s, first, writer, s.writers[writer].phase.attempt);
      }
    case Put(writer) =>
      if writer in s.writers && s.writers[writer].phase.Holding? {
        PutKeeps(s, first, writer, s.writers[writer].phase.attempt, s.writers[writer].phase.before);
      }
    case _ =>
      forall e <- n.history ensures Told(n, e) {
        assert Told(s, e);
      }
      forall other <- n.writers ensures WriterFits(n, first, other) {
        if other in s.writers {
          OthersStay(s, n, first, other, []);
        }
      }
  }

  lemma {:induction false} RunKeeps(first: Payload, steps: seq<Step>)
    ensures Valid(Run(Start(first), steps), first)
    decreases |steps|
  {
    if steps != [] {
      RunKeeps(first, steps[..|steps| - 1]);
      StepKeeps(Run(Start(first), steps[..|steps| - 1]), first, steps[|steps| - 1]);
    }
  }

  // What holds of every run ---------------------------------------------------------------

  /** The decisions of the writes that landed, in order. */
  function Decisions(s: System): seq<Decide>
    requires forall e <- s.history :: e.writer in s.writers
  {
    seq(|s.history|, i requires 0 <= i < |s.history| => s.writers[s.history[i].writer].decide)
  }

  /**
    However the writers interleave, what is stored is what their decisions
    come to when each is made on what the one before it left; the decisions
    are those of exactly the writers who were told theirs was written.
   */
  lemma WritesHappenOneByOne(first: Payload, steps: seq<Step>)
    ensures var s := Run(Start(first), steps);
      && (forall e <- s.history :: e.writer in s.writers)
      && (forall writes | 0 <= writes <= |s.history| ::
            OneByOne(Read(first), Decisions(s)[..writes]) == CallAfter(first, s.history, writes))
      && (s.stored.Some? ==> OneByOne(Read(first), Decisions(s)) == Some(Read(s.stored.value)))
  {
    RunKeeps(first, steps);
    var s := Run(Start(first), steps);
    forall e <- s.history ensures e.writer in s.writers {
      assert Told(s, e);
    }
    forall writes | 0 <= writes <= |s.history|
      ensures OneByOne(Read(first), Decisions(s)[..writes]) == CallAfter(first, s.history, writes)
    {
      FirstWrites(s, first, writes);
    }
    assert Decisions(s)[..|s.history|] == Decisions(s);
  }

  lemma {:induction false} FirstWrites(s: System, first: Payload, writes: nat)
    requires Valid(s, first) && writes <= |s.history| && forall e <- s.history :: e.writer in s.writers
    ensures OneByOne(Read(first), Decisions(s)[..writes]) == CallAfter(first, s.history, writes)
  {
    if writes > 0 {
      FirstWrites(s, first, writes - 1);
      assert Decisions(s)[..writes][..writes - 1] == Decisions(s)[..writes - 1];
      assert Follows(first, s.history, writes - 1) && Told(s, s.history[writes - 1]);
    }
  }

  /**
    A writer that is told its change was written wrote it once; one that was
    told anything else, or nothing yet, wrote nothing. One that gave up was
    overtaken by ten writes of others.
   */
  lemma NoUpdateIsLost(first: Payload, steps: seq<Step>, writer: nat)
    requires writer in Run(Start(first), steps).writers
    ensures var s := Run(Start(first), steps);
      var phase := s.writers[writer].phase;
      && ((exists i | 0 <= i < |s.history| :: s.history[i].writer == writer) <==> phase.Done? && phase.outcome.Changed?)
      && (phase.Done? && phase.outcome.Changed? ==>
            exists i | 0 <= i < |s.history| ::
              && s.history[i] == Entry(writer, phase.outcome.before, phase.outcome.after)
              && forall j | 0 <= j < |s.history| :: s.history[j].writer == writer ==> j == i)
      && (phase == Done(GaveUp) ==> |s.history| >= s.writers[writer].arrived + WRITE_ATTEMPTS)
  {
    RunKeeps(first, steps);
    var s := Run(Start(first), steps);
    assert WriterFits(s, first, writer);
    var phase := s.writers[writer].phase;
    if i :| 0 <= i < |s.history| && s.history[i].writer == writer {
      assert Told(s, s.history[i]);
      assert forall j | 0 <= j < |s.history| :: s.history[j].writer == writer ==> j == i;
    }
  }

  /** The call a writer worked on, if it read one. */
  function CallRead(phase: Phase): Option<Call> {
    match phase
    case Holding(_, before) => Some(before)
    case Done(Changed(before, _)) => Some(before)
    case Done(Unchanged(call)) => Some(call)
    case _ => None
  }

  /** Two writers who read the same version read the same call. */
  lemma VersionTellsTheCall(first: Payload, steps: seq<Step>, one: nat, other: nat)
    requires var s := Run(Start(first), steps); one in s.writers && other in s.writers
    ensures var s := Run(Start(first), steps);
      var mine, theirs := CallRead(s.writers[one].phase), CallRead(s.writers[other].phase);
      mine.Some? && theirs.Some? && mine.value.version == theirs.value.version ==> mine == theirs
  {
    hide Valid, Next, WriterFits;
    RunKeeps(first, steps);
    var s := Run(Start(first), steps);
    if CallRead(s.writers[one].phase).Some? && CallRead(s.writers[other].phase).Some? {
      ReadIsSeen(s, first, one);
      ReadIsSeen(s, first, other);
    }
  }

  lemma ReadIsSeen(s: System, first: Payload, writer: nat)
    requires Valid(s, first) && writer in s.writers && CallRead(s.writers[writer].phase).Some?
    ensures exists writes :: SeenAfter(s, first, CallRead(s.writers[writer].phase).value, writes)
  {
    assert WriterFits(s, first, writer);
    var phase := s.writers[writer].phase;
    if phase.Done? && phase.outcome.Changed? {
      var i :| 0 <= i < |s.history| && s.history[i] == Entry(writer, phase.outcome.before, phase.outcome.after);
      assert Follows(first, s.history, i);
      assert SeenAfter(s, first, phase.outcome.before, i);
    }
  }

  /** A call that was removed never comes back, and nothing more is written. */
  lemma {:induction false} RemovedStaysRemoved(s: System, steps: seq<Step>)
    requires s.stored.None?
    ensures var n := Run(s, steps); n.stored.None? && n.history == s.history
    decreases |steps|
  {
    if steps != [] {
      RemovedStaysRemoved(s, steps[..|steps| - 1]);
    }
  }

  /**
    A writer that decided on a call lands exactly if what is stored has the
    version it read: then what it decided is stored, one version on, or nothing
    is if it decided to remove it. Overtaken, it tries again, or gives up after
    its last attempt; nothing is written then.
   */
  lemma PutsLandExactly(s: System, first: Payload, writer: nat)
    requires Valid(s, first) && writer in s.writers && s.writers[writer].phase.Holding? && s.stored.Some?
    ensures var n, before, attempt := Next(s, Put(writer)), s.writers[writer].phase.before, s.writers[writer].phase.attempt;
      var draft := s.writers[writer].decide(before);
      var after := if draft.None? then None else Some(draft.value.(version := before.version + 1));
      && writer in n.writers
      && if Read(s.stored.value).version == before.version then
           && n.stored == (if after.Some? then Some(Payload(after.value, true)) else None)
           && n.history == s.history + [Entry(writer, before, after)]
           && n.writers[writer].phase == Done(Changed(before, after))
         else
           && n.stored == s.stored && n.history == s.history
           && n.writers[writer].phase == if attempt < WRITE_ATTEMPTS then Ready(attempt + 1) else Done(GaveUp)
  {
    assert WriterFits(s, first, writer);
  }

  /** A call stays stored until its time runs out or a writer that decided so removes it. */
  lemma {:induction false} RecordsStay(first: Payload, steps: seq<Step>)
    ensures var s := Run(Start(first), steps);
      s.stored.None? ==>
        || (exists i | 0 <= i < |steps| :: steps[i].RunOut?)
        || (s.history != [] && s.history[|s.history| - 1].after.None?)
    decreases |steps|
  {
    if steps != [] {
      var shorter, last := steps[..|steps| - 1], steps[|steps| - 1];
      RecordsStay(first, shorter);
      RunKeeps(first, shorter);
      var s := Run(Start(first), shorter);
      if s.stored.None? {
        RemovedStaysRemoved(s, [last]);
        assert [last][..0] == [] && Run(s, []) == s;
        if i :| 0 <= i < |shorter| && shorter[i].RunOut? {
          assert steps[i].RunOut?;
        }
      } else if last.Put? && last.writer in s.writers && s.writers[last.writer].phase.Holding? {
        PutsLandExactly(s, first, last.writer);
      } else if last.RunOut? {
        assert steps[|steps| - 1].RunOut?;
      }
    }
  }

  // One writer, in place --------------------------------------------------------------------

  /** The stored record, and the writes that have landed on it since `first`. */
  class Record {
    var stored: Option<Payload>
    ghost var first: Payload
    ghost var history: seq<Entry>

    ghost predicate Valid()
      reads this
    {
      InLine(first, history, stored)
    }

    /** A call is stored for the first time, at version 1. */
    constructor (call: Call)
      ensures Valid() && stored == Some(Payload(call.(version := 1), true)) && history == []
    {
      var created := Payload(call.(version := 1), true);
      stored, first, history := Some(created), created, [];
    }

    /** The script runs in one step. */
    method EvalScript(writer: nat, before: Call, next: Option<Call>) returns (reply: Reply)
      requires Valid() && (next.Some? ==> next.value.version == before.version + 1)
      requires stored.Some? && Read(stored.value).version == before.version ==> Read(stored.value) == before
      modifies this
      ensures Valid() && first == old(first)
      ensures (stored, reply) == WriteScript(old(stored), before.version, next)
      ensures history == old(history) + if reply.Written? then [Entry(writer, before, next)] else []
    {
      if stored.None? { return Missing; }
      if Read(stored.value).version != before.version { return Conflict; }
      OneMoreInLine(first, history, stored.value, Entry(writer, before, next));
      history := history + [Entry(writer, before, next)];
      stored := if next.Some? then Some(Payload(next.value, true)) else None;
      return Written;
    }

    /** Any number of other writers get in between, and the record may run out. */
    method OthersWrite(writer: nat)
      requires Valid()
      modifies this
      ensures Valid() && first == old(first) && old(history) <= history
      ensures forall i | |old(history)| <= i < |history| :: history[i].writer != writer
      ensures old(stored).None? ==> stored.None? && history == old(history)
    {
      var times: nat := *;
      while times > 0
        invariant Valid() && first == old(first) && old(history) <= history
        invariant forall i | |old(history)| <= i < |history| :: history[i].writer != writer
        invariant old(stored).None? ==> stored.None? && history == old(history)
      {
        if stored.Some? {
          var before := Read(stored.value);
          var other: nat := *;
          if other == writer { other := writer + 1; }
          var next: Option<Call> :| next.Some? ==> next.value.version == before.version + 1;
          var _ := EvalScript(other, before, next);
        }
        times := times - 1;
      }
      if * { stored := None; }
    }

    /**
      Change the call from what it is now. A change that is reported landed
      once, on the call it was decided on; anything else that is reported
      means this writer wrote nothing, and giving up that ten writes of others
      landed meanwhile.
     */
    method UpdateCallState(writer: nat, decide: Decide) returns (outcome: Outcome)
      requires Valid()
      modifies this
      ensures Valid() && first == old(first) && old(history) <= history
      ensures outcome.Changed? ==>
        && Decided(decide, outcome.before) == Replace(outcome.after)
        && exists i | |old(history)| <= i < |history| ::
             && history[i] == Entry(writer, outcome.before, outcome.after)
             && forall j | |old(history)| <= j < |history| && j != i :: history[j].writer != writer
      ensures outcome.Changed? ==> stored == if outcome.after.Some? then Some(Payload(outcome.after.value, true)) else None
      ensures !outcome.Changed? ==> forall i | |old(history)| <= i < |history| :: history[i].writer != writer
      ensures outcome.Unchanged? ==>
        && Decided(decide, outcome.call).Keep?
        && exists writes | |old(history)| <= writes <= |history| :: CallAfter(first, history, writes) == Some(outcome.call)
      ensures outcome.NotThere? ==> stored.None?
      ensures outcome.GaveUp? ==> |history| >= |old(history)| + WRITE_ATTEMPTS
    {
      var attempt := 1;
      while attempt <= WRITE_ATTEMPTS
        invariant Valid() && first == old(first) && old(history) <= history
        invariant forall i | |old(history)| <= i < |history| :: history[i].writer != writer
        invariant 1 <= attempt && |history| >= |old(history)| + attempt - 1
      {
        OthersWrite(writer);
        if stored.None? { return NotThere; }
        var before := Read(stored.value);
        var decision := Decided(decide, before);
        if decision.Keep? { return Unchanged(before); }

        ghost var seen := history;
        OthersWrite(writer);
        SameVersionSameCall(first, seen, history, stored, before);
        var reply := EvalScript(writer, before, decision.after);
        match reply {
          case Written =>
            assert history[|history| - 1] == Entry(writer, before, decision.after);
            return Changed(before, decision.after);
          case Missing => return NotThere;
          case Conflict =>
        }
        attempt := attempt + 1;
      }
      return GaveUp;
    }
  }

  /** What was read before more writes landed is what is stored only if none did. */
  lemma SameVersionSameCall(first: Payload, seen: seq<Entry>, history: seq<Entry>, stored: Option<Payload>, before: Call)
    requires InLine(first, history, stored) && seen <= history
    requires CallAfter(first, seen, |seen|) == Some(before) && before.version == Read(first).version + |seen|
    ensures stored.Some? && Read(stored.value).version == before.version ==> Read(stored.value) == before && seen == history
  {
  }
}
