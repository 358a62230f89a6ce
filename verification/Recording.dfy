/**
  The copies, plays and deletions of one recording
  (apps/api/src/calls/recording.service.ts) as a transition system: one step
  per guarded update of the row, per call of the media store and per call of
  the provider. Any number of workers interleave. Calls of the store and of
  the provider may fail; updates of the row are made or refused by their guard.
 */
module Recording {
  import opened Options
  import opened RecordingRules

  const DELETE_ATTEMPTS: nat := 3

  datatype Deletion = Deleted | AlreadyDeleted | StoreRefused | FellOut

  /** What a worker does next; `claim` is the moment its claim on the copy was written. */
  datatype Phase =
    // A copy, by an event or the sweep.
    | Plans(seen: Row)
    | Fetches(claim: Time)
    // A play of a recording that has no copy.
    | PlayFetches
    // Either of them.
    | Claims(fetched: bool)
    | Puts(claim: Time)
    | Records(claim: Time)
    | Discards(claim: Time)
    | Releases(claim: Time)
    // A deletion.
    | Checks(seen: Row, attempt: nat)
    | Empties(seen: Row, attempt: nat)
    | Marks(seen: Row, attempt: nat)
    | Rereads(attempt: nat)
    | DeletionDone(outcome: Deletion)
    // The original at the provider.
    | DeletesAtProvider
    | RecordsProviderDeletion
    | Done

  datatype System = System(
    key: Key,
    row: Row,
    store: set<Key>,
    provider: bool,
    now: Time,
    workers: map<nat, Phase>)

  datatype Step =
    | CopyStarts(worker: nat)
    | PlayStarts(worker: nat)
    | DeletionStarts(worker: nat)
    | GoesOn(worker: nat, ok: bool, reason: Reason)
    | TimePasses(millis: nat)

  /** A recording the provider just announced. */
  function Start(key: Key): System {
    System(key, Row(None, None, false, false, None), {}, true, 0, map[])
  }

  function To(s: System, worker: nat, phase: Phase): System {
    s.(workers := s.workers[worker := phase])
  }

  function Next(s: System, step: Step): System {
    match step
    case CopyStarts(worker) => if worker in s.workers then s else To(s, worker, Plans(s.row))
    case PlayStarts(worker) => if worker in s.workers then s else To(s, worker, PlayBegins(s.row, s.store))
    case DeletionStarts(worker) => if worker in s.workers then s else To(s, worker, Checks(s.row, 1))
    case GoesOn(worker, ok, reason) => if worker in s.workers then Moved(s, worker, s.workers[worker], ok, reason) else s
    case TimePasses(millis) => s.(now := s.now + millis)
  }

  /** A play reads the store if there is a copy; one that is missing is played from the provider after all. */
  function PlayBegins(row: Row, store: set<Key>): Phase {
    var source := PlaybackSource(row);
    var fallback := if source.FromStore? && source.key !in store then PlaybackSource(row.(objectKey := None)) else source;
    if fallback.FromProvider? then PlayFetches else Done
  }

  function Moved(s: System, worker: nat, phase: Phase, ok: bool, reason: Reason): System {
    match phase
    case Plans(seen) =>
      To(s, worker,
         match PlanCopy(seen)
         case Fetch => Claims(false)
         case Skip(deleteAtProvider) => if deleteAtProvider && ok then DeletesAtProvider else Done)
    case Claims(fetched) =>
      if Claimable(s.row, s.now) then
        To(s.(row := s.row.(copyStartedAt := Some(s.now))), worker, if fetched then Puts(s.now) else Fetches(s.now))
      else To(s, worker, Done)
    case Fetches(claim) => To(s, worker, if s.provider && ok then Puts(claim) else Releases(claim))
    case PlayFetches => To(s, worker, if s.provider && ok then Claims(true) else Done)
    case Puts(claim) =>
      if ok then To(s.(store := s.store + {s.key}), worker, Records(claim)) else To(s, worker, Releases(claim))
    case Records(claim) =>
      if s.row.deleted then To(s, worker, Discards(claim))
      else To(s.(row := s.row.(objectKey := Some(s.key))), worker, DeletesAtProvider)
    case Discards(claim) => To(if ok then s.(store := s.store - {s.key}) else s, worker, Releases(claim))
    case Releases(claim) =>
      To(if s.row.copyStartedAt == Some(claim) then s.(row := s.row.(copyStartedAt := None)) else s, worker, Done)
    case DeletesAtProvider =>
      if ok then To(s.(provider := false), worker, RecordsProviderDeletion) else To(s, worker, Done)
    case RecordsProviderDeletion => To(s.(row := s.row.(providerDeleted := true)), worker, Done)
    case Done => s
    case _ => DeletionMoved(s, worker, phase, ok, reason)
  }

  /** One step of `deleteAudio`. */
  function DeletionMoved(s: System, worker: nat, phase: Phase, ok: bool, reason: Reason): System {
    match phase
    case Checks(seen, attempt) =>
      To(s, worker,
         if seen.deleted then DeletionDone(AlreadyDeleted)
         else if seen.objectKey.Some? then Empties(seen, attempt) else Marks(seen, attempt))
    case Empties(seen, attempt) =>
      if ok && seen.objectKey.Some? then To(s.(store := s.store - {seen.objectKey.value}), worker, Marks(seen, attempt))
      else To(s, worker, DeletionDone(StoreRefused))
    case Marks(seen, attempt) =>
      if !s.row.deleted && s.row.objectKey == seen.objectKey then
        To(s.(row := s.row.(deleted := true, reason := Some(reason), objectKey := None)), worker,
           if !seen.providerDeleted && ok then DeletesAtProvider else DeletionDone(Deleted))
      else To(s, worker, Rereads(attempt))
    case Rereads(attempt) =>
      To(s, worker, if attempt < DELETE_ATTEMPTS then Checks(s.row, attempt + 1) else DeletionDone(FellOut))
    case _ => s
  }

  function Run(s: System, steps: seq<Step>): System {
    if steps == [] then s else Next(Run(s, steps[..|steps| - 1]), steps[|steps| - 1])
  }

  // What holds whatever fails ---------------------------------------------------------------

  /** The row a deletion read is an earlier stage of the row, or this one; its attempts so far each found the row moved on. */
  ghost predicate SeenFits(s: System, seen: Row, attempt: nat) {
    && Stage(seen) <= Stage(s.row)
    && 1 <= attempt <= DELETE_ATTEMPTS
    && attempt <= Stage(seen) + 1
    && (seen.deleted ==> seen.objectKey.None?)
    && (seen.objectKey.Some? ==> seen.objectKey == Some(s.key))
  }

  ghost predicate PhaseFits(s: System, phase: Phase) {
    match phase
    case Plans(seen) => Stage(seen) <= Stage(s.row)
    case Records(_) => Stage(s.row) == 0 ==> s.key in s.store
    case Discards(_) => s.row.deleted
    case DeletesAtProvider => Stage(s.row) > 0
    case RecordsProviderDeletion => Stage(s.row) > 0 && !s.provider
    case Checks(seen, attempt) => SeenFits(s, seen, attempt)
    case Empties(seen, attempt) => SeenFits(s, seen, attempt) && seen.objectKey.Some? && !seen.deleted
    case Marks(seen, attempt) => SeenFits(s, seen, attempt) && !seen.deleted
    case Rereads(attempt) => 1 <= attempt <= DELETE_ATTEMPTS && attempt <= Stage(s.row)
    case DeletionDone(outcome) => outcome != FellOut && (outcome.Deleted? || outcome.AlreadyDeleted? ==> s.row.deleted)
    case _ => true
  }

  /** A deletion has emptied the store and is about to mark the row. */
  ghost predicate DeletionUnderWay(s: System) {
    exists worker :: worker in s.workers && s.workers[worker].Marks? && s.workers[worker].seen.objectKey.Some?
  }

  ghost predicate RowFits(s: System) {
    && (s.row.objectKey.Some? ==> s.row.objectKey == Some(s.key))
    && (s.row.deleted ==> s.row.objectKey.None?)
    && (s.row.providerDeleted ==> !s.provider)
    && (!s.provider ==> Stage(s.row) > 0)
    && s.store <= {s.key}
  }

  ghost predicate Safe(s: System) {
    && RowFits(s)
    && (forall worker <- s.workers :: PhaseFits(s, s.workers[worker]))
    && (Stage(s.row) == 1 ==> s.key in s.store || DeletionUnderWay(s))
  }

  /** Workers that do not move fit a row that moved on. */
  lemma OthersFit(s: System, n: System, worker: nat)
    requires Safe(s) && worker in s.workers && n.key == s.key && Stage(s.row) <= Stage(n.row)
    requires (Stage(n.row) == 0 ==> s.store <= n.store) && (!s.provider ==> !n.provider)
    ensures PhaseFits(n, s.workers[worker])
  {
    assert PhaseFits(s, s.workers[worker]);
  }

  /** A deletion that had emptied the store is still about to mark the row, unless it is the one that moves. */
  lemma StillUnderWay(s: System, n: System, worker: nat)
    requires DeletionUnderWay(s)
    requires forall other | other in s.workers && other != worker :: other in n.workers && n.workers[other] == s.workers[other]
    requires worker in s.workers ==>
      !s.workers[worker].Marks? || (worker in n.workers && n.workers[worker] == s.workers[worker])
    ensures DeletionUnderWay(n)
  {
    var marking :| marking in s.workers && s.workers[marking].Marks? && s.workers[marking].seen.objectKey.Some?;
    assert marking in n.workers && n.workers[marking] == s.workers[marking];
  }

  /** One worker moves: the row moves on, the worker fits it, and a copy that is recorded is there or being deleted. */
  lemma MoveKeepsSafe(s: System, n: System, worker: nat)
    requires Safe(s) && RowFits(n) && n.key == s.key && Stage(s.row) <= Stage(n.row)
    requires (Stage(n.row) == 0 ==> s.store <= n.store) && (!s.provider ==> !n.provider)
    requires worker in n.workers && n.workers == s.workers[worker := n.workers[worker]]
    requires PhaseFits(n, n.workers[worker])
    requires Stage(n.row) == 1 ==> s.key in n.store || DeletionUnderWay(n)
    ensures Safe(n)
  {
    forall other <- n.workers ensures PhaseFits(n, n.workers[other]) {
      if other != worker {
        OthersFit(s, n, other);
      }
    }
  }

  lemma CopyMoveIsSafe(s: System, worker: nat, phase: Phase, ok: bool, reason: Reason)
    requires Safe(s) && worker in s.workers && s.workers[worker] == phase
    requires !phase.Checks? && !phase.Empties? && !phase.Marks? && !phase.Rereads? && !phase.DeletionDone? && !phase.Done?
    ensures Safe(Moved(s, worker, phase, ok, reason))
  {
    hide Claimable, DeletionMoved;
    var n := Moved(s, worker, phase, ok, reason);
    assert n.workers == s.workers[worker := n.workers[worker]];
    CopyMoveFits(s, worker, phase, ok, reason);
    hide PhaseFits, Moved;
    if DeletionUnderWay(s) {
      StillUnderWay(s, n, worker);
    }
    MoveKeepsSafe(s, n, worker);
  }

  lemma CopyMoveFits(s: System, worker: nat, phase: Phase, ok: bool, reason: Reason)
    requires Safe(s) && worker in s.workers && s.workers[worker] == phase
    requires !phase.Checks? && !phase.Empties? && !phase.Marks? && !phase.Rereads? && !phase.DeletionDone? && !phase.Done?
    ensures var n := Moved(s, worker, phase, ok, reason);
      && worker in n.workers
      && PhaseFits(n, n.workers[worker])
      && RowFits(n) && n.key == s.key
      && Stage(s.row) <= Stage(n.row)
      && (Stage(n.row) == 0 ==> s.store <= n.store) && (!s.provider ==> !n.provider)
      && (Stage(n.row) == 1 && s.key in s.store ==> s.key in n.store)
      && (Stage(n.row) == 1 && Stage(s.row) == 0 ==> s.key in n.store)
  {
    hide DeletionUnderWay, DeletionMoved, Claimable;
    assert PhaseFits(s, phase);
    if phase.Plans? {
      assert PlanCopy(phase.seen) == Skip(true) ==> Stage(phase.seen) > 0;
    }
  }

  lemma DeletionMoveIsSafe(s: System, worker: nat, phase: Phase, ok: bool, reason: Reason)
    requires Safe(s) && worker in s.workers && s.workers[worker] == phase
    requires phase.Checks? || phase.Empties? || phase.Marks? || phase.Rereads?
    ensures Safe(DeletionMoved(s, worker, phase, ok, reason))
  {
    var n := DeletionMoved(s, worker, phase, ok, reason);
    assert PhaseFits(s, phase);
    if DeletionUnderWay(s) && !phase.Marks? {
      StillUnderWay(s, n, worker);
    }
    if phase.Empties? {
      assert n.workers[worker].Marks? ==> DeletionUnderWay(n);
    }
    if phase.Marks? && Stage(s.row) == 1 && Stage(phase.seen) == 0 && DeletionUnderWay(s) {
      var marking :| marking in s.workers && s.workers[marking].Marks? && s.workers[marking].seen.objectKey.Some?;
      assert marking != worker && marking in n.workers;
    }
    MoveKeepsSafe(s, n, worker);
  }

  lemma StepIsSafe(s: System, step: Step)
    requires Safe(s)
    ensures Safe(Next(s, step))
  {
    hide Moved, PlayBegins;
    var n := Next(s, step);
    match step
    case GoesOn(worker, ok, reason) =>
      if worker in s.workers { MoveIsSafe(s, worker, ok, reason); }
    case TimePasses(millis) =>
      forall worker <- n.workers ensures PhaseFits(n, n.workers[worker]) {
        OthersFit(s, n, worker);
      }
      if DeletionUnderWay(s) {
        assert DeletionUnderWay(n);
      }
    case PlayStarts(worker) =>
      assert PlayBegins(s.row, s.store).PlayFetches? || PlayBegins(s.row, s.store).Done? by { PlayOnlyFetches(s.row, s.store); }
      if worker !in s.workers { NewcomerIsSafe(s, worker, PlayBegins(s.row, s.store)); }
    case CopyStarts(worker) =>
      if worker !in s.workers { NewcomerIsSafe(s, worker, Plans(s.row)); }
    case DeletionStarts(worker) =>
      if worker !in s.workers { NewcomerIsSafe(s, worker, Checks(s.row, 1)); }
  }

  lemma PlayOnlyFetches(row: Row, store: set<Key>)
    ensures PlayBegins(row, store).PlayFetches? || PlayBegins(row, store).Done?
  {
  }

  lemma NewcomerIsSafe(s: System, worker: nat, phase: Phase)
    requires Safe(s) && worker !in s.workers && PhaseFits(s, phase)
    ensures Safe(To(s, worker, phase))
  {
    var n := To(s, worker, phase);
    if DeletionUnderWay(s) {
      StillUnderWay(s, n, worker);
    }
    MoveKeepsSafe(s, n, worker);
  }

  lemma MoveIsSafe(s: System, worker: nat, ok: bool, reason: Reason)
    requires Safe(s) && worker in s.workers
    ensures Safe(Moved(s, worker, s.workers[worker], ok, reason))
  {
    hide Safe;
    var phase := s.workers[worker];
    if phase.Checks? || phase.Empties? || phase.Marks? || phase.Rereads? {
      DeletionMoveIsSafe(s, worker, phase, ok, reason);
    } else if !phase.DeletionDone? && !phase.Done? {
      CopyMoveIsSafe(s, worker, phase, ok, reason);
    }
  }

  lemma {:induction false} RunIsSafe(key: Key, steps: seq<Step>)
    ensures Safe(Run(Start(key), steps))
    decreases |steps|
  {
    hide Next;
    if steps != [] {
      RunIsSafe(key, steps[..|steps| - 1]);
      StepIsSafe(Run(Start(key), steps[..|steps| - 1]), steps[|steps| - 1]);
    }
  }

  /**
    Whatever fails and however workers meet: audio the provider was asked to
    delete is copied or was deleted on purpose, so a recording is never lost,
    and an undeleted recording has its bytes at the provider or in the store
    unless a deletion is about to mark it.
   */
  lemma AudioIsNeverLost(key: Key, steps: seq<Step>)
    ensures var s := Run(Start(key), steps);
      && (!s.provider || s.row.providerDeleted ==> s.row.objectKey == Some(key) || s.row.deleted)
      && !PlaybackSource(s.row).Lost?
      && (!s.row.deleted ==> s.provider || key in s.store || DeletionUnderWay(s))
      && (PlaybackSource(s.row).FromStore? ==> key in s.store || DeletionUnderWay(s))
  {
    hide Next;
    RunIsSafe(key, steps);
    RunKeepsKey(key, steps);
  }

  lemma {:induction false} RunKeepsKey(key: Key, steps: seq<Step>)
    ensures Run(Start(key), steps).key == key
    decreases |steps|
  {
    if steps != [] {
      RunKeepsKey(key, steps[..|steps| - 1]);
    }
  }

  /** A deletion ends with the recording deleted, or because the store refused; it never runs out of attempts. */
  lemma DeletionNeverFallsOut(key: Key, steps: seq<Step>, worker: nat)
    ensures var s := Run(Start(key), steps);
      worker in s.workers && s.workers[worker].DeletionDone? ==>
        && s.workers[worker].outcome != FellOut
        && (s.workers[worker].outcome != StoreRefused ==> s.row.deleted)
  {
    hide Next;
    RunIsSafe(key, steps);
    var s := Run(Start(key), steps);
    if worker in s.workers {
      assert PhaseFits(s, s.workers[worker]);
    }
  }
}
