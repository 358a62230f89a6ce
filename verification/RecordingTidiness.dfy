/**
  When the media store holds exactly what the row of a recording names. It
  does once nobody is at work on it, if no claim on the copy goes stale while
  its holder still runs, exactly when no drop of a copy made in vain failed.
 */
module RecordingTidiness {
  import opened Options
  import opened RecordingRules
  import opened Recording

  /** The claim a worker holds on the copy. */
  function ClaimOf(phase: Phase): Option<Time> {
    match phase
    case Fetches(claim) => Some(claim)
    case Puts(claim) => Some(claim)
    case Records(claim) => Some(claim)
    case Discards(claim) => Some(claim)
    case Releases(claim) => Some(claim)
    case _ => None
  }

  /** The worker read the row when it named a copy. */
  predicate SawCopy(phase: Phase) {
    match phase
    case Plans(seen) => seen.objectKey.Some?
    case Checks(seen, _) => seen.objectKey.Some?
    case Empties(seen, _) => seen.objectKey.Some?
    case Marks(seen, _) => seen.objectKey.Some?
    case _ => false
  }

  /** No claim is stale while its holder runs. */
  ghost predicate Timely(s: System) {
    forall worker <- s.workers :: ClaimOf(s.workers[worker]).Some? ==>
      ClaimOf(s.workers[worker]).value >= s.now - COPY_CLAIM_STALE
  }

  /** The step is the drop of a copy made in vain, and fails. */
  predicate FailsToDrop(s: System, step: Step) {
    step.GoesOn? && step.worker in s.workers && s.workers[step.worker].Discards? && !step.ok
  }

  ghost predicate TimelyThroughout(s: System, steps: seq<Step>) {
    forall i | 0 <= i < |steps| :: Timely(Run(s, steps[..i]))
  }

  ghost predicate DropFailed(s: System, steps: seq<Step>) {
    exists i | 0 <= i < |steps| :: FailsToDrop(Run(s, steps[..i]), steps[i])
  }

  ghost predicate OneHolder(s: System) {
    && (forall worker <- s.workers :: ClaimOf(s.workers[worker]).Some? ==> s.row.copyStartedAt == ClaimOf(s.workers[worker]))
    && (forall one <- s.workers, other <- s.workers ::
          ClaimOf(s.workers[one]).Some? && ClaimOf(s.workers[other]).Some? ==> one == other)
  }

  /** Once a copy was recorded, nobody holds the claim and nothing was left behind. */
  ghost predicate CopiedOnce(s: System, left: bool) {
    && (s.row.objectKey.Some? ==> !left && forall worker <- s.workers :: ClaimOf(s.workers[worker]).None?)
    && (forall one <- s.workers, other <- s.workers :: SawCopy(s.workers[one]) ==> !left && ClaimOf(s.workers[other]).None?)
  }

  /** A copy put the object there and is about to record it, or to drop it. */
  ghost predicate BeingKept(s: System) {
    exists worker :: worker in s.workers && (s.workers[worker].Records? || s.workers[worker].Discards?)
  }

  /** Who put the object there, or left it. */
  ghost predicate ObjectAccounted(s: System, left: bool) {
    && (s.key in s.store ==>
          || s.row.objectKey.Some?
          || left
          || BeingKept(s))
    && (forall worker <- s.workers ::
          && (s.workers[worker].Records? || s.workers[worker].Discards? ==> s.key in s.store)
          && (s.workers[worker].Marks? && SawCopy(s.workers[worker]) ==> s.key !in s.store))
    && (left ==> s.key in s.store && s.row.deleted)
    && (left ==> forall worker <- s.workers :: ClaimOf(s.workers[worker]).Some? ==> s.workers[worker].Releases?)
  }

  ghost predicate Tidy(s: System, left: bool) {
    OneHolder(s) && CopiedOnce(s, left) && ObjectAccounted(s, left)
  }

  lemma StillKept(s: System, n: System, worker: nat)
    requires worker in s.workers && !s.workers[worker].Records? && !s.workers[worker].Discards?
    requires worker in n.workers && n.workers == s.workers[worker := n.workers[worker]]
    ensures BeingKept(s) ==> BeingKept(n)
  {
    if BeingKept(s) {
      var keeper :| keeper in s.workers && (s.workers[keeper].Records? || s.workers[keeper].Discards?);
      assert keeper in n.workers && n.workers[keeper] == s.workers[keeper];
    }
  }

  /** A worker that holds no claim moves on and takes none, and touches neither the store nor the key on the row. */
  lemma BystanderKeepsTidy(s: System, n: System, worker: nat, left: bool)
    requires Tidy(s, left) && worker in s.workers && ClaimOf(s.workers[worker]).None?
    requires worker in n.workers && n.workers == s.workers[worker := n.workers[worker]]
    requires ClaimOf(n.workers[worker]).None? && !(n.workers[worker].Marks? && SawCopy(n.workers[worker]) && s.key in s.store)
    requires n.key == s.key && n.store == s.store && n.row.objectKey == s.row.objectKey
    requires n.row.copyStartedAt == s.row.copyStartedAt && n.row.deleted == s.row.deleted
    requires SawCopy(n.workers[worker]) ==> SawCopy(s.workers[worker]) || s.row.objectKey.Some?
    ensures Tidy(n, left)
  {
    StillKept(s, n, worker);
    hide BeingKept;
  }

  lemma ClaimKeepsTidy(s: System, worker: nat, fetched: bool, ok: bool, reason: Reason, left: bool)
    requires Safe(s) && Tidy(s, left) && Timely(s) && worker in s.workers && s.workers[worker] == Claims(fetched)
    ensures Tidy(Moved(s, worker, Claims(fetched), ok, reason), left)
  {
    hide DeletionUnderWay, RowFits, BeingKept;
    var n := Moved(s, worker, Claims(fetched), ok, reason);
    if Claimable(s.row, s.now) {
      TakingTheClaim(s, n, worker, left);
    } else {
      BystanderKeepsTidy(s, n, worker, left);
    }
  }

  lemma TakingTheClaim(s: System, n: System, worker: nat, left: bool)
    requires Safe(s) && Tidy(s, left) && Timely(s) && worker in s.workers && s.workers[worker].Claims?
    requires Claimable(s.row, s.now)
    requires worker in n.workers && n == To(s.(row := s.row.(copyStartedAt := Some(s.now))), worker, n.workers[worker])
    requires n.workers[worker] == Puts(s.now) || n.workers[worker] == Fetches(s.now)
    ensures Tidy(n, left)
  {
    hide DeletionUnderWay, RowFits;
    forall other <- s.workers ensures ClaimOf(s.workers[other]).None? && !SawCopy(s.workers[other]) {
      assert PhaseFits(s, s.workers[other]);
    }
    StillKept(s, n, worker);
    hide BeingKept, PhaseFits, Timely;
    assert forall other <- n.workers :: other == worker || n.workers[other] == s.workers[other];
  }

  /** The holder of the claim moves on, and keeps the claim or is done with it. */
  lemma HolderStaysAlone(s: System, n: System, worker: nat, left: bool, leaves: bool)
    requires OneHolder(s) && CopiedOnce(s, left) && worker in s.workers && ClaimOf(s.workers[worker]).Some?
    requires worker in n.workers && n.workers == s.workers[worker := n.workers[worker]]
    requires !SawCopy(n.workers[worker])
    requires ClaimOf(n.workers[worker]).Some? ==>
      ClaimOf(n.workers[worker]) == ClaimOf(s.workers[worker]) && n.row.copyStartedAt == s.row.copyStartedAt
    requires n.row.objectKey.Some? ==> !leaves && ClaimOf(n.workers[worker]).None?
    ensures OneHolder(n) && CopiedOnce(n, leaves)
  {
    assert !SawCopy(s.workers[worker]);
    forall other <- n.workers
      ensures !SawCopy(n.workers[other]) && (other != worker ==> ClaimOf(n.workers[other]).None?)
    {
      if other != worker {
        assert n.workers[other] == s.workers[other];
      }
    }
  }

  lemma HolderKeepsTidy(s: System, worker: nat, phase: Phase, ok: bool, reason: Reason, left: bool)
    requires Safe(s) && Tidy(s, left) && worker in s.workers && s.workers[worker] == phase && ClaimOf(phase).Some?
    ensures Tidy(Moved(s, worker, phase, ok, reason), left || (phase.Discards? && !ok))
  {
    hide DeletionUnderWay, BeingKept;
    assert PhaseFits(s, phase);
    var n, leaves := Moved(s, worker, phase, ok, reason), left || (phase.Discards? && !ok);
    HolderStaysAlone(s, n, worker, left, leaves);
    HolderAccounts(s, n, worker, phase, ok, reason, left);
  }

  lemma HolderAccounts(s: System, n: System, worker: nat, phase: Phase, ok: bool, reason: Reason, left: bool)
    requires Safe(s) && Tidy(s, left) && worker in s.workers && s.workers[worker] == phase && ClaimOf(phase).Some?
    requires n == Moved(s, worker, phase, ok, reason)
    ensures ObjectAccounted(n, left || (phase.Discards? && !ok))
  {
    hide DeletionUnderWay;
    assert PhaseFits(s, phase);
    var move := n.workers[worker];
    forall other <- s.workers
      ensures !SawCopy(s.workers[other]) && (other != worker ==> ClaimOf(s.workers[other]).None?)
    {
    }
    assert move.Records? || move.Discards? ==> BeingKept(n);
    if !phase.Records? && !phase.Discards? {
      StillKept(s, n, worker);
    }
    hide BeingKept, OneHolder, CopiedOnce, RowFits;
  }

  lemma DeletionKeepsTidy(s: System, worker: nat, phase: Phase, ok: bool, reason: Reason, left: bool)
    requires Safe(s) && Tidy(s, left) && worker in s.workers && s.workers[worker] == phase
    requires phase.Checks? || phase.Empties? || phase.Marks? || phase.Rereads?
    ensures Tidy(DeletionMoved(s, worker, phase, ok, reason), left)
  {
    hide DeletionUnderWay, BeingKept;
    assert PhaseFits(s, phase);
    var n := DeletionMoved(s, worker, phase, ok, reason);
    assert worker in n.workers && n.workers == s.workers[worker := n.workers[worker]];
    if phase.Empties? && ok {
      EmptyingKeepsTidy(s, n, worker, left);
    } else if phase.Marks? && !s.row.deleted && s.row.objectKey == phase.seen.objectKey {
      MarkingKeepsTidy(s, n, worker, left);
    } else {
      BystanderKeepsTidy(s, n, worker, left);
    }
  }

  lemma EmptyingKeepsTidy(s: System, n: System, worker: nat, left: bool)
    requires Safe(s) && Tidy(s, left) && worker in s.workers && s.workers[worker].Empties? && SawCopy(s.workers[worker])
    requires s.workers[worker].seen.objectKey == Some(s.key)
    requires var w := s.workers[worker]; n == To(s.(store := s.store - {s.key}), worker, Marks(w.seen, w.attempt))
    ensures Tidy(n, left)
  {
    hide DeletionUnderWay, BeingKept, RowFits, PhaseFits;
    assert !left && forall other <- s.workers :: ClaimOf(s.workers[other]).None?;
  }

  lemma MarkingKeepsTidy(s: System, n: System, worker: nat, left: bool)
    requires Safe(s) && Tidy(s, left) && worker in s.workers && s.workers[worker].Marks?
    requires !s.row.deleted && s.row.objectKey == s.workers[worker].seen.objectKey
    requires worker in n.workers && n.workers == s.workers[worker := n.workers[worker]]
    requires n.workers[worker].DeletesAtProvider? || n.workers[worker].DeletionDone?
    requires n.key == s.key && n.store == s.store && n.row.objectKey.None? && n.row.deleted
    requires n.row.copyStartedAt == s.row.copyStartedAt
    ensures Tidy(n, left)
  {
    hide DeletionUnderWay, PhaseFits;
    StillKept(s, n, worker);
    hide BeingKept;
  }

  lemma StepKeepsTidy(s: System, step: Step, left: bool)
    requires Safe(s) && Tidy(s, left) && Timely(s)
    ensures Tidy(Next(s, step), left || FailsToDrop(s, step))
  {
    hide Moved, PlayBegins, Safe, Timely;
    match step
    case GoesOn(worker, ok, reason) =>
      if worker in s.workers { MoveKeepsTidy(s, worker, ok, reason, left); }
    case TimePasses(millis) =>
      var n := Next(s, step);
      assert BeingKept(s) ==> BeingKept(n);
    case PlayStarts(worker) =>
      PlayOnlyFetches(s.row, s.store);
      if worker !in s.workers { NewcomerKeepsTidy(s, worker, PlayBegins(s.row, s.store), left); }
    case CopyStarts(worker) => if worker !in s.workers { NewcomerKeepsTidy(s, worker, Plans(s.row), left); }
    case DeletionStarts(worker) => if worker !in s.workers { NewcomerKeepsTidy(s, worker, Checks(s.row, 1), left); }
  }

  lemma NewcomerLeavesKept(s: System, worker: nat, phase: Phase)
    requires worker !in s.workers
    ensures BeingKept(s) ==> BeingKept(To(s, worker, phase))
  {
    if BeingKept(s) {
      var keeper :| keeper in s.workers && (s.workers[keeper].Records? || s.workers[keeper].Discards?);
      assert keeper in To(s, worker, phase).workers;
    }
  }

  lemma NewcomerClaimsNothing(s: System, worker: nat, phase: Phase, left: bool)
    requires OneHolder(s) && CopiedOnce(s, left) && worker !in s.workers && ClaimOf(phase).None?
    requires SawCopy(phase) ==> s.row.objectKey.Some?
    ensures OneHolder(To(s, worker, phase)) && CopiedOnce(To(s, worker, phase), left)
  {
    var n := To(s, worker, phase);
    assert forall other <- n.workers :: other == worker || n.workers[other] == s.workers[other];
  }

  lemma NewcomerKeepsTidy(s: System, worker: nat, phase: Phase, left: bool)
    requires Tidy(s, left) && worker !in s.workers && ClaimOf(phase).None? && !phase.Marks?
    requires SawCopy(phase) ==> s.row.objectKey.Some?
    ensures Tidy(To(s, worker, phase), left)
  {
    hide BeingKept, OneHolder, CopiedOnce;
    NewcomerLeavesKept(s, worker, phase);
    NewcomerClaimsNothing(s, worker, phase, left);
    var n := To(s, worker, phase);
    assert forall other <- n.workers :: other == worker || n.workers[other] == s.workers[other];
  }

  lemma MoveKeepsTidy(s: System, worker: nat, ok: bool, reason: Reason, left: bool)
    requires Safe(s) && Tidy(s, left) && Timely(s) && worker in s.workers
    ensures Tidy(Moved(s, worker, s.workers[worker], ok, reason), left || (s.workers[worker].Discards? && !ok))
  {
    hide Safe, Tidy, Timely;
    var phase := s.workers[worker];
    if phase.Checks? || phase.Empties? || phase.Marks? || phase.Rereads? {
      DeletionKeepsTidy(s, worker, phase, ok, reason, left);
    } else if ClaimOf(phase).Some? {
      HolderKeepsTidy(s, worker, phase, ok, reason, left);
    } else if phase.Claims? {
      ClaimKeepsTidy(s, worker, phase.fetched, ok, reason, left);
    } else {
      OtherKeepsTidy(s, worker, phase, ok, reason, left);
    }
  }

  lemma OtherKeepsTidy(s: System, worker: nat, phase: Phase, ok: bool, reason: Reason, left: bool)
    requires Tidy(s, left) && worker in s.workers && s.workers[worker] == phase
    requires phase.Plans? || phase.PlayFetches? || phase.DeletesAtProvider? || phase.RecordsProviderDeletion?
          || phase.Done? || phase.DeletionDone?
    ensures Tidy(Moved(s, worker, phase, ok, reason), left)
  {
    hide Tidy;
    var n := Moved(s, worker, phase, ok, reason);
    if !phase.Done? && !phase.DeletionDone? {
      BystanderKeepsTidy(s, n, worker, left);
    }
  }

  lemma {:induction false} RunIsTidy(key: Key, steps: seq<Step>)
    requires TimelyThroughout(Start(key), steps)
    ensures Tidy(Run(Start(key), steps), DropFailed(Start(key), steps))
    decreases |steps|
  {
    hide Next, Tidy, Timely, FailsToDrop;
    if steps == [] {
      StartIsTidy(key);
    } else {
      var past := steps[..|steps| - 1];
      forall i | 0 <= i < |past| ensures Timely(Run(Start(key), past[..i])) {
        assert past[..i] == steps[..i];
      }
      RunIsTidy(key, past);
      RunIsSafe(key, past);
      StepKeepsTidy(Run(Start(key), past), steps[|steps| - 1], DropFailed(Start(key), past));
      LastDrop(Start(key), steps);
    }
  }

  lemma StartIsTidy(key: Key)
    ensures Tidy(Start(key), false)
  {
  }

  lemma LastDrop(s: System, steps: seq<Step>)
    requires steps != []
    ensures var past := steps[..|steps| - 1];
      DropFailed(s, steps) == (DropFailed(s, past) || FailsToDrop(Run(s, past), steps[|steps| - 1]))
  {
    hide Next, FailsToDrop;
    var past := steps[..|steps| - 1];
    assert forall i | 0 <= i < |past| :: past[..i] == steps[..i] && past[i] == steps[i];
  }

  ghost predicate Quiet(s: System) {
    forall worker <- s.workers :: s.workers[worker].Done? || s.workers[worker].DeletionDone?
  }

  /**
    While no claim goes stale under its holder, a recording nobody is at work
    on has exactly the object its row names, unless a drop of a copy that was
    made while the recording was deleted had failed; then the object is left.
   */
  lemma NoOrphanAudio(key: Key, steps: seq<Step>)
    requires TimelyThroughout(Start(key), steps) && Quiet(Run(Start(key), steps))
    ensures var s := Run(Start(key), steps);
      s.store == SetOf(s.row.objectKey) <==> !DropFailed(Start(key), steps)
  {
    hide Next, Timely, TimelyThroughout, DropFailed;
    RunIsTidy(key, steps);
    RunIsSafe(key, steps);
    RunKeepsKey(key, steps);
    QuietIsTidy(Run(Start(key), steps), DropFailed(Start(key), steps));
  }

  lemma QuietIsTidy(s: System, left: bool)
    requires Safe(s) && Tidy(s, left) && Quiet(s)
    ensures s.store == SetOf(s.row.objectKey) <==> !left
  {
    hide PhaseFits;
    assert !BeingKept(s) && !DeletionUnderWay(s);
    if s.row.objectKey.None? && !left {
      assert s.key !in s.store;
      assert s.store == {};
    }
    if s.row.objectKey.Some? {
      assert s.key in s.store;
      assert s.store == {s.key};
    }
  }
}
