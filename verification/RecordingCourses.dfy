/**
  Where an operation on a recording that nothing disturbs ends up
  (apps/api/src/calls/recording.service.ts): a copy is in the store, on the
  row and gone at the provider; a deletion leaves nothing anywhere.
 */
module RecordingCourses {
  import opened Options
  import opened RecordingRules
  import opened Recording

  function GoesWell(worker: nat, reason: Reason): Step {
    GoesOn(worker, true, reason)
  }

  /** A system in which this worker is at this phase. */
  ghost predicate At(s: System, worker: nat, phase: Phase) {
    worker in s.workers && s.workers[worker] == phase
  }

  lemma Claiming(s: System, worker: nat, fetched: bool, reason: Reason)
    requires At(s, worker, Claims(fetched)) && Claimable(s.row, s.now)
    ensures var n := Next(s, GoesWell(worker, reason));
      && At(n, worker, if fetched then Puts(s.now) else Fetches(s.now))
      && n == s.(row := s.row.(copyStartedAt := Some(s.now)), workers := n.workers)
  {
    hide Claimable, DeletionMoved, PlayBegins;
  }

  lemma Fetching(s: System, worker: nat, claim: Time, reason: Reason)
    requires At(s, worker, Fetches(claim)) && s.provider
    ensures var n := Next(s, GoesWell(worker, reason)); At(n, worker, Puts(claim)) && n == s.(workers := n.workers)
  {
    hide Claimable, DeletionMoved, PlayBegins;
  }

  lemma Putting(s: System, worker: nat, claim: Time, reason: Reason)
    requires At(s, worker, Puts(claim))
    ensures var n := Next(s, GoesWell(worker, reason));
      At(n, worker, Records(claim)) && n == s.(store := s.store + {s.key}, workers := n.workers)
  {
    hide Claimable, DeletionMoved, PlayBegins;
  }

  lemma Naming(s: System, worker: nat, claim: Time, reason: Reason)
    requires At(s, worker, Records(claim)) && !s.row.deleted
    ensures var n := Next(s, GoesWell(worker, reason));
      At(n, worker, DeletesAtProvider) && n == s.(row := s.row.(objectKey := Some(s.key)), workers := n.workers)
  {
    hide Claimable, DeletionMoved, PlayBegins;
  }

  /** The original is deleted, and the row says so. */
  lemma DeletingAtProvider(s: System, worker: nat, reason: Reason)
    requires At(s, worker, DeletesAtProvider)
    ensures var n := Next(Next(s, GoesWell(worker, reason)), GoesWell(worker, reason));
      At(n, worker, Done) && n == s.(provider := false, row := s.row.(providerDeleted := true), workers := n.workers)
  {
    hide Claimable, DeletionMoved, PlayBegins;
    var one := Next(s, GoesWell(worker, reason));
    assert At(one, worker, RecordsProviderDeletion) && one == s.(provider := false, workers := one.workers);
  }

  /** From its put on, a copy of a recording nobody deletes completes. */
  lemma StoringCompletes(s: System, worker: nat, claim: Time, reason: Reason)
    requires At(s, worker, Puts(claim)) && !s.row.deleted
    ensures var put := Next(s, GoesWell(worker, reason));
      var named := Next(put, GoesWell(worker, reason));
      var n := Next(Next(named, GoesWell(worker, reason)), GoesWell(worker, reason));
      && At(n, worker, Done)
      && n == s.(store := s.store + {s.key}, provider := false,
                 row := s.row.(objectKey := Some(s.key), providerDeleted := true), workers := n.workers)
  {
    hide Next;
    Putting(s, worker, claim, reason);
    var put := Next(s, GoesWell(worker, reason));
    Naming(put, worker, claim, reason);
    var named := Next(put, GoesWell(worker, reason));
    DeletingAtProvider(named, worker, reason);
  }

  /**
    A copy that starts on a recording nobody copied or deleted, with no claim
    that counts and the audio still at the provider, ends with the object in
    the store, its key on the row and the original gone.
   */
  lemma CopiesComplete(s: System, worker: nat, reason: Reason)
    requires worker !in s.workers && Claimable(s.row, s.now) && s.provider && !s.row.providerDeleted
    ensures var begun := Next(s, CopyStarts(worker));
      var planned := Next(begun, GoesWell(worker, reason));
      var claimed := Next(planned, GoesWell(worker, reason));
      var fetched := Next(claimed, GoesWell(worker, reason));
      var put := Next(fetched, GoesWell(worker, reason));
      var named := Next(put, GoesWell(worker, reason));
      var n := Next(Next(named, GoesWell(worker, reason)), GoesWell(worker, reason));
      && At(n, worker, Done) && n.key in n.store && n.row.objectKey == Some(n.key) && !n.row.deleted
      && !n.provider && n.row.providerDeleted
  {
    CopyBegins(s, worker, reason);
    hide Next, Claimable;
    var planned := Next(Next(s, CopyStarts(worker)), GoesWell(worker, reason));
    Claiming(planned, worker, false, reason);
    var claimed := Next(planned, GoesWell(worker, reason));
    Fetching(claimed, worker, s.now, reason);
    var fetched := Next(claimed, GoesWell(worker, reason));
    assert !fetched.row.deleted by { ClaimableMeans(s.row, s.now); }
    StoringCompletes(fetched, worker, s.now, reason);
  }

  lemma ClaimableMeans(row: Row, now: Time)
    requires Claimable(row, now)
    ensures !row.deleted && row.objectKey.None?
  {
  }

  lemma CopyBegins(s: System, worker: nat, reason: Reason)
    requires worker !in s.workers && Stage(s.row) == 0 && !s.row.providerDeleted
    ensures var n := Next(Next(s, CopyStarts(worker)), GoesWell(worker, reason));
      At(n, worker, Claims(false)) && n == s.(workers := n.workers)
  {
    hide Claimable, DeletionMoved, PlayBegins;
    PlanAgreesWithPlayback(s.row);
    var begun := Next(s, CopyStarts(worker));
    assert At(begun, worker, Plans(s.row)) && begun == s.(workers := begun.workers);
  }

  /** A copy that starts on a recording copied or deleted before deletes an original that is still there, and nothing else. */
  lemma OwedDeletionsComplete(s: System, worker: nat, reason: Reason)
    requires worker !in s.workers && Stage(s.row) > 0 && !s.row.providerDeleted
    ensures var begun := Next(s, CopyStarts(worker));
      var planned := Next(begun, GoesWell(worker, reason));
      var n := Next(Next(planned, GoesWell(worker, reason)), GoesWell(worker, reason));
      At(n, worker, Done) && n == s.(provider := false, row := s.row.(providerDeleted := true), workers := n.workers)
  {
    OwedBegins(s, worker, reason);
    hide Next;
    DeletingAtProvider(Next(Next(s, CopyStarts(worker)), GoesWell(worker, reason)), worker, reason);
  }

  lemma OwedBegins(s: System, worker: nat, reason: Reason)
    requires worker !in s.workers && Stage(s.row) > 0 && !s.row.providerDeleted
    ensures var n := Next(Next(s, CopyStarts(worker)), GoesWell(worker, reason));
      At(n, worker, DeletesAtProvider) && n == s.(workers := n.workers)
  {
    hide Claimable, DeletionMoved, PlayBegins;
    PlanAgreesWithPlayback(s.row);
    var begun := Next(s, CopyStarts(worker));
    assert At(begun, worker, Plans(s.row)) && begun == s.(workers := begun.workers);
  }

  /**
    A play fetches from the provider exactly if the recording is not deleted,
    the store has no copy for it and the provider is not known to have lost it;
    what it fetched completes the copy if the claim is free.
   */
  lemma PlaysComplete(s: System, worker: nat, reason: Reason)
    requires worker !in s.workers && s.provider
    ensures var begun := Next(s, PlayStarts(worker));
      var copyIsThere := s.row.objectKey.Some? && s.row.objectKey.value in s.store;
      && (At(begun, worker, PlayFetches) <==> !s.row.deleted && !copyIsThere && !s.row.providerDeleted)
      && (At(begun, worker, PlayFetches) && Claimable(s.row, s.now) ==>
            var fetched := Next(begun, GoesWell(worker, reason));
            var claimed := Next(fetched, GoesWell(worker, reason));
            var put := Next(claimed, GoesWell(worker, reason));
            var named := Next(put, GoesWell(worker, reason));
            var n := Next(Next(named, GoesWell(worker, reason)), GoesWell(worker, reason));
            && At(n, worker, Done) && n.key in n.store && n.row.objectKey == Some(n.key) && !n.provider && n.row.providerDeleted)
  {
    PlayStartsRight(s, worker);
    hide Claimable;
    var begun := Next(s, PlayStarts(worker));
    if At(begun, worker, PlayFetches) && Claimable(s.row, s.now) {
      PlayFetched(begun, worker, reason);
      hide Next;
      var fetched := Next(begun, GoesWell(worker, reason));
      Claiming(fetched, worker, true, reason);
      var claimed := Next(fetched, GoesWell(worker, reason));
      assert !claimed.row.deleted by { ClaimableMeans(s.row, s.now); }
      StoringCompletes(claimed, worker, s.now, reason);
    }
  }

  lemma PlayStartsRight(s: System, worker: nat)
    requires worker !in s.workers
    ensures var begun := Next(s, PlayStarts(worker));
      && begun == s.(workers := begun.workers)
      && (At(begun, worker, PlayFetches) <==>
            !s.row.deleted && !(s.row.objectKey.Some? && s.row.objectKey.value in s.store) && !s.row.providerDeleted)
  {
    hide Claimable, Moved;
  }

  lemma PlayFetched(s: System, worker: nat, reason: Reason)
    requires At(s, worker, PlayFetches) && s.provider
    ensures var n := Next(s, GoesWell(worker, reason)); At(n, worker, Claims(true)) && n == s.(workers := n.workers)
  {
    hide Claimable, DeletionMoved, PlayBegins;
  }

  // Deletions ------------------------------------------------------------------------------------

  lemma Checking(s: System, worker: nat, seen: Row, attempt: nat, reason: Reason)
    requires At(s, worker, Checks(seen, attempt)) && !seen.deleted
    ensures var n := Next(s, GoesWell(worker, reason));
      At(n, worker, if seen.objectKey.Some? then Empties(seen, attempt) else Marks(seen, attempt)) && n == s.(workers := n.workers)
  {
    hide Claimable, PlayBegins, PlanCopy;
  }

  lemma Emptying(s: System, worker: nat, seen: Row, attempt: nat, reason: Reason)
    requires At(s, worker, Empties(seen, attempt)) && seen.objectKey.Some?
    ensures var n := Next(s, GoesWell(worker, reason));
      At(n, worker, Marks(seen, attempt)) && n == s.(store := s.store - {seen.objectKey.value}, workers := n.workers)
  {
    hide Claimable, PlayBegins, PlanCopy;
  }

  lemma Marking(s: System, worker: nat, seen: Row, attempt: nat, reason: Reason)
    requires At(s, worker, Marks(seen, attempt)) && !s.row.deleted && s.row.objectKey == seen.objectKey
    ensures var n := Next(s, GoesWell(worker, reason));
      && At(n, worker, if seen.providerDeleted then DeletionDone(Deleted) else DeletesAtProvider)
      && n == s.(row := s.row.(deleted := true, reason := Some(reason), objectKey := None), workers := n.workers)
  {
    hide Claimable, PlayBegins, PlanCopy;
  }

  /**
    A deletion of a recording that is not deleted empties the store of its
    object, marks the row with its reason, and has an original that is still
    there deleted as well.
   */
  lemma DeletionsComplete(s: System, worker: nat, reason: Reason)
    requires worker !in s.workers && !s.row.deleted && (s.row.objectKey.Some? ==> s.row.objectKey == Some(s.key))
    ensures var checked := Next(Next(s, DeletionStarts(worker)), GoesWell(worker, reason));
      var emptied := if s.row.objectKey.Some? then Next(checked, GoesWell(worker, reason)) else checked;
      var marked := Next(emptied, GoesWell(worker, reason));
      var n := if s.row.providerDeleted then marked else Next(Next(marked, GoesWell(worker, reason)), GoesWell(worker, reason));
      && n.row.deleted && n.row.reason == Some(reason) && n.row.objectKey.None? && n.row.providerDeleted
      && n.store == (if s.row.objectKey.Some? then s.store - {s.key} else s.store)
      && (!s.row.providerDeleted ==> !n.provider)
      && worker in n.workers && (n.workers[worker].Done? || n.workers[worker] == DeletionDone(Deleted))
  {
    DeletionBegins(s, worker);
    hide Next;
    var begun := Next(s, DeletionStarts(worker));
    Checking(begun, worker, s.row, 1, reason);
    var checked := Next(begun, GoesWell(worker, reason));
    var emptied := if s.row.objectKey.Some? then Next(checked, GoesWell(worker, reason)) else checked;
    if s.row.objectKey.Some? {
      Emptying(checked, worker, s.row, 1, reason);
    }
    Marking(emptied, worker, s.row, 1, reason);
    var marked := Next(emptied, GoesWell(worker, reason));
    if !s.row.providerDeleted {
      DeletingAtProvider(marked, worker, reason);
    }
  }

  lemma DeletionBegins(s: System, worker: nat)
    requires worker !in s.workers
    ensures var n := Next(s, DeletionStarts(worker)); At(n, worker, Checks(s.row, 1)) && n == s.(workers := n.workers)
  {
    hide Claimable, PlayBegins, Moved;
  }
}
