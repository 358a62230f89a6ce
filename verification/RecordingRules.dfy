/**
  The rules of owning a recording (apps/api/src/calls/recording-copy.ts and
  retention.ts): where its audio is played from, what a copy attempt owes, and
  when a copy may be claimed.
 */
module RecordingRules {
  import opened Options

  type Key = nat
  type Time = int

  /** Ten minutes, after which a claim belonged to an attempt that never finished. */
  const COPY_CLAIM_STALE: nat := 600_000

  datatype Reason = Expired | ByHand

  /** The row of a recording, as far as it says where the audio is. */
  datatype Row = Row(
    objectKey: Option<Key>,
    copyStartedAt: Option<Time>,
    providerDeleted: bool,
    deleted: bool,
    reason: Option<Reason>)

  datatype Source = FromStore(key: Key) | FromProvider | WasDeleted(reason: Option<Reason>) | Lost

  function PlaybackSource(row: Row): Source {
    if row.deleted then WasDeleted(row.reason)
    else if row.objectKey.Some? then FromStore(row.objectKey.value)
    else if !row.providerDeleted then FromProvider
    else Lost
  }

  datatype CopyPlan = Fetch | Skip(deleteAtProvider: bool)

  function PlanCopy(row: Row): CopyPlan {
    if row.deleted then Skip(!row.providerDeleted)
    else if row.objectKey.None? then if !row.providerDeleted then Fetch else Skip(false)
    else Skip(!row.providerDeleted)
  }

  /** A copy may be claimed: there is none, nobody deleted the recording, and nobody holds the claim still. */
  predicate Claimable(row: Row, now: Time) {
    row.objectKey.None? && !row.deleted && (row.copyStartedAt.None? || row.copyStartedAt.value < now - COPY_CLAIM_STALE)
  }

  /** How far a recording has come: not copied, copied, deleted. */
  function Stage(row: Row): nat {
    if row.deleted then 2 else if row.objectKey.Some? then 1 else 0
  }

  /**
    A play reads the copy exactly if the row names one and is not deleted, and
    the provider exactly if there is none and the original is not deleted
    there; a copy is fetched exactly when a play would be. The provider is
    asked to delete exactly what is copied or deleted and still there.
   */
  lemma PlanAgreesWithPlayback(row: Row)
    ensures PlanCopy(row).Fetch? <==> PlaybackSource(row).FromProvider?
    ensures PlaybackSource(row).FromProvider? <==> Stage(row) == 0 && !row.providerDeleted
    ensures PlanCopy(row) == Skip(true) <==> Stage(row) > 0 && !row.providerDeleted
    ensures PlaybackSource(row).FromStore? <==> Stage(row) == 1
    ensures PlaybackSource(row).FromStore? ==> row.objectKey == Some(PlaybackSource(row).key)
    ensures PlaybackSource(row).WasDeleted? <==> Stage(row) == 2
    ensures PlaybackSource(row).WasDeleted? ==> PlaybackSource(row).reason == row.reason
    ensures PlaybackSource(row).Lost? ==> PlanCopy(row) == Skip(false)
    ensures !PlanCopy(row).Fetch? ==> forall now :: !Claimable(row, now) || row.providerDeleted
  {
  }
}
