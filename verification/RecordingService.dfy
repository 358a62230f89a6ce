/**
  The operations on a recording as they run
  (apps/api/src/calls/recording.service.ts): guarded updates of the row, calls
  of the media store and of the provider, one after the other, with anything
  others do in between. `Recording` is the same with every step interleaved.
 */
module RecordingService {
  import opened Options
  import opened RecordingRules
  import opened Recording

  /** What a play gets: the audio, from the store or the provider, or none, and why. */
  datatype Playback = Played(fromStore: bool) | WasDeletedFor(reason: Option<Reason>) | NoLongerThere | Failed

  /**
    How the outside answers: whether there are credentials to ask the provider
    with, and whether it sends the audio and deletes it; whether the store
    takes an object, and drops one.
   */
  datatype Answers = Answers(access: bool, fetches: bool, deletes: bool, stores: bool, drops: bool)

  /** The recording as it was at one moment. */
  datatype Moment = Moment(row: Row, store: set<Key>, provider: bool, now: Time)

  /** A row as it was read some time before this one. */
  predicate IsEarlier(seen: Row, row: Row) {
    && Stage(seen) <= Stage(row)
    && (seen.providerDeleted ==> row.providerDeleted)
    && (seen.deleted ==> row.reason == seen.reason)
  }

  /** A claim tried at this moment is taken, and the audio stored for it is recorded at the later one. */
  predicate CopyLands(claiming: Moment, recording: Moment, answers: Answers) {
    Claimable(claiming.row, claiming.now) && answers.stores && !recording.row.deleted
  }

  class Service {
    const key: Key
    var row: Row
    var store: set<Key>
    var provider: bool
    var now: Time
    /** How many copies these operations recorded, and how often they emptied the store and marked the row for a deletion. */
    ghost var recorded: nat
    ghost var emptied: nat
    ghost var marked: nat
    /** The moments at which these operations went on after others had acted. */
    ghost var moments: seq<Moment>

    ghost predicate Valid()
      reads this
    {
      RowIsSound(key, row) && (!provider ==> Stage(row) > 0) && (row.providerDeleted ==> !provider)
    }

    /** What others do: the row moves on, what is deleted at the provider stays so, and the clock does not go back. */
    twostate predicate Meanwhile()
      reads this
    {
      IsEarlier(old(row), row) && (!old(provider) ==> !provider) && old(now) <= now && old(moments) <= moments
    }

    constructor (key: Key)
      ensures Valid() && this.key == key && Stage(row) == 0 && store == {} && provider
    {
      this.key, store, provider, now := key, {}, true, 0;
      recorded, emptied, marked, moments := 0, 0, 0, [];
      row := Row(None, None, false, false, None);
    }

    method OthersAct()
      requires Valid()
      modifies `row, `store, `provider, `now, `moments
      ensures Valid() && Meanwhile()
      ensures moments == old(moments) + [Moment(row, store, provider, now)]
    {
      var r: Row := *;
      var objects: set<Key> := *;
      var there: bool := *;
      var t: Time := *;
      if RowIsSound(key, r) && IsEarlier(row, r) && (there ==> provider && !r.providerDeleted) && (there || Stage(r) > 0) {
        row, provider := r, there;
      }
      if now <= t {
        now := t;
      }
      store := objects;
      moments := moments + [Moment(row, store, provider, now)];
    }

    // The copy ---------------------------------------------------------------------

    /** The claim on the copy, taken if there is none that counts. */
    method ClaimCopy() returns (claim: Option<Time>)
      requires Valid()
      modifies this`row
      ensures Valid() && (claim.Some? <==> Claimable(old(row), now))
      ensures row == if claim.Some? then old(row).(copyStartedAt := claim) else old(row)
      ensures claim.Some? ==> claim == Some(now)
    {
      if row.objectKey.None? && !row.deleted
         && (row.copyStartedAt.None? || row.copyStartedAt.value < now - COPY_CLAIM_STALE) {
        row := row.(copyStartedAt := Some(now));
        return Some(now);
      }
      return None;
    }

    method ReleaseCopyClaim(claim: Time)
      requires Valid()
      modifies this`row
      ensures Valid()
      ensures row == if old(row).copyStartedAt == Some(claim) then old(row).(copyStartedAt := None) else old(row)
    {
      if row.copyStartedAt == Some(claim) {
        row := row.(copyStartedAt := None);
      }
    }

    /**
      The audio is put in the store and recorded on the row, which names it
      then. Audio the row cannot name any more, because the recording was
      deleted meanwhile, is dropped, unless the store refuses; a store that
      does not take it leaves everything as it was.
     */
    method StoreCopy(answers: Answers) returns (stored: bool)
      requires Valid()
      modifies this
      ensures Valid() && Meanwhile() && emptied == old(emptied) && marked == old(marked)
      ensures recorded == old(recorded) + if stored then 1 else 0
      ensures if !answers.stores then !stored && moments == old(moments) && row == old(row) && store == old(store)
              else
                && |moments| == |old(moments)| + 1
                && var instant := moments[|old(moments)|];
                   && stored == !instant.row.deleted
                   && row == (if stored then instant.row.(objectKey := Some(key)) else instant.row)
                   && store == if stored || !answers.drops then instant.store else instant.store - {key}
    {
      if !answers.stores {
        return false;
      }
      store := store + {key};
      OthersAct();
      if row.deleted {
        Discard(answers);
        return false;
      }
      row := row.(objectKey := Some(key));
      recorded := recorded + 1;
      return true;
    }

    method Discard(answers: Answers)
      requires Valid() && row.deleted
      modifies this`store
      ensures store == if answers.drops then old(store) - {key} else old(store)
    {
      if answers.drops {
        store := store - {key};
      }
    }

    /** The original is deleted at the provider, and the row says so; it is only asked for audio that is copied or deleted. */
    method DeleteAtProvider(answers: Answers) returns (gone: bool)
      requires Valid() && Stage(row) > 0
      modifies `row, `store, `provider, `now, `moments
      ensures Valid() && Meanwhile() && gone == answers.deletes
      ensures gone ==> !provider && row.providerDeleted
      ensures !gone ==> row == old(row) && store == old(store) && provider == old(provider)
    {
      if !answers.deletes {
        return false;
      }
      provider := false;
      OthersAct();
      row := row.(providerDeleted := true);
      return true;
    }

    /**
      A copy of a recording whose row was read some time ago. It is made
      exactly if the row called for one, the claim was free, the provider still
      had the audio and sent it, and the recording was not deleted before it
      was recorded; a claim that came to nothing is handed back. The provider
      is asked to delete exactly what was copied, now or before, or deleted.
     */
    method Copy(seen: Row, answers: Answers) returns (copied: bool, providerDeleted: bool)
      requires Valid() && IsEarlier(seen, row)
      modifies this
      ensures Valid() && Meanwhile()
      ensures recorded == old(recorded) + if copied then 1 else 0
      ensures copied <==>
        && PlanCopy(seen).Fetch? && answers.access && answers.fetches && |moments| >= |old(moments)| + 4
        && moments[|old(moments)| + 1].provider
        && CopyLands(moments[|old(moments)|], moments[|old(moments)| + 3], answers)
      ensures PlanCopy(seen).Fetch? && answers.access ==>
        && |moments| > |old(moments)|
        && var instant := moments[|old(moments)|];
           Claimable(instant.row, instant.now) ==>
             && |moments| > |old(moments)| + 1
             && (answers.fetches && moments[|old(moments)| + 1].provider && answers.stores ==> |moments| >= |old(moments)| + 4)
             && (!copied ==> row.copyStartedAt != Some(instant.now))
      ensures copied ==> row.objectKey == Some(key) || row.deleted
      ensures providerDeleted <==> answers.access && answers.deletes && (copied || PlanCopy(seen) == Skip(true))
      ensures providerDeleted ==> !provider && row.providerDeleted
      ensures PlanCopy(seen) == Skip(false) || !answers.access ==> row == old(row) && store == old(store) && provider == old(provider)
    {
      var plan := PlanCopy(seen);
      if plan == Skip(false) {
        return false, false;
      }
      if !answers.access {
        return false, false;
      }
      OthersAct();
      if plan.Skip? {
        providerDeleted := DeleteAtProvider(answers);
        return false, providerDeleted;
      }
      var claim := ClaimCopy();
      if claim.None? {
        return false, false;
      }
      OthersAct();
      if provider && answers.fetches {
        OthersAct();
        var stored := StoreCopy(answers);
        if stored {
          OthersAct();
          providerDeleted := DeleteAtProvider(answers);
          return true, providerDeleted;
        }
      }
      OthersAct();
      ReleaseCopyClaim(claim.value);
      return false, false;
    }

    /**
      A play of a recording whose row was read some time ago. A recording that
      was deleted is not played. A copy the store has is played from there, and
      from nowhere else; one it has lost, or that was never made, is played
      from the provider unless it is gone there or does not answer. A voicemail
      fetched there completes the copy, if this play is the one that claims it.
     */
    method Open(seen: Row, voicemail: bool, answers: Answers) returns (playback: Playback)
      requires Valid()
      modifies this
      ensures Valid() && Meanwhile()
      ensures playback == Played(true) <==> !seen.deleted && seen.objectKey.Some? && seen.objectKey.value in old(store)
      ensures seen.deleted <==> playback.WasDeletedFor?
      ensures seen.deleted ==> playback.reason == seen.reason
      ensures !seen.deleted && playback != Played(true) ==>
        playback == if seen.providerDeleted then NoLongerThere
                    else if !answers.access || !answers.fetches then Failed
                    else if !old(provider) then NoLongerThere
                    else Played(false)
      ensures var completes := playback == Played(false) && voicemail;
        && (!completes ==> row == old(row) && store == old(store) && moments == old(moments) && recorded == old(recorded))
        && (completes ==> CompletesCopy(old(moments), moments, old(recorded), recorded, answers))
        && (completes && recorded > old(recorded) && answers.deletes ==> row.providerDeleted && !provider)
      decreases seen.objectKey.Some?
    {
      match PlaybackSource(seen) {
        case FromStore(copy) =>
          if copy in store {
            return Played(true);
          }
          playback := Open(seen.(objectKey := None), voicemail, answers);
        case WasDeleted(reason) => return WasDeletedFor(reason);
        case Lost => return NoLongerThere;
        case FromProvider =>
          if !answers.access || !answers.fetches {
            return Failed;
          }
          if !provider {
            return NoLongerThere;
          }
          if voicemail {
            CompleteCopy(answers);
          }
          return Played(false);
      }
    }

    /** The copy a play makes of what it fetched. */
    method CompleteCopy(answers: Answers)
      requires Valid()
      modifies this
      ensures Valid() && Meanwhile() && CompletesCopy(old(moments), moments, old(recorded), recorded, answers)
      ensures recorded > old(recorded) && answers.deletes ==> row.providerDeleted && !provider
      ensures recorded == old(recorded) && Claimable(moments[|old(moments)|].row, moments[|old(moments)|].now) ==>
        row.copyStartedAt != Some(moments[|old(moments)|].now)
    {
      OthersAct();
      var claim := ClaimCopy();
      if claim.None? {
        return;
      }
      OthersAct();
      var stored := StoreCopy(answers);
      OthersAct();
      if stored {
        var _ := DeleteAtProvider(answers);
      } else {
        ReleaseCopyClaim(claim.value);
      }
    }

    // The deletion -----------------------------------------------------------------

    /**
      Delete the audio of a recording whose row was read some time ago. The
      recording is deleted when this is done, unless the store refused to drop
      the object; it says so if it marked the row itself, with its own reason,
      and then the original is deleted too where the provider can be asked.
      One that was deleted before is left as it was. A row that moves meanwhile
      is read again at most twice.
     */
    method DeleteAudio(seen: Row, reason: Reason, drops: nat -> bool, answers: Answers) returns (outcome: Deletion)
      requires Valid() && RowIsSound(key, seen) && IsEarlier(seen, row)
      modifies this
      ensures Valid() && Meanwhile() && recorded == old(recorded)
      ensures outcome != FellOut
      ensures outcome.StoreRefused? ==> emptied == old(emptied) && exists attempt | 1 <= attempt <= DELETE_ATTEMPTS :: !drops(attempt)
      ensures !outcome.StoreRefused? ==> row.deleted && row.objectKey.None?
      ensures marked == old(marked) + if outcome.Deleted? then 1 else 0
      ensures outcome.Deleted? ==> row.reason == Some(reason)
      ensures outcome.Deleted? && answers.access && answers.deletes ==> row.providerDeleted && !provider
      ensures old(row).deleted ==> !outcome.Deleted?
      ensures seen.deleted ==> outcome.AlreadyDeleted? && row == old(row) && store == old(store) && provider == old(provider)
      ensures outcome.Deleted? && old(row).objectKey.Some? ==> emptied > old(emptied)
    {
      var current := seen;
      var attempt := 1;
      while attempt <= DELETE_ATTEMPTS
        invariant Valid() && Meanwhile() && recorded == old(recorded) && marked == old(marked)
        invariant RowIsSound(key, current) && IsEarlier(current, row)
        invariant 1 <= attempt <= Stage(current) + 1
        invariant emptied != old(emptied) ==> current.deleted
        invariant attempt > 1 ==> Stage(old(row)) <= Stage(current)
        invariant attempt == 1 ==> current == seen && row == old(row) && store == old(store) && provider == old(provider)
        invariant attempt > 1 ==> !seen.deleted
        invariant old(emptied) <= emptied
      {
        if current.deleted {
          return AlreadyDeleted;
        }
        var ended := DeleteOnce(current, reason, drops(attempt), answers);
        if ended.Some? {
          return ended.value;
        }
        OthersAct();
        current := row;
        attempt := attempt + 1;
      }
      return FellOut;
    }

    /** One attempt: the store is emptied, then the row is marked if it still is as it was read. */
    method DeleteOnce(current: Row, reason: Reason, drops: bool, answers: Answers) returns (outcome: Option<Deletion>)
      requires Valid() && RowIsSound(key, current) && IsEarlier(current, row) && !current.deleted
      modifies this
      ensures Valid() && Meanwhile() && recorded == old(recorded)
      ensures outcome == Some(StoreRefused) <==> current.objectKey.Some? && !drops
      ensures outcome.Some? ==> outcome.value.StoreRefused? || outcome.value.Deleted?
      ensures emptied == old(emptied) + if current.objectKey.Some? && drops then 1 else 0
      ensures marked == old(marked) + if outcome == Some(Deleted) then 1 else 0
      ensures outcome == Some(Deleted) ==>
        && row.deleted && row.objectKey.None? && row.reason == Some(reason) && !old(row).deleted
        && (old(row).objectKey.Some? ==> current.objectKey.Some?)
        && (answers.access && answers.deletes ==> row.providerDeleted && !provider)
      ensures outcome.None? ==> Stage(current) < Stage(row)
    {
      if current.objectKey.Some? {
        if !drops {
          return Some(StoreRefused);
        }
        store := store - {current.objectKey.value};
        emptied := emptied + 1;
      }
      OthersAct();
      var done := Mark(current.objectKey, reason);
      if !done {
        return None;
      }
      marked := marked + 1;
      FinishAtProvider(current, answers);
      return Some(Deleted);
    }

    /** The row is marked deleted, unless it was already or its key is not the one that was deleted. */
    method Mark(known: Option<Key>, reason: Reason) returns (done: bool)
      requires Valid()
      modifies this`row
      ensures Valid() && (done <==> !old(row).deleted && old(row).objectKey == known)
      ensures row == if done then old(row).(deleted := true, reason := Some(reason), objectKey := None) else old(row)
    {
      done := !row.deleted && row.objectKey == known;
      if done {
        row := row.(deleted := true, reason := Some(reason), objectKey := None);
      }
    }

    /** A recording deleted before the provider's was is deleted there too, if it can be reached. */
    method FinishAtProvider(current: Row, answers: Answers)
      requires Valid() && row.deleted && (current.providerDeleted ==> row.providerDeleted)
      modifies `row, `store, `provider, `now, `moments
      ensures Valid() && Meanwhile()
      ensures answers.access && answers.deletes ==> row.providerDeleted && !provider
    {
      if !current.providerDeleted && answers.access {
        var _ := DeleteAtProvider(answers);
      }
    }
  }

  /** A play recorded the copy it fetched exactly if it took the claim and the recording was not deleted before. */
  ghost predicate CompletesCopy(before: seq<Moment>, moments: seq<Moment>, recorded: nat, after: nat, answers: Answers) {
    && |moments| > |before|
    && (Claimable(moments[|before|].row, moments[|before|].now) && answers.stores ==> |moments| > |before| + 2)
    && after == recorded
         + if |moments| > |before| + 2 && CopyLands(moments[|before|], moments[|before| + 2], answers) then 1 else 0
  }

  /** A row names no key but this one, and none once it is deleted. */
  predicate RowIsSound(key: Key, row: Row) {
    (row.objectKey.Some? ==> row.objectKey == Some(key)) && (row.deleted ==> row.objectKey.None?)
  }
}
