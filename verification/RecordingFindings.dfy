/**
  Two ways in which the media store keeps audio no row names: a claim that is
  taken over while its holder still runs, and a drop that fails. Each is one
  run; `RecordingTidiness.NoOrphanAudio` says that there is no third.
 */
module RecordingFindings {
  import opened Options
  import opened RecordingRules
  import opened Recording
  import opened RecordingTidiness

  const KEY: Key := 7
  /** One more than the life of a claim. */
  const LATE: nat := 600_001

  const UNTOUCHED := Row(None, None, false, false, None)
  const CLAIMED := Row(None, Some(0), false, false, None)
  const CLAIMED_AGAIN := Row(None, Some(LATE), false, false, None)
  const COPIED := Row(Some(KEY), Some(LATE), false, false, None)
  const GONE := Row(None, Some(LATE), false, true, Some(ByHand))
  const GONE_UNCOPIED := Row(None, Some(0), false, true, Some(ByHand))
  const GONE_RELEASED := Row(None, None, false, true, Some(ByHand))

  /** Every step leads from one of these systems to the next. */
  ghost predicate Leads(states: seq<System>, steps: seq<Step>) {
    |states| == |steps| + 1 && forall i | 0 <= i < |steps| :: Next(states[i], steps[i]) == states[i + 1]
  }

  lemma {:induction false} LeadsThere(states: seq<System>, steps: seq<Step>)
    requires Leads(states, steps)
    ensures Run(states[0], steps) == states[|steps|]
    decreases |steps|
  {
    hide Next;
    if steps != [] {
      var shorter := steps[..|steps| - 1];
      assert forall i | 0 <= i < |shorter| :: shorter[i] == steps[i];
      LeadsThere(states[..|steps|], shorter);
    }
  }

  /** Two copies and a deletion at work on the recording. */
  function Three(row: Row, store: set<Key>, now: Time, one: Phase, other: Phase, deletion: Phase): System {
    System(KEY, row, store, true, now, map[0 := one, 1 := other, 2 := deletion])
  }

  // A claim is taken over while its holder runs --------------------------------------------------

  /**
    The first copy stalls before it stores; the second takes its claim over
    and records; the deletion empties the store; the first copy stores and
    records; the deletion marks the row.
   */
  function TakeoverStates(): seq<System> {
    [Start(KEY),
     System(KEY, UNTOUCHED, {}, true, 0, map[0 := Plans(UNTOUCHED)]),
     System(KEY, UNTOUCHED, {}, true, 0, map[0 := Plans(UNTOUCHED), 1 := Plans(UNTOUCHED)]),
     Three(UNTOUCHED, {}, 0, Plans(UNTOUCHED), Plans(UNTOUCHED), Checks(UNTOUCHED, 1)),
     Three(UNTOUCHED, {}, 0, Claims(false), Plans(UNTOUCHED), Checks(UNTOUCHED, 1)),
     Three(CLAIMED, {}, 0, Fetches(0), Plans(UNTOUCHED), Checks(UNTOUCHED, 1)),
     Three(CLAIMED, {}, 0, Puts(0), Plans(UNTOUCHED), Checks(UNTOUCHED, 1)),
     Three(CLAIMED, {}, 0, Puts(0), Plans(UNTOUCHED), Marks(UNTOUCHED, 1)),
     Three(CLAIMED, {}, LATE, Puts(0), Plans(UNTOUCHED), Marks(UNTOUCHED, 1)),
     Three(CLAIMED, {}, LATE, Puts(0), Claims(false), Marks(UNTOUCHED, 1)),
     Three(CLAIMED_AGAIN, {}, LATE, Puts(0), Fetches(LATE), Marks(UNTOUCHED, 1)),
     Three(CLAIMED_AGAIN, {}, LATE, Puts(0), Puts(LATE), Marks(UNTOUCHED, 1)),
     Three(CLAIMED_AGAIN, {KEY}, LATE, Puts(0), Records(LATE), Marks(UNTOUCHED, 1)),
     Three(COPIED, {KEY}, LATE, Puts(0), DeletesAtProvider, Marks(UNTOUCHED, 1)),
     Three(COPIED, {KEY}, LATE, Puts(0), DeletesAtProvider, Rereads(1)),
     Three(COPIED, {KEY}, LATE, Puts(0), DeletesAtProvider, Checks(COPIED, 2)),
     Three(COPIED, {KEY}, LATE, Puts(0), DeletesAtProvider, Empties(COPIED, 2)),
     Three(COPIED, {}, LATE, Puts(0), DeletesAtProvider, Marks(COPIED, 2)),
     Three(COPIED, {KEY}, LATE, Records(0), DeletesAtProvider, Marks(COPIED, 2)),
     Three(COPIED, {KEY}, LATE, DeletesAtProvider, DeletesAtProvider, Marks(COPIED, 2)),
     Three(GONE, {KEY}, LATE, DeletesAtProvider, DeletesAtProvider, DeletionDone(Deleted)),
     Three(GONE, {KEY}, LATE, Done, DeletesAtProvider, DeletionDone(Deleted)),
     Three(GONE, {KEY}, LATE, Done, Done, DeletionDone(Deleted))]
  }

  function TakeoverSteps(): seq<Step> {
    [CopyStarts(0), CopyStarts(1), DeletionStarts(2), GoesOn(0, true, ByHand),
     GoesOn(0, true, ByHand), GoesOn(0, true, ByHand), GoesOn(2, true, ByHand), TimePasses(LATE),
     GoesOn(1, true, ByHand), GoesOn(1, true, ByHand), GoesOn(1, true, ByHand), GoesOn(1, true, ByHand),
     GoesOn(1, true, ByHand), GoesOn(2, true, ByHand), GoesOn(2, true, ByHand), GoesOn(2, true, ByHand),
     GoesOn(2, true, ByHand), GoesOn(0, true, ByHand), GoesOn(0, true, ByHand), GoesOn(2, false, ByHand),
     GoesOn(0, false, ByHand), GoesOn(1, false, ByHand)]
  }

  lemma TakeoverPart1()
    ensures Next(Start(KEY), CopyStarts(0))
         == System(KEY, UNTOUCHED, {}, true, 0, map[0 := Plans(UNTOUCHED)])
    ensures Next(System(KEY, UNTOUCHED, {}, true, 0, map[0 := Plans(UNTOUCHED)]), CopyStarts(1))
         == System(KEY, UNTOUCHED, {}, true, 0, map[0 := Plans(UNTOUCHED), 1 := Plans(UNTOUCHED)])
    ensures Next(System(KEY, UNTOUCHED, {}, true, 0, map[0 := Plans(UNTOUCHED), 1 := Plans(UNTOUCHED)]), DeletionStarts(2))
         == Three(UNTOUCHED, {}, 0, Plans(UNTOUCHED), Plans(UNTOUCHED), Checks(UNTOUCHED, 1))
  {
  }

  lemma TakeoverPart2()
    ensures Next(Three(UNTOUCHED, {}, 0, Plans(UNTOUCHED), Plans(UNTOUCHED), Checks(UNTOUCHED, 1)), GoesOn(0, true, ByHand))
         == Three(UNTOUCHED, {}, 0, Claims(false), Plans(UNTOUCHED), Checks(UNTOUCHED, 1))
    ensures Next(Three(UNTOUCHED, {}, 0, Claims(false), Plans(UNTOUCHED), Checks(UNTOUCHED, 1)), GoesOn(0, true, ByHand))
         == Three(CLAIMED, {}, 0, Fetches(0), Plans(UNTOUCHED), Checks(UNTOUCHED, 1))
    ensures Next(Three(CLAIMED, {}, 0, Fetches(0), Plans(UNTOUCHED), Checks(UNTOUCHED, 1)), GoesOn(0, true, ByHand))
         == Three(CLAIMED, {}, 0, Puts(0), Plans(UNTOUCHED), Checks(UNTOUCHED, 1))
  {
  }

  lemma TakeoverPart3()
    ensures Next(Three(CLAIMED, {}, 0, Puts(0), Plans(UNTOUCHED), Checks(UNTOUCHED, 1)), GoesOn(2, true, ByHand))
         == Three(CLAIMED, {}, 0, Puts(0), Plans(UNTOUCHED), Marks(UNTOUCHED, 1))
    ensures Next(Three(CLAIMED, {}, 0, Puts(0), Plans(UNTOUCHED), Marks(UNTOUCHED, 1)), TimePasses(LATE))
         == Three(CLAIMED, {}, LATE, Puts(0), Plans(UNTOUCHED), Marks(UNTOUCHED, 1))
    ensures Next(Three(CLAIMED, {}, LATE, Puts(0), Plans(UNTOUCHED), Marks(UNTOUCHED, 1)), GoesOn(1, true, ByHand))
         == Three(CLAIMED, {}, LATE, Puts(0), Claims(false), Marks(UNTOUCHED, 1))
  {
  }

  lemma TakeoverPart4()
    ensures Next(Three(CLAIMED, {}, LATE, Puts(0), Claims(false), Marks(UNTOUCHED, 1)), GoesOn(1, true, ByHand))
         == Three(CLAIMED_AGAIN, {}, LATE, Puts(0), Fetches(LATE), Marks(UNTOUCHED, 1))
    ensures Next(Three(CLAIMED_AGAIN, {}, LATE, Puts(0), Fetches(LATE), Marks(UNTOUCHED, 1)), GoesOn(1, true, ByHand))
         == Three(CLAIMED_AGAIN, {}, LATE, Puts(0), Puts(LATE), Marks(UNTOUCHED, 1))
    ensures Next(Three(CLAIMED_AGAIN, {}, LATE, Puts(0), Puts(LATE), Marks(UNTOUCHED, 1)), GoesOn(1, true, ByHand))
         == Three(CLAIMED_AGAIN, {KEY}, LATE, Puts(0), Records(LATE), Marks(UNTOUCHED, 1))
  {
  }

  lemma TakeoverPart5()
    ensures Next(Three(CLAIMED_AGAIN, {KEY}, LATE, Puts(0), Records(LATE), Marks(UNTOUCHED, 1)), GoesOn(1, true, ByHand))
         == Three(COPIED, {KEY}, LATE, Puts(0), DeletesAtProvider, Marks(UNTOUCHED, 1))
    ensures Next(Three(COPIED, {KEY}, LATE, Puts(0), DeletesAtProvider, Marks(UNTOUCHED, 1)), GoesOn(2, true, ByHand))
         == Three(COPIED, {KEY}, LATE, Puts(0), DeletesAtProvider, Rereads(1))
    ensures Next(Three(COPIED, {KEY}, LATE, Puts(0), DeletesAtProvider, Rereads(1)), GoesOn(2, true, ByHand))
         == Three(COPIED, {KEY}, LATE, Puts(0), DeletesAtProvider, Checks(COPIED, 2))
  {
  }

  lemma TakeoverPart6()
    ensures Next(Three(COPIED, {KEY}, LATE, Puts(0), DeletesAtProvider, Checks(COPIED, 2)), GoesOn(2, true, ByHand))
         == Three(COPIED, {KEY}, LATE, Puts(0), DeletesAtProvider, Empties(COPIED, 2))
    ensures Next(Three(COPIED, {KEY}, LATE, Puts(0), DeletesAtProvider, Empties(COPIED, 2)), GoesOn(2, true, ByHand))
         == Three(COPIED, {}, LATE, Puts(0), DeletesAtProvider, Marks(COPIED, 2))
    ensures Next(Three(COPIED, {}, LATE, Puts(0), DeletesAtProvider, Marks(COPIED, 2)), GoesOn(0, true, ByHand))
         == Three(COPIED, {KEY}, LATE, Records(0), DeletesAtProvider, Marks(COPIED, 2))
  {
  }

  lemma TakeoverPart7()
    ensures Next(Three(COPIED, {KEY}, LATE, Records(0), DeletesAtProvider, Marks(COPIED, 2)), GoesOn(0, true, ByHand))
         == Three(COPIED, {KEY}, LATE, DeletesAtProvider, DeletesAtProvider, Marks(COPIED, 2))
    ensures Next(Three(COPIED, {KEY}, LATE, DeletesAtProvider, DeletesAtProvider, Marks(COPIED, 2)), GoesOn(2, false, ByHand))
         == Three(GONE, {KEY}, LATE, DeletesAtProvider, DeletesAtProvider, DeletionDone(Deleted))
    ensures Next(Three(GONE, {KEY}, LATE, DeletesAtProvider, DeletesAtProvider, DeletionDone(Deleted)), GoesOn(0, false, ByHand))
         == Three(GONE, {KEY}, LATE, Done, DeletesAtProvider, DeletionDone(Deleted))
  {
  }

  lemma TakeoverPart8()
    ensures Next(Three(GONE, {KEY}, LATE, Done, DeletesAtProvider, DeletionDone(Deleted)), GoesOn(1, false, ByHand))
         == Three(GONE, {KEY}, LATE, Done, Done, DeletionDone(Deleted))
  {
  }

  /** Up to the second copy's record. */
  lemma TakeoverLeadsIn()
    ensures var states, steps := TakeoverStates(), TakeoverSteps();
      |states| == |steps| + 1 == 23 && forall i | 0 <= i < 12 :: Next(states[i], steps[i]) == states[i + 1]
  {
    hide Next, Three;
    TakeoverPart1();
    TakeoverPart2();
    TakeoverPart3();
    TakeoverPart4();
  }

  /** From the second copy's record on. */
  lemma TakeoverLeadsOut()
    ensures var states, steps := TakeoverStates(), TakeoverSteps();
      |states| == |steps| + 1 == 23 && forall i | 12 <= i < 22 :: Next(states[i], steps[i]) == states[i + 1]
  {
    hide Next, Three;
    TakeoverPart5();
    TakeoverPart6();
    TakeoverPart7();
    TakeoverPart8();
  }

  lemma TakeoverLeads()
    ensures Leads(TakeoverStates(), TakeoverSteps())
  {
    hide Next, TakeoverStates, TakeoverSteps;
    TakeoverLeadsIn();
    TakeoverLeadsOut();
  }

  /** With nobody at work the recording is deleted, and its object is still there. */
  lemma TakeoverLeavesAnOrphan()
    ensures var s := Run(Start(KEY), TakeoverSteps());
      Quiet(s) && s.row.deleted && s.row.objectKey.None? && KEY in s.store
  {
    hide Next;
    TakeoverLeads();
    LeadsThere(TakeoverStates(), TakeoverSteps());
  }

  // A drop fails ----------------------------------------------------------------------------------

  /** A copy and a deletion at work on the recording. */
  function Two(row: Row, store: set<Key>, copy: Phase, deletion: Phase): System {
    System(KEY, row, store, true, 0, map[0 := copy, 2 := deletion])
  }

  /** The recording is deleted after its copy was stored and before it is recorded, and the store refuses to drop it. */
  function DropStates(): seq<System> {
    [Start(KEY),
     System(KEY, UNTOUCHED, {}, true, 0, map[0 := Plans(UNTOUCHED)]),
     Two(UNTOUCHED, {}, Plans(UNTOUCHED), Checks(UNTOUCHED, 1)),
     Two(UNTOUCHED, {}, Plans(UNTOUCHED), Marks(UNTOUCHED, 1)),
     Two(UNTOUCHED, {}, Claims(false), Marks(UNTOUCHED, 1)),
     Two(CLAIMED, {}, Fetches(0), Marks(UNTOUCHED, 1)),
     Two(CLAIMED, {}, Puts(0), Marks(UNTOUCHED, 1)),
     Two(CLAIMED, {KEY}, Records(0), Marks(UNTOUCHED, 1)),
     Two(GONE_UNCOPIED, {KEY}, Records(0), DeletionDone(Deleted)),
     Two(GONE_UNCOPIED, {KEY}, Discards(0), DeletionDone(Deleted)),
     Two(GONE_UNCOPIED, {KEY}, Releases(0), DeletionDone(Deleted)),
     Two(GONE_RELEASED, {KEY}, Done, DeletionDone(Deleted))]
  }

  function DropSteps(): seq<Step> {
    [CopyStarts(0), DeletionStarts(2), GoesOn(2, true, ByHand), GoesOn(0, true, ByHand),
     GoesOn(0, true, ByHand), GoesOn(0, true, ByHand), GoesOn(0, true, ByHand), GoesOn(2, false, ByHand),
     GoesOn(0, true, ByHand), GoesOn(0, false, ByHand), GoesOn(0, true, ByHand)]
  }

  lemma DropPart1()
    ensures Next(Start(KEY), CopyStarts(0))
         == System(KEY, UNTOUCHED, {}, true, 0, map[0 := Plans(UNTOUCHED)])
    ensures Next(System(KEY, UNTOUCHED, {}, true, 0, map[0 := Plans(UNTOUCHED)]), DeletionStarts(2))
         == Two(UNTOUCHED, {}, Plans(UNTOUCHED), Checks(UNTOUCHED, 1))
    ensures Next(Two(UNTOUCHED, {}, Plans(UNTOUCHED), Checks(UNTOUCHED, 1)), GoesOn(2, true, ByHand))
         == Two(UNTOUCHED, {}, Plans(UNTOUCHED), Marks(UNTOUCHED, 1))
  {
  }

  lemma DropPart2()
    ensures Next(Two(UNTOUCHED, {}, Plans(UNTOUCHED), Marks(UNTOUCHED, 1)), GoesOn(0, true, ByHand))
         == Two(UNTOUCHED, {}, Claims(false), Marks(UNTOUCHED, 1))
    ensures Next(Two(UNTOUCHED, {}, Claims(false), Marks(UNTOUCHED, 1)), GoesOn(0, true, ByHand))
         == Two(CLAIMED, {}, Fetches(0), Marks(UNTOUCHED, 1))
    ensures Next(Two(CLAIMED, {}, Fetches(0), Marks(UNTOUCHED, 1)), GoesOn(0, true, ByHand))
         == Two(CLAIMED, {}, Puts(0), Marks(UNTOUCHED, 1))
  {
  }

  lemma DropPart3()
    ensures Next(Two(CLAIMED, {}, Puts(0), Marks(UNTOUCHED, 1)), GoesOn(0, true, ByHand))
         == Two(CLAIMED, {KEY}, Records(0), Marks(UNTOUCHED, 1))
    ensures Next(Two(CLAIMED, {KEY}, Records(0), Marks(UNTOUCHED, 1)), GoesOn(2, false, ByHand))
         == Two(GONE_UNCOPIED, {KEY}, Records(0), DeletionDone(Deleted))
    ensures Next(Two(GONE_UNCOPIED, {KEY}, Records(0), DeletionDone(Deleted)), GoesOn(0, true, ByHand))
         == Two(GONE_UNCOPIED, {KEY}, Discards(0), DeletionDone(Deleted))
  {
  }

  lemma DropPart4()
    ensures Next(Two(GONE_UNCOPIED, {KEY}, Discards(0), DeletionDone(Deleted)), GoesOn(0, false, ByHand))
         == Two(GONE_UNCOPIED, {KEY}, Releases(0), DeletionDone(Deleted))
    ensures Next(Two(GONE_UNCOPIED, {KEY}, Releases(0), DeletionDone(Deleted)), GoesOn(0, true, ByHand))
         == Two(GONE_RELEASED, {KEY}, Done, DeletionDone(Deleted))
  {
  }

  lemma DropLeads()
    ensures Leads(DropStates(), DropSteps())
  {
    hide Next, Two;
    DropPart1();
    DropPart2();
    DropPart3();
    DropPart4();
  }

  lemma FailedDropLeavesAnOrphan()
    ensures var s := Run(Start(KEY), DropSteps());
      Quiet(s) && s.row.deleted && s.row.objectKey.None? && KEY in s.store
  {
    hide Next;
    DropLeads();
    LeadsThere(DropStates(), DropSteps());
  }
}
