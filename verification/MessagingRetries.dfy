/**
  A draft is not sent twice: what every send that wrote a message knew of the
  attempts before it, and what that comes to for a draft that is retried.
 */
module MessagingRetries {
  import opened Options
  import opened MessagingScope
  import MessagingStatus
  import opened MessagingSend

  /** The message is an attempt at this draft: under its key, with its contact on its line. */
  predicate IsAttemptAt(t: Tables, m: MessageId, contact: ContactId, line: LineId, key: Key) {
    m in t.messages && t.messages[m].key == key && OnThePair(t, t.messages[m].thread, contact, line)
  }

  /** Rows are added, and keep their thread, key, contact and line. */
  predicate Extends(t: Tables, n: Tables) {
    && (forall m <- t.messages ::
          m in n.messages && n.messages[m].thread == t.messages[m].thread && n.messages[m].key == t.messages[m].key)
    && (forall id <- t.threads :: id in n.threads && n.threads[id] == t.threads[id])
  }

  /** Of the rows there were, one that had failed is still failed, or was delivered late. */
  ghost predicate Since(t: Tables, n: Tables) {
    && Extends(t, n)
    && (forall m <- t.messages :: t.messages[m].thread in t.threads)
    && forall m <- t.messages | HasFailed(t.messages[m].status) ::
         HasFailed(n.messages[m].status) || n.messages[m].status == MessagingStatus.Delivered
  }

  /** For a new message, no attempt at its draft was live in what its transaction read. */
  ghost predicate FoundNone(request: Request, read: Tables) {
    request.target.NewTo? ==> !LiveAttempt(read, request.target.contact, request.line, request.key)
  }

  /** A request for a new message wrote an attempt at its draft, and found none live when it read. */
  ghost predicate WroteItsDraft(t: Tables, w: Written) {
    && w.message in t.messages && w.message !in w.before.messages
    && Since(w.read, w.before) && FoundNone(w.request, w.read)
    && (w.request.target.NewTo? ==> IsAttemptAt(t, w.message, w.request.target.contact, w.request.line, w.request.key))
  }

  /** A send that has read and is still to write found no live attempt, and its read is of the past. */
  ghost predicate ReadsStand(s: System) {
    forall send <- s.sends | s.sends[send].phase.HasRead? ::
      var phase := s.sends[send].phase;
      && Since(phase.read, s.tables)
      && (phase.resolution.Into? || phase.resolution.IntoNew? ==> FoundNone(s.sends[send].request, phase.read))
  }

  /** What was written earlier was there to be read. */
  ghost predicate KnownTo(earlier: Written, later: Written) {
    && earlier.message in later.before.messages
    && (earlier.request.target.NewTo? ==>
          IsAttemptAt(later.before, earlier.message, earlier.request.target.contact, earlier.request.line, earlier.request.key))
  }

  ghost predicate WritesFit(s: System) {
    && (forall w <- s.written :: WroteItsDraft(s.tables, w))
    && (forall i, j | 0 <= i < j < |s.written| :: KnownTo(s.written[i], s.written[j]))
    && (forall m <- s.dispatched :: exists i :: 0 <= i < |s.written| && s.written[i].message == m)
    && (forall send <- s.sends | s.sends[send].phase.Dispatches? ::
          exists i :: 0 <= i < |s.written| && s.written[i].message == s.sends[send].phase.message)
  }

  lemma WritingStands(t: Tables, n: Tables, w: Written)
    requires Extends(t, n) && WroteItsDraft(t, w)
    ensures WroteItsDraft(n, w)
  {
    hide LiveAttempt, Since, FoundNone;
  }

  /** A step that writes no message to be sent, and sends none but one that was written. */
  lemma NothingWritten(s: System, n: System)
    requires WritesFit(s) && n.written == s.written && Extends(s.tables, n.tables)
    requires forall m <- n.dispatched ::
      m in s.dispatched || (exists send :: send in s.sends && s.sends[send].phase == Dispatches(m))
    requires forall send <- n.sends | n.sends[send].phase.Dispatches? ::
      send in s.sends && s.sends[send].phase == n.sends[send].phase
    ensures WritesFit(n)
  {
    hide WroteItsDraft, KnownTo, Extends;
    forall w <- n.written ensures WroteItsDraft(n.tables, w) {
      WritingStands(s.tables, n.tables, w);
    }
    forall m <- n.dispatched ensures exists i :: 0 <= i < |n.written| && n.written[i].message == m {
      if m !in s.dispatched {
        var send :| send in s.sends && s.sends[send].phase == Dispatches(m);
        assert s.sends[send].phase.Dispatches?;
      }
    }
  }

  lemma InsertWrites(s: System, t: Tables, send: nat, request: Request, thread: ThreadId, message: MessageId, read: Tables)
    requires Valid(s) && WritesFit(s) && send in s.sends && Extends(s.tables, t) && t.messages == s.tables.messages
    requires message !in t.messages && thread in t.threads && t.threads[thread].line == request.line
    requires request.target.NewTo? ==> t.threads[thread].contact == request.target.contact
    requires Since(read, s.tables) && FoundNone(request, read)
    ensures WritesFit(Insert(s, t, send, request, thread, message, read))
  {
    hide Valid, LiveAttempt, AttemptIn, Since, FoundNone;
    var n := Insert(s, t, send, request, thread, message, read);
    assert Extends(s.tables, n.tables);
    if n.written == s.written {
      NothingWritten(s, n);
    } else {
      var w := Written(message, request, read, s.tables);
      assert n.written == s.written + [w] && n.dispatched == s.dispatched;
      OneMoreWritten(s, n, w);
    }
  }

  lemma OneMoreWritten(s: System, n: System, w: Written)
    requires WritesFit(s) && Extends(s.tables, n.tables) && n.written == s.written + [w] && n.dispatched == s.dispatched
    requires w.before == s.tables && WroteItsDraft(n.tables, w)
    requires forall send <- n.sends | n.sends[send].phase.Dispatches? ::
      n.sends[send].phase.message == w.message || (send in s.sends && s.sends[send].phase == n.sends[send].phase)
    ensures WritesFit(n)
  {
    hide Extends;
    forall other <- n.written ensures WroteItsDraft(n.tables, other) {
      if other != w {
        WritingStands(s.tables, n.tables, other);
      }
    }
    hide WroteItsDraft;
    forall i | 0 <= i < |s.written| ensures KnownTo(s.written[i], w) {
      WrittenIsKnown(s, i, w);
    }
    hide KnownTo;
    assert n.written[|s.written|] == w;
    forall m <- n.dispatched ensures exists i :: 0 <= i < |n.written| && n.written[i].message == m {
      var i :| 0 <= i < |s.written| && s.written[i].message == m;
      assert n.written[i] == s.written[i];
    }
    forall send <- n.sends | n.sends[send].phase.Dispatches?
      ensures exists i :: 0 <= i < |n.written| && n.written[i].message == n.sends[send].phase.message
    {
      if n.sends[send].phase.message != w.message {
        var i :| 0 <= i < |s.written| && s.written[i].message == s.sends[send].phase.message;
        assert n.written[i] == s.written[i];
      }
    }
  }

  lemma WrittenIsKnown(s: System, i: nat, w: Written)
    requires WritesFit(s) && i < |s.written| && w.before == s.tables
    ensures KnownTo(s.written[i], w)
  {
    assert WroteItsDraft(s.tables, s.written[i]);
  }

  lemma WriteOutWrites(s: System, send: nat, request: Request, resolution: Resolution, message: MessageId, thread: ThreadId,
                       read: Tables)
    requires Valid(s) && WritesFit(s) && send in s.sends && Suits(s.tables, request, resolution)
    requires Since(read, s.tables) && (resolution.Into? || resolution.IntoNew? ==> FoundNone(request, read))
    ensures WritesFit(WriteOut(s, send, request, resolution, message, thread, read))
  {
    hide Valid, WritesFit, Insert, Taken, Since, FoundNone;
    var n := WriteOut(s, send, request, resolution, message, thread, read);
    match resolution
    case Into(found) =>
      if message !in s.tables.messages { InsertWrites(s, s.tables, send, request, found, message, read); }
    case IntoNew(made) =>
      if message !in s.tables.messages && thread !in s.tables.threads {
        if Taken(s.tables, made) {
          MovesOn(s, send, Done(Threw));
        } else {
          InsertWrites(s, s.tables.(threads := s.tables.threads[thread := made]), send, request, thread, message, read);
        }
      }
    case Refused(why) => MovesOn(s, send, Done(Turned(why)));
    case Answered(earlier) => MovesOn(s, send, Done(AlreadyStored(earlier)));
  }

  lemma MovesOn(s: System, send: nat, phase: Phase)
    requires WritesFit(s) && send in s.sends && !phase.Dispatches?
    ensures WritesFit(To(s, send, phase))
  {
    hide WritesFit;
    NothingWritten(s, To(s, send, phase));
  }

  /** What is let through was found with no live attempt. */
  lemma LetThroughFoundNone(t: Tables, request: Request)
    ensures Resolve(t, request).Into? || Resolve(t, request).IntoNew? ==> FoundNone(request, t)
    ensures KeysAreUnique(t) ==> Since(t, t)
  {
    if request.target.NewTo? {
      NewMessageGoesThrough(t, request);
    }
  }

  lemma StepWrites(s: System, step: Step)
    requires Valid(s) && WritesFit(s) && ReadsStand(s)
    ensures WritesFit(Next(s, step))
  {
    hide Valid, WritesFit, WriteOut, Resolve, Taken, Suits, Since, FoundNone;
    var n := Next(s, step);
    match step
    case PreparesAtOnce(send, message, thread) =>
      if send in s.sends && s.sends[send].phase.Prepares? {
        ReadingSuits(s.tables, s.sends[send].request);
        LetThroughFoundNone(s.tables, s.sends[send].request);
        KeysOf(s);
        WriteOutWrites(s, send, s.sends[send].request, Resolve(s.tables, s.sends[send].request), message, thread, s.tables);
      }
    case Writes(send, message, thread) =>
      if send in s.sends && s.sends[send].phase.HasRead? {
        ReadsSuit(s, send);
        WriteOutWrites(s, send, s.sends[send].request, s.sends[send].phase.resolution, message, thread, s.sends[send].phase.read);
      }
    case _ => NothingWritten(s, n);
  }

  lemma SinceChains(t: Tables, n: Tables, later: Tables)
    requires Since(t, n) && Follow(n, later)
    ensures Since(t, later)
  {
  }

  /** No step loses a row, brings a failed message back but as delivered, or takes a delivery back. */
  lemma StepIsSince(s: System, step: Step)
    requires Valid(s)
    ensures Follow(s.tables, Next(s, step).tables)
  {
    hide ReadsFit, Resolve, Taken, AttemptIn, IsSuppressed, SentOnce, CalledBack, WriteOut, Recorded;
    match step
    case PreparesAtOnce(send, message, thread) =>
      if send in s.sends && s.sends[send].phase.Prepares? {
        WriteOutFollows(s, send, s.sends[send].request, Resolve(s.tables, s.sends[send].request), message, thread, s.tables);
      }
    case Writes(send, message, thread) =>
      if send in s.sends && s.sends[send].phase.HasRead? {
        WriteOutFollows(s, send, s.sends[send].request, s.sends[send].phase.resolution, message, thread, s.sends[send].phase.read);
      }
    case RecordsAnswer(send) =>
      if send in s.sends && s.sends[send].phase.Records? {
        RecordFollows(s, send, s.sends[send].phase.message, s.sends[send].phase.answer);
      }
    case CallbackArrives(id, reported) => CallbackFollows(s.tables, id, MessagingStatus.Mapped(reported));
    case _ =>
  }

  /** One state of the tables follows another by a step. */
  ghost predicate Follow(t: Tables, n: Tables) {
    && Since(t, n)
    && forall m <- t.messages | t.messages[m].status == MessagingStatus.Delivered ::
         n.messages[m].status == MessagingStatus.Delivered
  }

  lemma WriteOutFollows(s: System, send: nat, request: Request, resolution: Resolution, message: MessageId, thread: ThreadId,
                        read: Tables)
    requires send in s.sends && KeysAreUnique(s.tables)
    ensures Follow(s.tables, WriteOut(s, send, request, resolution, message, thread, read).tables)
  {
    hide Taken, AttemptIn, IsSuppressed;
  }

  lemma RecordFollows(s: System, send: nat, message: MessageId, answer: ProviderAnswer)
    requires send in s.sends && KeysAreUnique(s.tables) && message in s.tables.messages
    requires s.tables.messages[message].status == MessagingStatus.Pending
    ensures Follow(s.tables, Recorded(s, send, message, answer).tables)
  {
  }

  lemma CallbackFollows(t: Tables, id: MessagingStatus.ProviderId, next: MessagingStatus.Status)
    requires KeysAreUnique(t) && (next.Accepted? || next.Delivered? || next.Failed? || next.Rejected?)
    ensures Follow(t, t.(messages := CalledBack(t.messages, id, next)))
  {
  }

  lemma ReadsStandOn(s: System, step: Step)
    requires Valid(s) && ReadsStand(s)
    ensures ReadsStand(Next(s, step))
  {
    var n := Next(s, step);
    StepIsSince(s, step);
    KeysOf(s);
    assert Since(s.tables, n.tables);
    hide Valid, Since, Follow, FoundNone, Next, Resolve, KeysAreUnique;
    forall send <- n.sends | n.sends[send].phase.HasRead?
      ensures Since(n.sends[send].phase.read, n.tables)
      ensures n.sends[send].phase.resolution.Into? || n.sends[send].phase.resolution.IntoNew? ==>
        FoundNone(n.sends[send].request, n.sends[send].phase.read)
    {
      NewReads(s, step, send);
      if send in s.sends && s.sends[send].phase == n.sends[send].phase {
        SinceChains(n.sends[send].phase.read, s.tables, n.tables);
      } else {
        LetThroughFoundNone(s.tables, n.sends[send].request);
      }
    }
  }

  lemma KeysOf(s: System)
    requires Valid(s)
    ensures KeysAreUnique(s.tables)
  {
  }

  /** A send has read before this step, or reads now. */
  lemma NewReads(s: System, step: Step, send: nat)
    requires send in Next(s, step).sends && Next(s, step).sends[send].phase.HasRead?
    ensures var now := Next(s, step).sends[send];
      && send in s.sends && s.sends[send].request == now.request
      && (s.sends[send].phase == now.phase || now.phase == HasRead(Resolve(s.tables, now.request), s.tables))
  {
    hide Resolve, Taken, AttemptIn, IsSuppressed;
  }

  lemma {:induction false} RunKeeps(tables: Tables, steps: seq<Step>)
    requires KeysAreUnique(tables)
    ensures var s := Run(Start(tables), steps); Valid(s) && WritesFit(s) && ReadsStand(s)
    decreases |steps|
  {
    hide Next, Valid, WritesFit, ReadsStand;
    if steps == [] {
      StartFits(tables);
    } else {
      RunKeeps(tables, steps[..|steps| - 1]);
      StepKeeps(Run(Start(tables), steps[..|steps| - 1]), steps[|steps| - 1]);
      StepWrites(Run(Start(tables), steps[..|steps| - 1]), steps[|steps| - 1]);
      ReadsStandOn(Run(Start(tables), steps[..|steps| - 1]), steps[|steps| - 1]);
    }
  }

  lemma StartFits(tables: Tables)
    requires KeysAreUnique(tables)
    ensures Valid(Start(tables)) && WritesFit(Start(tables)) && ReadsStand(Start(tables))
  {
  }

  // What holds of every run ------------------------------------------------------------------------

  /** A key is dispatched at most once in a thread, however its attempts race. */
  lemma DispatchedOnce(tables: Tables, steps: seq<Step>, i: nat, j: nat)
    requires KeysAreUnique(tables) && i < j < |Run(Start(tables), steps).dispatched|
    ensures var s := Run(Start(tables), steps);
      var one, other := s.dispatched[i], s.dispatched[j];
      && one in s.tables.messages && other in s.tables.messages
      && (s.tables.messages[one].thread != s.tables.messages[other].thread
          || s.tables.messages[one].key != s.tables.messages[other].key)
  {
    RunKeeps(tables, steps);
  }

  /**
    A new message whose transaction nothing overlapped found no attempt at its
    draft that had not failed, in any thread with its contact on its line,
    whoever the line belonged to and whoever can read the thread; and whatever
    was sent before it, it found.
   */
  lemma RetriesAreSentOnlyOnceFailed(tables: Tables, steps: seq<Step>, j: nat)
    requires KeysAreUnique(tables) && j < |Run(Start(tables), steps).written|
    requires var w := Run(Start(tables), steps).written[j]; w.read == w.before && w.request.target.NewTo?
    ensures var written := Run(Start(tables), steps).written;
      var w := written[j];
      var contact, line, key := w.request.target.contact, w.request.line, w.request.key;
      && (forall m <- w.before.messages ::
            IsAttemptAt(w.before, m, contact, line, key) ==> HasFailed(w.before.messages[m].status))
      && (forall i | 0 <= i < j ::
            written[i].request.target == NewTo(contact) && written[i].request.line == line && written[i].request.key == key ==>
              && written[i].message in w.before.messages
              && HasFailed(w.before.messages[written[i].message].status))
  {
    RunKeeps(tables, steps);
    var written := Run(Start(tables), steps).written;
    assert WroteItsDraft(Run(Start(tables), steps).tables, written[j]);
    forall i | 0 <= i < j ensures KnownTo(written[i], written[j]) {
    }
  }

  /** The message was written, or was delivered after it had failed, between these two states of the tables. */
  predicate CameBetween(read: Tables, before: Tables, m: MessageId) {
    && m in before.messages
    && (m in read.messages ==>
          HasFailed(read.messages[m].status) && before.messages[m].status == MessagingStatus.Delivered)
  }

  /**
    In any run, a new message is written beside an attempt at its draft that
    has not failed exactly if that attempt was written between what its
    transaction read and its write, or had failed and was delivered in between.
   */
  lemma DuplicatesComeBetween(tables: Tables, steps: seq<Step>, j: nat)
    requires KeysAreUnique(tables) && j < |Run(Start(tables), steps).written|
    requires Run(Start(tables), steps).written[j].request.target.NewTo?
    ensures var w := Run(Start(tables), steps).written[j];
      var contact, line, key := w.request.target.contact, w.request.line, w.request.key;
      && !LiveAttempt(w.read, contact, line, key)
      && (LiveAttempt(w.before, contact, line, key) <==>
            exists m <- w.before.messages ::
              && IsAttemptAt(w.before, m, contact, line, key)
              && !HasFailed(w.before.messages[m].status)
              && CameBetween(w.read, w.before, m))
  {
    hide Next, Valid, ReadsStand, Run;
    RunKeeps(tables, steps);
    var w := Run(Start(tables), steps).written[j];
    assert WroteItsDraft(Run(Start(tables), steps).tables, w);
    LiveCameBetween(w);
  }

  lemma LiveCameBetween(w: Written)
    requires Since(w.read, w.before) && FoundNone(w.request, w.read) && w.request.target.NewTo?
    ensures var contact, line, key := w.request.target.contact, w.request.line, w.request.key;
      forall m <- w.before.messages ::
        IsAttemptAt(w.before, m, contact, line, key) && !HasFailed(w.before.messages[m].status) ==> CameBetween(w.read, w.before, m)
  {
    forall m <- w.before.messages
      | IsAttemptAt(w.before, m, w.request.target.contact, w.request.line, w.request.key) && !HasFailed(w.before.messages[m].status)
      ensures CameBetween(w.read, w.before, m)
    {
      if m in w.read.messages {
        assert OnThePair(w.read, w.read.messages[m].thread, w.request.target.contact, w.request.line);
      }
    }
  }

  /** Only what was written to be sent is dispatched. */
  lemma DispatchedWasWritten(tables: Tables, steps: seq<Step>, m: MessageId)
    requires KeysAreUnique(tables) && m in Run(Start(tables), steps).dispatched
    ensures exists i :: 0 <= i < |Run(Start(tables), steps).written| && Run(Start(tables), steps).written[i].message == m
  {
    hide Next, Valid;
    RunKeeps(tables, steps);
  }

  // Transactions that overlap --------------------------------------------------------------------

  const BY_USER := Holder(Some(1), None)
  const BY_DEPARTMENT := Holder(None, Some(3))

  /** One line, the user's at first and then their department's, and nothing sent on it. */
  function Before(line: Holder): Tables {
    Tables(map[0 := Line(line, true)], map[], map[], {}, Staff({(1, 3)}, {}, {}), {})
  }

  function Draft(owner: Owner): Request {
    Request(1, NewTo(5), 0, Some(owner), 9)
  }

  /** A draft is read to be sent; the line changes hands; its retry is prepared and sent; the first is written and sent. */
  function OverlappingRetries(): seq<Step> {
    [Starts(0, Draft(OwnedByUser(1))), Reads(0), LineChanges(0, Line(BY_DEPARTMENT, true)),
     Starts(1, Draft(OwnedByDepartment(3))), PreparesAtOnce(1, 1, 1), Writes(0, 0, 0), Calls(0, Fails), Calls(1, Fails)]
  }

  lemma NewThreadFor(t: Tables, owner: Owner)
    requires t.messages == map[] && t.threads == map[] && 0 in t.lines && t.lines[0].active
    requires OwnerOf(t.lines[0].holder) == Some(owner)
    ensures Resolve(t, Draft(owner)) == IntoNew(Thread(5, 0, HolderOf(owner)))
  {
  }

  function FirstRead(): Phase {
    HasRead(IntoNew(Thread(5, 0, BY_USER)), Before(BY_USER))
  }

  function AfterReads(): System {
    System(Before(BY_DEPARTMENT),
           map[0 := Send(Draft(OwnedByUser(1)), FirstRead()), 1 := Send(Draft(OwnedByDepartment(3)), Prepares)],
           [], [])
  }

  lemma BothHaveStarted()
    ensures Run(Start(Before(BY_USER)), OverlappingRetries()[..4]) == AfterReads()
  {
    var s, steps := Start(Before(BY_USER)), OverlappingRetries();
    RunThen(s, [], steps[0]);
    RunThen(s, steps[..1], steps[1]);
    RunThen(s, steps[..2], steps[2]);
    RunThen(s, steps[..3], steps[3]);
    assert steps[..1] == [] + [steps[0]] && steps[..2] == steps[..1] + [steps[1]] && steps[..3] == steps[..2] + [steps[2]];
    assert steps[..4] == steps[..3] + [steps[3]];
    NewThreadFor(Before(BY_USER), OwnedByUser(1));
    hide Resolve, WriteOut, Recorded, Run;
    assert Next(s, steps[0]).sends == map[0 := Send(Draft(OwnedByUser(1)), Prepares)];
    assert Next(Next(s, steps[0]), steps[1]).sends == map[0 := Send(Draft(OwnedByUser(1)), FirstRead())];
  }

  lemma RunThen(s: System, steps: seq<Step>, step: Step)
    ensures Run(s, steps + [step]) == Next(Run(s, steps), step)
  {
    hide Next;
    assert (steps + [step])[..|steps|] == steps;
  }

  /** The retry is in the department's new thread. */
  function AfterRetry(): System {
    var t := Before(BY_DEPARTMENT)
      .(threads := map[1 := Thread(5, 0, BY_DEPARTMENT)], messages := map[1 := Message(1, 9, MessagingStatus.Pending, None)]);
    System(t, map[0 := Send(Draft(OwnedByUser(1)), FirstRead()), 1 := Send(Draft(OwnedByDepartment(3)), Dispatches(1))],
           [Written(1, Draft(OwnedByDepartment(3)), Before(BY_DEPARTMENT), Before(BY_DEPARTMENT))], [])
  }

  lemma RetryIsWritten()
    ensures Next(AfterReads(), OverlappingRetries()[4]) == AfterRetry()
  {
    var s := AfterReads();
    NewThreadFor(s.tables, OwnedByDepartment(3));
    var made := Thread(5, 0, BY_DEPARTMENT);
    assert !Taken(s.tables, made);
    var t := s.tables.(threads := map[1 := made]);
    assert AttemptsIn(t, 1, 9) == {};
    hide Resolve, Taken;
  }

  lemma FirstIsWritten()
    ensures var s := Next(AfterRetry(), OverlappingRetries()[5]);
      && s.sends.Keys == {0, 1}
      && s.sends[0].phase == Dispatches(0) && s.sends[1].phase == Dispatches(1)
      && s.dispatched == []
      && IsAttemptAt(s.tables, 0, 5, 0, 9) && IsAttemptAt(s.tables, 1, 5, 0, 9)
  {
    hide Resolve;
    var s := AfterRetry();
    var made := Thread(5, 0, BY_USER);
    assert !Taken(s.tables, made);
    var t := s.tables.(threads := s.tables.threads[0 := made]);
    assert AttemptsIn(t, 0, 9) == {};
  }

  /** Both attempts at one draft are sent: the first was read before the retry, and the two go into different threads. */
  lemma OverlappingRetriesAreBothSent()
    ensures var s := Run(Start(Before(BY_USER)), OverlappingRetries());
      s.dispatched == [0, 1] && IsAttemptAt(s.tables, 0, 5, 0, 9) && IsAttemptAt(s.tables, 1, 5, 0, 9)
  {
    hide Run, Resolve, WriteOut, AfterRetry, AfterReads, Recorded;
    var start, steps := Start(Before(BY_USER)), OverlappingRetries();
    BothHaveStarted();
    RetryIsWritten();
    FirstIsWritten();
    RunThen(start, steps[..4], steps[4]);
    RunThen(start, steps[..5], steps[5]);
    RunThen(start, steps[..6], steps[6]);
    RunThen(start, steps[..7], steps[7]);
    assert steps[..5] == steps[..4] + [steps[4]] && steps[..6] == steps[..5] + [steps[5]];
    assert steps[..7] == steps[..6] + [steps[6]] && steps == steps[..7] + [steps[7]];
    hide Run, Resolve, WriteOut, AfterRetry, AfterReads, Recorded;
  }
}
