/**
  Where messages end up over a whole run (apps/api/src/messaging/send.service.ts
  and conversation.service.ts): with whoever held the line when their
  transaction read it, and never with a contact who had opted out; and what a
  send that nothing disturbs comes to.
 */
module MessagingFiling {
  import opened Options
  import opened MessagingScope
  import MessagingStatus
  import opened MessagingSend
  import opened MessagingRetries

  /** The contact of this thread opted out of messages from its line. */
  predicate OptedOut(t: Tables, thread: Thread) {
    (thread.contact, thread.line) in t.suppressed
  }

  /** The thread a message is in is the one its request came to on the tables it read. */
  predicate WentWhereRead(w: Written, id: ThreadId, thread: Thread) {
    match Resolve(w.read, w.request)
    case Into(found) => id == found && found in w.read.threads && thread == w.read.threads[found]
    case IntoNew(made) => thread == made
    case _ => false
  }

  predicate IsFiled(t: Tables, w: Written) {
    && w.message in t.messages
    && var id := t.messages[w.message].thread;
       id in t.threads && WentWhereRead(w, id, t.threads[id]) && !OptedOut(w.before, t.threads[id])
  }

  ghost predicate Filed(s: System) {
    && (forall w <- s.written :: IsFiled(s.tables, w))
    && (forall send <- s.sends | s.sends[send].phase.HasRead? ::
          var phase := s.sends[send].phase;
          phase.resolution == Resolve(phase.read, s.sends[send].request) && Extends(phase.read, s.tables))
  }

  lemma FiledStays(t: Tables, n: Tables, w: Written)
    requires Extends(t, n) && IsFiled(t, w)
    ensures IsFiled(n, w)
  {
    hide Resolve;
  }

  lemma InsertFiles(s: System, t: Tables, send: nat, request: Request, thread: ThreadId, message: MessageId, read: Tables)
    requires forall w <- s.written :: IsFiled(s.tables, w)
    requires send in s.sends && Extends(s.tables, t) && t.messages == s.tables.messages && t.suppressed == s.tables.suppressed
    requires message !in t.messages && thread in t.threads
    requires WentWhereRead(Written(message, request, read, s.tables), thread, t.threads[thread])
    ensures var n := Insert(s, t, send, request, thread, message, read);
      forall w <- n.written :: IsFiled(n.tables, w)
  {
    hide AttemptIn, Resolve;
    var n := Insert(s, t, send, request, thread, message, read);
    assert Extends(s.tables, n.tables);
    forall w <- n.written ensures IsFiled(n.tables, w) {
      if w in s.written {
        FiledStays(s.tables, n.tables, w);
      }
    }
  }

  lemma WriteOutFiles(s: System, send: nat, request: Request, message: MessageId, thread: ThreadId, read: Tables)
    requires forall w <- s.written :: IsFiled(s.tables, w)
    requires send in s.sends && Extends(read, s.tables)
    ensures var n := WriteOut(s, send, request, Resolve(read, request), message, thread, read);
      forall w <- n.written :: IsFiled(n.tables, w)
  {
    MessagesGoToTheOwnersThread(read, request);
    hide Resolve, Insert, Taken, IsFiled;
    match Resolve(read, request)
    case Into(found) =>
      if message !in s.tables.messages { InsertFiles(s, s.tables, send, request, found, message, read); }
    case IntoNew(made) =>
      if message !in s.tables.messages && thread !in s.tables.threads && !Taken(s.tables, made) {
        InsertFiles(s, s.tables.(threads := s.tables.threads[thread := made]), send, request, thread, message, read);
      }
    case _ =>
  }

  lemma StepFiles(s: System, step: Step)
    requires Valid(s) && Filed(s)
    ensures Filed(Next(s, step))
  {
    StepIsSince(s, step);
    var n := Next(s, step);
    assert Extends(s.tables, n.tables);
    hide Valid, Since, Follow, WriteOut, Resolve, IsFiled, Extends;
    WritesAreFiled(s, step);
    forall send <- n.sends | n.sends[send].phase.HasRead?
      ensures var phase := n.sends[send].phase;
        phase.resolution == Resolve(phase.read, n.sends[send].request) && Extends(phase.read, n.tables)
    {
      NewReads(s, step, send);
      if s.sends[send].phase == n.sends[send].phase {
        ExtendsOn(n.sends[send].phase.read, s.tables, n.tables);
      }
    }
  }

  lemma ExtendsOn(t: Tables, n: Tables, later: Tables)
    requires Extends(t, n) && Extends(n, later)
    ensures Extends(t, later)
  {
  }

  lemma ExtendsItself(t: Tables)
    ensures Extends(t, t)
  {
  }

  lemma WritesAreFiled(s: System, step: Step)
    requires Filed(s) && Extends(s.tables, Next(s, step).tables)
    ensures var n := Next(s, step); forall w <- n.written :: IsFiled(n.tables, w)
  {
    hide WriteOut, Resolve, IsFiled, Extends;
    ExtendsItself(s.tables);
    var n := Next(s, step);
    match step
    case PreparesAtOnce(send, message, thread) =>
      if send in s.sends && s.sends[send].phase.Prepares? {
        WriteOutFiles(s, send, s.sends[send].request, message, thread, s.tables);
      }
    case Writes(send, message, thread) =>
      if send in s.sends && s.sends[send].phase.HasRead? {
        WriteOutFiles(s, send, s.sends[send].request, message, thread, s.sends[send].phase.read);
      }
    case _ =>
      forall w <- n.written ensures IsFiled(n.tables, w) {
        FiledStays(s.tables, n.tables, w);
      }
  }

  lemma {:induction false} RunFiles(tables: Tables, steps: seq<Step>)
    requires KeysAreUnique(tables)
    ensures Filed(Run(Start(tables), steps))
    decreases |steps|
  {
    hide Next, Valid, Filed;
    if steps == [] {
      NothingFiled(tables);
    } else {
      var shorter := steps[..|steps| - 1];
      RunKeeps(tables, shorter);
      RunFiles(tables, shorter);
      StepFiles(Run(Start(tables), shorter), steps[|steps| - 1]);
    }
  }

  lemma NothingFiled(tables: Tables)
    ensures Filed(Start(tables))
  {
  }

  /**
    Over any run, each message written to be sent is in a thread on its line
    whose owner is the one that held the line when its transaction read it,
    with the contact it was for, or in the very thread it was for, which its
    writer could read; and its contact had not opted out when it was written.
   */
  lemma MessagesAreFiledWithTheOwner(tables: Tables, steps: seq<Step>, j: nat)
    requires KeysAreUnique(tables) && j < |Run(Start(tables), steps).written|
    ensures var s := Run(Start(tables), steps);
      var w := s.written[j];
      && w.message in s.tables.messages
      && var id := s.tables.messages[w.message].thread;
      && id in s.tables.threads
      && var thread := s.tables.threads[id];
         && LineOwner(w.read, w.request.line).Some? && thread.line == w.request.line
         && !OptedOut(w.before, thread)
         && match w.request.target
            case InThread(target) =>
              id == target && CanRead(w.read, w.request.user, id) && OwnerOf(thread.holder) == LineOwner(w.read, w.request.line)
            case NewTo(contact) =>
              thread.contact == contact && HeldBy(thread.holder, LineOwner(w.read, w.request.line).value)
  {
    RunFiles(tables, steps);
    var s := Run(Start(tables), steps);
    var w := s.written[j];
    assert IsFiled(s.tables, w);
    MessagesGoToTheOwnersThread(w.read, w.request);
    hide Run, Resolve;
  }

  // A send that nothing disturbs ---------------------------------------------------------------------

  /** The contact of this send opted out of messages from its line. */
  predicate IsOptedOut(t: Tables, request: Request) {
    match request.target
    case InThread(thread) => thread in t.threads && (t.threads[thread].contact, request.line) in t.suppressed
    case NewTo(contact) => (contact, request.line) in t.suppressed
  }

  /** No thread of the line's owner with the contact holds a message under the key. */
  predicate KeyIsFree(t: Tables, request: Request) {
    request.target.NewTo? && LineOwner(t, request.line).Some? ==>
      forall m <- t.messages :: t.messages[m].key == request.key ==>
        !OwnersThread(t, t.messages[m].thread, request.target.contact, request.line, LineOwner(t, request.line).value)
  }

  /**
    A send prepared at once is to be dispatched exactly if it goes through, its
    key is free and its contact has not opted out; a contact who has leaves a
    failed message and no more. One that does not go through changes nothing.
   */
  lemma SendsAreWrittenExactly(s: System, send: nat, message: MessageId, thread: ThreadId)
    requires Valid(s) && send in s.sends && s.sends[send].phase.Prepares?
    requires message !in s.tables.messages && thread !in s.tables.threads
    ensures var n, request := Next(s, PreparesAtOnce(send, message, thread)), s.sends[send].request;
      && send in n.sends
      && (n.sends[send].phase.Dispatches? ==>
            GoesThrough(s.tables, request) && !IsOptedOut(s.tables, request) && n.sends[send].phase == Dispatches(message))
      && (GoesThrough(s.tables, request) && KeyIsFree(s.tables, request) ==>
            && n.sends[send].phase == (if IsOptedOut(s.tables, request) then Done(Suppressed) else Dispatches(message))
            && message in n.tables.messages
            && n.tables.messages[message].key == request.key
            && n.tables.messages[message].providerId.None?
            && n.tables.messages[message].status ==
                 (if IsOptedOut(s.tables, request) then MessagingStatus.Failed else MessagingStatus.Pending)
            && n.tables.messages - {message} == s.tables.messages)
      && (!GoesThrough(s.tables, request) ==> n.tables == s.tables && n.written == s.written && n.sends[send].phase.Done?)
  {
    var t, request := s.tables, s.sends[send].request;
    SendsGoThroughExactly(t, request);
    MessagesGoToTheOwnersThread(t, request);
    match Resolve(t, request)
    case Into(found) =>
      InsertingWrites(s, t, send, request, found, message);
      FreeKeyIsUntried(t, request, found);
    case IntoNew(made) =>
      NewThreadIsNotTaken(t, made, LineOwner(t, request.line).value);
      var more := t.(threads := t.threads[thread := made]);
      InsertingWrites(s, more, send, request, thread, message);
      assert AttemptsIn(more, thread, request.key) == {} by { KeysOf(s); }
    case _ =>
    hide Resolve, Insert, Taken, AttemptIn, Valid;
  }

  lemma InsertingWrites(s: System, t: Tables, send: nat, request: Request, thread: ThreadId, message: MessageId)
    requires send in s.sends && thread in t.threads && message !in t.messages && t.messages == s.tables.messages
    ensures var n := Insert(s, t, send, request, thread, message, s.tables);
      var out := OptedOut(t, t.threads[thread]);
      && send in n.sends
      && (Attempted(t, thread, request.key) ==> n.sends[send].phase.Done?)
      && (!Attempted(t, thread, request.key) ==>
            && n.sends[send].phase == (if out then Done(Suppressed) else Dispatches(message))
            && n.tables == t.(messages := n.tables.messages)
            && n.tables.messages == t.messages[message := Message(thread, request.key,
                                                                  if out then MessagingStatus.Failed else MessagingStatus.Pending, None)])
  {
    hide Attempted;
  }

  lemma FreeKeyIsUntried(t: Tables, request: Request, found: ThreadId)
    requires Resolve(t, request) == Into(found)
    ensures GoesThrough(t, request) && KeyIsFree(t, request) ==> !Attempted(t, found, request.key)
  {
    MessagesGoToTheOwnersThread(t, request);
    if Attempted(t, found, request.key) {
      var m :| m in AttemptsIn(t, found, request.key);
      assert m in t.messages && t.messages[m].thread == found;
    }
  }

  lemma NewThreadIsNotTaken(t: Tables, made: Thread, owner: Owner)
    requires OwnerOf(made.holder) == Some(owner)
    requires forall thread <- t.threads :: !OwnersThread(t, thread, made.contact, made.line, owner)
    ensures !Taken(t, made)
  {
    FoundIsTheOwners(t, made.contact, made.line, owner);
  }

  /** The provider is asked to send exactly the message written, and its answer is what becomes of it. */
  lemma AnswersAreRecorded(s: System, send: nat, answer: ProviderAnswer)
    requires Valid(s) && send in s.sends && s.sends[send].phase.Dispatches?
    ensures var m := s.sends[send].phase.message;
      var called := Next(s, Calls(send, answer));
      var n := Next(called, RecordsAnswer(send));
      && n.dispatched == s.dispatched + [m] && m in s.tables.messages
      && n.tables == s.tables.(messages := s.tables.messages[m := s.tables.messages[m].(
           status := match answer
                     case Accepts(_) => MessagingStatus.Accepted
                     case Rejects => MessagingStatus.Rejected
                     case Fails => MessagingStatus.Failed,
           providerId := if answer.Accepts? then Some(answer.id) else None)])
      && n.sends[send].phase == Done(if answer.Accepts? then Sent else NotTaken)
  {
  }
}
