/**
  Sending messages (apps/api/src/messaging/send.service.ts and
  conversation.service.ts): drafts are sent under a key of their own, their
  retries race each other, and lines change hands. A transition system whose
  steps are the preparation of a send (in one transaction, or read first and
  written later, as concurrent transactions may be), the call of the provider,
  and the record of its answer.
 */
module MessagingSend {
  import opened Options
  import opened MessagingScope
  import opened MessagingStatus

  type ContactId = nat
  type LineId = nat
  type ThreadId = nat
  type MessageId = nat
  /** The idempotency key of a draft. */
  type Key = nat

  datatype Line = Line(holder: Holder, active: bool)

  datatype Thread = Thread(contact: ContactId, line: LineId, holder: Holder)

  datatype Message = Message(thread: ThreadId, key: Key, status: Status, providerId: Option<ProviderId>)

  datatype Tables = Tables(
    lines: map<LineId, Line>,
    threads: map<ThreadId, Thread>,
    messages: map<MessageId, Message>,
    suppressed: set<(ContactId, LineId)>,
    staff: Staff,
    unreachable: set<ContactId>)

  /** Where a send goes: a thread, or a contact it starts a new message to. */
  datatype Target = InThread(thread: ThreadId) | NewTo(contact: ContactId)

  /** A send, with its line and the owner of the line as they were read before its transaction. */
  datatype Request = Request(user: UserId, target: Target, line: LineId, owner: Option<Owner>, key: Key)

  datatype Refusal =
    | ConversationNotFound
    | SenderMismatch
    | LineReassigned
    | DraftAlreadySent
    | UndeliverableDestination

  /** The thread a send writes into, possibly one to be made, or why it writes nothing. */
  datatype Resolution =
    | Refused(why: Refusal)
    | Answered(message: MessageId)
    | Into(thread: ThreadId)
    | IntoNew(made: Thread)

  // Reading the tables ------------------------------------------------------------------------

  function AttemptsIn(t: Tables, thread: ThreadId, key: Key): set<MessageId> {
    set m | m in t.messages && t.messages[m].thread == thread && t.messages[m].key == key
  }

  predicate Attempted(t: Tables, thread: ThreadId, key: Key) {
    AttemptsIn(t, thread, key) != {}
  }

  /** The message stored in a thread under a key; the two are a unique key of the table. */
  function AttemptIn(t: Tables, thread: ThreadId, key: Key): (m: Option<MessageId>)
    ensures m.Some? ==> m.value in t.messages && t.messages[m.value].thread == thread && t.messages[m.value].key == key
    ensures m.None? <==> !Attempted(t, thread, key)
  {
    if Attempted(t, thread, key) then Some(Least(AttemptsIn(t, thread, key))) else None
  }

  /** Any row will do where the code takes the first that is found; the model takes the one with the least id. */
  function Least(s: set<nat>): (m: nat)
    requires s != {}
    ensures m in s
  {
    SomeLeast(s);
    var m :| IsLeast(m, s); m
  }

  predicate IsLeast(m: nat, s: set<nat>) {
    m in s && forall other <- s :: m <= other
  }

  lemma {:induction false} SomeLeast(s: set<nat>)
    requires s != {}
    ensures exists m :: IsLeast(m, s)
    decreases |s|
  {
    var some: nat :| some in s;
    var others := s - {some};
    if others == {} {
      forall other <- s ensures some <= other {
        assert other == some || other in others;
      }
      assert IsLeast(some, s);
    } else {
      SomeLeast(others);
      var least: nat :| IsLeast(least, others);
      var m := if some <= least then some else least;
      forall other <- s ensures m <= other {
        assert other == some || other in others;
      }
      assert IsLeast(m, s);
    }
  }

  predicate OnThePair(t: Tables, thread: ThreadId, contact: ContactId, line: LineId) {
    thread in t.threads && t.threads[thread].contact == contact && t.threads[thread].line == line
  }

  predicate CanRead(t: Tables, user: UserId, thread: ThreadId) {
    thread in t.threads && CanAccess(t.threads[thread].holder, user, DepartmentsOf(t.staff, user))
  }

  predicate HasFailed(status: Status) {
    status.Failed? || status.Rejected?
  }

  /** Some thread with this contact on this line holds the key, one the user can read. */
  predicate ReadableAttempt(t: Tables, user: UserId, contact: ContactId, line: LineId, key: Key, m: MessageId) {
    && m in t.messages && t.messages[m].key == key
    && OnThePair(t, t.messages[m].thread, contact, line)
    && CanRead(t, user, t.messages[m].thread)
  }

  /** An attempt under this key on the pair, in any thread, has not failed. */
  predicate LiveAttempt(t: Tables, contact: ContactId, line: LineId, key: Key) {
    exists m <- t.messages ::
      t.messages[m].key == key && OnThePair(t, t.messages[m].thread, contact, line) && !HasFailed(t.messages[m].status)
  }

  // Resolving ------------------------------------------------------------------------------------

  /** The answer to a new message whose key an earlier attempt already stored on the pair, or nothing. */
  function EarlierNewMessage(t: Tables, user: UserId, contact: ContactId, line: LineId, key: Key): Option<Resolution> {
    var readable := set m | m in t.messages && ReadableAttempt(t, user, contact, line, key, m);
    if readable != {} then Some(Answered(Least(readable)))
    else if LiveAttempt(t, contact, line, key) then Some(Refused(DraftAlreadySent))
    else None
  }

  function ResolveInThread(t: Tables, request: Request, thread: ThreadId): Resolution {
    if !CanRead(t, request.user, thread) then Refused(ConversationNotFound)
    else if t.threads[thread].line != request.line then Refused(SenderMismatch)
    else
      var earlier := AttemptIn(t, thread, request.key);
      if earlier.Some? then Answered(earlier.value)
      else if request.line !in t.lines || OwnerOf(t.lines[request.line].holder).None? then Refused(LineReassigned)
      else if !IsLineOwnersThread(t.threads[thread].holder, t.lines[request.line].holder) then Refused(LineReassigned)
      else if t.threads[thread].contact in t.unreachable then Refused(UndeliverableDestination)
      else Into(thread)
  }

  /** The thread of the line's owner with the contact, found or to be made. */
  function FindOrCreateFor(t: Tables, contact: ContactId, line: LineId, owner: Owner): Resolution {
    var found := set id | id in t.threads && OnThePair(t, id, contact, line) &&
      match owner
      case OwnedByUser(user) => t.threads[id].holder.user == Some(user)
      case OwnedByDepartment(department) => t.threads[id].holder.department == Some(department);
    if found != {} then Into(Least(found)) else IntoNew(Thread(contact, line, HolderOf(owner)))
  }

  function ResolveNew(t: Tables, request: Request, contact: ContactId): Resolution {
    var earlier := EarlierNewMessage(t, request.user, contact, request.line, request.key);
    if earlier.Some? then earlier.value
    else if request.line !in t.lines || !t.lines[request.line].active then Refused(LineReassigned)
    else
      var owner := OwnerOf(t.lines[request.line].holder);
      if owner.None? then Refused(LineReassigned)
      else if !SameOwner(owner, request.owner) then Refused(LineReassigned)
      else FindOrCreateFor(t, contact, request.line, owner.value)
  }

  function Resolve(t: Tables, request: Request): Resolution {
    match request.target
    case InThread(thread) => ResolveInThread(t, request, thread)
    case NewTo(contact) => ResolveNew(t, request, contact)
  }

  /** The column of this owner is set to them. */
  predicate HeldBy(holder: Holder, owner: Owner) {
    if owner.OwnedByUser? then holder.user == Some(owner.user) else holder.department == Some(owner.department)
  }

  /** A thread with this contact on this line, under this owner. */
  predicate OwnersThread(t: Tables, thread: ThreadId, contact: ContactId, line: LineId, owner: Owner) {
    OnThePair(t, thread, contact, line) && HeldBy(t.threads[thread].holder, owner)
  }

  /** Who holds this line, if it is one and somebody does. */
  function LineOwner(t: Tables, line: LineId): Option<Owner> {
    if line in t.lines then OwnerOf(t.lines[line].holder) else None
  }

  /**
    What it takes for a send to go through. In a thread: that its writer can
    read it, it is on the send's line and still its line's owner's, its contact
    can be written to, and it holds no message under the key. To a contact:
    that the line is active and still the sender's, that no message under the
    key can be read on the pair, and that every attempt there failed.
   */
  predicate GoesThrough(t: Tables, request: Request) {
    match request.target
    case InThread(thread) =>
      && CanRead(t, request.user, thread)
      && t.threads[thread].line == request.line
      && LineOwner(t, request.line).Some? && OwnerOf(t.threads[thread].holder) == LineOwner(t, request.line)
      && t.threads[thread].contact !in t.unreachable
      && (forall m <- t.messages :: t.messages[m].thread == thread ==> t.messages[m].key != request.key)
    case NewTo(contact) =>
      && !LiveAttempt(t, contact, request.line, request.key)
      && (forall m <- t.messages :: !ReadableAttempt(t, request.user, contact, request.line, request.key, m))
      && request.line in t.lines && t.lines[request.line].active
      && LineOwner(t, request.line).Some? && LineOwner(t, request.line) == request.owner
  }

  lemma NewMessageGoesThrough(t: Tables, request: Request)
    requires request.target.NewTo?
    ensures Resolve(t, request).Into? || Resolve(t, request).IntoNew? <==> GoesThrough(t, request)
  {
    var contact := request.target.contact;
    var readable := set m | m in t.messages && ReadableAttempt(t, request.user, contact, request.line, request.key, m);
    forall m <- t.messages | ReadableAttempt(t, request.user, contact, request.line, request.key, m) ensures readable != {} {
      assert m in readable;
    }
  }

  lemma ThreadMessageGoesThrough(t: Tables, request: Request)
    requires request.target.InThread?
    ensures Resolve(t, request).Into? <==> GoesThrough(t, request)
    ensures !Resolve(t, request).IntoNew?
  {
    var thread := request.target.thread;
    if m :| m in t.messages && t.messages[m].thread == thread && t.messages[m].key == request.key {
      assert m in AttemptsIn(t, thread, request.key);
    }
  }

  /** A send is written somewhere exactly if it goes through. */
  lemma SendsGoThroughExactly(t: Tables, request: Request)
    ensures Resolve(t, request).Into? || Resolve(t, request).IntoNew? <==> GoesThrough(t, request)
  {
    if request.target.InThread? {
      ThreadMessageGoesThrough(t, request);
    } else {
      NewMessageGoesThrough(t, request);
    }
  }

  /**
    What a send that does not go through is told. The message stored under its
    key answers it wherever its writer can read one; a draft that may have been
    sent where they cannot is refused as sent; all else is refused for the
    thread, for its line, for who holds the line, or for the destination.
   */
  lemma OthersAreAnsweredExactly(t: Tables, request: Request)
    requires !GoesThrough(t, request)
    ensures match request.target
      case InThread(thread) =>
        if !CanRead(t, request.user, thread) then Resolve(t, request) == Refused(ConversationNotFound)
        else if t.threads[thread].line != request.line then Resolve(t, request) == Refused(SenderMismatch)
        else if exists m <- t.messages :: t.messages[m].thread == thread && t.messages[m].key == request.key then
          Resolve(t, request).Answered? && var m := Resolve(t, request).message;
          m in t.messages && t.messages[m].thread == thread && t.messages[m].key == request.key
        else
          Resolve(t, request) == Refused(
            if LineOwner(t, request.line).None? || OwnerOf(t.threads[thread].holder) != LineOwner(t, request.line) then LineReassigned
            else UndeliverableDestination)
      case NewTo(contact) =>
        if exists m <- t.messages :: ReadableAttempt(t, request.user, contact, request.line, request.key, m) then
          Resolve(t, request).Answered?
          && ReadableAttempt(t, request.user, contact, request.line, request.key, Resolve(t, request).message)
        else
          Resolve(t, request) == Refused(
            if LiveAttempt(t, contact, request.line, request.key) then DraftAlreadySent else LineReassigned)
  {
    match request.target
    case InThread(thread) =>
      if m :| m in t.messages && t.messages[m].thread == thread && t.messages[m].key == request.key {
        assert m in AttemptsIn(t, thread, request.key);
      }
    case NewTo(contact) =>
      var readable := set m | m in t.messages && ReadableAttempt(t, request.user, contact, request.line, request.key, m);
      if m :| m in t.messages && ReadableAttempt(t, request.user, contact, request.line, request.key, m) {
        assert m in readable;
      }
  }

  /**
    A message goes into its line's owner's thread with the contact it is for: a
    send in a thread into that one, a new message into one held by the very
    owner the line has, and into a new one of theirs exactly if they have none.
   */
  lemma MessagesGoToTheOwnersThread(t: Tables, request: Request)
    ensures match Resolve(t, request)
      case Into(thread) =>
        && thread in t.threads && t.threads[thread].line == request.line && LineOwner(t, request.line).Some?
        && (request.target.InThread? ==>
              thread == request.target.thread && CanRead(t, request.user, thread)
              && OwnerOf(t.threads[thread].holder) == LineOwner(t, request.line))
        && (request.target.NewTo? ==>
              OwnersThread(t, thread, request.target.contact, request.line, LineOwner(t, request.line).value))
      case IntoNew(made) =>
        && request.target == NewTo(made.contact) && made.line == request.line
        && OwnerOf(made.holder) == LineOwner(t, request.line)
        && LineOwner(t, request.line).Some? && HeldBy(made.holder, LineOwner(t, request.line).value)
        && forall thread <- t.threads ::
             !OwnersThread(t, thread, request.target.contact, request.line, LineOwner(t, request.line).value)
      case _ => true
  {
    match Resolve(t, request)
    case Into(thread) =>
      if request.target.NewTo? {
        FoundIsTheOwners(t, request.target.contact, request.line, LineOwner(t, request.line).value);
      }
    case IntoNew(made) => FoundIsTheOwners(t, made.contact, made.line, LineOwner(t, request.line).value);
    case _ =>
  }

  lemma FoundIsTheOwners(t: Tables, contact: ContactId, line: LineId, owner: Owner)
    ensures match FindOrCreateFor(t, contact, line, owner)
      case Into(thread) => OwnersThread(t, thread, contact, line, owner)
      case IntoNew(made) =>
        && made == Thread(contact, line, made.holder) && HeldBy(made.holder, owner) && OwnerOf(made.holder) == Some(owner)
        && forall thread <- t.threads :: !OwnersThread(t, thread, contact, line, owner)
      case _ => false
  {
    var found := set id | id in t.threads && OnThePair(t, id, contact, line) &&
      match owner
      case OwnedByUser(user) => t.threads[id].holder.user == Some(user)
      case OwnedByDepartment(department) => t.threads[id].holder.department == Some(department);
    forall thread <- t.threads | OwnersThread(t, thread, contact, line, owner) ensures thread in found {
    }
    assert forall thread <- found :: OwnersThread(t, thread, contact, line, owner);
  }

  // The sends -------------------------------------------------------------------------------------

  datatype ProviderAnswer = Accepts(id: ProviderId) | Rejects | Fails

  datatype Outcome = Sent | AlreadyStored(message: MessageId) | Suppressed | Turned(why: Refusal) | NotTaken | Threw

  /** A send that has read where to write keeps the tables it read. */
  datatype Phase =
    | Prepares
    | HasRead(resolution: Resolution, read: Tables)
    | Dispatches(message: MessageId)
    | Records(message: MessageId, answer: ProviderAnswer)
    | Done(outcome: Outcome)

  datatype Send = Send(request: Request, phase: Phase)

  /** A message written to be sent, by which request, the tables its transaction read, and the tables it was written to. */
  datatype Written = Written(message: MessageId, request: Request, read: Tables, before: Tables)

  datatype System = System(
    tables: Tables,
    sends: map<nat, Send>,
    written: seq<Written>,
    dispatched: seq<MessageId>)

  datatype Step =
    | Starts(send: nat, request: Request)
    | PreparesAtOnce(send: nat, message: MessageId, thread: ThreadId)
    | Reads(send: nat)
    | Writes(send: nat, message: MessageId, thread: ThreadId)
    | Calls(send: nat, answer: ProviderAnswer)
    | RecordsAnswer(send: nat)
    | CallbackArrives(id: ProviderId, reported: Reported)
    | LineChanges(line: LineId, becomes: Line)
    | StaffChanges(staff: Staff)
    | SuppressionChanges(suppressed: set<(ContactId, LineId)>)
    | ThreadMade(thread: ThreadId, made: Thread)

  function Start(tables: Tables): System {
    System(tables, map[], [], [])
  }

  function To(s: System, send: nat, phase: Phase): System
    requires send in s.sends
  {
    s.(sends := s.sends[send := s.sends[send].(phase := phase)])
  }

  function Next(s: System, step: Step): System {
    match step
    case Starts(send, request) => if send in s.sends then s else s.(sends := s.sends[send := Send(request, Prepares)])
    case PreparesAtOnce(send, message, thread) =>
      if send in s.sends && s.sends[send].phase.Prepares? then
        WriteOut(s, send, s.sends[send].request, Resolve(s.tables, s.sends[send].request), message, thread, s.tables)
      else s
    case Reads(send) =>
      if send in s.sends && s.sends[send].phase.Prepares? then
        To(s, send, HasRead(Resolve(s.tables, s.sends[send].request), s.tables))
      else s
    case Writes(send, message, thread) =>
      if send in s.sends && s.sends[send].phase.HasRead? then
        WriteOut(s, send, s.sends[send].request, s.sends[send].phase.resolution, message, thread, s.sends[send].phase.read)
      else s
    case Calls(send, answer) =>
      if send in s.sends && s.sends[send].phase.Dispatches? then
        To(s, send, Records(s.sends[send].phase.message, answer))
          .(dispatched := s.dispatched + [s.sends[send].phase.message])
      else s
    case RecordsAnswer(send) =>
      if send in s.sends && s.sends[send].phase.Records? then
        Recorded(s, send, s.sends[send].phase.message, s.sends[send].phase.answer)
      else s
    case CallbackArrives(id, reported) => s.(tables := s.tables.(messages := CalledBack(s.tables.messages, id, Mapped(reported))))
    case LineChanges(line, becomes) => s.(tables := s.tables.(lines := s.tables.lines[line := becomes]))
    case StaffChanges(staff) => s.(tables := s.tables.(staff := staff))
    case SuppressionChanges(suppressed) => s.(tables := s.tables.(suppressed := suppressed))
    case ThreadMade(thread, made) =>
      if thread in s.tables.threads || Taken(s.tables, made) then s
      else s.(tables := s.tables.(threads := s.tables.threads[thread := made]))
  }

  /** A thread with the same contact, line and owner is there. */
  predicate Taken(t: Tables, made: Thread) {
    OwnerOf(made.holder).Some? && FindOrCreateFor(t, made.contact, made.line, OwnerOf(made.holder).value).Into?
  }

  /** Status callbacks find a message by the id the provider gave it. */
  function CalledBack(messages: map<MessageId, Message>, id: ProviderId, next: Status): map<MessageId, Message>
    requires next.Accepted? || next.Delivered? || next.Failed? || next.Rejected?
  {
    map m | m in messages ::
      if messages[m].providerId == Some(id) && ShouldApply(messages[m].status, next) then messages[m].(status := next)
      else messages[m]
  }

  /** What a transaction writes, once it has resolved where; the ids are new rows. */
  function WriteOut(s: System, send: nat, request: Request, resolution: Resolution, message: MessageId, thread: ThreadId,
                    read: Tables): System
    requires send in s.sends
  {
    match resolution
    case Refused(why) => To(s, send, Done(Turned(why)))
    case Answered(earlier) => To(s, send, Done(AlreadyStored(earlier)))
    case Into(found) =>
      if message in s.tables.messages then s else Insert(s, s.tables, send, request, found, message, read)
    case IntoNew(made) =>
      if message in s.tables.messages || thread in s.tables.threads then s
      else if Taken(s.tables, made) then To(s, send, Done(Threw))
      else Insert(s, s.tables.(threads := s.tables.threads[thread := made]), send, request, thread, message, read)
  }

  predicate IsSuppressed(t: Tables, thread: ThreadId) {
    thread in t.threads && (t.threads[thread].contact, t.threads[thread].line) in t.suppressed
  }

  /** The message is written as pending, or as failed if the contact opted out; a key that is taken answers with its message. */
  function Insert(s: System, t: Tables, send: nat, request: Request, thread: ThreadId, message: MessageId, read: Tables): System
    requires send in s.sends
  {
    var earlier := AttemptIn(t, thread, request.key);
    if earlier.Some? then To(s, send, Done(AlreadyStored(earlier.value)))
    else
      var blocked := IsSuppressed(t, thread);
      var row := Message(thread, request.key, if blocked then Failed else Pending, None);
      To(s.(tables := t.(messages := t.messages[message := row]),
            written := if blocked then s.written else s.written + [Written(message, request, read, s.tables)]),
         send, if blocked then Done(Suppressed) else Dispatches(message))
  }

  /** A message once the provider answered: taken under an id, turned down, or not reached. */
  function WithAnswer(row: Message, answer: ProviderAnswer): Message {
    match answer
    case Accepts(id) => row.(status := Accepted, providerId := Some(id))
    case Rejects => row.(status := Rejected)
    case Fails => row.(status := Failed)
  }

  /** The provider's answer is written to the message it was asked to send. */
  function Recorded(s: System, send: nat, message: MessageId, answer: ProviderAnswer): System
    requires send in s.sends
  {
    if message !in s.tables.messages then s
    else
      To(s.(tables := s.tables.(messages := s.tables.messages[message := WithAnswer(s.tables.messages[message], answer)])), send,
         Done(if answer.Accepts? then Sent else NotTaken))
  }

  function Run(s: System, steps: seq<Step>): System {
    if steps == [] then s else Next(Run(s, steps[..|steps| - 1]), steps[|steps| - 1])
  }

  // The invariant ---------------------------------------------------------------------------------

  /** The message a send has written and is still to send, or to record as sent. */
  function Owned(phase: Phase): Option<MessageId> {
    match phase
    case Dispatches(message) => Some(message)
    case Records(message, _) => Some(message)
    case _ => None
  }

  predicate KeysAreUnique(t: Tables) {
    && (forall m <- t.messages :: t.messages[m].thread in t.threads)
    && (forall one <- t.messages, other <- t.messages ::
          t.messages[one].thread == t.messages[other].thread && t.messages[one].key == t.messages[other].key ==> one == other)
  }

  /** A send that is under way has its own message, which nobody else has touched. */
  ghost predicate SendsOwn(s: System) {
    && (forall send <- s.sends | Owned(s.sends[send].phase).Some? ::
          var m := Owned(s.sends[send].phase).value;
          && m in s.tables.messages
          && s.tables.messages[m].status == Pending && s.tables.messages[m].providerId == None
          && (s.sends[send].phase.Dispatches? ==> m !in s.dispatched))
    && (forall one <- s.sends, other <- s.sends ::
          Owned(s.sends[one].phase).Some? && Owned(s.sends[one].phase) == Owned(s.sends[other].phase) ==> one == other)
  }

  ghost predicate SentOnce(s: System) {
    && (forall i, j | 0 <= i < j < |s.dispatched| :: s.dispatched[i] != s.dispatched[j])
    && (forall m <- s.dispatched :: m in s.tables.messages)
  }

  /** Where a request may write: a thread with its contact, if it names one, on its line. */
  ghost predicate Suits(t: Tables, request: Request, resolution: Resolution) {
    && (resolution.Into? ==>
          && resolution.thread in t.threads
          && t.threads[resolution.thread].line == request.line
          && (request.target.NewTo? ==> t.threads[resolution.thread].contact == request.target.contact))
    && (resolution.IntoNew? ==> request.target == NewTo(resolution.made.contact) && resolution.made.line == request.line)
  }

  ghost predicate ReadsFit(s: System) {
    forall send <- s.sends | s.sends[send].phase.HasRead? ::
      Suits(s.tables, s.sends[send].request, s.sends[send].phase.resolution)
  }

  ghost predicate Valid(s: System) {
    KeysAreUnique(s.tables) && SendsOwn(s) && SentOnce(s) && ReadsFit(s)
  }

  /** A send moves on to a phase in which it owns what it did, or nothing. */
  lemma MovingKeeps(s: System, send: nat, phase: Phase)
    requires Valid(s) && send in s.sends
    requires Owned(phase).None? || (Owned(phase) == Owned(s.sends[send].phase) && !phase.Dispatches?)
    requires phase.HasRead? ==> Suits(s.tables, s.sends[send].request, phase.resolution)
    ensures Valid(To(s, send, phase))
  {
    hide KeysAreUnique;
    var n := To(s, send, phase);
    assert forall other <- n.sends :: other == send || n.sends[other] == s.sends[other];
  }

  /** A message under a key its thread has not seen keeps the keys unique. */
  lemma OneMoreKey(before: Tables, t: Tables, message: MessageId, row: Message)
    requires KeysAreUnique(before) && t.messages == before.messages && before.threads.Keys <= t.threads.Keys
    requires row.thread in t.threads && message !in t.messages && !Attempted(t, row.thread, row.key)
    ensures KeysAreUnique(t.(messages := t.messages[message := row]))
  {
    forall m <- t.messages ensures !(t.messages[m].thread == row.thread && t.messages[m].key == row.key) {
      assert m !in AttemptsIn(t, row.thread, row.key);
    }
  }

  lemma InsertKeeps(s: System, t: Tables, send: nat, request: Request, thread: ThreadId, message: MessageId, read: Tables)
    requires Valid(s) && send in s.sends && Owned(s.sends[send].phase).None?
    requires thread in t.threads && message !in t.messages && t.messages == s.tables.messages
    requires forall id <- s.tables.threads :: id in t.threads && t.threads[id] == s.tables.threads[id]
    ensures Valid(Insert(s, t, send, request, thread, message, read))
  {
    var n := Insert(s, t, send, request, thread, message, read);
    var earlier := AttemptIn(t, thread, request.key);
    if earlier.Some? {
      MovingKeeps(s, send, Done(AlreadyStored(earlier.value)));
    } else {
      OneMoreKey(s.tables, t, message, n.tables.messages[message]);
      hide KeysAreUnique, Attempted, AttemptsIn, AttemptIn, IsSuppressed;
      assert forall other <- n.sends :: other == send || n.sends[other] == s.sends[other];
      assert forall m <- s.tables.messages :: n.tables.messages[m] == s.tables.messages[m];
    }
  }

  lemma WriteOutKeeps(s: System, send: nat, request: Request, resolution: Resolution, message: MessageId, thread: ThreadId,
                      read: Tables)
    requires Valid(s) && send in s.sends && Owned(s.sends[send].phase).None? && Suits(s.tables, request, resolution)
    ensures Valid(WriteOut(s, send, request, resolution, message, thread, read))
  {
    hide Valid, Insert, Taken;
    match resolution
    case Refused(why) => MovingKeeps(s, send, Done(Turned(why)));
    case Answered(earlier) => MovingKeeps(s, send, Done(AlreadyStored(earlier)));
    case Into(found) =>
      if message !in s.tables.messages { InsertKeeps(s, s.tables, send, request, found, message, read); }
    case IntoNew(made) =>
      if message !in s.tables.messages && thread !in s.tables.threads {
        if Taken(s.tables, made) {
          MovingKeeps(s, send, Done(Threw));
        } else {
          InsertKeeps(s, s.tables.(threads := s.tables.threads[thread := made]), send, request, thread, message, read);
        }
      }
  }

  lemma CallKeeps(s: System, send: nat, answer: ProviderAnswer)
    requires Valid(s) && send in s.sends && s.sends[send].phase.Dispatches?
    ensures Valid(Next(s, Calls(send, answer)))
  {
    hide KeysAreUnique, Suits;
    var n := Next(s, Calls(send, answer));
    assert forall other <- n.sends :: other == send || n.sends[other] == s.sends[other];
  }

  /** Whether a request may write into a thread depends on the threads alone. */
  lemma SuitingStays(s: System, n: Tables)
    requires ReadsFit(s) && n.threads == s.tables.threads
    ensures forall send <- s.sends | s.sends[send].phase.HasRead? ::
      Suits(n, s.sends[send].request, s.sends[send].phase.resolution)
  {
  }

  /** Nothing has touched the message its send waits to record: it is still pending, and gets the answer it was sent for. */
  lemma RecordKeeps(s: System, send: nat)
    requires Valid(s) && send in s.sends && s.sends[send].phase.Records?
    ensures var n := Next(s, RecordsAnswer(send));
      var m := s.sends[send].phase.message;
      && Valid(n)
      && m in s.tables.messages && s.tables.messages[m].status == Pending
      && m in n.tables.messages && n.tables.messages[m].status != Pending
  {
    hide Suits;
    var n := Next(s, RecordsAnswer(send));
    SuitingStays(s, n.tables);
    assert forall other <- n.sends :: other == send || n.sends[other] == s.sends[other];
    assert forall m <- s.tables.messages :: m == s.sends[send].phase.message || n.tables.messages[m] == s.tables.messages[m];
  }

  lemma CallbackKeeps(s: System, id: ProviderId, reported: Reported)
    requires Valid(s)
    ensures Valid(Next(s, CallbackArrives(id, reported)))
  {
    hide ShouldApply;
    var n := Next(s, CallbackArrives(id, reported));
    assert forall m <- n.tables.messages ::
        && n.tables.messages[m].thread == s.tables.messages[m].thread && n.tables.messages[m].key == s.tables.messages[m].key
        && (s.tables.messages[m].providerId.None? ==> n.tables.messages[m] == s.tables.messages[m]);
    forall send <- n.sends | n.sends[send].phase.HasRead?
      ensures Suits(n.tables, n.sends[send].request, n.sends[send].phase.resolution)
    {
      assert Suits(s.tables, s.sends[send].request, s.sends[send].phase.resolution);
    }
  }

  /** Lines, staff and opt-outs change, and threads are added, under everybody's feet. */
  lemma SurroundingsKeep(s: System, n: System)
    requires Valid(s) && n == s.(tables := n.tables) && n.tables.messages == s.tables.messages
    requires forall id <- s.tables.threads :: id in n.tables.threads && n.tables.threads[id] == s.tables.threads[id]
    ensures Valid(n)
  {
    forall send <- n.sends | n.sends[send].phase.HasRead?
      ensures Suits(n.tables, n.sends[send].request, n.sends[send].phase.resolution)
    {
      assert Suits(s.tables, s.sends[send].request, s.sends[send].phase.resolution);
    }
  }

  lemma ReadingSuits(t: Tables, request: Request)
    ensures Suits(t, request, Resolve(t, request))
  {
    MessagesGoToTheOwnersThread(t, request);
  }

  lemma StepKeeps(s: System, step: Step)
    requires Valid(s)
    ensures Valid(Next(s, step))
  {
    hide Valid, WriteOut, Resolve, Recorded, Taken, CalledBack, Suits;
    match step
    case Starts(send, request) => if send !in s.sends { StartKeeps(s, send, request); }
    case PreparesAtOnce(send, message, thread) =>
      if send in s.sends && s.sends[send].phase.Prepares? {
        ReadingSuits(s.tables, s.sends[send].request);
        WriteOutKeeps(s, send, s.sends[send].request, Resolve(s.tables, s.sends[send].request), message, thread, s.tables);
      }
    case Reads(send) =>
      if send in s.sends && s.sends[send].phase.Prepares? {
        ReadingSuits(s.tables, s.sends[send].request);
        MovingKeeps(s, send, HasRead(Resolve(s.tables, s.sends[send].request), s.tables));
      }
    case Writes(send, message, thread) =>
      if send in s.sends && s.sends[send].phase.HasRead? {
        ReadsSuit(s, send);
        WriteOutKeeps(s, send, s.sends[send].request, s.sends[send].phase.resolution, message, thread, s.sends[send].phase.read);
      }
    case Calls(send, answer) =>
      if send in s.sends && s.sends[send].phase.Dispatches? { CallKeeps(s, send, answer); }
    case RecordsAnswer(send) =>
      if send in s.sends && s.sends[send].phase.Records? { RecordKeeps(s, send); }
    case CallbackArrives(id, reported) => CallbackKeeps(s, id, reported);
    case _ => SurroundingsKeep(s, Next(s, step));
  }

  lemma ReadsSuit(s: System, send: nat)
    requires Valid(s) && send in s.sends && s.sends[send].phase.HasRead?
    ensures Suits(s.tables, s.sends[send].request, s.sends[send].phase.resolution)
  {
  }

  lemma StartKeeps(s: System, send: nat, request: Request)
    requires Valid(s) && send !in s.sends
    ensures Valid(s.(sends := s.sends[send := Send(request, Prepares)]))
  {
    hide KeysAreUnique, Suits;
    var n := s.(sends := s.sends[send := Send(request, Prepares)]);
    assert forall other <- n.sends :: other == send || n.sends[other] == s.sends[other];
  }
}
