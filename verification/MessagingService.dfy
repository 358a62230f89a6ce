/**
  A send as it runs (apps/api/src/messaging/send.service.ts): the transaction
  that stores the message, the poll for an earlier attempt to settle, the call
  of the provider and the record of its answer, with anything others do to the
  tables in between.
 */
module MessagingService {
  import opened Options
  import opened MessagingScope
  import MessagingStatus
  import opened MessagingSend
  import opened MessagingRetries
  import opened MessagingFiling

  const SETTLE_ATTEMPTS: nat := 5

  /** What a transaction prepared: a message to be sent, or the end of the send. */
  datatype Preparation = ToSend(message: MessageId) | Over(outcome: Outcome)

  class Service {
    var tables: Tables
    /** The messages the provider was asked to send. */
    var dispatched: seq<MessageId>
    /** The messages these sends stored. */
    ghost var stored: seq<MessageId>
    /** How often the last wait for a message to settle polled. */
    ghost var polled: nat

    ghost predicate Valid()
      reads this
    {
      KeysAreUnique(tables)
    }

    /** Others add rows and change what is in them, but for a message that is being sent, which is nobody's to touch. */
    method OthersAct(mine: Option<MessageId>)
      requires Valid() && (mine.Some? ==> mine.value in tables.messages)
      modifies `tables
      ensures Valid() && Extends(old(tables), tables)
      ensures mine.Some? ==> tables.messages[mine.value] == old(tables).messages[mine.value]
    {
      var t: Tables := *;
      if KeysAreUnique(t) && Extends(tables, t)
         && (mine.Some? ==> t.messages[mine.value] == tables.messages[mine.value]) {
        tables := t;
      }
    }

    /**
      Polls for the message stored in a thread under a key until it is no
      longer pending, at most five times; there is none exactly if there was
      none to begin with.
     */
    method WaitForSettled(thread: ThreadId, key: Key) returns (m: Option<MessageId>, polls: nat)
      requires Valid()
      modifies `tables
      ensures Valid() && Extends(old(tables), tables)
      ensures m == AttemptIn(old(tables), thread, key)
      ensures m.Some? ==>
        && m.value in tables.messages
        && (tables.messages[m.value].status == MessagingStatus.Pending ==> polls == SETTLE_ATTEMPTS)
    {
      m, polls := None, 0;
      while polls < SETTLE_ATTEMPTS
        invariant polls < SETTLE_ATTEMPTS && Valid() && Extends(old(tables), tables)
        invariant polls > 0 ==> AttemptIn(old(tables), thread, key).Some?
        invariant polls == 0 ==> tables == old(tables)
      {
        AttemptStays(old(tables), tables, thread, key);
        m := AttemptIn(tables, thread, key);
        polls := polls + 1;
        if m.None? || tables.messages[m.value].status != MessagingStatus.Pending || polls == SETTLE_ATTEMPTS {
          return;
        }
        OthersAct(None);
      }
    }

    /**
      The transaction. Where the message goes is read first, and it goes with
      whoever held the line then; an earlier attempt is polled until it settles
      and answers the send. A thread that another transaction made meanwhile
      ends the send, and a key that another took answers it, once what is
      stored there has settled. With nothing in between a send that goes
      through is to be sent, unless its contact has opted out.
     */
    method Prepare(request: Request, message: MessageId, thread: ThreadId, overlaps: bool) returns (preparation: Preparation)
      requires Valid()
      modifies `tables, `stored, `polled
      ensures Valid() && Extends(old(tables), tables)
      ensures preparation.ToSend? ==>
        && preparation.message == message && message !in old(tables).messages && message in tables.messages
        && stored == old(stored) + [message]
        && tables.messages[message].key == request.key
        && tables.messages[message].status == MessagingStatus.Pending && tables.messages[message].providerId.None?
        && GoesThrough(old(tables), request) && IsFiledFor(old(tables), request, message)
      ensures !overlaps && GoesThrough(old(tables), request) && KeyIsFree(old(tables), request)
              && message !in old(tables).messages && thread !in old(tables).threads ==>
        preparation == if IsOptedOut(old(tables), request) then Over(Suppressed) else ToSend(message)
      ensures !overlaps && preparation.ToSend? ==> !IsOptedOut(old(tables), request)
      ensures !GoesThrough(old(tables), request) ==>
        preparation.Over? && (preparation.outcome.Turned? || preparation.outcome.AlreadyStored?)
      ensures preparation.Over? ==> !preparation.outcome.Sent? && !preparation.outcome.NotTaken?
      ensures preparation.Over? && !preparation.outcome.Suppressed? ==> stored == old(stored)
      ensures preparation.Over? && preparation.outcome.AlreadyStored? ==> AnsweredBy(preparation.outcome.message, request.key)
    {
      var resolution := Resolve(tables, request);
      ReadingSuits(tables, request);
      SendsGoThroughExactly(tables, request);
      MessagesGoToTheOwnersThread(tables, request);
      match resolution {
        case Refused(why) => return Over(Turned(why));
        case Answered(earlier) =>
          AnsweredUnderItsKey(tables, request);
          preparation := AnswerWithStored(tables.messages[earlier].thread, request.key);
          return;
        case _ =>
      }
      if resolution.Into? {
        FreeKeyIsUntried(tables, request, resolution.thread);
      } else {
        NewThreadIsNotTaken(tables, resolution.made, LineOwner(tables, request.line).value);
      }
      if overlaps {
        OthersAct(None);
      }

      var into := thread;
      var t := tables;
      if resolution.IntoNew? {
        if Taken(tables, resolution.made) || thread in tables.threads {
          return Over(Threw);
        }
        t := t.(threads := t.threads[thread := resolution.made]);
      } else {
        into := resolution.thread;
      }
      var written := Store(t, request, into, message);
      if written.None? {
        if message in tables.messages {
          return Over(Threw);
        }
        preparation := AnswerWithStored(into, request.key);
        return;
      }
      return if written.value then ToSend(message) else Over(Suppressed);
    }

    /** The message is in the thread it was for, or in one of whoever held the line, with the contact it was for. */
    ghost predicate IsFiledFor(read: Tables, request: Request, message: MessageId)
      reads `tables
    {
      && message in tables.messages
      && var id := tables.messages[message].thread;
         && id in tables.threads && tables.threads[id].line == request.line
         && match request.target
            case InThread(target) => id == target
            case NewTo(contact) =>
              && LineOwner(read, request.line).Some?
              && OwnersThread(tables, id, contact, request.line, LineOwner(read, request.line).value)
    }

    /** The message is stored under the key, and has settled or was polled for as often as a send polls. */
    ghost predicate AnsweredBy(message: MessageId, key: Key)
      reads `tables, `polled
    {
      && message in tables.messages && tables.messages[message].key == key
      && (tables.messages[message].status == MessagingStatus.Pending ==> polled == SETTLE_ATTEMPTS)
    }

    /** What is stored under the key answers the send, as it stands once it has settled or been polled for. */
    method AnswerWithStored(thread: ThreadId, key: Key) returns (preparation: Preparation)
      requires Valid()
      modifies `tables, `polled
      ensures Valid() && Extends(old(tables), tables)
      ensures preparation == Over(match AttemptIn(old(tables), thread, key)
                                  case Some(earlier) => AlreadyStored(earlier)
                                  case None => Threw)
      ensures preparation.outcome.AlreadyStored? ==> AnsweredBy(preparation.outcome.message, key)
    {
      var settled, polls := WaitForSettled(thread, key);
      polled := polls;
      return Over(if settled.Some? then AlreadyStored(settled.value) else Threw);
    }

    /**
      The message is written, as pending or blocked by an opt-out; a key that is
      taken in its thread, or an id that is, takes back all the transaction did.
     */
    method Store(t: Tables, request: Request, thread: ThreadId, message: MessageId) returns (pending: Option<bool>)
      requires Valid() && thread in t.threads && t.messages == tables.messages && Extends(tables, t)
      modifies `tables, `stored
      ensures Valid() && Extends(old(tables), tables)
      ensures pending.None? <==> Attempted(t, thread, request.key) || message in t.messages
      ensures pending.None? ==> tables == old(tables) && stored == old(stored)
      ensures pending.Some? ==>
        && pending.value == !IsSuppressed(t, thread) && stored == old(stored) + [message]
        && var status := if pending.value then MessagingStatus.Pending else MessagingStatus.Failed;
           tables == t.(messages := t.messages[message := Message(thread, request.key, status, None)])
    {
      if Attempted(t, thread, request.key) || message in tables.messages {
        return None;
      }
      assert forall m <- t.messages :: m !in AttemptsIn(t, thread, request.key);
      var blocked := IsSuppressed(t, thread);
      var status := if blocked then MessagingStatus.Failed else MessagingStatus.Pending;
      tables := t.(messages := t.messages[message := Message(thread, request.key, status, None)]);
      stored := stored + [message];
      return Some(!blocked);
    }

    /**
      A whole send. The provider is asked at most once, for the one message
      this send stored, which is where it should be; its answer goes to that
      message while it is still pending. With nothing in between it is asked
      exactly if the send goes through to a contact who has not opted out.
     */
    method Send(request: Request, message: MessageId, thread: ThreadId, overlaps: bool, answer: ProviderAnswer)
      returns (outcome: Outcome)
      requires Valid()
      modifies this
      ensures Valid() && Extends(old(tables), tables)
      ensures outcome.Sent? || outcome.NotTaken? ==>
        && dispatched == old(dispatched) + [message] && message !in old(tables).messages
        && GoesThrough(old(tables), request) && IsFiledFor(old(tables), request, message)
        && tables.messages[message].key == request.key
        && outcome == (if answer.Accepts? then Sent else NotTaken)
        && tables.messages[message].providerId == (if answer.Accepts? then Some(answer.id) else None)
        && match answer
           case Accepts(_) => tables.messages[message].status == MessagingStatus.Accepted
           case Rejects => tables.messages[message].status == MessagingStatus.Rejected
           case Fails => tables.messages[message].status == MessagingStatus.Failed
      ensures !outcome.Sent? && !outcome.NotTaken? ==> dispatched == old(dispatched)
      ensures !overlaps && GoesThrough(old(tables), request) && KeyIsFree(old(tables), request)
              && message !in old(tables).messages && thread !in old(tables).threads ==>
        if IsOptedOut(old(tables), request) then outcome.Suppressed? else outcome.Sent? || outcome.NotTaken?
      ensures !GoesThrough(old(tables), request) ==> outcome.Turned? || outcome.AlreadyStored?
      ensures outcome.AlreadyStored? ==> AnsweredBy(outcome.message, request.key)
    {
      var preparation := Prepare(request, message, thread, overlaps);
      if preparation.Over? {
        return preparation.outcome;
      }
      OthersAct(Some(message));
      dispatched := dispatched + [message];
      OthersAct(Some(message));
      outcome := RecordAnswer(message, answer);
    }

    method RecordAnswer(message: MessageId, answer: ProviderAnswer) returns (outcome: Outcome)
      requires Valid() && message in tables.messages && tables.messages[message].status == MessagingStatus.Pending
      modifies `tables
      ensures Valid() && Extends(old(tables), tables)
      ensures outcome == if answer.Accepts? then Sent else NotTaken
      ensures tables == old(tables).(messages := old(tables).messages[message := WithAnswer(old(tables).messages[message], answer)])
    {
      var row := tables.messages[message];
      match answer {
        case Accepts(id) => row := row.(status := MessagingStatus.Accepted, providerId := Some(id)); outcome := Sent;
        case Rejects => row := row.(status := MessagingStatus.Rejected); outcome := NotTaken;
        case Fails => row := row.(status := MessagingStatus.Failed); outcome := NotTaken;
      }
      tables := tables.(messages := tables.messages[message := row]);
    }
  }

  /** A send is answered with a message stored under its key. */
  lemma AnsweredUnderItsKey(t: Tables, request: Request)
    requires Resolve(t, request).Answered?
    ensures var m := Resolve(t, request).message;
      m in t.messages && t.messages[m].key == request.key && AttemptIn(t, t.messages[m].thread, request.key).Some?
  {
    var m := Resolve(t, request).message;
    assert m in AttemptsIn(t, t.messages[m].thread, request.key);
  }

  /** A message stored under a key stays the one that is stored under it. */
  lemma AttemptStays(t: Tables, n: Tables, thread: ThreadId, key: Key)
    requires KeysAreUnique(n) && Extends(t, n)
    ensures AttemptIn(t, thread, key).Some? ==> AttemptIn(n, thread, key) == AttemptIn(t, thread, key)
  {
    var m := AttemptIn(t, thread, key);
    if m.Some? {
      assert m.value in AttemptsIn(n, thread, key);
    }
  }
}
