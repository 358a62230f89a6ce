/**
  Storing inbound messages (apps/api/src/messaging/webhook.service.ts and
  webhook-failure.ts): each delivery is one transaction whose first write is
  the dedupe key of the provider's message id; one that loses another unique
  key to a delivery arriving at the same time is run again once.
 */
module MessagingInbound {
  import opened Options
  import opened MessagingScope

  type ProviderId = nat
  type ContactId = nat
  type LineId = nat

  // Opting out -----------------------------------------------------------------------

  const STOP_KEYWORDS := {"STOP", "STOPALL", "UNSUBSCRIBE", "CANCEL", "END", "QUIT"}
  const START_KEYWORDS := {"START", "YES", "UNSTOP"}

  predicate IsSpace(c: char) {
    c == ' ' || c == '\t' || c == '\n' || c == '\r'
  }

  function TrimLeft(s: string): string {
    if s != [] && IsSpace(s[0]) then TrimLeft(s[1..]) else s
  }

  function TrimRight(s: string): string {
    if s != [] && IsSpace(s[|s| - 1]) then TrimRight(s[..|s| - 1]) else s
  }

  function Trim(s: string): string {
    TrimRight(TrimLeft(s))
  }

  function Upper(c: char): char {
    if 'a' <= c <= 'z' then (c as int - 32) as char else c
  }

  function UpperCased(s: string): (r: string)
    ensures |r| == |s| && forall i | 0 <= i < |s| :: r[i] == Upper(s[i])
  {
    if s == [] then [] else [Upper(s[0])] + UpperCased(s[1..])
  }

  datatype OptOut = Suppress(keyword: string) | ReleaseAgain(keyword: string) | Neither

  /** The provider's own flag goes before the body, which counts only if it is exactly one keyword. */
  function ResolveOptOut(flag: Option<string>, body: Option<string>): OptOut {
    OptOutOf(if flag.Some? then flag.value else if body.Some? then UpperCased(Trim(body.value)) else "")
  }

  function OptOutOf(keyword: string): OptOut {
    if keyword == "" then Neither
    else if keyword in STOP_KEYWORDS then Suppress(keyword)
    else if keyword in START_KEYWORDS then ReleaseAgain(keyword)
    else Neither
  }

  predicate AllSpace(s: string) {
    forall i | 0 <= i < |s| :: IsSpace(s[i])
  }

  lemma {:induction false} TrimLeftDrops(before: string, s: string)
    requires AllSpace(before) && (s == [] || !IsSpace(s[0]))
    ensures TrimLeft(before + s) == s
  {
    if before == [] {
      assert before + s == s;
    } else {
      assert (before + s)[1..] == before[1..] + s;
      TrimLeftDrops(before[1..], s);
    }
  }

  lemma {:induction false} TrimRightDrops(s: string, after: string)
    requires AllSpace(after) && (s == [] || !IsSpace(s[|s| - 1]))
    ensures TrimRight(s + after) == s
  {
    if after == [] {
      assert s + after == s;
    } else {
      assert (s + after)[..|s + after| - 1] == s + after[..|after| - 1];
      TrimRightDrops(s, after[..|after| - 1]);
    }
  }

  /** Without a flag, a keyword counts whatever its case and the spaces around it. */
  lemma SpacesAndCaseDoNotMatter(before: string, word: string, after: string)
    requires AllSpace(before) && AllSpace(after) && word != [] && !IsSpace(word[0]) && !IsSpace(word[|word| - 1])
    ensures ResolveOptOut(None, Some(before + word + after)) == ResolveOptOut(Some(UpperCased(word)), None)
  {
    hide OptOutOf, TrimLeft, TrimRight, UpperCased, IsSpace;
    assert before + word + after == before + (word + after);
    assert (word + after)[0] == word[0];
    TrimLeftDrops(before, word + after);
    TrimRightDrops(word, after);
  }

  lemma {:induction false} TrimLeftLeaves(s: string)
    ensures exists before :: AllSpace(before) && s == before + TrimLeft(s)
    ensures TrimLeft(s) == [] || !IsSpace(TrimLeft(s)[0])
  {
    if s != [] && IsSpace(s[0]) {
      TrimLeftLeaves(s[1..]);
      var before :| AllSpace(before) && s[1..] == before + TrimLeft(s[1..]);
      assert AllSpace([s[0]] + before) && s == [s[0]] + before + TrimLeft(s);
    } else {
      assert AllSpace([]) && s == [] + TrimLeft(s);
    }
  }

  lemma {:induction false} TrimRightLeaves(s: string)
    ensures exists after :: AllSpace(after) && s == TrimRight(s) + after
    ensures TrimRight(s) == [] || !IsSpace(TrimRight(s)[|TrimRight(s)| - 1])
    ensures TrimRight(s) <= s
  {
    if s != [] && IsSpace(s[|s| - 1]) {
      var shorter := s[..|s| - 1];
      TrimRightLeaves(shorter);
      var after :| AllSpace(after) && shorter == TrimRight(shorter) + after;
      assert AllSpace(after + [s[|s| - 1]]) && s == TrimRight(s) + (after + [s[|s| - 1]]);
    } else {
      assert AllSpace([]) && s == TrimRight(s) + [];
    }
  }

  /** The body is this word, in any case, and nothing but spaces around it. */
  ghost predicate IsWord(body: string, word: string) {
    exists before, written, after ::
      AllSpace(before) && AllSpace(after) && body == before + written + after && UpperCased(written) == word
  }

  /** The provider says so, or, if it says nothing, the whole body is one of these words. */
  ghost predicate Says(flag: Option<string>, body: Option<string>, words: set<string>) {
    if flag.Some? then flag.value in words
    else body.Some? && exists word <- words :: IsWord(body.value, word)
  }

  ghost predicate OptsOut(flag: Option<string>, body: Option<string>) {
    Says(flag, body, {"STOP", "STOPALL", "UNSUBSCRIBE", "CANCEL", "END", "QUIT"})
  }

  ghost predicate OptsIn(flag: Option<string>, body: Option<string>) {
    Says(flag, body, {"START", "YES", "UNSTOP"})
  }

  /** A word with no space at its ends, whatever surrounds it, is what trimming leaves. */
  lemma WordsAreTrimmed(body: string, word: string)
    requires word != [] && !IsSpace(word[0]) && !IsSpace(word[|word| - 1])
    ensures IsWord(body, word) <==> UpperCased(Trim(body)) == word
  {
    hide IsWord, UpperCased, Trim;
    TrimmingLeavesAWord(body);
    if IsWord(body, word) {
      WordIsLeft(body, word);
    }
  }

  lemma TrimmingLeavesAWord(body: string)
    ensures IsWord(body, UpperCased(Trim(body)))
  {
    hide UpperCased, TrimLeft, TrimRight;
    TrimLeftLeaves(body);
    TrimRightLeaves(TrimLeft(body));
    var before :| AllSpace(before) && body == before + TrimLeft(body);
    var after :| AllSpace(after) && TrimLeft(body) == Trim(body) + after;
    assert body == before + Trim(body) + after;
  }

  lemma WordIsLeft(body: string, word: string)
    requires word != [] && !IsSpace(word[0]) && !IsSpace(word[|word| - 1]) && IsWord(body, word)
    ensures UpperCased(Trim(body)) == word
  {
    var before, written, after :|
      AllSpace(before) && AllSpace(after) && body == before + written + after && UpperCased(written) == word;
    assert Upper(written[0]) == word[0] && Upper(written[|written| - 1]) == word[|word| - 1];
    hide TrimLeft, TrimRight, UpperCased;
    assert before + written + after == before + (written + after);
    TrimLeftDrops(before, written + after);
    TrimRightDrops(written, after);
  }

  lemma StopWordsHaveNoSpace()
    ensures forall word <- STOP_KEYWORDS :: word != [] && !IsSpace(word[0]) && !IsSpace(word[|word| - 1])
  {
  }

  lemma StartWordsHaveNoSpace()
    ensures forall word <- START_KEYWORDS :: word != [] && !IsSpace(word[0]) && !IsSpace(word[|word| - 1])
  {
  }

  lemma KeywordsDiffer()
    ensures forall word <- START_KEYWORDS :: word !in STOP_KEYWORDS
  {
  }

  /** One of these words is said exactly if it is what trimming and upper-casing make of the body. */
  lemma SaysWhatIsTrimmed(body: string, words: set<string>)
    requires forall word <- words :: word != [] && !IsSpace(word[0]) && !IsSpace(word[|word| - 1])
    ensures Says(None, Some(body), words) <==> UpperCased(Trim(body)) in words
  {
    hide IsWord, UpperCased, IsSpace, Trim;
    forall word <- words ensures IsWord(body, word) <==> UpperCased(Trim(body)) == word {
      WordsAreTrimmed(body, word);
    }
  }

  /** A message suppresses its pair, or releases it, exactly if it says one of the words for that. */
  lemma KeywordsCountExactly(flag: Option<string>, body: Option<string>)
    ensures ResolveOptOut(flag, body).Suppress? <==> OptsOut(flag, body)
    ensures ResolveOptOut(flag, body).ReleaseAgain? <==> OptsIn(flag, body)
  {
    StopWordsHaveNoSpace();
    StartWordsHaveNoSpace();
    KeywordsDiffer();
    assert OptsOut(flag, body) == Says(flag, body, STOP_KEYWORDS) && OptsIn(flag, body) == Says(flag, body, START_KEYWORDS);
    hide STOP_KEYWORDS, START_KEYWORDS, OptsOut, OptsIn, UpperCased, Trim;
    if flag.None? && body.Some? {
      SaysWhatIsTrimmed(body.value, STOP_KEYWORDS);
      SaysWhatIsTrimmed(body.value, START_KEYWORDS);
    }
  }

  // Reading a failed write ---------------------------------------------------------------

  const DEDUPE_KEY_NAMES := {"message_provider_events_dedupe_key_key", "dedupe_key", "dedupeKey"}

  /** A failed write: its code, and the unique key it names, in the places a driver may name it. */
  datatype WriteError = WriteError(code: string, index: Option<string>, fields: Option<seq<string>>, target: seq<string>)

  datatype Failure = DuplicateDelivery | LostRace | Unrelated

  function UniqueKeyNames(e: WriteError): seq<string> {
    if e.index.Some? then [e.index.value] else if e.fields.Some? then e.fields.value else e.target
  }

  function Classify(e: WriteError): Failure {
    if e.code != "P2002" then Unrelated
    else
      var names := UniqueKeyNames(e);
      if names != [] && (forall i | 0 <= i < |names| :: names[i] in DEDUPE_KEY_NAMES) then DuplicateDelivery else LostRace
  }

  /**
    Only a collision is a failure of the delivery at all. One that names
    another key, or none, is never read as a delivery the provider repeated;
    one that names the dedupe key is, in whichever of its spellings and places
    the driver names it.
   */
  lemma OnlyTheDedupeKeyIsARepeat(e: WriteError, i: nat, spelling: string)
    requires spelling in DEDUPE_KEY_NAMES
    ensures Classify(e).Unrelated? <==> e.code != "P2002"
    ensures e.code == "P2002" && UniqueKeyNames(e) == [] ==> Classify(e).LostRace?
    ensures e.code == "P2002" && i < |UniqueKeyNames(e)| && UniqueKeyNames(e)[i] !in DEDUPE_KEY_NAMES ==> Classify(e).LostRace?
    ensures e.code == "P2002" ==> Classify(e.(index := Some(spelling))).DuplicateDelivery?
    ensures e.code == "P2002" ==> Classify(e.(index := None, fields := Some([spelling]))).DuplicateDelivery?
    ensures e.code == "P2002" ==> Classify(e.(index := None, fields := None, target := [spelling])).DuplicateDelivery?
  {
    hide DEDUPE_KEY_NAMES;
  }

  // The tables ------------------------------------------------------------------------------

  datatype Pair = Pair(contact: ContactId, line: LineId)

  /** A thread: a contact on a line under one owner. */
  datatype Thread = Thread(pair: Pair, owner: Owner)

  datatype Stored = Stored(id: ProviderId, thread: Thread, flag: Option<string>, body: Option<string>)

  datatype Tables = Tables(
    events: set<ProviderId>,
    quarantined: set<ProviderId>,
    messages: seq<Stored>,
    unread: map<Thread, nat>,
    suppressed: map<Pair, bool>)

  const NOTHING := Tables({}, {}, [], map[], map[])

  /**
    One delivery: the message, the line it is for, if an active one of that
    kind was found, with its holder, and the provider's flag and the body, in
    which it may opt out.
   */
  datatype Delivery = Delivery(
    id: ProviderId,
    contact: ContactId,
    line: Option<(LineId, Holder)>,
    flag: Option<string>,
    body: Option<string>)

  datatype Attempt = Processed | Quarantined | Duplicate | Lost

  function FiledUnder(d: Delivery): Option<Thread> {
    if d.line.None? || OwnerOf(d.line.value.1).None? then None
    else Some(Thread(Pair(d.contact, d.line.value.0), OwnerOf(d.line.value.1).value))
  }

  /** A pair's suppression after a message; a pair never suppressed has no row to release. */
  function SuppressionAfter(suppressed: map<Pair, bool>, pair: Pair, optOut: OptOut): map<Pair, bool> {
    match optOut
    case Suppress(_) => suppressed[pair := true]
    case ReleaseAgain(_) => if pair in suppressed then suppressed[pair := false] else suppressed
    case Neither => suppressed
  }

  function Filed(t: Tables, d: Delivery, thread: Thread): Tables {
    t.(events := t.events + {d.id},
       messages := t.messages + [Stored(d.id, thread, d.flag, d.body)],
       unread := t.unread[thread := (if thread in t.unread then t.unread[thread] else 0) + 1],
       suppressed := SuppressionAfter(t.suppressed, thread.pair, ResolveOptOut(d.flag, d.body)))
  }

  /** One run of the transaction; `races` says that another delivery takes the contact or the thread first. */
  function Attempted(t: Tables, d: Delivery, races: bool): (Tables, Attempt) {
    if d.id in t.events then (t, Duplicate)
    else if FiledUnder(d).None? then (t.(events := t.events + {d.id}, quarantined := t.quarantined + {d.id}), Quarantined)
    else if races then (t, Lost)
    else (Filed(t, d, FiledUnder(d).value), Processed)
  }

  /** Answered as received, or as failed so that the provider delivers it again. */
  datatype Answer = Received(attempt: Attempt) | AnsweredFailed

  function Delivered(t: Tables, d: Delivery, first: bool, second: bool): (Tables, Answer) {
    var (after, attempt) := Attempted(t, d, first);
    if !attempt.Lost? then (after, Received(attempt))
    else
      var (again, retry) := Attempted(after, d, second);
      (again, if retry.Lost? then AnsweredFailed else Received(retry))
  }

  /** A delivery, and which of its two runs lose a race. */
  datatype Arrival = Arrival(delivery: Delivery, first: bool, second: bool)

  function AfterArrivals(arrivals: seq<Arrival>): Tables {
    if arrivals == [] then NOTHING
    else
      var last := arrivals[|arrivals| - 1];
      Delivered(AfterArrivals(arrivals[..|arrivals| - 1]), last.delivery, last.first, last.second).0
  }

  // What the tables keep ----------------------------------------------------------------------

  /** The last of the messages on a pair that opted out or in opted out. */
  ghost predicate LastOptedOut(messages: seq<Stored>, pair: Pair) {
    messages != [] &&
      var last := messages[|messages| - 1];
      if last.thread.pair == pair && OptsOut(last.flag, last.body) then true
      else if last.thread.pair == pair && OptsIn(last.flag, last.body) then false
      else LastOptedOut(messages[..|messages| - 1], pair)
  }

  /** How many messages are stored in a thread. */
  function CountIn(messages: seq<Stored>, thread: Thread): nat {
    if messages == [] then 0
    else CountIn(messages[..|messages| - 1], thread) + if messages[|messages| - 1].thread == thread then 1 else 0
  }

  predicate IsSuppressed(t: Tables, pair: Pair) {
    pair in t.suppressed && t.suppressed[pair]
  }

  ghost predicate OnceEach(t: Tables) {
    && (forall i, j | 0 <= i < j < |t.messages| :: t.messages[i].id != t.messages[j].id)
    && (forall m <- t.messages :: m.id in t.events && m.id !in t.quarantined)
    && t.quarantined <= t.events
    && (forall id <- t.events :: id in t.quarantined || exists m <- t.messages :: m.id == id)
  }

  ghost predicate Counted(t: Tables) {
    && (forall thread: Thread :: CountIn(t.messages, thread) == if thread in t.unread then t.unread[thread] else 0)
    && (forall pair: Pair :: IsSuppressed(t, pair) <==> LastOptedOut(t.messages, pair))
  }

  lemma FilingKeepsOnce(t: Tables, d: Delivery, thread: Thread)
    requires OnceEach(t) && d.id !in t.events
    ensures OnceEach(Filed(t, d, thread))
  {
    hide SuppressionAfter;
    var n := Filed(t, d, thread);
    forall id <- n.events ensures id in n.quarantined || exists m <- n.messages :: m.id == id {
      if id == d.id {
        assert n.messages[|t.messages|].id == id;
      } else if id !in t.quarantined {
        var m :| m in t.messages && m.id == id;
        assert m in n.messages;
      }
    }
    forall m <- n.messages ensures m.id in n.events && m.id !in n.quarantined {
      assert m in t.messages || m.id == d.id;
    }
    assert d.id !in t.quarantined;
  }

  lemma FilingKeepsCounts(t: Tables, d: Delivery, thread: Thread)
    requires Counted(t)
    ensures Counted(Filed(t, d, thread))
  {
    KeywordsCountExactly(d.flag, d.body);
    hide ResolveOptOut, OptsOut, OptsIn;
    var n := Filed(t, d, thread);
    assert n.messages[..|n.messages| - 1] == t.messages;
    forall pair: Pair ensures IsSuppressed(n, pair) <==> LastOptedOut(n.messages, pair) {
      assert IsSuppressed(t, pair) <==> LastOptedOut(t.messages, pair);
    }
    forall other: Thread ensures CountIn(n.messages, other) == if other in n.unread then n.unread[other] else 0 {
      assert CountIn(t.messages, other) == if other in t.unread then t.unread[other] else 0;
    }
  }

  lemma AttemptKeeps(t: Tables, d: Delivery, races: bool)
    requires OnceEach(t) && Counted(t)
    ensures OnceEach(Attempted(t, d, races).0) && Counted(Attempted(t, d, races).0)
  {
    if d.id !in t.events && FiledUnder(d).Some? && !races {
      FilingKeepsOnce(t, d, FiledUnder(d).value);
      FilingKeepsCounts(t, d, FiledUnder(d).value);
    }
  }

  lemma {:induction false} ArrivalsKeep(arrivals: seq<Arrival>)
    ensures OnceEach(AfterArrivals(arrivals)) && Counted(AfterArrivals(arrivals))
    decreases |arrivals|
  {
    if arrivals != [] {
      var last := arrivals[|arrivals| - 1];
      var before := AfterArrivals(arrivals[..|arrivals| - 1]);
      ArrivalsKeep(arrivals[..|arrivals| - 1]);
      AttemptKeeps(before, last.delivery, last.first);
      AttemptKeeps(Attempted(before, last.delivery, last.first).0, last.delivery, last.second);
    }
  }

  /**
    However often and in whatever order deliveries come, and whichever lose a
    race: each provider message is stored at most once, a thread has as many
    unread as messages stored in it, and a pair is suppressed exactly when the
    last message stored on it that opted out or in opted out.
   */
  lemma DeliveriesTakeEffectOnce(arrivals: seq<Arrival>)
    ensures var t := AfterArrivals(arrivals);
      && (forall i, j | 0 <= i < j < |t.messages| :: t.messages[i].id != t.messages[j].id)
      && (forall thread: Thread :: CountIn(t.messages, thread) == if thread in t.unread then t.unread[thread] else 0)
      && (forall pair: Pair :: IsSuppressed(t, pair) <==> LastOptedOut(t.messages, pair))
  {
    ArrivalsKeep(arrivals);
  }

  /**
    The provider hears that a message was received exactly when it is stored
    or set aside; a delivery answered as failed changed nothing, and happens
    only to one that lost both its runs.
   */
  lemma ReceivedMeansKept(arrivals: seq<Arrival>, d: Delivery, first: bool, second: bool)
    ensures var t := AfterArrivals(arrivals);
      var (after, answer) := Delivered(t, d, first, second);
      && (answer.Received? <==> d.id in after.events)
      && (answer.Received? ==> d.id in after.quarantined || exists m <- after.messages :: m.id == d.id)
      && (answer.AnsweredFailed? <==> d.id !in t.events && FiledUnder(d).Some? && first && second)
      && (answer.AnsweredFailed? || answer == Received(Duplicate) ==> after == t)
  {
    var a := Arrival(d, first, second);
    ArrivalsKeep(arrivals + [a]);
    assert (arrivals + [a])[..|arrivals|] == arrivals;
  }

  /**
    A delivery that is not a repeat is set aside exactly if no line with an
    owner was found for it, and otherwise stored unless it lost both its runs:
    under the contact, the line and the line's owner, one more unread there,
    and the suppression of no other pair is touched.
   */
  lemma DeliveriesAreStoredExactly(t: Tables, d: Delivery, first: bool, second: bool)
    ensures var (after, answer) := Delivered(t, d, first, second);
      var owned := d.line.Some? && (d.line.value.1.user.Some? || d.line.value.1.department.Some?);
      && (answer == Received(Duplicate) <==> d.id in t.events)
      && (answer == Received(Quarantined) <==> d.id !in t.events && !owned)
      && (answer == Received(Processed) <==> d.id !in t.events && owned && !(first && second))
      && (answer == Received(Quarantined) ==>
            after == t.(events := t.events + {d.id}, quarantined := t.quarantined + {d.id}))
      && (answer == Received(Processed) ==>
            var pair, holder := Pair(d.contact, d.line.value.0), d.line.value.1;
            var thread := Thread(pair, if holder.user.Some? then OwnedByUser(holder.user.value)
                                       else OwnedByDepartment(holder.department.value));
            && after == t.(events := t.events + {d.id}, messages := t.messages + [Stored(d.id, thread, d.flag, d.body)],
                           unread := after.unread, suppressed := after.suppressed)
            && after.unread == t.unread[thread := 1 + if thread in t.unread then t.unread[thread] else 0]
            && (IsSuppressed(after, pair) <==>
                  OptsOut(d.flag, d.body) || (IsSuppressed(t, pair) && !OptsIn(d.flag, d.body)))
            && forall other: Pair | other != pair :: IsSuppressed(after, other) <==> IsSuppressed(t, other))
  {
    KeywordsCountExactly(d.flag, d.body);
    hide ResolveOptOut, OptsOut, OptsIn;
  }

  // In place --------------------------------------------------------------------------------------

  class Webhook {
    var events: set<ProviderId>
    var quarantined: set<ProviderId>
    var messages: seq<Stored>
    var unread: map<Thread, nat>
    var suppressed: map<Pair, bool>

    constructor ()
      ensures Value() == NOTHING
    {
      events, quarantined, messages, unread, suppressed := {}, {}, [], map[], map[];
    }

    function Value(): Tables
      reads this
    {
      Tables(events, quarantined, messages, unread, suppressed)
    }

    /** One run of the transaction; one that fails is rolled back. */
    method AttemptInbound(d: Delivery, races: bool) returns (attempt: Attempt)
      modifies this
      ensures (Value(), attempt) == Attempted(old(Value()), d, races)
    {
      if d.id in events {
        return Duplicate;
      }
      var before := events;
      events := events + {d.id};

      if d.line.None? || OwnerOf(d.line.value.1).None? {
        quarantined := quarantined + {d.id};
        return Quarantined;
      }
      if races {
        events := before;
        return Lost;
      }

      var thread := Thread(Pair(d.contact, d.line.value.0), OwnerOf(d.line.value.1).value);
      messages := messages + [Stored(d.id, thread, d.flag, d.body)];
      unread := unread[thread := (if thread in unread then unread[thread] else 0) + 1];
      NoteKeyword(thread.pair, ResolveOptOut(d.flag, d.body));
      return Processed;
    }

    method NoteKeyword(pair: Pair, optOut: OptOut)
      modifies `suppressed
      ensures suppressed == SuppressionAfter(old(suppressed), pair, optOut)
    {
      match optOut {
        case Suppress(_) => suppressed := suppressed[pair := true];
        case ReleaseAgain(_) =>
          if pair in suppressed {
            suppressed := suppressed[pair := false];
          }
        case Neither =>
      }
    }

    method ProcessInbound(d: Delivery, first: bool, second: bool) returns (answer: Answer)
      modifies this
      ensures (Value(), answer) == Delivered(old(Value()), d, first, second)
    {
      var attempt := AttemptInbound(d, first);
      if !attempt.Lost? {
        return Received(attempt);
      }
      var retry := AttemptInbound(d, second);
      return if retry.Lost? then AnsweredFailed else Received(retry);
    }
  }
}
