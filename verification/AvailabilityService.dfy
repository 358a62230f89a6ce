/**
  Offering a call and taking claims
  (apps/call-controller/src/realtime/availability.service.ts), on the store
  and the presence that everybody else changes at the same time.
 */
module AvailabilityService {
  import opened Options
  import opened AvailabilityStore
  import opened AvailabilityOffers

  // What there was to see ----------------------------------------------------------------------

  /** The store and the presence as they were at one moment. */
  datatype Moment = Moment(users: map<UserId, User>, now: Time, presence: map<UserId, set<SocketId>>)

  function UserAt(m: Moment, id: UserId): User {
    if id in m.users then m.users[id] else NOBODY
  }

  function SocketsIn(presence: map<UserId, set<SocketId>>, id: UserId): set<SocketId> {
    if id in presence then presence[id] else {}
  }

  /** One attempt at a claim: the moments the store and the sockets were read, and the one the claim was tried, if it was. */
  datatype Try = Try(readAt: nat, seenAt: nat, claimedAt: Option<nat>)

  /** A user asked for a call: the attempts made, and what they came to. */
  datatype Ask = Ask(id: UserId, call: CallId, tries: seq<Try>, outcome: Outcome)

  /** The attempt is made of moments that were, one after the other. */
  predicate InOrder(moments: seq<Moment>, t: Try) {
    t.readAt <= t.seenAt < |moments| && (t.claimedAt.Some? ==> t.seenAt <= t.claimedAt.value < |moments|)
  }

  /** A softphone was connected, do not disturb off and no other call claiming, as far as the reads of this attempt saw. */
  predicate FoundFree(moments: seq<Moment>, id: UserId, call: CallId, t: Try)
    requires InOrder(moments, t)
  {
    var read := moments[t.readAt];
    && SocketsIn(moments[t.seenAt].presence, id) != {}
    && !UserAt(read, id).dnd
    && Live(UserAt(read, id), read.now) <= {call}
  }

  /** Nothing about the user changed between the read and the claim. */
  predicate Landed(moments: seq<Moment>, id: UserId, t: Try)
    requires InOrder(moments, t)
  {
    t.claimedAt.Some? && UserAt(moments[t.claimedAt.value], id).revision == UserAt(moments[t.readAt], id).revision
  }

  /** The reason an attempt that did not find the user free gives: what lasts longest goes first. */
  predicate IsWhy(moments: seq<Moment>, id: UserId, t: Try, reason: Availability)
    requires InOrder(moments, t)
  {
    var sockets, dnd := SocketsIn(moments[t.seenAt].presence, id), UserAt(moments[t.readAt], id).dnd;
    && (reason.Offline? <==> sockets == {})
    && (reason.Disturbed? <==> sockets != {} && dnd)
    && (reason.Busy? <==> sockets != {} && !dnd)
  }

  /** Each of these attempts found the user free and was overtaken by a change. */
  predicate AllOvertaken(moments: seq<Moment>, id: UserId, call: CallId, tries: seq<Try>) {
    && (forall i | 0 <= i < |tries| ::
          && InOrder(moments, tries[i])
          && FoundFree(moments, id, call, tries[i]) && tries[i].claimedAt.Some? && !Landed(moments, id, tries[i]))
    && (forall i, j | 0 <= i < j < |tries| :: tries[i].claimedAt.Some? && tries[i].claimedAt.value < tries[j].readAt)
  }

  /**
    The answer an attempt gives: the user found free is offered the call on
    the sockets it saw if the claim landed, and one not found free is refused
    for the reason there is. One that was overtaken gives none.
   */
  predicate IsAnswer(moments: seq<Moment>, id: UserId, call: CallId, t: Try, answer: Option<Outcome>)
    requires InOrder(moments, t)
  {
    && (t.claimedAt.Some? <==> FoundFree(moments, id, call, t))
    && match answer
       case None => t.claimedAt.Some? && !Landed(moments, id, t)
       case Some(Offered(sockets, added)) =>
         && Landed(moments, id, t)
         && sockets == SocketsIn(moments[t.seenAt].presence, id)
         && var instant := moments[t.claimedAt.value];
            (added <==> call !in Live(UserAt(instant, id), instant.now))
       case Some(Refused(reason)) => t.claimedAt.None? && IsWhy(moments, id, t, reason)
  }

  /**
    Each attempt but the last found the user free and was overtaken by a
    change. The last one found them free and landed, and they are offered the
    call on the sockets it saw; or it did not find them free, and they are
    refused for that; or it was overtaken as well and was one too many, and
    they pass for busy.
   */
  predicate AskedRightly(moments: seq<Moment>, a: Ask) {
    && 0 < |a.tries| <= CLAIM_ATTEMPTS
    && AllOvertaken(moments, a.id, a.call, a.tries[..|a.tries| - 1])
    && var last := a.tries[|a.tries| - 1];
       && InOrder(moments, last)
       && (IsAnswer(moments, a.id, a.call, last, Some(a.outcome))
           || (IsAnswer(moments, a.id, a.call, last, None) && |a.tries| == CLAIM_ATTEMPTS && a.outcome == Refused(Busy)))
  }

  /** An ask that was made for this call, and began with this read of the store. */
  predicate AskedFrom(moments: seq<Moment>, a: Ask, call: CallId, readAt: nat) {
    AskedRightly(moments, a) && a.call == call && a.tries[0].readAt == readAt
  }

  lemma OneMoreOvertaken(moments: seq<Moment>, id: UserId, call: CallId, tries: seq<Try>, t: Try)
    requires AllOvertaken(moments, id, call, tries) && InOrder(moments, t)
    requires IsAnswer(moments, id, call, t, None)
    requires forall i | 0 <= i < |tries| :: tries[i].claimedAt.Some? && tries[i].claimedAt.value < t.readAt
    ensures AllOvertaken(moments, id, call, tries + [t])
  {
  }

  lemma AskEnds(moments: seq<Moment>, id: UserId, call: CallId, tries: seq<Try>, last: Try, outcome: Outcome)
    requires AllOvertaken(moments, id, call, tries) && |tries| < CLAIM_ATTEMPTS && InOrder(moments, last)
    requires IsAnswer(moments, id, call, last, Some(outcome))
    ensures AskedRightly(moments, Ask(id, call, tries + [last], outcome))
  {
    assert (tries + [last])[..|tries|] == tries;
  }

  lemma AllWereOvertaken(moments: seq<Moment>, id: UserId, call: CallId, tries: seq<Try>)
    requires AllOvertaken(moments, id, call, tries) && |tries| == CLAIM_ATTEMPTS
    ensures AskedRightly(moments, Ask(id, call, tries, Refused(Busy)))
  {
    var last := tries[|tries| - 1];
    assert InOrder(moments, last) && !Landed(moments, id, last);
  }

  /** Between two moments, each user settled. */
  ghost predicate SettlesTo(m: Moment, n: Moment) {
    forall id :: Settled(UserAt(m, id), m.now, UserAt(n, id), n.now)
  }

  ghost predicate Settling(moments: seq<Moment>) {
    forall i, j | 0 <= i <= j < |moments| :: SettlesTo(moments[i], moments[j])
  }

  /** When an offer's claim landed the user could take the call: do not disturb was off, and no other call claimed them. */
  lemma OffersAreFair(moments: seq<Moment>, a: Ask)
    requires Settling(moments) && AskedRightly(moments, a) && a.outcome.Offered?
    ensures var instant := moments[a.tries[|a.tries| - 1].claimedAt.value];
      !UserAt(instant, a.id).dnd && Live(UserAt(instant, a.id), instant.now) <= {a.call}
    ensures a.outcome.sockets != {}
  {
    var last := a.tries[|a.tries| - 1];
    assert SettlesTo(moments[last.readAt], moments[last.claimedAt.value]);
  }

  /**
    A user whom an attempt finds free, and about whom nothing changes until its
    claim, is offered the call by it, and by the first such attempt.
   */
  lemma FreeUsersAreOffered(moments: seq<Moment>, a: Ask, i: nat)
    requires AskedRightly(moments, a) && i < |a.tries| && InOrder(moments, a.tries[i])
    requires FoundFree(moments, a.id, a.call, a.tries[i])
    requires a.tries[i].claimedAt.Some? ==> Landed(moments, a.id, a.tries[i])
    ensures i == |a.tries| - 1 && a.outcome.Offered? && a.outcome.sockets == SocketsIn(moments[a.tries[i].seenAt].presence, a.id)
  {
    if i < |a.tries| - 1 {
      OvertakenAt(moments, a, i);
    }
  }

  lemma OvertakenAt(moments: seq<Moment>, a: Ask, i: nat)
    requires AskedRightly(moments, a) && i < |a.tries| - 1
    ensures InOrder(moments, a.tries[i]) && a.tries[i].claimedAt.Some? && !Landed(moments, a.id, a.tries[i])
  {
    assert a.tries[..|a.tries| - 1][i] == a.tries[i];
  }

  lemma StillOvertaken(moments: seq<Moment>, more: seq<Moment>, id: UserId, call: CallId, tries: seq<Try>)
    requires AllOvertaken(moments, id, call, tries) && moments <= more
    ensures AllOvertaken(more, id, call, tries)
  {
    forall i | 0 <= i < |tries|
      ensures InOrder(more, tries[i]) && FoundFree(more, id, call, tries[i]) && tries[i].claimedAt.Some? && !Landed(more, id, tries[i])
    {
      assert InOrder(moments, tries[i]);
    }
  }

  lemma StillAskedRightly(moments: seq<Moment>, more: seq<Moment>, a: Ask)
    requires AskedRightly(moments, a) && moments <= more
    ensures AskedRightly(more, a)
  {
    StillOvertaken(moments, more, a.id, a.call, a.tries[..|a.tries| - 1]);
  }

  lemma SettlingThrough(m: Moment, n: Moment, o: Moment)
    requires SettlesTo(m, n) && SettlesTo(n, o)
    ensures SettlesTo(m, o)
  {
    forall id ensures Settled(UserAt(m, id), m.now, UserAt(o, id), o.now) {
      assert Settled(UserAt(m, id), m.now, UserAt(n, id), n.now) && Settled(UserAt(n, id), n.now, UserAt(o, id), o.now);
    }
  }

  // What an offer comes to ------------------------------------------------------------------------

  datatype Refusal = Refusal(id: UserId, reason: Availability)

  function Ids(asks: seq<Ask>): seq<UserId> {
    seq(|asks|, i requires 0 <= i < |asks| => asks[i].id)
  }

  /** The users who were offered the call, in the order they were asked. */
  function OfferedBy(asks: seq<Ask>): seq<UserId> {
    if asks == [] then []
    else
      var last := asks[|asks| - 1];
      OfferedBy(asks[..|asks| - 1]) + if last.outcome.Offered? then [last.id] else []
  }

  function RefusedBy(asks: seq<Ask>): seq<Refusal> {
    if asks == [] then []
    else
      var last := asks[|asks| - 1];
      RefusedBy(asks[..|asks| - 1]) + if last.outcome.Refused? then [Refusal(last.id, last.outcome.reason)] else []
  }

  /** The users the call did not hold before. */
  function NewlyClaimedBy(asks: seq<Ask>): seq<UserId> {
    if asks == [] then []
    else
      var last := asks[|asks| - 1];
      NewlyClaimedBy(asks[..|asks| - 1]) + if last.outcome.Offered? && last.outcome.added then [last.id] else []
  }

  /** The sockets the claims were decided on. */
  function RungBy(asks: seq<Ask>): set<SocketId> {
    if asks == [] then {}
    else
      var last := asks[|asks| - 1];
      RungBy(asks[..|asks| - 1]) + if last.outcome.Offered? then last.outcome.sockets else {}
  }

  /** Somebody is rung exactly if somebody is offered the call. */
  lemma {:induction false} NoEmptyOffers(moments: seq<Moment>, asks: seq<Ask>)
    requires Settling(moments) && forall a <- asks :: AskedRightly(moments, a)
    ensures OfferedBy(asks) == [] <==> RungBy(asks) == {}
    decreases |asks|
  {
    if asks != [] {
      var last := asks[|asks| - 1];
      assert last in asks;
      NoEmptyOffers(moments, asks[..|asks| - 1]);
      if last.outcome.Offered? {
        OffersAreFair(moments, last);
      }
    }
  }

  /** Who is offered the call is among the offered, with their sockets rung. */
  lemma {:induction false} AnswersAddUp(asks: seq<Ask>, i: nat)
    requires i < |asks| && asks[i].outcome.Offered?
    ensures asks[i].id in OfferedBy(asks) && asks[i].outcome.sockets <= RungBy(asks)
  {
    if i < |asks| - 1 {
      AnswersAddUp(asks[..|asks| - 1], i);
    }
  }

  /**
    Of the users an offer asks, one who is free as it reads them, and about
    whom nothing changes until it tried to claim them, is offered the call and
    has their sockets rung.
   */
  lemma QuietUsersAreOffered(moments: seq<Moment>, asks: seq<Ask>, i: nat)
    requires i < |asks| && AskedRightly(moments, asks[i])
    requires var first := asks[i].tries[0];
      && InOrder(moments, first) && FoundFree(moments, asks[i].id, asks[i].call, first)
      && forall k | first.readAt <= k < |moments| ::
           UserAt(moments[k], asks[i].id).revision == UserAt(moments[first.readAt], asks[i].id).revision
    ensures asks[i].id in OfferedBy(asks)
    ensures SocketsIn(moments[asks[i].tries[0].seenAt].presence, asks[i].id) <= RungBy(asks)
  {
    FreeUsersAreOffered(moments, asks[i], 0);
    AnswersAddUp(asks, i);
  }

  /** What these asks come to. */
  predicate AddsUp(asks: seq<Ask>, offered: seq<UserId>, refused: seq<Refusal>, claimed: seq<UserId>, rung: set<SocketId>) {
    offered == OfferedBy(asks) && refused == RefusedBy(asks) && claimed == NewlyClaimedBy(asks) && rung == RungBy(asks)
  }

  lemma NothingAddsUp()
    ensures AddsUp([], [], [], [], {}) && Ids([]) == []
  {
  }

  lemma OneMoreAsk(before: seq<Ask>, asks: seq<Ask>, offered: seq<UserId>, refused: seq<Refusal>, claimed: seq<UserId>,
                   rung: set<SocketId>)
    requires |asks| == |before| + 1 && before <= asks && AddsUp(before, offered, refused, claimed, rung)
    ensures var a := asks[|before|];
      && Ids(asks) == Ids(before) + [a.id]
      && AddsUp(asks,
                if a.outcome.Offered? then offered + [a.id] else offered,
                if a.outcome.Refused? then refused + [Refusal(a.id, a.outcome.reason)] else refused,
                if a.outcome.Offered? && a.outcome.added then claimed + [a.id] else claimed,
                if a.outcome.Offered? then rung + a.outcome.sockets else rung)
  {
    assert asks[..|asks| - 1] == before;
  }

  /** The user goes to the offered or to the refused. */
  method Tally(id: UserId, outcome: Outcome, offered: seq<UserId>, refused: seq<Refusal>, claimed: seq<UserId>, rung: set<SocketId>)
    returns (o: seq<UserId>, r: seq<Refusal>, c: seq<UserId>, sockets: set<SocketId>)
    ensures o == if outcome.Offered? then offered + [id] else offered
    ensures r == if outcome.Refused? then refused + [Refusal(id, outcome.reason)] else refused
    ensures c == if outcome.Offered? && outcome.added then claimed + [id] else claimed
    ensures sockets == if outcome.Offered? then rung + outcome.sockets else rung
  {
    o, r, c, sockets := offered, refused, claimed, rung;
    match outcome
    case Offered(on, added) =>
      o, sockets := o + [id], sockets + on;
      if added {
        c := c + [id];
      }
    case Refused(reason) => r := r + [Refusal(id, reason)];
  }

  lemma StillAskedFrom(moments: seq<Moment>, more: seq<Moment>, asks: seq<Ask>, call: CallId, readAt: nat)
    requires moments <= more && forall a <- asks :: AskedFrom(moments, a, call, readAt)
    ensures forall a <- asks :: AskedFrom(more, a, call, readAt)
  {
    forall a <- asks ensures AskedFrom(more, a, call, readAt) {
      StillAskedRightly(moments, more, a);
    }
  }

  // In place ----------------------------------------------------------------------------------------

  class Service {
    const store: Store
    /** The connected sockets of each user. */
    var presence: map<UserId, set<SocketId>>
    /** The moments at which something was read or claimed, and the users asked. */
    ghost var moments: seq<Moment>
    ghost var asks: seq<Ask>

    ghost function Now(): Moment
      reads this, store
    {
      Moment(store.users, store.now, presence)
    }

    ghost predicate Valid()
      reads this, store
    {
      && store.Valid()
      && Settling(moments)
      && forall i | 0 <= i < |moments| :: SettlesTo(moments[i], Now())
    }

    constructor ()
      ensures Valid() && fresh(store) && moments == [] && asks == []
    {
      store := new Store();
      presence, moments, asks := map[], [], [];
    }

    function SocketsOf(user: UserId): set<SocketId>
      reads this
    {
      SocketsIn(presence, user)
    }

    /** Anything others do between two steps of this service, down to the moment of the next: calls, offers, softphones, users and the clock. */
    method OthersAct()
      requires Valid()
      modifies this`presence, this`moments, store
      ensures Valid()
      ensures old(moments) <= moments && |moments| == |old(moments)| + 1 && moments[|old(moments)|] == Now()
    {
      ghost var before := Now();
      NothingUnsettles(before);
      var rounds: nat := *;
      while rounds > 0
        invariant store.Valid() && SettlesTo(before, Now()) && moments == old(moments)
      {
        ghost var instant := Now();
        OneOtherActs();
        SettlingThrough(before, instant, Now());
        rounds := rounds - 1;
      }
      var seen: map<UserId, set<SocketId>> := *;
      presence := seen;
      assert SettlesTo(before, Now());
      forall i | 0 <= i < |moments| ensures SettlesTo(moments[i], Now()) {
        SettlingThrough(moments[i], before, Now());
      }
      NothingUnsettles(Now());
      moments := moments + [Now()];
    }

    method OneOtherActs()
      requires store.Valid()
      modifies store
      ensures store.Valid() && SettlesTo(old(Now()), Now())
    {
      var user: UserId := *;
      var call: CallId := *;
      ghost var u := store.Of(user);
      if * {
        ClaimSettles(u, store.now, None, call);
        var _ := store.Claim(user, call, None);
      } else if * {
        ReleaseSettles(u, store.now, call);
        var _ := store.Release(user, call);
      } else if * {
        RenewalSettles(u, store.now, call);
        var _ := store.RenewOne(user, call);
      } else if * {
        ChangeSettles(u, store.now, true);
        var _ := store.MarkChanged(user);
      } else if * {
        var on: bool := *;
        ChangeSettles(u, store.now, on);
        var _ := store.SetDoNotDisturb(user, on);
      } else {
        var millis: nat :| true;
        var expiring: set<UserId> := *;
        store.PassTime(millis, expiring);
        forall other ensures Settled(old(store.Of(other)), old(store.now), store.Of(other), store.now) {
          assert Sound(old(store.Of(other)), old(store.now));
          TimeSettles(old(store.Of(other)), old(store.now), store.now);
        }
      }
      forall other ensures Settled(UserAt(old(Now()), other), old(store.now), UserAt(Now(), other), store.now) {
        assert UserAt(old(Now()), other) == old(store.Of(other)) && UserAt(Now(), other) == store.Of(other);
      }
    }

    /**
      Claim the user for the call if the rule says they can take it. What the
      whole offer read first is tried first; each later attempt reads again.
     */
    method ClaimIfAvailable(user: UserId, firstRead: Stored, firstSockets: set<SocketId>, call: CallId, ghost first: Try)
      returns (outcome: Outcome)
      requires Valid() && InOrder(moments, first)
      requires firstRead == Read(UserAt(moments[first.readAt], user), moments[first.readAt].now)
      requires firstSockets == SocketsIn(moments[first.seenAt].presence, user)
      modifies this, store
      ensures Valid() && old(moments) <= moments
      ensures |asks| == |old(asks)| + 1 && old(asks) <= asks
      ensures var a := asks[|old(asks)|];
        && a.id == user && a.outcome == outcome && AskedFrom(moments, a, call, first.readAt)
        && a.tries[0].seenAt == first.seenAt
    {
      hide AllOvertaken, AskedRightly, SettlesTo, IsAnswer;
      NoneOvertaken(moments, user, call);
      var stored, sockets := firstRead, firstSockets;
      var attempt := 1;
      ghost var tries: seq<Try> := [];
      ghost var readAt, seenAt := first.readAt, first.seenAt;
      while attempt <= CLAIM_ATTEMPTS
        invariant Valid() && old(moments) <= moments && asks == old(asks)
        invariant 1 <= attempt == |tries| + 1 <= CLAIM_ATTEMPTS + 1
        invariant AllOvertaken(moments, user, call, tries)
        invariant forall i | 0 <= i < |tries| :: tries[i].claimedAt.Some? && tries[i].claimedAt.value < |moments|
        invariant readAt <= seenAt < |moments|
        invariant attempt == 1 ==> tries == []
        invariant attempt == 1 ==> readAt == first.readAt && seenAt == first.seenAt && stored == firstRead && sockets == firstSockets
        invariant attempt > 1 ==> tries[0].readAt == first.readAt && tries[0].seenAt == first.seenAt
      {
        ghost var before := moments;
        if attempt > 1 {
          OthersAct();
          stored := Read(store.Of(user), store.now);
          readAt := |moments| - 1;
          OthersAct();
          sockets := SocketsOf(user);
          seenAt := |moments| - 1;
          StillOvertaken(before, moments, user, call, tries);
        }

        before := moments;
        ghost var t;
        var answer;
        answer, t := Attempt(user, call, stored, sockets, readAt, seenAt);
        StillOvertaken(before, moments, user, call, tries);
        if answer.Some? {
          AskEnds(moments, user, call, tries, t, answer.value);
          asks := asks + [Ask(user, call, tries + [t], answer.value)];
          return answer.value;
        }
        OneMoreOvertaken(moments, user, call, tries, t);
        tries := tries + [t];
        attempt := attempt + 1;
      }
      AllWereOvertaken(moments, user, call, tries);
      asks := asks + [Ask(user, call, tries, Refused(Busy))];
      return Refused(Busy);
    }

    /** One attempt, on what was read: nothing is answered if its claim was overtaken. */
    method Attempt(user: UserId, call: CallId, stored: Stored, sockets: set<SocketId>, ghost readAt: nat, ghost seenAt: nat)
      returns (answer: Option<Outcome>, ghost t: Try)
      requires Valid() && readAt <= seenAt < |moments|
      requires stored == Read(UserAt(moments[readAt], user), moments[readAt].now)
      requires sockets == SocketsIn(moments[seenAt].presence, user)
      modifies this`presence, this`moments, store
      ensures Valid() && old(moments) <= moments
      ensures t.readAt == readAt && t.seenAt == seenAt && InOrder(moments, t) && IsAnswer(moments, user, call, t, answer)
    {
      var state := DecideAvailability(|sockets|, stored.dnd, stored.calls, Some(call));
      WhatWasRead(moments, user, call, readAt, seenAt);
      if !state.Available? {
        return Some(Refused(state)), Try(readAt, seenAt, None);
      }
      var added := ClaimAt(user, stored.revision, call);
      t := Try(readAt, seenAt, Some(|moments| - 1));
      WhatWasRead(moments, user, call, readAt, seenAt);
      return if added.Some? then Some(Offered(sockets, added.value)) else None, t;
    }

    /** The claim is taken exactly if nothing about the user changed since they were read; the answer is whether it is new. */
    method ClaimAt(user: UserId, revision: nat, call: CallId) returns (added: Option<bool>)
      requires Valid()
      modifies this`presence, this`moments, store
      ensures Valid() && old(moments) <= moments && |moments| == |old(moments)| + 1
      ensures var instant := moments[|old(moments)|];
        && (added.Some? <==> UserAt(instant, user).revision == revision)
        && (added.Some? ==> (added.value <==> call !in Live(UserAt(instant, user), instant.now)))
    {
      OthersAct();
      ghost var instant := Now();
      ClaimSettles(store.Of(user), store.now, Some(revision), call);
      var reply := store.Claim(user, call, Some(revision));
      forall other ensures Settled(UserAt(instant, other), instant.now, UserAt(Now(), other), store.now) {
        assert UserAt(Now(), other) == store.Of(other);
      }
      forall i | 0 <= i < |moments| ensures SettlesTo(moments[i], Now()) {
        SettlingThrough(moments[i], instant, Now());
      }
      return if reply.Some? then Some(reply.value.1) else None;
    }

    /**
      Offer the call to those of these users who can take it, each asked once,
      on reads made for this offer. Exactly those who were claimed are offered
      it; the others are refused, with the reason. Those the call did not hold
      before are to hear of it, and the sockets rung are those the claims were
      decided on.
     */
    method OfferCall(ids: seq<UserId>, call: CallId)
      returns (offered: seq<UserId>, refused: seq<Refusal>, claimed: seq<UserId>, rung: set<SocketId>)
      requires Valid()
      modifies this, store
      ensures Valid() && Settling(moments) && old(moments) <= moments && old(asks) <= asks
      ensures var mine := asks[|old(asks)|..];
        && multiset(Ids(mine)) == multiset(Members(ids))
        && (forall a <- mine :: AskedFrom(moments, a, call, |old(moments)|))
        && offered == OfferedBy(mine) && refused == RefusedBy(mine)
        && claimed == NewlyClaimedBy(mine) && rung == RungBy(mine)
        && (offered == [] <==> rung == {})
    {
      var unique := Unique(ids);
      OthersAct();
      ghost var readAt := |moments| - 1;
      var stored := store.ReadMany(unique);
      OthersAct();
      offered, refused, claimed, rung := OfferEach(unique, stored, presence, call, Try(readAt, |moments| - 1, None));
      NoEmptyOffers(moments, asks[|old(asks)|..]);
    }

    /** The users are claimed one by one, on what was read of all of them first. */
    method OfferEach(unique: seq<UserId>, stored: seq<Stored>, sockets: map<UserId, set<SocketId>>, call: CallId, ghost first: Try)
      returns (offered: seq<UserId>, refused: seq<Refusal>, claimed: seq<UserId>, rung: set<SocketId>)
      requires Valid() && |stored| == |unique| && InOrder(moments, first)
      requires forall i | 0 <= i < |unique| ::
        stored[i] == Read(UserAt(moments[first.readAt], unique[i]), moments[first.readAt].now)
      requires sockets == moments[first.seenAt].presence
      modifies this, store
      ensures Valid() && old(moments) <= moments && old(asks) <= asks
      ensures var mine := asks[|old(asks)|..];
        && Ids(mine) == unique
        && (forall a <- mine :: AskedFrom(moments, a, call, first.readAt))
        && AddsUp(mine, offered, refused, claimed, rung)
    {
      hide Valid, AskedFrom, Settling, AddsUp, IsAnswer, FoundFree, Landed, AllOvertaken;
      offered, refused, claimed, rung := [], [], [], {};
      NothingAddsUp();
      var i := 0;
      while i < |unique|
        invariant i <= |unique| && Valid() && old(moments) <= moments && old(asks) <= asks
        invariant var mine := asks[|old(asks)|..];
          && Ids(mine) == unique[..i]
          && (forall a <- mine :: AskedFrom(moments, a, call, first.readAt))
          && AddsUp(mine, offered, refused, claimed, rung)
      {
        ghost var before, instant := asks[|old(asks)|..], moments;
        var outcome := ClaimIfAvailable(unique[i], stored[i], SocketsIn(sockets, unique[i]), call, first);
        StillAskedFrom(instant, moments, before, call, first.readAt);
        OneMoreAsk(before, asks[|old(asks)|..], offered, refused, claimed, rung);
        offered, refused, claimed, rung := Tally(unique[i], outcome, offered, refused, claimed, rung);
        i := i + 1;
      }
      assert unique[..i] == unique;
    }
  }

  lemma NoneOvertaken(moments: seq<Moment>, id: UserId, call: CallId)
    ensures AllOvertaken(moments, id, call, [])
  {
  }

  /** What the rule says of the reads of an attempt is what was there to be read. */
  lemma WhatWasRead(moments: seq<Moment>, id: UserId, call: CallId, readAt: nat, seenAt: nat)
    requires readAt <= seenAt < |moments|
    ensures var stored, sockets := Read(UserAt(moments[readAt], id), moments[readAt].now), SocketsIn(moments[seenAt].presence, id);
      var state := DecideAvailability(|sockets|, stored.dnd, stored.calls, Some(call));
      && (forall claimedAt: Option<nat> | InOrder(moments, Try(readAt, seenAt, claimedAt)) ::
            state.Available? <==> FoundFree(moments, id, call, Try(readAt, seenAt, claimedAt)))
      && (!state.Available? ==> IsWhy(moments, id, Try(readAt, seenAt, None), state) && !Landed(moments, id, Try(readAt, seenAt, None)))
  {
    var stored, sockets := Read(UserAt(moments[readAt], id), moments[readAt].now), SocketsIn(moments[seenAt].presence, id);
    AvailableMeansFree(sockets, stored.dnd, stored.calls, call);
  }

  /** Nobody has to do anything for nothing to change. */
  lemma NothingUnsettles(m: Moment)
    ensures SettlesTo(m, m)
  {
  }

  function Members(ids: seq<UserId>): set<UserId> {
    set id | id in ids
  }

  /** These users, each once, in the order they first come. */
  method Unique(ids: seq<UserId>) returns (unique: seq<UserId>)
    ensures multiset(unique) == multiset(Members(ids))
  {
    unique := [];
    var i := 0;
    while i < |ids|
      invariant i <= |ids|
      invariant multiset(unique) == multiset(Members(ids[..i]))
    {
      assert ids[..i + 1] == ids[..i] + [ids[i]];
      assert Members(ids[..i + 1]) == Members(ids[..i]) + {ids[i]};
      assert ids[i] in unique <==> ids[i] in multiset(unique);
      if ids[i] !in unique {
        unique := unique + [ids[i]];
      }
      i := i + 1;
    }
    assert ids[..i] == ids;
  }
}
