/**
  Do not disturb and the calls claiming each user
  (apps/call-controller/src/realtime/availability-store.ts), as values and as
  the scripts that change them in place. A claim is scored by when it was last
  renewed and stops counting once it is a lifetime old; a script runs in one
  step, on one clock.
 */
module AvailabilityStore {
  import opened Options

  type UserId = nat
  type CallId = nat
  type Time = int

  const CLAIM_LIFETIME: nat := 90_000

  /** What is held about a user; the claims go as a whole once their key expires. */
  datatype User = User(revision: nat, dnd: bool, claims: map<CallId, Time>, expiry: Time)

  const NOBODY := User(0, false, map[], 0)

  /** What a read of a user answers. */
  datatype Stored = Stored(revision: nat, dnd: bool, calls: set<CallId>)

  /** The calls whose claim on the user has not run out. */
  function Live(u: User, now: Time): set<CallId> {
    set call | call in u.claims && u.claims[call] > now - CLAIM_LIFETIME
  }

  function Read(u: User, now: Time): Stored {
    Stored(u.revision, u.dnd, Live(u, now))
  }

  /** The claims that are not swept as run out. */
  function Unswept(u: User, now: Time): map<CallId, Time> {
    map call | call in u.claims && u.claims[call] > now - CLAIM_LIFETIME :: u.claims[call]
  }

  /** The reply is the revision after and whether the claim is new, or nothing when the revision moved on. */
  function Claimed(u: User, now: Time, expected: Option<nat>, call: CallId): (User, Option<(nat, bool)>) {
    if expected.Some? && expected.value != u.revision then (u, None)
    else
      var left := Unswept(u, now);
      var added := call !in left;
      var revision := if added then u.revision + 1 else u.revision;
      (u.(claims := left[call := now], expiry := now + CLAIM_LIFETIME, revision := revision), Some((revision, added)))
  }

  function Released(u: User, call: CallId): (User, Option<nat>) {
    if call !in u.claims then (u, None)
    else (u.(claims := u.claims - {call}, revision := u.revision + 1), Some(u.revision + 1))
  }

  /** Also decided: whether a claim that was not there, or had run out, was taken again. */
  function Renewed(u: User, now: Time, call: CallId): (User, bool) {
    var restored := call !in u.claims || u.claims[call] <= now - CLAIM_LIFETIME;
    (u.(claims := u.claims[call := now],
        expiry := now + CLAIM_LIFETIME,
        revision := if restored then u.revision + 1 else u.revision),
     restored)
  }

  function MarkedChanged(u: User): User {
    u.(revision := u.revision + 1)
  }

  function DoNotDisturbSet(u: User, on: bool): (User, bool) {
    if u.dnd == on then (u, false) else (u.(dnd := on, revision := u.revision + 1), true)
  }

  /** The whole key of claims is gone once it has not been touched for a lifetime. */
  function Expired(u: User, now: Time): User {
    if now >= u.expiry then u.(claims := map[]) else u
  }

  // What the scripts keep ----------------------------------------------------------------

  /** No claim is newer than now, and none outlives the key that holds it. */
  ghost predicate Sound(u: User, now: Time) {
    forall call <- u.claims :: u.claims[call] <= now && u.claims[call] + CLAIM_LIFETIME <= u.expiry
  }

  /**
    Between two moments at the same revision, do not disturb is as it was and
    the live claims can only have become fewer.
   */
  ghost predicate Settled(before: User, earlier: Time, after: User, now: Time) {
    && before.revision <= after.revision
    && (before.revision == after.revision ==> after.dnd == before.dnd && Live(after, now) <= Live(before, earlier))
  }

  lemma ClaimSettles(u: User, now: Time, expected: Option<nat>, call: CallId)
    requires Sound(u, now)
    ensures var (n, reply) := Claimed(u, now, expected, call);
      && Sound(n, now) && Settled(u, now, n, now)
      && (reply.Some? ==> Live(n, now) == Live(u, now) + {call} && (reply.value.1 <==> call !in Live(u, now)))
      && (reply.Some? ==> reply.value.0 == n.revision && n.dnd == u.dnd && (n.revision == u.revision <==> call in Live(u, now)))
      && (reply.None? <==> expected.Some? && expected.value != u.revision)
      && (reply.None? ==> n == u)
  {
    var (n, reply) := Claimed(u, now, expected, call);
    if reply.Some? {
      assert Unswept(u, now).Keys == Live(u, now);
      assert n.claims.Keys == Live(u, now) + {call};
    }
  }

  lemma ReleaseSettles(u: User, now: Time, call: CallId)
    requires Sound(u, now)
    ensures var (n, reply) := Released(u, call);
      && Sound(n, now) && Settled(u, now, n, now)
      && Live(n, now) == Live(u, now) - {call} && n.dnd == u.dnd
      && (reply.Some? <==> n.revision != u.revision) && (reply.Some? ==> reply.value == n.revision)
      && (reply.None? ==> n == u && call !in Live(u, now))
  {
  }

  /** A renewal that bumps nothing renewed a live claim. */
  lemma RenewalSettles(u: User, now: Time, call: CallId)
    requires Sound(u, now)
    ensures var (n, restored) := Renewed(u, now, call);
      && Sound(n, now) && Settled(u, now, n, now)
      && Live(n, now) == Live(u, now) + {call}
      && (restored <==> call !in Live(u, now))
      && n.dnd == u.dnd && (restored <==> n.revision != u.revision)
  {
  }

  lemma ChangeSettles(u: User, now: Time, on: bool)
    requires Sound(u, now)
    ensures Sound(MarkedChanged(u), now) && Settled(u, now, MarkedChanged(u), now)
    ensures MarkedChanged(u) == u.(revision := MarkedChanged(u).revision) && u.revision < MarkedChanged(u).revision
    ensures var (n, changed) := DoNotDisturbSet(u, on);
      && Sound(n, now) && Settled(u, now, n, now)
      && n == u.(dnd := on, revision := n.revision)
      && (changed <==> u.dnd != on) && (changed <==> n.revision != u.revision)
  {
  }

  /** A claim or a renewal counts for a lifetime, also over the expiry of the key, and not a moment longer. */
  lemma ClaimsLastALifetime(u: User, now: Time, expected: Option<nat>, call: CallId, later: Time)
    requires Sound(u, now) && now <= later
    ensures var n := Renewed(u, now, call).0; call in Live(Expired(n, later), later) <==> later < now + CLAIM_LIFETIME
    ensures var (n, reply) := Claimed(u, now, expected, call);
      reply.Some? ==> (call in Live(Expired(n, later), later) <==> later < now + CLAIM_LIFETIME)
  {
  }

  /** Time alone takes claims away and adds none, and the expiry of the key takes no live one. */
  lemma TimeSettles(u: User, now: Time, later: Time)
    requires Sound(u, now) && now <= later
    ensures Sound(u, later) && Settled(u, now, u, later)
    ensures Sound(Expired(u, later), later) && Live(Expired(u, later), later) == Live(u, later)
  {
  }

  // The store, in place --------------------------------------------------------------------

  class Store {
    var users: map<UserId, User>
    var now: Time

    ghost predicate Valid()
      reads this
    {
      forall user <- users :: Sound(users[user], now)
    }

    constructor ()
      ensures Valid() && users == map[]
    {
      users, now := map[], 0;
    }

    function Of(user: UserId): User
      reads this
    {
      if user in users then users[user] else NOBODY
    }

    method ReadMany(ids: seq<UserId>) returns (stored: seq<Stored>)
      ensures |stored| == |ids| && forall i | 0 <= i < |ids| :: stored[i] == Read(Of(ids[i]), now)
    {
      stored := [];
      for i := 0 to |ids|
        invariant |stored| == i && forall j | 0 <= j < i :: stored[j] == Read(Of(ids[j]), now)
      {
        stored := stored + [Read(Of(ids[i]), now)];
      }
    }

    method Claim(user: UserId, call: CallId, expected: Option<nat>) returns (reply: Option<(nat, bool)>)
      requires Valid()
      modifies this
      ensures Valid() && now == old(now)
      ensures (Of(user), reply) == Claimed(old(Of(user)), now, expected, call)
      ensures forall other | other != user :: Of(other) == old(Of(other))
    {
      var u := Of(user);
      if expected.Some? && expected.value != u.revision {
        return None;
      }
      ClaimSettles(u, now, expected, call);
      var claims := Unswept(u, now);
      var added := call !in claims;
      claims := claims[call := now];
      var revision := u.revision;
      if added {
        revision := revision + 1;
      }
      users := users[user := u.(claims := claims, expiry := now + CLAIM_LIFETIME, revision := revision)];
      return Some((revision, added));
    }

    method Release(user: UserId, call: CallId) returns (reply: Option<nat>)
      requires Valid()
      modifies this
      ensures Valid() && now == old(now)
      ensures (Of(user), reply) == Released(old(Of(user)), call)
      ensures forall other | other != user :: Of(other) == old(Of(other))
    {
      var u := Of(user);
      if call !in u.claims {
        return None;
      }
      users := users[user := u.(claims := u.claims - {call}, revision := u.revision + 1)];
      return Some(u.revision + 1);
    }

    /** One script renews the call's claim on each of these users; the positions it answers are of those claimed again. */
    method Renew(call: CallId, ids: seq<UserId>) returns (restored: seq<nat>)
      requires Valid()
      requires forall i, j | 0 <= i < j < |ids| :: ids[i] != ids[j]
      modifies this
      ensures Valid() && now == old(now)
      ensures forall user :: Of(user) == if user in ids then Renewed(old(Of(user)), now, call).0 else old(Of(user))
      ensures forall i | 0 <= i < |ids| :: i in restored <==> Renewed(old(Of(ids[i])), now, call).1
      ensures forall i <- restored :: i < |ids|
    {
      restored := [];
      var i := 0;
      while i < |ids|
        invariant i <= |ids| && Valid() && now == old(now)
        invariant forall user :: Of(user) == if user in ids[..i] then Renewed(old(Of(user)), now, call).0 else old(Of(user))
        invariant forall j | 0 <= j < i :: j in restored <==> Renewed(old(Of(ids[j])), now, call).1
        invariant forall j <- restored :: j < i
      {
        assert ids[i] !in ids[..i];
        var again := RenewOne(ids[i], call);
        if again {
          restored := restored + [i];
        }
        i := i + 1;
      }
      assert ids[..i] == ids;
    }

    method RenewOne(user: UserId, call: CallId) returns (again: bool)
      requires Valid()
      modifies this
      ensures Valid() && now == old(now)
      ensures (Of(user), again) == Renewed(old(Of(user)), now, call)
      ensures forall other | other != user :: Of(other) == old(Of(other))
    {
      var u := Of(user);
      again := call !in u.claims || u.claims[call] <= now - CLAIM_LIFETIME;
      users := users[user := u.(claims := u.claims[call := now], expiry := now + CLAIM_LIFETIME,
                                revision := if again then u.revision + 1 else u.revision)];
    }

    method MarkChanged(user: UserId) returns (revision: nat)
      requires Valid()
      modifies this
      ensures Valid() && now == old(now)
      ensures Of(user) == MarkedChanged(old(Of(user))) && revision == Of(user).revision
      ensures forall other | other != user :: Of(other) == old(Of(other))
    {
      var u := Of(user);
      users := users[user := u.(revision := u.revision + 1)];
      return u.revision + 1;
    }

    method SetDoNotDisturb(user: UserId, on: bool) returns (changed: bool)
      requires Valid()
      modifies this
      ensures Valid() && now == old(now)
      ensures (Of(user), changed) == DoNotDisturbSet(old(Of(user)), on)
      ensures forall other | other != user :: Of(other) == old(Of(other))
    {
      var u := Of(user);
      if u.dnd == on {
        return false;
      }
      users := users[user := u.(dnd := on, revision := u.revision + 1)];
      return true;
    }

    /** The clock moves on, and keys of claims may expire. */
    method PassTime(millis: nat, expiring: set<UserId>)
      requires Valid()
      modifies this
      ensures Valid() && now == old(now) + millis
      ensures forall user :: Of(user) == if user in expiring then Expired(old(Of(user)), now) else old(Of(user))
    {
      now := now + millis;
      users := map user | user in users :: if user in expiring then Expired(users[user], now) else users[user];
    }
  }
}
