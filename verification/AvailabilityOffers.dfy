/**
  Offers of calls to one user, against everything else that happens to the
  user (apps/call-controller/src/realtime/availability.service.ts,
  availability-rule.ts and socket-handlers.ts), as a transition system: one
  step per script of the store, per change of presence and per read. An offer
  reads the store, then the sockets, decides, and claims at the revision it
  read; presence changes first and the revision moves on after it.
 */
module AvailabilityOffers {
  import opened Options
  import opened AvailabilityStore

  const CLAIM_ATTEMPTS: nat := 5

  type SocketId = nat

  // The rule ---------------------------------------------------------------------------

  datatype Availability = Available | Offline | Disturbed | Busy

  function DecideAvailability(sockets: nat, dnd: bool, calls: set<CallId>, forCall: Option<CallId>): Availability {
    if sockets == 0 then Offline
    else if dnd then Disturbed
    else if exists call <- calls :: Some(call) != forCall then Busy
    else Available
  }

  // Sockets ------------------------------------------------------------------------------

  /** A softphone's connection: what its handler remembers, and whether presence counts it. */
  datatype Socket = Socket(registered: bool, closed: bool, present: bool)

  /** An operation of a socket's handler in flight; some are followed by an announcement. */
  datatype SocketOp =
    | Registering(announces: bool)
    | CheckingClosed(announces: bool)
    | Unregistering(announces: bool)
    | Announcing

  // Offers -------------------------------------------------------------------------------

  datatype Outcome = Offered(sockets: set<SocketId>, added: bool) | Refused(reason: Availability)

  /** How far an attempt is, and the moments it read the store and the sockets. */
  datatype Phase =
    | ReadsStore
    | ReadsSockets(stored: Stored, readAt: nat)
    | Decides(stored: Stored, sockets: set<SocketId>, readAt: nat, seenAt: nat)
    | Done(outcome: Outcome)

  datatype Offer = Offer(call: CallId, attempt: nat, phase: Phase)

  /** A claim an offer took: the sockets it rings, and the moments of its two reads and of the claim. */
  datatype Taken = Taken(call: CallId, rung: set<SocketId>, readAt: nat, seenAt: nat, takenAt: nat)

  /** A user, by the moment: how many steps were made before. */
  datatype System = System(
    moment: nat,
    user: User,
    now: Time,
    sockets: map<SocketId, Socket>,
    ops: multiset<(SocketId, SocketOp)>,
    offers: map<nat, Offer>,
    taken: seq<Taken>)

  datatype Step =
    // Sockets.
    | Connects(socket: SocketId)
    | AsksToRegister(socket: SocketId)
    | Heartbeat(socket: SocketId)
    | Disconnects(socket: SocketId)
    | GoesStale(socket: SocketId)
    | Performs(socket: SocketId, op: SocketOp, lands: bool, fails: bool)
    // The store.
    | Occupies(call: CallId)
    | Releases(call: CallId)
    | Renews(call: CallId)
    | TogglesDoNotDisturb(on: bool)
    | TimePasses(millis: nat)
    | KeyExpires
    // Offers.
    | OfferStarts(offer: nat, call: CallId)
    | OfferGoesOn(offer: nat)

  function Start(user: User): System {
    System(0, user, 0, map[], multiset{}, map[], [])
  }

  predicate IsPresent(s: System, socket: SocketId) {
    socket in s.sockets && s.sockets[socket].present
  }

  function Present(s: System): set<SocketId> {
    set socket | socket in s.sockets && s.sockets[socket].present
  }

  function With(s: System, socket: SocketId, state: Socket, ops: multiset<(SocketId, SocketOp)>): System {
    s.(sockets := s.sockets[socket := state], ops := ops)
  }

  function After(socket: SocketId, announces: bool): multiset<(SocketId, SocketOp)> {
    if announces then multiset{(socket, Announcing)} else multiset{}
  }

  function Next(s: System, step: Step): System {
    Made(s, step).(moment := s.moment + 1)
  }

  function Made(s: System, step: Step): System {
    match step
    case Connects(socket) =>
      if socket in s.sockets then s else With(s, socket, Socket(false, false, false), s.ops)
    case AsksToRegister(socket) =>
      if socket in s.sockets && !s.sockets[socket].closed then
        With(s, socket, s.sockets[socket].(registered := true), s.ops + multiset{(socket, Registering(true))})
      else s
    case Heartbeat(socket) =>
      if socket in s.sockets && !s.sockets[socket].closed && s.sockets[socket].registered then
        s.(ops := s.ops + multiset{(socket, Registering(false))})
      else s
    case Disconnects(socket) =>
      if socket in s.sockets && !s.sockets[socket].closed then
        With(s, socket, s.sockets[socket].(closed := true),
             s.ops + multiset{(socket, Unregistering(s.sockets[socket].registered))})
      else s
    case GoesStale(socket) =>
      if socket in s.sockets then With(s, socket, s.sockets[socket].(present := false), s.ops) else s
    case Performs(socket, op, lands, fails) =>
      if (socket, op) in s.ops && socket in s.sockets then Performed(s, socket, op, lands, fails) else s
    case Occupies(call) => s.(user := Claimed(s.user, s.now, None, call).0)
    case Releases(call) => s.(user := Released(s.user, call).0)
    case Renews(call) => s.(user := Renewed(s.user, s.now, call).0)
    case TogglesDoNotDisturb(on) => s.(user := DoNotDisturbSet(s.user, on).0)
    case TimePasses(millis) => s.(now := s.now + millis)
    case KeyExpires => s.(user := Expired(s.user, s.now))
    case OfferStarts(offer, call) =>
      if offer in s.offers then s else s.(offers := s.offers[offer := Offer(call, 1, ReadsStore)])
    case OfferGoesOn(offer) => if offer in s.offers then OfferStep(s, offer, s.offers[offer]) else s
  }

  /** A registration may land even when it fails; the handler then looks whether its socket closed meanwhile. */
  function Performed(s: System, socket: SocketId, op: SocketOp, lands: bool, fails: bool): System
    requires (socket, op) in s.ops && socket in s.sockets
  {
    var rest := s.ops - multiset{(socket, op)};
    var it := s.sockets[socket];
    match op
    case Registering(announces) =>
      With(s, socket, it.(present := it.present || lands || !fails), rest + multiset{(socket, CheckingClosed(announces && !fails))})
    case CheckingClosed(announces) =>
      s.(ops := rest + if it.closed then multiset{(socket, Unregistering(announces))} else After(socket, announces))
    case Unregistering(announces) => With(s, socket, it.(present := false), rest + After(socket, announces))
    case Announcing => s.(user := MarkedChanged(s.user), ops := rest)
  }

  function OfferIn(s: System, offer: nat, phase: Phase): System
    requires offer in s.offers
  {
    s.(offers := s.offers[offer := s.offers[offer].(phase := phase)])
  }

  /** One step of `claimIfAvailable`. */
  function OfferStep(s: System, offer: nat, o: Offer): System
    requires offer in s.offers
  {
    match o.phase
    case ReadsStore => OfferIn(s, offer, ReadsSockets(Read(s.user, s.now), s.moment))
    case ReadsSockets(stored, readAt) => OfferIn(s, offer, Decides(stored, Present(s), readAt, s.moment))
    case Decides(stored, sockets, readAt, seenAt) => OfferDecides(s, offer, o, stored, Taken(o.call, sockets, readAt, seenAt, s.moment))
    case Done(_) => s
  }

  function OfferDecides(s: System, offer: nat, o: Offer, stored: Stored, claim: Taken): System
    requires offer in s.offers
  {
    var state := DecideAvailability(|claim.rung|, stored.dnd, stored.calls, Some(o.call));
    if !state.Available? then OfferIn(s, offer, Done(Refused(state)))
    else
      var (user, reply) := Claimed(s.user, s.now, Some(stored.revision), o.call);
      if reply.Some? then
        OfferIn(s, offer, Done(Offered(claim.rung, reply.value.1))).(user := user, taken := s.taken + [claim])
      else if o.attempt < CLAIM_ATTEMPTS then s.(offers := s.offers[offer := Offer(o.call, o.attempt + 1, ReadsStore)])
      else OfferIn(s, offer, Done(Refused(Busy)))
  }

  /** A run, moment by moment: each step leads from one state of the user to the next. */
  ghost predicate Traces(states: seq<System>, steps: seq<Step>) {
    && |states| == |steps| + 1
    && states[0] == Start(states[0].user) && Sound(states[0].user, 0)
    && forall i | 0 <= i < |steps| :: states[i + 1] == Next(states[i], steps[i])
  }

  // What steps of a socket's handler do ------------------------------------------------------

  /** The step performs this operation of the socket's handler. */
  predicate Performing(s: System, step: Step, socket: SocketId) {
    step.Performs? && step.socket == socket && (socket, step.op) in s.ops && socket in s.sockets
  }

  /** The user's revision moves on for a change of the connection. */
  predicate Announces(s: System, step: Step, socket: SocketId) {
    Performing(s, step, socket) && step.op.Announcing?
  }

  /** A registration of the socket lands in presence. */
  predicate Lands(s: System, step: Step, socket: SocketId) {
    Performing(s, step, socket) && step.op.Registering? && (step.lands || !step.fails)
  }

  /** The socket is unregistered, or presence forgets it. */
  predicate Leaves(s: System, step: Step, socket: SocketId) {
    (Performing(s, step, socket) && step.op.Unregistering?) || step == GoesStale(socket)
  }

  // The invariant ----------------------------------------------------------------------------

  /** A closed socket that presence counts is about to be unregistered. */
  ghost predicate Unregisters(ops: multiset<(SocketId, SocketOp)>, socket: SocketId) {
    exists op :: (socket, op) in ops && (op.CheckingClosed? || op.Unregistering?)
  }

  ghost predicate ClosingsFit(s: System) {
    forall socket <- s.sockets :: s.sockets[socket].closed && s.sockets[socket].present ==> Unregisters(s.ops, socket)
  }

  ghost predicate Valid(s: System) {
    Sound(s.user, s.now) && ClosingsFit(s)
  }

  /**
    The rule says available exactly when a softphone is connected, do not
    disturb is off and no other call claims; otherwise it gives the first of
    the reasons that lasts longest.
   */
  lemma AvailableMeansFree(sockets: set<SocketId>, dnd: bool, calls: set<CallId>, call: CallId)
    ensures DecideAvailability(|sockets|, dnd, calls, Some(call)).Available? <==> sockets != {} && !dnd && calls <= {call}
    ensures DecideAvailability(|sockets|, dnd, calls, Some(call)).Offline? <==> sockets == {}
    ensures DecideAvailability(|sockets|, dnd, calls, Some(call)).Disturbed? <==> sockets != {} && dnd
  {
    if calls <= {call} {
      assert !exists other <- calls :: Some(other) != Some(call);
    }
  }

  lemma OpsChange(ops: multiset<(SocketId, SocketOp)>, socket: SocketId, op: SocketOp, more: multiset<(SocketId, SocketOp)>)
    ensures var after := ops - multiset{(socket, op)} + more;
      && (forall other | other != socket :: Unregisters(ops, other) ==> Unregisters(after, other))
      && (!op.CheckingClosed? && !op.Unregistering? ==> (Unregisters(ops, socket) ==> Unregisters(after, socket)))
      && (forall next | next in more && next.0 == socket && (next.1.CheckingClosed? || next.1.Unregistering?) :: Unregisters(after, socket))
  {
    var after := ops - multiset{(socket, op)} + more;
    forall other: SocketId, what | (other, what) in ops && (other, what) != (socket, op) ensures (other, what) in after {
    }
    forall next | next in more ensures next in after {
    }
  }

  lemma PerformingKeepsClosings(s: System, socket: SocketId, op: SocketOp, lands: bool, fails: bool)
    requires ClosingsFit(s) && (socket, op) in s.ops && socket in s.sockets
    ensures ClosingsFit(Performed(s, socket, op, lands, fails))
  {
    var it := s.sockets[socket];
    var more :=
      match op
      case Registering(announces) => multiset{(socket, CheckingClosed(announces && !fails))}
      case CheckingClosed(announces) => if it.closed then multiset{(socket, Unregistering(announces))} else After(socket, announces)
      case Unregistering(announces) => After(socket, announces)
      case Announcing => multiset{};
    OpsChange(s.ops, socket, op, more);
    assert Performed(s, socket, op, lands, fails).ops == s.ops - multiset{(socket, op)} + more;
    if op.Registering? {
      assert (socket, CheckingClosed(op.announces && !fails)) in more;
    }
    if op.CheckingClosed? && it.closed {
      assert (socket, Unregistering(op.announces)) in more;
    }
    hide Unregisters, After;
  }

  lemma SocketStepKeepsClosings(s: System, step: Step)
    requires ClosingsFit(s)
    requires step.Connects? || step.AsksToRegister? || step.Heartbeat? || step.Disconnects? || step.GoesStale?
    ensures ClosingsFit(Made(s, step))
  {
    var n := Made(s, step);
    var socket := step.socket;
    forall other: SocketId | Unregisters(s.ops, other) ensures Unregisters(n.ops, other) {
      var op :| (other, op) in s.ops && (op.CheckingClosed? || op.Unregistering?);
      assert (other, op) in n.ops;
    }
    if step.Disconnects? && socket in s.sockets && !s.sockets[socket].closed {
      assert (socket, Unregistering(s.sockets[socket].registered)) in n.ops;
    }
    hide Unregisters;
  }

  /** Every step keeps the invariant; while it leaves the revision, it leaves do not disturb and adds no live claim. */
  lemma StepSettles(s: System, step: Step)
    requires Valid(s)
    ensures var n := Next(s, step); Valid(n) && Settled(s.user, s.now, n.user, n.now)
  {
    hide Unregisters, Claimed, Released, Renewed, Live, Sound, Performed, OfferStep;
    match step
    case Performs(socket, op, lands, fails) =>
      if (socket, op) in s.ops && socket in s.sockets { PerformingSettles(s, socket, op, lands, fails); }
    case Occupies(call) => ClaimSettles(s.user, s.now, None, call);
    case Releases(call) => ReleaseSettles(s.user, s.now, call);
    case Renews(call) => RenewalSettles(s.user, s.now, call);
    case TogglesDoNotDisturb(on) => ChangeSettles(s.user, s.now, on);
    case TimePasses(millis) => TimeSettles(s.user, s.now, s.now + millis);
    case KeyExpires => TimeSettles(s.user, s.now, s.now);
    case OfferStarts(offer, call) =>
    case OfferGoesOn(offer) => if offer in s.offers { OfferSettles(s, offer); }
    case _ => SocketStepKeepsClosings(s, step);
  }

  lemma PerformingSettles(s: System, socket: SocketId, op: SocketOp, lands: bool, fails: bool)
    requires Valid(s) && (socket, op) in s.ops && socket in s.sockets
    ensures var n := Performed(s, socket, op, lands, fails); Valid(n) && Settled(s.user, s.now, n.user, n.now)
  {
    PerformingKeepsClosings(s, socket, op, lands, fails);
    ChangeSettles(s.user, s.now, true);
    hide ClosingsFit, Live, Sound;
  }

  lemma OfferSettles(s: System, offer: nat)
    requires Valid(s) && offer in s.offers
    ensures var n := OfferStep(s, offer, s.offers[offer]); Valid(n) && Settled(s.user, s.now, n.user, n.now)
  {
    hide Unregisters, Claimed, Live, Sound, DecideAvailability;
    if s.offers[offer].phase.Decides? {
      ClaimSettles(s.user, s.now, Some(s.offers[offer].phase.stored.revision), s.offers[offer].call);
    }
  }

  lemma {:induction false} MomentsAreValid(states: seq<System>, steps: seq<Step>, i: nat)
    requires Traces(states, steps) && i <= |steps|
    ensures Valid(states[i]) && states[i].moment == i
  {
    hide Made, Sound;
    if i > 0 {
      MomentsAreValid(states, steps, i - 1);
      StepSettles(states[i - 1], steps[i - 1]);
    }
  }

  /** Between any two moments of a run at the same revision, do not disturb is the same and live claims have only become fewer. */
  lemma {:induction false} SettlesAlong(states: seq<System>, steps: seq<Step>, i: nat, j: nat)
    requires Traces(states, steps) && i <= j <= |steps|
    ensures Settled(states[i].user, states[i].now, states[j].user, states[j].now)
    decreases j
  {
    hide Next, Sound, Live;
    if i < j {
      SettlesAlong(states, steps, i, j - 1);
      MomentsAreValid(states, steps, j - 1);
      StepSettles(states[j - 1], steps[j - 1]);
    }
  }

  // What offers read ------------------------------------------------------------------------------

  /** An attempt that read the store, or the sockets, read them as they stood at the moments it keeps, the store first. */
  ghost predicate ReadRightly(states: seq<System>, i: nat, phase: Phase)
    requires i < |states|
  {
    match phase
    case ReadsSockets(stored, readAt) => readAt < i && stored == Read(states[readAt].user, states[readAt].now)
    case Decides(stored, sockets, readAt, seenAt) =>
      && readAt < seenAt < i
      && stored == Read(states[readAt].user, states[readAt].now)
      && sockets == Present(states[seenAt])
    case _ => true
  }

  /** A claim was taken at the revision its attempt read, on a user free at both moments, for the sockets it saw in between. */
  ghost predicate TakenRightly(states: seq<System>, i: nat, t: Taken)
    requires i < |states|
  {
    && t.readAt < t.seenAt < t.takenAt < i
    && t.rung == Present(states[t.seenAt]) && t.rung != {}
    && states[t.readAt].user.revision == states[t.takenAt].user.revision
    && !states[t.takenAt].user.dnd
    && Live(states[t.takenAt].user, states[t.takenAt].now) <= {t.call}
  }

  ghost predicate OffersFit(states: seq<System>, i: nat)
    requires i < |states|
  {
    && (forall offer <- states[i].offers :: ReadRightly(states, i, states[i].offers[offer].phase))
    && (forall t <- states[i].taken :: TakenRightly(states, i, t))
  }

  lemma LaterMoment(states: seq<System>, i: nat)
    requires i + 1 < |states| && OffersFit(states, i)
    ensures forall offer <- states[i].offers :: ReadRightly(states, i + 1, states[i].offers[offer].phase)
    ensures forall t <- states[i].taken :: TakenRightly(states, i + 1, t)
  {
    forall offer <- states[i].offers ensures ReadRightly(states, i + 1, states[i].offers[offer].phase) {
      assert ReadRightly(states, i, states[i].offers[offer].phase);
    }
    forall t <- states[i].taken ensures TakenRightly(states, i + 1, t) {
      assert TakenRightly(states, i, t);
    }
  }

  lemma OfferGoingOnFits(states: seq<System>, steps: seq<Step>, i: nat, offer: nat)
    requires Traces(states, steps) && i < |steps| && OffersFit(states, i)
    requires steps[i] == OfferGoesOn(offer) && offer in states[i].offers
    ensures OffersFit(states, i + 1)
  {
    var s, n := states[i], states[i + 1];
    var o := s.offers[offer];
    LaterMoment(states, i);
    MomentsAreValid(states, steps, i);
    assert ReadRightly(states, i, o.phase);
    if o.phase.Decides? {
      var stored := o.phase.stored;
      SettlesAlong(states, steps, o.phase.readAt, i);
      AvailableMeansFree(o.phase.sockets, stored.dnd, stored.calls, o.call);
      ClaimSettles(s.user, s.now, Some(stored.revision), o.call);
    }
    hide Claimed, Live, Sound, Settled, Present, ClosingsFit, DecideAvailability;
    forall other <- n.offers ensures ReadRightly(states, i + 1, n.offers[other].phase) {
      assert other == offer || n.offers[other] == s.offers[other];
    }
    forall t <- n.taken ensures TakenRightly(states, i + 1, t) {
      if t !in s.taken {
        assert o.phase.Decides?;
      }
    }
  }

  lemma {:induction false} OffersReadRightly(states: seq<System>, steps: seq<Step>, i: nat)
    requires Traces(states, steps) && i <= |steps|
    ensures OffersFit(states, i)
  {
    hide ReadRightly, TakenRightly, Performed, OfferStep, Sound;
    if i > 0 {
      OffersReadRightly(states, steps, i - 1);
      var s, step := states[i - 1], steps[i - 1];
      if step.OfferGoesOn? && step.offer in s.offers {
        OfferGoingOnFits(states, steps, i - 1, step.offer);
      } else {
        LaterMoment(states, i - 1);
        NothingTaken(s, step);
        if step.OfferStarts? && step.offer !in s.offers {
          NewOffersFit(states, i, step.call);
        }
      }
    }
  }

  lemma NewOffersFit(states: seq<System>, i: nat, call: CallId)
    requires i < |states|
    ensures ReadRightly(states, i, Offer(call, 1, ReadsStore).phase)
  {
  }

  lemma NothingTaken(s: System, step: Step)
    requires !step.OfferGoesOn? || step.offer !in s.offers
    ensures var n := Next(s, step);
      && n.taken == s.taken
      && n.offers == if step.OfferStarts? && step.offer !in s.offers then s.offers[step.offer := Offer(step.call, 1, ReadsStore)] else s.offers
  {
    hide Claimed, Released, Renewed, Expired, Performed, OfferStep;
    if step.Performs? && (step.socket, step.op) in s.ops && step.socket in s.sockets {
      PerformingTakesNothing(s, step.socket, step.op, step.lands, step.fails);
    }
  }

  lemma PerformingTakesNothing(s: System, socket: SocketId, op: SocketOp, lands: bool, fails: bool)
    requires (socket, op) in s.ops && socket in s.sockets
    ensures var n := Performed(s, socket, op, lands, fails); n.taken == s.taken && n.offers == s.offers
  {
    hide After;
  }

  // What holds of every run ----------------------------------------------------------------------

  /**
    Every claim an offer ever took was taken at an instant when do not disturb
    was off and no other call had a live claim on the user, however offers,
    releases, renewals, expiries and toggles interleave.
   */
  lemma OffersTakeOnlyTheFree(states: seq<System>, steps: seq<Step>, i: nat, t: Taken)
    requires Traces(states, steps) && i <= |steps| && t in states[i].taken
    ensures t.takenAt < i
    ensures !states[t.takenAt].user.dnd && Live(states[t.takenAt].user, states[t.takenAt].now) <= {t.call}
  {
    hide Next;
    OffersReadRightly(states, steps, i);
    assert TakenRightly(states, i, t);
  }

  /** Two calls never hold a user through offers at once: whoever had them before has let go, or run out. */
  lemma OffersDoNotShareAUser(states: seq<System>, steps: seq<Step>, i: nat, one: Taken, other: Taken)
    requires Traces(states, steps) && i <= |steps| && one in states[i].taken && other in states[i].taken
    ensures other.takenAt < i
    ensures one.call != other.call ==> one.call !in Live(states[other.takenAt].user, states[other.takenAt].now)
  {
    OffersTakeOnlyTheFree(states, steps, i, other);
  }

  /** What an offer found when it read the store at one moment and the sockets at a later one. */
  predicate WasFree(states: seq<System>, readAt: nat, seenAt: nat, call: CallId)
    requires readAt < |states| && seenAt < |states|
  {
    && Present(states[seenAt]) != {}
    && !states[readAt].user.dnd
    && Live(states[readAt].user, states[readAt].now) <= {call}
  }

  /**
    In every run, an offer that decides is made exactly if it found the user
    free and nothing about them changed since it read the store; it then rings
    the sockets it saw. A user not found free is refused for what lasts
    longest of what was found; one who is overtaken is tried again, and passes
    for busy once the attempts are over.
   */
  lemma OffersEndExactly(states: seq<System>, steps: seq<Step>, i: nat, offer: nat)
    requires Traces(states, steps) && i < |steps| && steps[i] == OfferGoesOn(offer)
    requires offer in states[i].offers && states[i].offers[offer].phase.Decides?
    ensures var o := states[i].offers[offer];
      var readAt, seenAt := o.phase.readAt, o.phase.seenAt;
      && readAt < seenAt < i && offer in states[i + 1].offers
      && var found, asRead := WasFree(states, readAt, seenAt, o.call), states[i].user.revision == states[readAt].user.revision;
         var n := states[i + 1].offers[offer];
         && (found && asRead ==>
               && n == o.(phase := Done(Offered(Present(states[seenAt]), o.call !in Live(states[i].user, states[i].now))))
               && Live(states[i + 1].user, states[i + 1].now) == Live(states[i].user, states[i].now) + {o.call})
         && (!(found && asRead) ==> states[i + 1].user == states[i].user && states[i + 1].taken == states[i].taken)
         && (found && !asRead ==>
               n == if o.attempt < CLAIM_ATTEMPTS then Offer(o.call, o.attempt + 1, ReadsStore) else o.(phase := Done(Refused(Busy))))
         && (!found ==>
               n == o.(phase := Done(Refused(
                 if Present(states[seenAt]) == {} then Offline else if states[readAt].user.dnd then Disturbed else Busy))))
  {
    hide Present, Live, Sound, TakenRightly;
    OffersReadRightly(states, steps, i);
    MomentsAreValid(states, steps, i);
    var s, o := states[i], states[i].offers[offer];
    AvailableMeansFree(Present(states[o.phase.seenAt]), states[o.phase.readAt].user.dnd,
                       Live(states[o.phase.readAt].user, states[o.phase.readAt].now), o.call);
    ClaimSettles(s.user, s.now, Some(states[o.phase.readAt].user.revision), o.call);
    hide Claimed, DecideAvailability;
  }

  lemma AnnouncingMovesOn(s: System, step: Step, socket: SocketId)
    requires Announces(s, step, socket)
    ensures Next(s, step).user.revision > s.user.revision
  {
  }

  /**
    Whatever was announced before a claim landed was announced before the
    offer read the store, and so before it read the sockets it rings: the
    claim would not have landed otherwise.
   */
  lemma AnnouncedBeforeReading(states: seq<System>, steps: seq<Step>, i: nat, t: Taken, a: nat, socket: SocketId)
    requires Traces(states, steps) && i <= |steps| && t in states[i].taken
    requires a < t.takenAt && a < |steps| && Announces(states[a], steps[a], socket)
    ensures a < t.readAt < t.seenAt < t.takenAt < i
    ensures t.rung == Present(states[t.seenAt]) && t.rung != {}
  {
    hide Next, Announces, Settled, Live, Sound;
    OffersReadRightly(states, steps, i);
    assert TakenRightly(states, i, t);
    if t.readAt <= a {
      RevisionOnlyGrows(states, steps, t.readAt, a);
      AnnouncingMovesOn(states[a], steps[a], socket);
      RevisionOnlyGrows(states, steps, a + 1, t.takenAt);
      assert false;
    }
  }

  lemma RevisionOnlyGrows(states: seq<System>, steps: seq<Step>, i: nat, j: nat)
    requires Traces(states, steps) && i <= j <= |steps|
    ensures states[i].user.revision <= states[j].user.revision
  {
    hide Next;
    SettlesAlong(states, steps, i, j);
  }

  /** A registration that lands puts a socket into presence, leaving takes it out, and nothing else changes whether it is there. */
  lemma PresenceChanges(s: System, step: Step, socket: SocketId)
    ensures IsPresent(Next(s, step), socket) <==> Lands(s, step, socket) || (IsPresent(s, socket) && !Leaves(s, step, socket))
  {
    hide Claimed, Released, Renewed, Expired, Performed, OfferStep;
    if step.Performs? && (step.socket, step.op) in s.ops && step.socket in s.sockets {
      PerformingChangesPresence(s, step.socket, step.op, step.lands, step.fails, socket);
    } else if step.OfferGoesOn? && step.offer in s.offers {
      OffersLeaveSockets(s, step.offer);
    }
  }

  lemma PerformingChangesPresence(s: System, socket: SocketId, op: SocketOp, lands: bool, fails: bool, other: SocketId)
    requires (socket, op) in s.ops && socket in s.sockets
    ensures IsPresent(Performed(s, socket, op, lands, fails), other) <==>
      || (socket == other && op.Registering? && (lands || !fails))
      || (IsPresent(s, other) && !(socket == other && op.Unregistering?))
  {
    hide After;
  }

  /** The socket was put into presence after one moment, and not taken out again before another. */
  ghost predicate PutBack(states: seq<System>, steps: seq<Step>, first: nat, last: nat, socket: SocketId)
    requires last <= |steps| < |states|
  {
    exists k | first <= k < last ::
      && Lands(states[k], steps[k], socket)
      && forall l | k < l < last :: !Leaves(states[l], steps[l], socket)
  }

  ghost predicate Stays(states: seq<System>, steps: seq<Step>, first: nat, last: nat, socket: SocketId)
    requires last <= |steps| < |states|
  {
    forall l | first <= l < last :: !Leaves(states[l], steps[l], socket)
  }

  lemma {:induction false} PresentExactlyIfPutBack(states: seq<System>, steps: seq<Step>, first: nat, last: nat, socket: SocketId)
    requires Traces(states, steps) && first <= last <= |steps|
    ensures IsPresent(states[last], socket) <==>
      PutBack(states, steps, first, last, socket) || (IsPresent(states[first], socket) && Stays(states, steps, first, last, socket))
    decreases last
  {
    hide Next, Lands, Leaves, IsPresent;
    if first < last {
      var k := last - 1;
      PresentExactlyIfPutBack(states, steps, first, k, socket);
      PresenceChanges(states[k], steps[k], socket);
      if PutBack(states, steps, first, k, socket) && !Leaves(states[k], steps[k], socket) {
        var l :| first <= l < k && Lands(states[l], steps[l], socket)
              && forall m | l < m < k :: !Leaves(states[m], steps[m], socket);
        assert PutBack(states, steps, first, last, socket);
      }
      if PutBack(states, steps, first, last, socket) && !Lands(states[k], steps[k], socket) {
        assert PutBack(states, steps, first, k, socket);
      }
    }
  }

  /**
    A connection whose change was announced before a claim landed is rung
    exactly if presence had it at the announcement and it did not leave until
    the offer read the sockets, or if it was put back in between.
   */
  lemma OffersRingAnnouncedConnections(states: seq<System>, steps: seq<Step>, i: nat, t: Taken, a: nat, socket: SocketId)
    requires Traces(states, steps) && i <= |steps| && t in states[i].taken
    requires a < t.takenAt && a < |steps| && Announces(states[a], steps[a], socket)
    ensures a < t.readAt < t.seenAt < |steps|
    ensures socket in t.rung <==>
      || (IsPresent(states[a], socket) && Stays(states, steps, a, t.seenAt, socket))
      || PutBack(states, steps, a, t.seenAt, socket)
  {
    hide Next, Announces, Lands, Leaves;
    AnnouncedBeforeReading(states, steps, i, t, a, socket);
    PresentExactlyIfPutBack(states, steps, a, t.seenAt, socket);
    assert socket in t.rung <==> IsPresent(states[t.seenAt], socket);
  }

  /**
    A closed connection whose closing was announced, presence having let it
    go, is rung by a later claim exactly if a registration landed after the
    announcement and before the offer read the sockets, and was not undone
    before that read; and then its unregistration was in flight at the read.
   */
  lemma ClosedConnectionsAreRungExactlyIfPutBack(states: seq<System>, steps: seq<Step>, i: nat, t: Taken, a: nat, socket: SocketId)
    requires Traces(states, steps) && i <= |steps| && t in states[i].taken
    requires a < t.takenAt && a < |steps| && Announces(states[a], steps[a], socket)
    requires states[a].sockets[socket].closed && !states[a].sockets[socket].present
    ensures a < t.seenAt < |steps|
    ensures socket in t.rung <==> PutBack(states, steps, a, t.seenAt, socket)
    ensures socket in t.rung ==> Unregisters(states[t.seenAt].ops, socket)
  {
    hide Next, Lands, Leaves, Unregisters, PutBack, Stays, Sound;
    OffersRingAnnouncedConnections(states, steps, i, t, a, socket);
    AnnouncedBeforeReading(states, steps, i, t, a, socket);
    MomentsAreValid(states, steps, t.seenAt);
    ClosedForGood(states, steps, a, t.seenAt, socket);
  }

  lemma {:induction false} ClosedForGood(states: seq<System>, steps: seq<Step>, first: nat, last: nat, socket: SocketId)
    requires Traces(states, steps) && first <= last <= |steps|
    requires socket in states[first].sockets && states[first].sockets[socket].closed
    ensures socket in states[last].sockets && states[last].sockets[socket].closed
    decreases last
  {
    hide Next;
    if first < last {
      ClosedForGood(states, steps, first, last - 1, socket);
      ClosedStaysClosed(states[last - 1], steps[last - 1], socket);
    }
  }

  lemma ClosedStaysClosed(s: System, step: Step, socket: SocketId)
    requires socket in s.sockets && s.sockets[socket].closed
    ensures var n := Next(s, step); socket in n.sockets && n.sockets[socket].closed
  {
    hide Claimed, Released, Renewed, Expired, Performed, OfferStep;
    if step.Performs? && (step.socket, step.op) in s.ops && step.socket in s.sockets {
      PerformingLeavesClosed(s, step.socket, step.op, step.lands, step.fails, socket);
    } else if step.OfferGoesOn? && step.offer in s.offers {
      OffersLeaveSockets(s, step.offer);
    }
  }

  lemma PerformingLeavesClosed(s: System, socket: SocketId, op: SocketOp, lands: bool, fails: bool, other: SocketId)
    requires (socket, op) in s.ops && socket in s.sockets && other in s.sockets
    ensures var n := Performed(s, socket, op, lands, fails);
      other in n.sockets && n.sockets[other].closed == s.sockets[other].closed
  {
  }

  lemma OffersLeaveSockets(s: System, offer: nat)
    requires offer in s.offers
    ensures OfferStep(s, offer, s.offers[offer]).sockets == s.sockets
  {
    hide Claimed, DecideAvailability;
  }

  /** Once a closed socket's handler is done with everything, presence does not count it. */
  lemma ClosedSocketsAreForgotten(states: seq<System>, steps: seq<Step>, i: nat, socket: SocketId)
    requires Traces(states, steps) && i <= |steps|
    requires socket in states[i].sockets && states[i].sockets[socket].closed && forall op :: (socket, op) !in states[i].ops
    ensures !states[i].sockets[socket].present
  {
    hide Next;
    MomentsAreValid(states, steps, i);
  }

  /** What an operation of a handler does to its socket when it succeeds, and what it is followed by. */
  lemma PerformingOne(s: System, socket: SocketId, op: SocketOp, rest: multiset<(SocketId, SocketOp)>)
    requires s.ops == rest + multiset{(socket, op)} && socket in s.sockets
    ensures var n, it := Next(s, Performs(socket, op, true, false)), s.sockets[socket];
      && socket in n.sockets
      && n.sockets[socket] == it.(present := op.Registering? || (it.present && !op.Unregistering?))
      && n.user == (if op.Announcing? then MarkedChanged(s.user) else s.user)
      && n.ops == rest + match op
                         case Registering(announces) => multiset{(socket, CheckingClosed(announces))}
                         case CheckingClosed(announces) =>
                           if it.closed then multiset{(socket, Unregistering(announces))}
                           else if announces then multiset{(socket, Announcing)} else multiset{}
                         case Unregistering(announces) => if announces then multiset{(socket, Announcing)} else multiset{}
                         case Announcing => multiset{}
  {
    hide Claimed, Released, Renewed, Expired, OfferStep;
    assert s.ops - multiset{(socket, op)} == rest && rest + multiset{} == rest;
  }

  lemma AskingToRegister(s: System, socket: SocketId)
    requires socket in s.sockets && !s.sockets[socket].closed
    ensures var n := Next(s, AsksToRegister(socket));
      && socket in n.sockets && !n.sockets[socket].closed
      && n.user == s.user && n.ops == s.ops + multiset{(socket, Registering(true))}
  {
    hide Claimed, Released, Renewed, Expired, OfferStep, Performed;
  }

  lemma Disconnecting(s: System, socket: SocketId)
    requires socket in s.sockets && !s.sockets[socket].closed
    ensures var n := Next(s, Disconnects(socket));
      && socket in n.sockets && n.sockets[socket].closed
      && n.user == s.user && n.ops == s.ops + multiset{(socket, Unregistering(s.sockets[socket].registered))}
  {
    hide Claimed, Released, Renewed, Expired, OfferStep, Performed;
  }

  /** A softphone that registers while its connection is open is counted by presence, and announced. */
  lemma RegistrationsAreAnnounced(s: System, socket: SocketId)
    requires socket in s.sockets && !s.sockets[socket].closed
    ensures var asked := Next(s, AsksToRegister(socket));
      var landed := Next(asked, Performs(socket, Registering(true), true, false));
      var checked := Next(landed, Performs(socket, CheckingClosed(true), true, false));
      var after := Next(checked, Performs(socket, Announcing, true, false));
      && IsPresent(after, socket) && after.user == s.user.(revision := after.user.revision)
      && s.user.revision < after.user.revision && after.ops == s.ops
  {
    hide Next;
    AskingToRegister(s, socket);
    var asked := Next(s, AsksToRegister(socket));
    PerformingOne(asked, socket, Registering(true), s.ops);
    var landed := Next(asked, Performs(socket, Registering(true), true, false));
    PerformingOne(landed, socket, CheckingClosed(true), s.ops);
    var checked := Next(landed, Performs(socket, CheckingClosed(true), true, false));
    PerformingOne(checked, socket, Announcing, s.ops);
    assert s.ops + multiset{} == s.ops;
  }

  /** A registered connection that closes is forgotten by presence, and that is announced. */
  lemma ClosingsAreAnnounced(s: System, socket: SocketId)
    requires socket in s.sockets && !s.sockets[socket].closed && s.sockets[socket].registered
    ensures var closing := Next(s, Disconnects(socket));
      var gone := Next(closing, Performs(socket, Unregistering(true), true, false));
      var after := Next(gone, Performs(socket, Announcing, true, false));
      && after.sockets[socket].closed && !IsPresent(after, socket) && after.user == s.user.(revision := after.user.revision)
      && s.user.revision < after.user.revision && after.ops == s.ops
  {
    hide Next;
    Disconnecting(s, socket);
    var closing := Next(s, Disconnects(socket));
    PerformingOne(closing, socket, Unregistering(true), s.ops);
    var gone := Next(closing, Performs(socket, Unregistering(true), true, false));
    PerformingOne(gone, socket, Announcing, s.ops);
    assert s.ops + multiset{} == s.ops;
  }
}
