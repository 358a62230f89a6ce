/**
  An offer that rings a connection whose closing was announced before it: the
  run, step by step. `AvailabilityOffers.ClosedConnectionsAreRungExactlyIfPutBack`
  says that it takes a registration landing after the announcement.
 */
module AvailabilityFindings {
  import opened Options
  import opened AvailabilityStore
  import opened AvailabilityOffers

  const CALL: CallId := 9

  /** A user with one socket, nobody claiming them, after this many steps. */
  function Moment(moment: nat, revision: nat, socket: Socket, ops: multiset<(SocketId, SocketOp)>, offers: map<nat, Offer>): System {
    System(moment, User(revision, false, map[], 0), 0, map[0 := socket], ops, offers, [])
  }

  /**
    A softphone registers and is announced. A heartbeat is under way when it
    closes, and lands after its closing was announced. An offer reads the
    store and the sockets; the handler finds its socket closed and unregisters
    it, which is not announced; and the offer claims.
   */
  function LateStates(): seq<System> {
    [Start(NOBODY),
     Moment(1, 0, Socket(false, false, false), multiset{}, map[]),
     Moment(2, 0, Socket(true, false, false), multiset{(0, Registering(true))}, map[]),
     Moment(3, 0, Socket(true, false, true), multiset{(0, CheckingClosed(true))}, map[]),
     Moment(4, 0, Socket(true, false, true), multiset{(0, Announcing)}, map[]),
     Moment(5, 1, Socket(true, false, true), multiset{}, map[]),
     Moment(6, 1, Socket(true, false, true), multiset{(0, Registering(false))}, map[]),
     Moment(7, 1, Socket(true, true, true), multiset{(0, Registering(false)), (0, Unregistering(true))}, map[]),
     Moment(8, 1, Socket(true, true, false), multiset{(0, Registering(false)), (0, Announcing)}, map[]),
     Moment(9, 2, Socket(true, true, false), multiset{(0, Registering(false))}, map[]),
     Moment(10, 2, Socket(true, true, true), multiset{(0, CheckingClosed(false))}, map[]),
     Moment(11, 2, Socket(true, true, true), multiset{(0, CheckingClosed(false))}, map[0 := Offer(CALL, 1, ReadsStore)]),
     Moment(12, 2, Socket(true, true, true), multiset{(0, CheckingClosed(false))}, map[0 := Offer(CALL, 1, ReadsSockets(Stored(2, false, {}), 11))]),
     Moment(13, 2, Socket(true, true, true), multiset{(0, CheckingClosed(false))}, map[0 := Offer(CALL, 1, Decides(Stored(2, false, {}), {0}, 11, 12))]),
     Moment(14, 2, Socket(true, true, true), multiset{(0, Unregistering(false))}, map[0 := Offer(CALL, 1, Decides(Stored(2, false, {}), {0}, 11, 12))]),
     Moment(15, 2, Socket(true, true, false), multiset{}, map[0 := Offer(CALL, 1, Decides(Stored(2, false, {}), {0}, 11, 12))]),
     System(16, User(3, false, map[CALL := 0], CLAIM_LIFETIME), 0, map[0 := Socket(true, true, false)], multiset{},
            map[0 := Offer(CALL, 1, Done(Offered({0}, true)))], [Taken(CALL, {0}, 11, 12, 15)])]
  }

  function LateSteps(): seq<Step> {
    [Connects(0), AsksToRegister(0), Performs(0, Registering(true), true, false),
     Performs(0, CheckingClosed(true), true, false), Performs(0, Announcing, true, false), Heartbeat(0),
     Disconnects(0), Performs(0, Unregistering(true), true, false), Performs(0, Announcing, true, false),
     Performs(0, Registering(false), true, false), OfferStarts(0, CALL), OfferGoesOn(0),
     OfferGoesOn(0), Performs(0, CheckingClosed(false), true, false), Performs(0, Unregistering(false), true, false),
     OfferGoesOn(0)]
  }

  lemma LatePart1()
    ensures Next(Start(NOBODY), Connects(0))
         == Moment(1, 0, Socket(false, false, false), multiset{}, map[])
    ensures Next(Moment(1, 0, Socket(false, false, false), multiset{}, map[]), AsksToRegister(0))
         == Moment(2, 0, Socket(true, false, false), multiset{(0, Registering(true))}, map[])
  {
    hide Renewed, Released, Expired, Claimed;
  }

  lemma LatePart2()
    ensures Next(Moment(2, 0, Socket(true, false, false), multiset{(0, Registering(true))}, map[]), Performs(0, Registering(true), true, false))
         == Moment(3, 0, Socket(true, false, true), multiset{(0, CheckingClosed(true))}, map[])
    ensures Next(Moment(3, 0, Socket(true, false, true), multiset{(0, CheckingClosed(true))}, map[]), Performs(0, CheckingClosed(true), true, false))
         == Moment(4, 0, Socket(true, false, true), multiset{(0, Announcing)}, map[])
  {
    hide Renewed, Released, Expired, Claimed;
  }

  lemma LatePart3()
    ensures Next(Moment(4, 0, Socket(true, false, true), multiset{(0, Announcing)}, map[]), Performs(0, Announcing, true, false))
         == Moment(5, 1, Socket(true, false, true), multiset{}, map[])
    ensures Next(Moment(5, 1, Socket(true, false, true), multiset{}, map[]), Heartbeat(0))
         == Moment(6, 1, Socket(true, false, true), multiset{(0, Registering(false))}, map[])
  {
    hide Renewed, Released, Expired, Claimed;
  }

  lemma LatePart4()
    ensures Next(Moment(6, 1, Socket(true, false, true), multiset{(0, Registering(false))}, map[]), Disconnects(0))
         == Moment(7, 1, Socket(true, true, true), multiset{(0, Registering(false)), (0, Unregistering(true))}, map[])
    ensures Next(Moment(7, 1, Socket(true, true, true), multiset{(0, Registering(false)), (0, Unregistering(true))}, map[]), Performs(0, Unregistering(true), true, false))
         == Moment(8, 1, Socket(true, true, false), multiset{(0, Registering(false)), (0, Announcing)}, map[])
  {
    hide Renewed, Released, Expired, Claimed;
  }

  lemma LatePart5()
    ensures Next(Moment(8, 1, Socket(true, true, false), multiset{(0, Registering(false)), (0, Announcing)}, map[]), Performs(0, Announcing, true, false))
         == Moment(9, 2, Socket(true, true, false), multiset{(0, Registering(false))}, map[])
    ensures Next(Moment(9, 2, Socket(true, true, false), multiset{(0, Registering(false))}, map[]), Performs(0, Registering(false), true, false))
         == Moment(10, 2, Socket(true, true, true), multiset{(0, CheckingClosed(false))}, map[])
  {
    hide Renewed, Released, Expired, Claimed;
  }

  lemma LatePart6()
    ensures Next(Moment(10, 2, Socket(true, true, true), multiset{(0, CheckingClosed(false))}, map[]), OfferStarts(0, CALL))
         == Moment(11, 2, Socket(true, true, true), multiset{(0, CheckingClosed(false))}, map[0 := Offer(CALL, 1, ReadsStore)])
    ensures Next(Moment(11, 2, Socket(true, true, true), multiset{(0, CheckingClosed(false))}, map[0 := Offer(CALL, 1, ReadsStore)]), OfferGoesOn(0))
         == Moment(12, 2, Socket(true, true, true), multiset{(0, CheckingClosed(false))}, map[0 := Offer(CALL, 1, ReadsSockets(Stored(2, false, {}), 11))])
  {
    hide Renewed, Released, Expired, Claimed;
    assert Live(User(2, false, map[], 0), 0) == {};
  }

  lemma LatePart7()
    ensures Next(Moment(12, 2, Socket(true, true, true), multiset{(0, CheckingClosed(false))}, map[0 := Offer(CALL, 1, ReadsSockets(Stored(2, false, {}), 11))]), OfferGoesOn(0))
         == Moment(13, 2, Socket(true, true, true), multiset{(0, CheckingClosed(false))}, map[0 := Offer(CALL, 1, Decides(Stored(2, false, {}), {0}, 11, 12))])
    ensures Next(Moment(13, 2, Socket(true, true, true), multiset{(0, CheckingClosed(false))}, map[0 := Offer(CALL, 1, Decides(Stored(2, false, {}), {0}, 11, 12))]), Performs(0, CheckingClosed(false), true, false))
         == Moment(14, 2, Socket(true, true, true), multiset{(0, Unregistering(false))}, map[0 := Offer(CALL, 1, Decides(Stored(2, false, {}), {0}, 11, 12))])
  {
    hide Renewed, Released, Expired, Claimed;
    assert Present(Moment(12, 2, Socket(true, true, true), multiset{(0, CheckingClosed(false))}, map[0 := Offer(CALL, 1, ReadsSockets(Stored(2, false, {}), 11))])) == {0};
  }

  lemma LatePart8()
    ensures Next(Moment(14, 2, Socket(true, true, true), multiset{(0, Unregistering(false))}, map[0 := Offer(CALL, 1, Decides(Stored(2, false, {}), {0}, 11, 12))]), Performs(0, Unregistering(false), true, false))
         == Moment(15, 2, Socket(true, true, false), multiset{}, map[0 := Offer(CALL, 1, Decides(Stored(2, false, {}), {0}, 11, 12))])
    ensures Next(Moment(15, 2, Socket(true, true, false), multiset{}, map[0 := Offer(CALL, 1, Decides(Stored(2, false, {}), {0}, 11, 12))]), OfferGoesOn(0))
         == System(16, User(3, false, map[CALL := 0], CLAIM_LIFETIME), 0, map[0 := Socket(true, true, false)], multiset{},
            map[0 := Offer(CALL, 1, Done(Offered({0}, true)))], [Taken(CALL, {0}, 11, 12, 15)])
  {
    hide Renewed, Released, Expired;
    AvailableMeansFree({0}, false, {}, CALL);
  }

  lemma LateRun()
    ensures Traces(LateStates(), LateSteps())
  {
    hide Next, Moment;
    LatePart1();
    LatePart2();
    LatePart3();
    LatePart4();
    LatePart5();
    LatePart6();
    LatePart7();
    LatePart8();
  }

  /**
    The claim lands on the closed connection alone, when presence no longer
    has it and nothing of its handler is in flight; its closing was announced
    three steps before the offer read the store.
   */
  lemma LateRegistrationIsRung()
    ensures Traces(LateStates(), LateSteps())
    ensures var states, steps := LateStates(), LateSteps();
      var t := Taken(CALL, {0}, 11, 12, 15);
      && states[16].taken == [t] && t.rung == {0}
      && Announces(states[8], steps[8], 0) && Lands(states[9], steps[9], 0)
      && states[8].sockets[0].closed && !states[8].sockets[0].present
      && states[15].sockets[0].closed && !states[15].sockets[0].present && states[15].ops == multiset{}
  {
    LateRun();
    hide Next;
  }
}
