/**
  The record a live call is kept as, and what can be read off it
  (apps/call-controller/src/calls/call-state.ts).

  A leg carries the party it was dialed for, so that every report about one
  leg names the same participant. Absent identifiers are `None`; the ids of
  ringing legs, which the code keeps as an array without duplicates, are a set.
 */
module CallState {
  import opened Options

  type UserId = nat

  /** Who a leg belongs to. */
  datatype Party = Caller | External | Agent(user: UserId)

  /** One person's connection to the conference. */
  datatype Leg = Leg(id: nat, party: Party)

  datatype Direction = Inbound | Outbound

  datatype Strategy = NoRing | Simultaneous | FixedOrder

  datatype Call = Call(
    version: nat,
    conference: Option<nat>,
    direction: Direction,
    activeAgent: Option<UserId>,
    callerLeg: Option<Leg>,
    agentLeg: Option<Leg>,
    externalLeg: Option<Leg>,
    agentLegs: map<Leg, UserId>,
    pending: set<Leg>,
    queue: seq<UserId>,
    queueIndex: nat,
    strategy: Strategy,
    answered: bool,
    voicemail: bool,
    held: bool,
    transferTo: Option<UserId>,
    transferBy: Option<UserId>,
    transferOrigin: Option<Leg>,
    ending: bool)

  /** Every leg the call refers to. */
  function LegsOf(c: Call): set<Leg> {
    SetOf(c.callerLeg) + SetOf(c.agentLeg) + SetOf(c.externalLeg) + c.agentLegs.Keys + c.pending
  }

  predicate HasActiveLegs(c: Call) {
    LegsOf(c) != {}
  }

  /** The user talking on the call, if a leg of theirs is on it. */
  function UsersTalking(c: Call): set<UserId> {
    if c.agentLeg.Some? then SetOf(c.activeAgent) else {}
  }

  /** The users whose leg joined the call and has not dropped yet. */
  function UsersJoined(c: Call): set<UserId> {
    set leg | leg in c.agentLegs && leg !in c.pending :: c.agentLegs[leg]
  }

  /** The users still being rung; once the call is answered, nobody. */
  function UsersRinging(c: Call): set<UserId> {
    if c.answered then {} else set leg | leg in c.agentLegs && leg in c.pending :: c.agentLegs[leg]
  }

  /** The users this call keeps from being offered another. */
  function OccupantsOf(c: Call): set<UserId> {
    if c.voicemail then {} else UsersTalking(c) + UsersJoined(c) + UsersRinging(c) + SetOf(c.transferTo)
  }

  /** The users with a leg that the first call tracks and the second does not. */
  function UsersOfLegsGone(before: Call, after: Option<Call>): set<UserId> {
    set leg | leg in before.agentLegs && (after.None? || leg !in after.value.agentLegs) :: before.agentLegs[leg]
  }

  /** Who a change let go; `after` is `None` when the change ended the call. */
  function UsersLetGo(before: Call, after: Option<Call>): set<UserId> {
    var stillOccupied := if after.None? then {} else OccupantsOf(after.value);
    OccupantsOf(before) + UsersOfLegsGone(before, after) - stillOccupied
  }

  /** The users whose claim a stored call answers for: its occupants and the owners of its tracked legs. */
  function HoldsOn(c: Call): set<UserId> {
    OccupantsOf(c) + c.agentLegs.Values
  }

  /** `leg`, unless it is the one that is gone. */
  function Without(slot: Option<Leg>, leg: Leg): Option<Leg> {
    if slot == Some(leg) then None else slot
  }

  /** The call once it has forgotten a leg. */
  function RemoveLeg(c: Call, leg: Leg): (r: Call) {
    c.(agentLegs := c.agentLegs - {leg},
       pending := c.pending - {leg},
       callerLeg := Without(c.callerLeg, leg),
       agentLeg := Without(c.agentLeg, leg),
       externalLeg := Without(c.externalLeg, leg),
       transferOrigin := Without(c.transferOrigin, leg))
  }

  /** Who a leg belongs to, read from the call alone. */
  function ParticipantOf(c: Call, leg: Leg): Option<Party> {
    if c.callerLeg == Some(leg) then Some(Caller)
    else if c.externalLeg == Some(leg) then Some(External)
    else if leg in c.agentLegs then Some(Agent(c.agentLegs[leg]))
    else None
  }

  // What every stored call satisfies ------------------------------------------

  /** Each slot holds a leg of its own kind, and the talking leg is the active agent's. */
  ghost predicate LegsFit(c: Call) {
    && (c.callerLeg.Some? ==> c.callerLeg.value.party.Caller?)
    && (c.externalLeg.Some? ==> c.externalLeg.value.party.External?)
    && (c.agentLeg.Some? ==> c.agentLeg.value.party.Agent? && c.activeAgent == Some(c.agentLeg.value.party.user))
    && (c.transferOrigin.Some? ==> c.transferOrigin.value.party.Agent?)
    && (forall leg <- c.agentLegs :: leg.party == Agent(c.agentLegs[leg]))
    && c.pending <= c.agentLegs.Keys
  }

  /** The transfer marker is set with its initiator, and only on an answered call that is not ending. */
  ghost predicate TransferFits(c: Call) {
    && (c.transferTo.Some? <==> c.transferBy.Some?)
    && (c.transferTo.Some? ==> c.answered && !c.ending && c.activeAgent.Some?)
    && (c.transferOrigin.Some? ==> c.transferTo.Some?)
  }

  /** The other party is on the line until the call ends, and nobody has answered a call whose rings are out. */
  ghost predicate PartiesFit(c: Call) {
    && (c.voicemail ==> c.direction.Inbound?)
    && (c.direction.Inbound? && !c.ending ==> c.callerLeg.Some?)
    && (c.direction.Inbound? && !c.answered ==>
          c.agentLeg.None? && c.activeAgent.None? && c.pending == c.agentLegs.Keys)
    && (c.direction.Outbound? && !c.ending ==>
          if c.answered then c.externalLeg.Some? else c.agentLeg.Some?)
    && HasActiveLegs(c)
  }

  ghost predicate WellFormed(c: Call) {
    LegsFit(c) && TransferFits(c) && PartiesFit(c)
  }

  // What removing a leg and letting go come to ---------------------------------

  /** Forgetting a leg takes that leg out of the call and no other. */
  lemma RemoveLegForgetsExactlyOne(c: Call, leg: Leg)
    ensures LegsOf(RemoveLeg(c, leg)) == LegsOf(c) - {leg}
  {
    var r := RemoveLeg(c, leg);
    forall other ensures other in LegsOf(r) <==> other in LegsOf(c) && other != leg {
      assert other in r.agentLegs <==> other in c.agentLegs && other != leg;
    }
  }

  /** The owner of a tracked leg is answered for. */
  lemma LegOwnersAreHeld(c: Call)
    ensures forall leg <- c.agentLegs :: c.agentLegs[leg] in HoldsOn(c)
  {
    forall leg <- c.agentLegs ensures c.agentLegs[leg] in HoldsOn(c) {
      assert c.agentLegs[leg] in c.agentLegs.Values;
    }
  }

  /** Everybody a change stops answering for is let go by it. */
  lemma NobodyIsForgotten(before: Call, after: Option<Call>, user: UserId)
    requires LegsFit(before) && (after.Some? ==> LegsFit(after.value))
    requires user in HoldsOn(before)
    requires after.Some? ==> user !in HoldsOn(after.value)
    ensures user in UsersLetGo(before, after)
  {
    if after.Some? {
      LegOwnersAreHeld(after.value);
    }
    if user !in OccupantsOf(before) {
      var leg :| leg in before.agentLegs && before.agentLegs[leg] == user;
      assert user in UsersOfLegsGone(before, after);
    }
  }

  /** Nobody who still occupies the call is let go, nor anybody the call did not answer for. */
  lemma OnlyThoseGoneAreLetGo(before: Call, after: Option<Call>, user: UserId)
    requires user in UsersLetGo(before, after)
    ensures user in HoldsOn(before)
    ensures after.Some? ==> user !in OccupantsOf(after.value)
  {
    if leg :| leg in before.agentLegs && before.agentLegs[leg] == user {
      assert before.agentLegs[leg] in before.agentLegs.Values;
    }
  }

  /**
    Off voicemail a call occupies the agent talking on it, the teammate it is
    to be handed to, and whoever has a leg that joined, or that rings while
    nobody has answered; in voicemail it occupies nobody.
   */
  lemma OccupantsAre(c: Call, user: UserId)
    ensures user in OccupantsOf(c) <==>
      && !c.voicemail
      && (|| c.transferTo == Some(user)
          || (c.agentLeg.Some? && c.activeAgent == Some(user))
          || exists leg <- c.agentLegs :: c.agentLegs[leg] == user && (leg in c.pending ==> !c.answered))
  {
    forall leg <- c.agentLegs | c.agentLegs[leg] == user
      ensures leg !in c.pending ==> user in UsersJoined(c)
      ensures leg in c.pending && !c.answered ==> user in UsersRinging(c)
    {
    }
  }
}
