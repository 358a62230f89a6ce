/**
  Every change of a live call, as the value the draft becomes and what is
  decided with it (the `changeCall` callbacks and `decide` functions of
  apps/call-controller/src/calls/call-flow.ts, and the two direct writes of
  telephony.service.ts). `CallDraft` performs the same changes in place.
 */
module CallDecisions {
  import opened Options
  import opened CallState
  import opened CallControl

  // Answering ------------------------------------------------------------------

  /** The teammate who answered a transfer, and the legs it leaves to hang up. */
  datatype Handover = Handover(fromUser: UserId, toUser: UserId, initiatedBy: Option<UserId>, released: set<Leg>)

  datatype AgentJoin =
    | Intruder
    | Joined(firstAnswer: bool, losing: set<Leg>, transfer: Option<Handover>)

  /** Someone else already has this call and it is not being handed to this agent. */
  predicate IsIntruder(c: Call, user: UserId) {
    c.answered && c.transferTo != Some(user) && c.activeAgent.Some? && c.activeAgent != Some(user)
  }

  function AgentJoined(c: Call, user: UserId, leg: Leg): (Call, AgentJoin) {
    if IsIntruder(c, user) then (c, Intruder)
    else
      var others := c.agentLegs.Keys - {leg};
      var transfer :=
        if c.transferTo == Some(user) && c.activeAgent.Some? then
          Some(Handover(if c.transferBy.Some? then c.transferBy.value else c.activeAgent.value, user, c.transferBy, others))
        else None;
      var firstAnswer := !c.answered && c.direction.Inbound?;
      var seated := c.(
        agentLeg := Some(leg),
        activeAgent := Some(user),
        pending := c.pending - {leg},
        answered := c.answered || firstAnswer);
      var settled := if transfer.Some? then TransferCleared(seated) else seated;
      (settled, Joined(firstAnswer, if firstAnswer then others else {}, transfer))
  }

  function CallerJoined(c: Call, leg: Leg): Call {
    c.(callerLeg := Some(leg))
  }

  /** Also decided: whether this is the first answer of an outbound call. */
  function ExternalJoined(c: Call, leg: Leg): (Call, bool) {
    (c.(answered := true, externalLeg := Some(leg)), !c.answered && c.direction.Outbound?)
  }

  // Legs ending ------------------------------------------------------------------

  datatype LegEndPlan =
    | Ignored
    | Forgotten
    | Ended(hangUp: set<Leg>)
    | RingNext
    | ToVoicemail
    | TransferFellThrough(target: UserId)

  /** `None` in place of the call removes it. */
  function LegEnded(c: Call, leg: Leg): (Option<Call>, LegEndPlan) {
    if leg !in LegsOf(c) then (Some(c), Ignored)
    else if c.ending then
      var left := RemoveLeg(c, leg);
      if HasActiveLegs(left) then (Some(left), Forgotten) else (None, Ended({}))
    else if leg.party.Caller? then (None, Ended(LegsOf(c) - {leg}))
    else
      var left := RemoveLeg(c, leg);
      if leg.party.External? then ExternalEnded(left) else AgentEnded(left, leg, c.agentLeg == Some(leg))
  }

  function ExternalEnded(left: Call): (Option<Call>, LegEndPlan) {
    if left.direction.Outbound? then (None, Ended(LegsOf(left)))
    else if !left.answered && left.callerLeg.Some? then (Some(left), ToVoicemail)
    else (None, Ended({}))
  }

  function AgentEnded(left: Call, leg: Leg, wasActive: bool): (Option<Call>, LegEndPlan)
    requires leg.party.Agent?
  {
    if !left.answered then
      if left.direction.Outbound? then (None, Ended(LegsOf(left)))
      else if left.strategy.FixedOrder? then (Some(left.(queueIndex := left.queueIndex + 1)), RingNext)
      else (Some(left), if left.pending != {} then Forgotten else ToVoicemail)
    else if wasActive && left.transferTo.None? then (None, Ended(LegsOf(left)))
    else if left.transferTo == Some(leg.party.user) && !RingsUser(left, leg.party.user) then
      (Some(left), TransferFellThrough(leg.party.user))
    else (Some(left), Forgotten)
  }

  /** A leg of this user is tracked. */
  predicate RingsUser(c: Call, user: UserId) {
    user in c.agentLegs.Values
  }

  // Transfers ----------------------------------------------------------------------

  function TransferCleared(c: Call): Call {
    c.(transferTo := None, transferBy := None, transferOrigin := None)
  }

  /** The call once it has forgotten all of these legs. */
  function WithoutLegs(c: Call, lost: set<Leg>): Call {
    c.(agentLegs := c.agentLegs - lost,
       pending := c.pending - lost,
       callerLeg := if c.callerLeg.Some? && c.callerLeg.value in lost then None else c.callerLeg,
       agentLeg := if c.agentLeg.Some? && c.agentLeg.value in lost then None else c.agentLeg,
       externalLeg := if c.externalLeg.Some? && c.externalLeg.value in lost then None else c.externalLeg,
       transferOrigin := if c.transferOrigin.Some? && c.transferOrigin.value in lost then None else c.transferOrigin)
  }

  /** Forgetting one leg after the others is forgetting them together. */
  lemma OneLegMore(c: Call, lost: set<Leg>, leg: Leg)
    ensures RemoveLeg(WithoutLegs(c, lost), leg) == WithoutLegs(c, lost + {leg})
  {
    assert c.agentLegs - lost - {leg} == c.agentLegs - (lost + {leg});
    assert c.pending - lost - {leg} == c.pending - (lost + {leg});
  }

  /** The call without any leg of this user's. */
  function RingsForgotten(c: Call, user: UserId): Call {
    WithoutLegs(c, set leg | leg in c.agentLegs && c.agentLegs[leg] == user)
  }

  function TransferMarked(c: Call, request: Request, target: UserId): (Call, Option<Refusal>) {
    var refusal := RefuseTransfer(c, request, target);
    if refusal.Some? then (c, refusal)
    else
      (RingsForgotten(c, target).(
         transferTo := Some(target),
         transferBy := Some(request.user),
         transferOrigin := Some(request.leg)),
       None)
  }

  /** Who started a failed transfer, where the other party goes, and the rings to hang up. */
  datatype Settlement = Settlement(plan: FailurePlan, initiatedBy: Option<UserId>, ringing: set<Leg>)

  function TransferFailed(c: Call, target: UserId): (Call, Option<Settlement>) {
    if c.ending || c.transferTo != Some(target) then (c, None)
    else
      var ringing := set leg | leg in c.agentLegs && c.agentLegs[leg] == target && c.agentLeg != Some(leg);
      (TransferCleared(c), Some(Settlement(PlanTransferFailure(c), c.transferBy, ringing)))
  }

  // Ending, holding, voicemail ---------------------------------------------------

  function EndRequested(c: Call): Call {
    if c.ending then c else TransferCleared(c).(ending := true)
  }

  function HoldRecorded(c: Call, held: bool): (Call, bool) {
    if c.ending || c.held == held then (c, false) else (c.(held := held), true)
  }

  /** Voicemail before anybody was offered the call. */
  function AnsweredByVoicemail(c: Call): (Call, bool) {
    if c.ending then (c, false) else (c.(voicemail := true), true)
  }

  /** The legs a caller pulled into voicemail leaves behind, and whether that ended a hold. */
  datatype Moved = Moved(hangUp: set<Leg>, wasHeld: bool)

  predicate StaysOffVoicemail(c: Call) {
    c.callerLeg.None? || c.ending || c.voicemail || (!c.answered && c.pending != {})
  }

  function PulledIntoVoicemail(c: Call): (Call, Option<Moved>) {
    if StaysOffVoicemail(c) then (c, None)
    else
      (c.(voicemail := true,
          pending := {},
          agentLegs := map[],
          agentLeg := None,
          externalLeg := None,
          held := false),
       Some(Moved(c.agentLegs.Keys + SetOf(c.externalLeg), c.held)))
  }

  // Ringing ------------------------------------------------------------------------

  /** A fixed-order ring reaches a queue position, if the call still needs anybody rung. */
  function TurnTaken(c: Call, index: nat): (Call, bool) {
    if c.ending || c.answered || c.voicemail then (c, false) else (c.(queueIndex := index), true)
  }

  /** Each of these legs with the user it was dialed for. */
  function RingsOf(legs: set<Leg>): map<Leg, UserId>
    requires forall leg <- legs :: leg.party.Agent?
  {
    map leg | leg in legs :: leg.party.user
  }

  /** Agent legs that were dialed are recorded as ringing, unless the call is ending. */
  function LegsRegistered(c: Call, legs: set<Leg>): (Call, bool)
    requires forall leg <- legs :: leg.party.Agent?
  {
    if c.ending then (c, false)
    else
      (c.(agentLegs := c.agentLegs + RingsOf(legs),
          pending := c.pending + legs),
       true)
  }

  function ExternalRecorded(c: Call, leg: Leg): (Call, bool) {
    if c.ending then (c, false) else (c.(externalLeg := Some(leg)), true)
  }

  function ConferenceNoted(c: Call, conference: nat): Call {
    c.(conference := Some(conference))
  }

  // Writing ------------------------------------------------------------------------

  /**
    What the store holds once a draft is written: nothing is written when the
    draft differs in nothing, and a write moves the version on.
   */
  function Stored(before: Call, draft: Call): Call
    requires draft.version == before.version
  {
    if draft == before then before else draft.(version := before.version + 1)
  }

  // How the controls and the reports fit together ---------------------------------------

  /** A leg that is hung up to be released, or to decline, leaves the call standing when its end is reported. */
  lemma ReleasedLegsLeaveTheCall(c: Call, request: Request)
    requires WellFormed(c) && request.leg.party == Agent(request.user)
    requires PlanHangup(c, request) != EndTheCall
    ensures LegEnded(c, request.leg).0.Some?
  {
  }

  /** For the agent who is talking, a hangup ends the call exactly when the end of their leg would. */
  lemma TalkingAgentsHangupEndsTheCall(c: Call, request: Request)
    requires WellFormed(c) && request.leg.party == Agent(request.user) && c.agentLeg == Some(request.leg)
    requires c.answered && !c.ending
    ensures PlanHangup(c, request) == EndTheCall <==> LegEnded(c, request.leg).0.None?
  {
  }

  /** A connected agent may hold and transfer exactly while no transfer is pending, and cancel exactly their own. */
  lemma ControlsExcludeEachOther(c: Call, request: Request, target: UserId)
    requires WellFormed(c) && RefuseUnlessOnConnectedCall(c, request).None?
    ensures RefuseHold(c, request).None? <==> c.transferTo.None?
    ensures RefuseTransfer(c, request, target).None? <==>
      && c.transferTo.None? && target != request.user
      && !exists leg <- c.agentLegs :: c.agentLegs[leg] == target && leg !in c.pending
    ensures RefuseTransferCancel(c, request).None? <==> c.transferTo.Some? && c.transferBy == Some(request.user)
    ensures c.direction.Outbound? || c.callerLeg.Some? ==> RemoteLeg(c).Some?
  {
  }

  /** What the call says of a leg's participant is what the leg was dialed for. */
  lemma ParticipantIsTheParty(c: Call, leg: Leg)
    requires LegsFit(c)
    ensures ParticipantOf(c, leg).Some? <==> leg in SetOf(c.callerLeg) + SetOf(c.externalLeg) + c.agentLegs.Keys
    ensures ParticipantOf(c, leg).Some? ==> ParticipantOf(c, leg) == Some(leg.party)
  {
  }
}
