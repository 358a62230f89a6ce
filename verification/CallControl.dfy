/**
  The rules behind an agent's controls over a live call
  (apps/call-controller/src/calls/call-control.ts). The metadata of a leg is
  the party the leg carries; the leg's conversation is the call itself, which
  the code reaches through that metadata.
 */
module CallControl {
  import opened Options
  import opened CallState

  datatype Refusal =
    | NotOnCall
    | NotConnected
    | TransferPending
    | NoTransferPending
    | TransferToSelf
    | TargetOnCall

  /** Who is asking, and the leg of theirs the request is addressed by. */
  datatype Request = Request(user: UserId, leg: Leg)

  /** The party the agent is talking to. */
  function RemoteLeg(c: Call): Option<Leg> {
    if c.direction.Outbound? then c.externalLeg
    else if c.callerLeg.Some? then c.callerLeg
    else c.externalLeg
  }

  function RefuseUnlessOnConnectedCall(c: Call, request: Request): Option<Refusal> {
    var ownsLeg := request.leg.party == Agent(request.user);
    var isTalking := c.agentLeg == Some(request.leg) && c.activeAgent == Some(request.user);
    if !ownsLeg || !isTalking then Some(NotOnCall)
    else if !c.answered || c.ending || c.voicemail || RemoteLeg(c).None? then Some(NotConnected)
    else None
  }

  function RefuseHold(c: Call, request: Request): Option<Refusal> {
    var refusal := RefuseUnlessOnConnectedCall(c, request);
    if refusal.Some? then refusal
    else if c.transferTo.Some? then Some(TransferPending)
    else None
  }

  /** A leg of this user joined the call; one that only rang is not on it. */
  predicate HasJoined(c: Call, user: UserId) {
    exists leg <- c.agentLegs :: c.agentLegs[leg] == user && leg !in c.pending
  }

  function RefuseTransfer(c: Call, request: Request, target: UserId): Option<Refusal> {
    var refusal := RefuseUnlessOnConnectedCall(c, request);
    if refusal.Some? then refusal
    else if c.transferTo.Some? then Some(TransferPending)
    else if target == request.user then Some(TransferToSelf)
    else if c.activeAgent == Some(target) || HasJoined(c, target) then Some(TargetOnCall)
    else None
  }

  function RefuseTransferCancel(c: Call, request: Request): Option<Refusal> {
    var refusal := RefuseUnlessOnConnectedCall(c, request);
    if refusal.Some? then refusal
    else if c.transferTo.Some? && c.transferBy == Some(request.user) then None
    else Some(NoTransferPending)
  }

  datatype HangupPlan = EndTheCall | ReleaseLeg | DeclineTransfer

  /** What a hangup request from someone allowed to make it means. */
  function PlanHangup(c: Call, request: Request): HangupPlan {
    if c.ending then EndTheCall
    else if c.transferTo.Some? then
      if c.transferTo == Some(request.user) && c.agentLeg != Some(request.leg) then DeclineTransfer else ReleaseLeg
    else
      var isTalking := c.agentLeg == Some(request.leg) || c.activeAgent == Some(request.user);
      if c.answered && !isTalking then ReleaseLeg else EndTheCall
  }

  datatype FailurePlan = ReturnToAgent | SendToVoicemail | EndForEveryone

  /** Where the other party goes when the teammate cannot be reached. */
  function PlanTransferFailure(c: Call): FailurePlan {
    if c.transferOrigin.Some? && c.agentLeg == c.transferOrigin then ReturnToAgent
    else if c.direction.Inbound? && c.callerLeg.Some? then SendToVoicemail
    else EndForEveryone
  }
}
