/**
  Whom the decisions have hung up (apps/call-controller/src/calls/call-flow.ts):
  the legs a change leaves behind are the ones its effects take off the line.
 */
module CallHangups {
  import opened Options
  import opened CallState
  import opened CallControl
  import opened CallDecisions

  /** The first to answer wins: every other leg that is tracked is hung up, all the rings still out among them. */
  lemma FirstAnswerSilencesTheOthers(c: Call, user: UserId, leg: Leg)
    requires WellFormed(c)
    ensures var (draft, join) := AgentJoined(c, user, leg);
      join.Joined? && join.firstAnswer ==>
        && draft.answered && draft.agentLeg == Some(leg)
        && draft.pending <= join.losing && leg !in join.losing
        && join.losing + {leg} == draft.agentLegs.Keys + {leg}
  {
  }

  /** A completed transfer hands the call from who started it, and hangs up their leg and every other but the new one. */
  lemma HandoverReleasesTheOthers(c: Call, user: UserId, leg: Leg)
    requires WellFormed(c)
    ensures var (draft, join) := AgentJoined(c, user, leg);
      join.Joined? && join.transfer.Some? ==>
        var handover := join.transfer.value;
        && handover.toUser == user && c.transferBy == Some(handover.fromUser) && handover.initiatedBy == c.transferBy
        && leg !in handover.released
        && (c.agentLeg.Some? && c.agentLeg.value in c.agentLegs && c.agentLeg != Some(leg) ==>
              c.agentLeg.value in handover.released)
        && LegsOf(draft) <= handover.released + {leg} + SetOf(draft.callerLeg) + SetOf(draft.externalLeg)
  {
  }

  /** A call that the end of a leg removes has every leg left on it hung up, but for a forwarded call whose outside party left. */
  lemma RemovalLeavesNobodyOnTheLine(c: Call, leg: Leg)
    requires WellFormed(c)
    ensures var (after, plan) := LegEnded(c, leg);
      after.None? ==>
        && plan.Ended?
        && (plan.hangUp == LegsOf(c) - {leg} || (plan.hangUp == {} && leg.party.External? && c.direction.Inbound?))
  {
    RemoveLegForgetsExactlyOne(c, leg);
  }

  /**
    A caller pulled into voicemail keeps their own leg only; everybody else is
    hung up exactly if the talking leg is a tracked one.
   */
  lemma VoicemailHangsUpTheOthers(c: Call)
    requires WellFormed(c)
    ensures var (draft, moved) := PulledIntoVoicemail(c);
      moved.Some? ==>
        && LegsOf(draft) == SetOf(c.callerLeg)
        && moved.value.wasHeld == c.held && !draft.held
        && (moved.value.hangUp == LegsOf(c) - LegsOf(draft) <==> c.agentLeg.None? || c.agentLeg.value in c.agentLegs)
  {
    var (draft, moved) := PulledIntoVoicemail(c);
    if moved.Some? {
      assert forall other <- LegsOf(c) :: other in moved.value.hangUp || Some(other) == c.agentLeg || Some(other) == c.callerLeg;
      assert c.agentLeg.Some? ==> c.agentLeg.value in LegsOf(c) - LegsOf(draft);
      assert forall other <- moved.value.hangUp :: other in LegsOf(c) && other !in SetOf(c.callerLeg);
    }
  }

  /**
    A transfer that falls through hangs up the target's legs and never the one
    that is talking, so the agent it returns to stays.
   */
  lemma FailureHangsUpTheTarget(c: Call, target: UserId)
    requires WellFormed(c)
    ensures var (draft, settled) := TransferFailed(c, target);
      settled.Some? ==>
        && settled.value.initiatedBy == c.transferBy && draft.transferTo.None? && LegsOf(draft) == LegsOf(c)
        && (forall leg <- settled.value.ringing :: leg.party == Agent(target) && c.agentLeg != Some(leg))
        && (settled.value.plan.ReturnToAgent? ==> draft.agentLeg.Some? && draft.agentLeg.value !in settled.value.ringing)
        && (settled.value.plan.SendToVoicemail? ==> draft.callerLeg.Some?)
        && (forall leg <- c.agentLegs | leg.party == Agent(target) :: leg in settled.value.ringing || c.agentLeg == Some(leg))
  {
  }
}
