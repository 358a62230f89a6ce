/**
  What a report that a leg joined makes of the call
  (apps/call-controller/src/calls/call-flow.ts): exactly who is let onto the
  call, what that settles, and what is left as it was.
 */
module CallAnswers {
  import opened Options
  import opened CallState
  import opened CallControl
  import opened CallDecisions
  import opened CallWorld
  import opened CallInvariants
  import opened CallChanges

  /** Another agent answered this call, and it is not being handed to this one. */
  predicate IsTakenFrom(c: Call, user: UserId) {
    c.answered && c.activeAgent.Some? && c.activeAgent.value != user && c.transferTo != Some(user)
  }

  /** The agent is on the call by this leg, nothing else is touched, and a transfer to them is over. */
  function Seated(c: Call, version: nat, leg: Leg, user: UserId): Call {
    var handed := c.transferTo == Some(user);
    c.(version := version, agentLeg := Some(leg), activeAgent := Some(user), pending := c.pending - {leg},
       answered := c.answered || c.direction.Inbound?,
       transferTo := if handed then None else c.transferTo,
       transferBy := if handed then None else c.transferBy,
       transferOrigin := if handed then None else c.transferOrigin)
  }

  /** What the timeline hears of an agent who is let onto the call, or who finds it taken. */
  function Heard(c: Call, user: UserId): seq<Event> {
    var answers := !c.answered && c.direction.Inbound?;
    (if answers then [CallStarted] else []) + (if c.transferTo == Some(user) then [TransferComplete(user)] else [])
  }

  lemma AgentJoinedIsSeated(c: Call, leg: Leg, user: UserId)
    requires WellFormed(c) && leg.party == Agent(user)
    ensures var change := JoinChange(c, leg);
      && change.follow == multiset{} && change.ring == multiset{}
      && change.draft == Some(if IsTakenFrom(c, user) then c else Seated(c, c.version, leg, user))
      && change.events == Heard(c, user)
  {
  }

  lemma AnsweringCommits(w: World, c: Call, leg: Leg)
    requires w.slot == Live(c)
    ensures var after, draft := Next(w, ReportJoined(leg)), JoinChange(c, leg).draft.value;
      && after.slot == Live(Stored(c, draft))
      && after.ops == w.ops + JoinChange(c, leg).follow + LetGo(UsersLetGo(c, Some(Stored(c, draft))))
      && after.ringing == w.ringing + JoinChange(c, leg).ring
      && after.timeline == w.timeline + JoinChange(c, leg).events
      && (JoinChange(c, leg).events == [] || !JoinChange(c, leg).events[0].TransferMark? ==>
            after == w.(slot := after.slot, ops := after.ops, ringing := after.ringing, timeline := after.timeline))
  {
    hide JoinChange, UsersLetGo;
  }

  /**
    On every call, an agent who joins is on it by that leg exactly unless
    another agent answered it and it is not being handed to them; then nothing
    changes at all. A transfer marked for them is completed, an inbound call
    nobody had answered is answered and starts.
   */
  lemma JoinsSeatExactly(w: World, c: Call, leg: Leg, user: UserId)
    requires w.slot == Live(c) && WellFormed(c) && leg.party == Agent(user)
    ensures var after := Next(w, ReportJoined(leg));
      && after.slot.Live?
      && (after.slot.call.agentLeg == Some(leg) && after.slot.call.activeAgent == Some(user) <==> !IsTakenFrom(c, user))
      && (IsTakenFrom(c, user) ==> after == w)
      && (!IsTakenFrom(c, user) ==> after.slot.call == Seated(c, after.slot.call.version, leg, user))
      && after == w.(slot := after.slot, ops := after.ops, timeline := w.timeline + Heard(c, user))
      && after.ops == w.ops + LetGo(UsersLetGo(c, Some(after.slot.call)))
  {
    hide Next, JoinChange, UsersLetGo, LegsFit, PartiesFit, TransferFits;
    AgentJoinedIsSeated(c, leg, user);
    AnsweringCommits(w, c, leg);
    NothingLetGo(c);
    if c.agentLeg == Some(leg) {
      TalkingIsActive(c);
    }
  }

  lemma TalkingIsActive(c: Call)
    requires WellFormed(c) && c.agentLeg.Some?
    ensures c.agentLeg.value.party.Agent? && c.activeAgent == Some(c.agentLeg.value.party.user)
  {
  }

  lemma NothingLetGo(c: Call)
    ensures UsersLetGo(c, Some(c)) == {}
  {
  }
}
