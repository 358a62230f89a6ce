/**
  One call as a transition system with one step per write to its record.

  A world is the stored record, the queue its routing gave it, the operations in flight on it, the users the
  availability store holds claimed for it, and two histories: the timeline of
  what its writes decided, and what became of each position of a fixed-order
  queue. Everything that follows a write (a release, a ring, a settlement) is
  an operation of its own, so follow-ups interleave in any order, a superset
  of the orders the code allows. Reports about legs arrive at any time, in any
  order, any number of times.
 */
module CallWorld {
  import opened Options
  import opened CallState
  import opened CallControl
  import opened CallDecisions

  /** Where a ring that reaches nobody sends the caller, by who started it. */
  datatype Fallback = BeforeConference | InConference

  /** One fixed-order ring at work, and how far it is with a queue position. */
  datatype RingTask =
    | RingStart(fallback: Fallback)
    | RingTurn(fallback: Fallback, index: nat)
    | RingOffer(fallback: Fallback, index: nat, user: UserId)
    | RingDial(fallback: Fallback, index: nat, user: UserId)
    | RingRecord(fallback: Fallback, index: nat, user: UserId, leg: Leg)

  /** An operation in flight: what it does next. */
  datatype Op =
    // An outbound call being placed.
    | Occupy(agent: UserId, leg: Leg)
    | Create(agent: UserId, leg: Leg)
    // An outside number being dialed.
    | DialExternal
    | RecordExternal(leg: Leg)
    | DialFailed
    // Everybody being rung at once.
    | OfferAll(users: set<UserId>)
    | DialAll(offered: set<UserId>)
    | RecordAll(offered: set<UserId>, legs: set<Leg>)
    // The caller being sent to voicemail, the call being ended.
    | AnswerWithVoicemail
    | RouteToVoicemail
    | EndCall
    | Finalize
    // A transfer, by the number of its mark.
    | TransferOffer(mark: nat, target: UserId, starter: UserId)
    | TransferHold(mark: nat, target: UserId, starter: UserId)
    | TransferRing(mark: nat, target: UserId, starter: UserId)
    | TransferDial(mark: nat, target: UserId, starter: UserId)
    | TransferRecord(mark: nat, target: UserId, starter: UserId, leg: Leg)
    | FailTransfer(target: UserId)
    // Claims being let go or renewed.
    | Release(users: set<UserId>)
    | RenewClaims(seen: Call)
    | CheckRenewal(seen: Call)

  /** What a write decided, as the timeline has it. */
  datatype Event =
    | CallStarted
    | CallEnded
    | TransferMark(target: UserId)
    | TransferComplete(target: UserId)
    | TransferFailure(target: UserId)
    | TransferCalledOff
    | Held
    | Resumed

  /** What became of a queue position. */
  datatype Turn = Rung(user: UserId, leg: Leg) | NotOffered(user: UserId) | NotRecorded(user: UserId)

  datatype Slot = Unborn | Live(call: Call) | Gone

  datatype World = World(
    slot: Slot,
    queue: seq<UserId>,
    ops: multiset<Op>,
    ringing: multiset<RingTask>,
    claimed: set<UserId>,
    marks: nat,
    timeline: seq<Event>,
    turns: seq<Turn>)

  /** What the environment answers an operation: success or not, and with what. */
  datatype Answer = Answer(ok: bool, users: set<UserId>, leg: Leg, legs: set<Leg>)

  datatype Step =
    | Perform(op: Op, answer: Answer)
    | Ring(task: RingTask, answer: Answer)
    | ReportJoined(leg: Leg)
    | ReportEnded(leg: Leg)
    | ReportConference(conference: nat)
    | RequestEnd
    | HoldAnswered(held: bool)
    | RequestTransfer(request: Request, target: UserId)
    | RequestCancel(request: Request)
    | Decline(user: UserId)
    | VoicemailLeft
    | StartRenewal
    | ClaimRunsOut(user: UserId)

  // How a call begins ----------------------------------------------------------------

  function OutboundCall(agent: UserId, leg: Leg): Call {
    Call(1, None, Outbound, Some(agent), None, Some(leg), None, map[leg := agent], {}, [], 0, NoRing,
         false, false, false, None, None, None, false)
  }

  function InboundCall(caller: Leg, queue: seq<UserId>, strategy: Strategy, voicemail: bool): Call {
    Call(1, None, Inbound, None, Some(caller), None, None, map[], {}, queue, 0, strategy,
         false, voicemail, false, None, None, None, false)
  }

  /** What the number dialed says to do with a caller. */
  datatype InboundPlan =
    | NoRouting
    | Voicemail
    | Forward
    | RingInOrder(queue: seq<UserId>)
    | RingTogether(users: set<UserId>, queue: seq<UserId>)

  function InboundStart(caller: Leg, plan: InboundPlan): World {
    match plan
    case NoRouting => Begin(Live(InboundCall(caller, [], NoRing, true)), multiset{}, multiset{})
    case Voicemail => Begin(Live(InboundCall(caller, [], NoRing, false)), multiset{AnswerWithVoicemail}, multiset{})
    case Forward => Begin(Live(InboundCall(caller, [], NoRing, false)), multiset{DialExternal}, multiset{})
    case RingInOrder(queue) =>
      Begin(Live(InboundCall(caller, queue, FixedOrder, false)), multiset{}, multiset{RingStart(BeforeConference)})
    case RingTogether(users, queue) =>
      Begin(Live(InboundCall(caller, queue, Simultaneous, false)), multiset{OfferAll(users)}, multiset{})
  }

  function OutboundStart(agent: UserId, leg: Leg): World {
    Begin(Unborn, multiset{Occupy(agent, leg)}, multiset{})
  }

  function Begin(slot: Slot, ops: multiset<Op>, ringing: multiset<RingTask>): World {
    World(slot, if slot.Live? then slot.call.queue else [], ops, ringing, {}, 0, [], [])
  }

  // Writing -------------------------------------------------------------------------

  /** The release a change owes, if it let anybody go. */
  function LetGo(users: set<UserId>): multiset<Op> {
    if users == {} then multiset{} else multiset{Release(users)}
  }

  /** What a change of the record comes to: its draft, what follows it, and what the timeline hears. */
  datatype Change = Change(
    draft: Option<Call>,
    follow: multiset<Op>,
    ring: multiset<RingTask>,
    events: seq<Event>)

  /** A change is written, and whoever it let go is released afterwards (`changeCall`). */
  function Commit(w: World, c: Call, rest: multiset<Op>, change: Change): World
    requires change.draft.Some? ==> change.draft.value.version == c.version
  {
    var after := if change.draft.None? then None else Some(Stored(c, change.draft.value));
    w.(slot := if after.None? then Gone else Live(after.value),
       ops := rest + change.follow + LetGo(UsersLetGo(c, after)),
       ringing := w.ringing + change.ring,
       marks := if change.events != [] && change.events[0].TransferMark? then w.marks + 1 else w.marks,
       timeline := w.timeline + change.events)
  }

  /** A write that lets nobody go (`updateCallState` called directly). */
  function Write(w: World, c: Call, draft: Call): World
    requires draft.version == c.version
  {
    w.(slot := Live(Stored(c, draft)))
  }

  function Removal(events: seq<Event>): Change {
    Change(None, multiset{}, multiset{}, events + [CallEnded])
  }

  function Quiet(draft: Call): Change {
    Change(Some(draft), multiset{}, multiset{}, [])
  }

  // The changes -----------------------------------------------------------------------

  function JoinChange(c: Call, leg: Leg): (change: Change)
    ensures change.draft.Some? && change.draft.value.version == c.version
  {
    match leg.party
    case Caller => Quiet(CallerJoined(c, leg))
    case External =>
      var (draft, first) := ExternalJoined(c, leg);
      Change(Some(draft), multiset{}, multiset{}, if first then [CallStarted] else [])
    case Agent(user) =>
      var (draft, joined) := AgentJoined(c, user, leg);
      var started := if joined.Joined? && joined.firstAnswer then [CallStarted] else [];
      var handed := if joined.Joined? && joined.transfer.Some? then [TransferComplete(user)] else [];
      Change(Some(draft), multiset{}, multiset{}, started + handed)
  }

  function EndChange(c: Call, leg: Leg): (change: Change)
    ensures change.draft.Some? ==> change.draft.value.version == c.version
  {
    var (after, plan) := LegEnded(c, leg);
    if after.None? then Removal([])
    else
      match plan
      case RingNext => Change(after, multiset{}, multiset{RingStart(InConference)}, [])
      case ToVoicemail => Change(after, multiset{RouteToVoicemail}, multiset{}, [])
      case TransferFellThrough(target) => Change(after, multiset{FailTransfer(target)}, multiset{}, [])
      case _ => Quiet(after.value)
  }

  function EndRequestChange(c: Call): (change: Change)
    ensures change.draft.Some? && change.draft.value.version == c.version
  {
    var called := if !c.ending && c.transferTo.Some? then [TransferCalledOff] else [];
    Change(Some(EndRequested(c)), multiset{}, multiset{}, called)
  }

  function HoldChange(c: Call, held: bool): (change: Change)
    ensures change.draft.Some? && change.draft.value.version == c.version
  {
    var (draft, changed) := HoldRecorded(c, held);
    Change(Some(draft), multiset{}, multiset{}, if changed then [if held then Held else Resumed] else [])
  }

  function MarkChange(c: Call, request: Request, target: UserId, mark: nat): (change: Change)
    ensures change.draft.Some? && change.draft.value.version == c.version
  {
    var (draft, refusal) := TransferMarked(c, request, target);
    if refusal.Some? then Quiet(c)
    else Change(Some(draft), multiset{TransferOffer(mark, target, request.user)}, multiset{}, [TransferMark(target)])
  }

  function FailChange(c: Call, target: UserId): (change: Change)
    ensures change.draft.Some? && change.draft.value.version == c.version
  {
    var (draft, settled) := TransferFailed(c, target);
    if settled.None? then Quiet(c)
    else
      var follow :=
        match settled.value.plan
        case ReturnToAgent => multiset{}
        case SendToVoicemail => multiset{RouteToVoicemail}
        case EndForEveryone => multiset{EndCall};
      Change(Some(draft), follow, multiset{}, [TransferFailure(target)])
  }

  function AnswerChange(c: Call): (change: Change)
    ensures change.draft.Some? && change.draft.value.version == c.version
  {
    Quiet(AnsweredByVoicemail(c).0)
  }

  function RouteChange(c: Call): (change: Change)
    ensures change.draft.Some? && change.draft.value.version == c.version
  {
    var (draft, moved) := PulledIntoVoicemail(c);
    Change(Some(draft), multiset{}, multiset{}, if moved.Some? && moved.value.wasHeld then [Resumed] else [])
  }

  // The steps -----------------------------------------------------------------------

  /** One step of the world; a step that is not possible leaves it as it is. */
  function Next(w: World, step: Step): World {
    match step
    case Perform(op, answer) => if op in w.ops then Performed(w, op, answer) else w
    case Ring(task, answer) => if task in w.ringing then RingStep(w, task, answer) else w
    case ReportJoined(leg) => if w.slot.Live? then Commit(w, w.slot.call, w.ops, JoinChange(w.slot.call, leg)) else w
    case ReportEnded(leg) => if w.slot.Live? then Commit(w, w.slot.call, w.ops, EndChange(w.slot.call, leg)) else w
    case ReportConference(conference) =>
      if w.slot.Live? then Write(w, w.slot.call, ConferenceNoted(w.slot.call, conference)) else w
    case RequestEnd => Spawn(w, EndCall)
    case HoldAnswered(held) => if w.slot.Live? then Commit(w, w.slot.call, w.ops, HoldChange(w.slot.call, held)) else w
    case RequestTransfer(request, target) =>
      if w.slot.Live? then Commit(w, w.slot.call, w.ops, MarkChange(w.slot.call, request, target, w.marks + 1)) else w
    case RequestCancel(request) =>
      if w.slot.Live? && RefuseTransferCancel(w.slot.call, request).None? && w.slot.call.transferTo.Some? then
        Spawn(w, FailTransfer(w.slot.call.transferTo.value))
      else w
    case Decline(user) => if w.slot.Live? then Declined(w, w.slot.call, user) else w
    case VoicemailLeft => Spawn(w, Finalize)
    case StartRenewal => if w.slot.Live? && OccupantsOf(w.slot.call) != {} then Spawn(w, RenewClaims(w.slot.call)) else w
    case ClaimRunsOut(user) => w.(claimed := w.claimed - {user})
  }

  function Spawn(w: World, op: Op): World {
    w.(ops := w.ops + multiset{op})
  }

  /** A softphone turns the call down. */
  function Declined(w: World, c: Call, user: UserId): World {
    if c.transferTo == Some(user) then Spawn(w, FailTransfer(user))
    else if !c.answered && (exists leg <- c.pending :: leg in c.agentLegs && c.agentLegs[leg] == user) then
      Spawn(w, Release({user}))
    else w
  }

  function Performed(w: World, op: Op, answer: Answer): World
    requires op in w.ops
  {
    var rest := w.ops - multiset{op};
    match op
    case Occupy(agent, leg) => w.(claimed := w.claimed + {agent}, ops := rest + multiset{Create(agent, leg)})
    case Create(agent, leg) =>
      if answer.ok && w.slot.Unborn? && leg.party == Agent(agent) then
        w.(slot := Live(OutboundCall(agent, leg)), ops := rest + multiset{DialExternal})
      else w.(ops := rest + LetGo({agent}))
    case DialExternal =>
      if w.slot.Live? && !w.slot.call.ending && answer.ok && answer.leg.party.External? then
        w.(ops := rest + multiset{RecordExternal(answer.leg)})
      else w.(ops := rest + multiset{DialFailed})
    case RecordExternal(leg) =>
      var left := w.(ops := rest);
      if w.slot.Live? then Write(left, w.slot.call, ExternalRecorded(w.slot.call, leg).0) else left
    case DialFailed =>
      if !w.slot.Live? || w.slot.call.ending then w.(ops := rest)
      else w.(ops := rest + multiset{if w.slot.call.direction.Inbound? then RouteToVoicemail else Finalize})
    case OfferAll(users) =>
      var offered := users * answer.users;
      w.(claimed := w.claimed + offered, ops := rest + multiset{DialAll(offered)})
    case DialAll(offered) =>
      if !w.slot.Live? then w.(ops := rest + LetGo(offered))
      else if w.slot.call.ending || offered == {} then w.(ops := rest + LetGo(offered) + multiset{AnswerWithVoicemail})
      else
        var legs := set leg | leg in answer.legs && leg.party.Agent? && leg.party.user in offered;
        w.(ops := rest + multiset{RecordAll(offered, legs)})
    case RecordAll(offered, legs) => RecordedAll(w, rest, offered, legs)
    case AnswerWithVoicemail => if w.slot.Live? then Commit(w, w.slot.call, rest, AnswerChange(w.slot.call)) else w.(ops := rest)
    case RouteToVoicemail => if w.slot.Live? then Commit(w, w.slot.call, rest, RouteChange(w.slot.call)) else w.(ops := rest)
    case EndCall => if w.slot.Live? then Commit(w, w.slot.call, rest, EndRequestChange(w.slot.call)) else w.(ops := rest)
    case Finalize => if w.slot.Live? then Commit(w, w.slot.call, rest, Removal([])) else w.(ops := rest)
    case FailTransfer(target) =>
      if w.slot.Live? then Commit(w, w.slot.call, rest, FailChange(w.slot.call, target)) else w.(ops := rest)
    case Release(users) =>
      w.(claimed := w.claimed - answer.users * users, ops := rest + LetGo(users - answer.users))
    case RenewClaims(seen) =>
      w.(claimed := w.claimed + OccupantsOf(seen), ops := rest + multiset{CheckRenewal(seen)})
    case CheckRenewal(seen) =>
      if w.slot.Live? && w.slot.call.version == seen.version then w.(ops := rest)
      else w.(ops := rest + LetGo(UsersLetGo(seen, if w.slot.Live? then Some(w.slot.call) else None)))
    case _ => TransferStep(w, op, rest, answer)
  }

  /** The users whose dialed leg is among these. */
  function OwnersOf(legs: set<Leg>): set<UserId> {
    set leg | leg in legs && leg.party.Agent? :: leg.party.user
  }

  /** Everybody who was rung at once is recorded in one write, and those left out are let go. */
  function RecordedAll(w: World, rest: multiset<Op>, offered: set<UserId>, legs: set<Leg>): World {
    var recorded := legs != {} && w.slot.Live? && !w.slot.call.ending && forall leg <- legs :: leg.party.Agent?;
    if recorded then
      Write(w.(ops := rest + LetGo(offered - OwnersOf(legs))), w.slot.call, LegsRegistered(w.slot.call, legs).0)
    else w.(ops := rest + LetGo(offered) + multiset{AnswerWithVoicemail})
  }

  /** The steps of `transferCall` after its mark. */
  function TransferStep(w: World, op: Op, rest: multiset<Op>, answer: Answer): World {
    match op
    case TransferOffer(mark, target, starter) =>
      if answer.ok then
        w.(claimed := w.claimed + {target}, ops := rest + multiset{TransferHold(mark, target, starter)})
      else w.(ops := rest + multiset{FailTransfer(target)})
    case TransferHold(mark, target, starter) =>
      if answer.ok then w.(ops := rest + multiset{TransferRing(mark, target, starter)})
      else w.(ops := rest + multiset{FailTransfer(target), Release({target})})
    case TransferRing(mark, target, starter) =>
      if !w.slot.Live? then w.(ops := rest + multiset{FailTransfer(target), Release({target})})
      else if w.slot.call.transferTo != Some(target) || w.slot.call.transferBy != Some(starter) then
        w.(ops := rest + multiset{Release({target})})
      else w.(ops := rest + multiset{TransferDial(mark, target, starter)})
    case TransferDial(mark, target, starter) =>
      if w.slot.Live? && !w.slot.call.ending && answer.ok && answer.leg.party == Agent(target) then
        w.(ops := rest + multiset{TransferRecord(mark, target, starter, answer.leg)})
      else w.(ops := rest + multiset{FailTransfer(target), Release({target})})
    case TransferRecord(mark, target, starter, leg) =>
      if w.slot.Live? && !w.slot.call.ending && leg.party == Agent(target) then
        Write(w.(ops := rest), w.slot.call, LegsRegistered(w.slot.call, {leg}).0)
      else w.(ops := rest + multiset{Release({target})})
    case _ => w
  }

  /** Nobody is left to ring, or nobody needs to be rung: what happens to the caller. */
  function FallBack(fallback: Fallback): Op {
    match fallback
    case BeforeConference => AnswerWithVoicemail
    case InConference => RouteToVoicemail
  }

  /** The steps of `ringNextInOrder`. */
  function RingStep(w: World, task: RingTask, answer: Answer): World
    requires task in w.ringing
  {
    var rest := w.ringing - multiset{task};
    match task
    case RingStart(fallback) =>
      if w.slot.Live? then w.(ringing := rest + multiset{RingTurn(fallback, w.slot.call.queueIndex)})
      else w.(ringing := rest, ops := w.ops + multiset{FallBack(fallback)})
    case RingTurn(fallback, index) =>
      if !w.slot.Live? || index >= |w.slot.call.queue| || !TurnTaken(w.slot.call, index).1 then
        w.(ringing := rest, ops := w.ops + multiset{FallBack(fallback)})
      else
        Commit(w.(ringing := rest), w.slot.call, w.ops,
               Change(Some(TurnTaken(w.slot.call, index).0), multiset{},
                      multiset{RingOffer(fallback, index, w.slot.call.queue[index])}, []))
    case RingOffer(fallback, index, user) =>
      if answer.ok then w.(claimed := w.claimed + {user}, ringing := rest + multiset{RingDial(fallback, index, user)})
      else w.(ringing := rest + multiset{RingTurn(fallback, index + 1)}, turns := w.turns + [NotOffered(user)])
    case RingDial(fallback, index, user) =>
      if w.slot.Live? && !w.slot.call.ending && answer.ok && answer.leg.party == Agent(user) then
        w.(ringing := rest + multiset{RingRecord(fallback, index, user, answer.leg)})
      else RingMissed(w, rest, fallback, index, user)
    case RingRecord(fallback, index, user, leg) =>
      if w.slot.Live? && !w.slot.call.ending && leg.party == Agent(user) then
        Write(w.(ringing := rest, turns := w.turns + [Rung(user, leg)]), w.slot.call, LegsRegistered(w.slot.call, {leg}).0)
      else RingMissed(w, rest, fallback, index, user)
  }

  /** A ring the call never recorded: its user is let go and the next position has its turn. */
  function RingMissed(w: World, rest: multiset<RingTask>, fallback: Fallback, index: nat, user: UserId): World {
    w.(ringing := rest + multiset{RingTurn(fallback, index + 1)},
       ops := w.ops + multiset{Release({user})},
       turns := w.turns + [NotRecorded(user)])
  }

  /** A whole run: the world after these steps. */
  function Run(w: World, steps: seq<Step>): World {
    if steps == [] then w else Next(Run(w, steps[..|steps| - 1]), steps[|steps| - 1])
  }

  lemma RunThen(w: World, steps: seq<Step>, step: Step)
    ensures Run(w, steps + [step]) == Next(Run(w, steps), step)
  {
    hide Next;
    assert (steps + [step])[..|steps|] == steps;
  }

  /** The worlds a call can begin as. */
  ghost predicate Initial(w: World) {
    || (exists caller: Leg, plan: InboundPlan :: caller.party.Caller? && w == InboundStart(caller, plan))
    || (exists agent: UserId, leg: Leg :: leg.party == Agent(agent) && w == OutboundStart(agent, leg))
  }

  /** A run, world by world, from one a call can begin as; each step leads from one world to the next. */
  ghost predicate Traces(worlds: seq<World>, steps: seq<Step>) {
    && |worlds| == |steps| + 1
    && Initial(worlds[0])
    && forall i | 0 <= i < |steps| :: worlds[i + 1] == Next(worlds[i], steps[i])
  }
}
