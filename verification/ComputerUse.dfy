// The computer-use grant host as a state machine over its atomic stretches.
//
// `Next` performs one stretch between two awaits of a queued request, or one
// call from outside: emergency stop, revocation, a settings refresh, the expiry
// timer. Any sequence of events is a run, so every interleaving is covered.
module ComputerUse {
  import opened Common

  const MAX_USED_CONFIRMATIONS: nat := 1024
  const MAX_FINALIZATIONS: nat := 16
  const MAX_CONFIRMATION_AGE_MS := 120000


  /** What the injected `enabled()` callback does when it is called now. */
  datatype Setting = On | Off | Throws

  datatype Operation = Status | Targets | Activate | Observe | Act | Stop

  /** The parts of a request payload the host branches on. */
  datatype Payload = Payload(
    grantId: Option<nat>,
    sequence: Option<int>,
    actionValid: bool,          // the verdict of `actionOf`
    fieldsValid: bool,          // the time-independent verdict of `activationRequest`
    requestId: string,
    hasTarget: bool,
    durationSeconds: nat,
    createdAt: int,
    confirmationExpiresAt: int)

  datatype Request = Request(operation: Operation, sessionId: string, payload: Payload)

  datatype Grant = Grant(sessionId: string, grantId: nat, expiresAt: int, nextSequence: nat)

  /** Where the request at the head of the queue is suspended. */
  datatype Pc =
    | Idle
    | Expiring(request: Request)
    | Selecting(request: Request, generation: nat)
    | Confirming(request: Request, generation: nat)
    | Activating(grant: Grant, generation: nat)
    | Replying

  /** What an observer of the host and its backend sees. */
  datatype Effect =
    | Started                    // an activation captured the revocation generation
    | Interrupted                // `stopActive` or `revoke` was called
    | Resolved(grantId: nat)     // `backend.activate` resolved
    | Committed(grantId: nat)    // the grant became the active one
    | Stopped(grantId: nat)      // `backend.stop` was called

  /** Grants, and what the backend saw of them. */
  datatype Grants = Grants(
    active: Option<Grant>,
    timer: Option<nat>,
    finalizations: seq<(string, nat)>,
    nextId: nat,
    history: seq<Effect>,
    acts: seq<(nat, nat)>)       // every (grantId, sequence) given to `backend.act`

  /** The replay window, and everything `#rememberConfirmation` ever took. */
  datatype Replay = Replay(used: set<string>, order: seq<string>, accepted: seq<string>)

  /** Whether anything may run at all. */
  datatype Gate = Gate(setting: Setting, now: int, revoked: bool, generation: nat, lastEnabled: bool)

  datatype Options = Options(canSelect: bool, canConfirm: bool)

  datatype Host = Host(
    options: Options, gate: Gate, grants: Grants, replay: Replay, queue: seq<Request>, pc: Pc)

  datatype Event =
    | Enqueue(request: Request)
    | ChangeSetting(setting: Setting)
    | Advance(elapsed: nat)
    | StopActive(listenerThrows: bool)
    | Revoke(listenerThrows: bool)
    | Refresh(listenerThrows: bool, stopListenerThrows: bool)
    | TimerFires
    | Begin(aborted: bool)
    | AfterExpiry
    | TargetSelected(aborted: bool, target: Option<bool>)
    | ConfirmationAnswered(confirmed: bool, aborted: bool)
    | ActivateResolved(aborted: bool)
    | Rejected                   // the awaited promise rejected
    | ReplySent

  // -------------------------------------------------------------------------
  // Pieces shared by several stretches
  // -------------------------------------------------------------------------

  /** The `enabled` getter: a throwing callback counts as disabled. */
  predicate Enabled(gate: Gate) {
    !gate.revoked && gate.setting == On
  }

  predicate ActivationValid(p: Payload, now: int) {
    && p.fieldsValid
    && p.createdAt <= now + 5000
    && p.confirmationExpiresAt > now
    && p.confirmationExpiresAt > p.createdAt
    && p.confirmationExpiresAt - p.createdAt <= MAX_CONFIRMATION_AGE_MS
  }

  predicate Authorized(g: Grants, request: Request) {
    && g.active.Some?
    && g.active.value.sessionId == request.sessionId
    && request.payload.grantId == Some(g.active.value.grantId)
  }

  predicate Finalized(g: Grants, request: Request) {
    && request.payload.grantId.Some?
    && (request.sessionId, request.payload.grantId.value) in g.finalizations
  }

  function KeepLast<T>(list: seq<T>, limit: nat): seq<T> {
    if |list| > limit then list[|list| - limit..] else list
  }

  function Record(g: Grants, effect: Effect): Grants {
    g.(history := g.history + [effect])
  }

  /** `#rememberFinalization`: calls `backend.stop` and remembers at most 16 outcomes. */
  function RememberFinalization(g: Grants, grant: Grant): Grants {
    var key := (grant.sessionId, grant.grantId);
    var all := if key in g.finalizations then g.finalizations else g.finalizations + [key];
    Record(g, Stopped(grant.grantId)).(finalizations := KeepLast(all, MAX_FINALIZATIONS))
  }

  /** The active grant and its timer forgotten, nothing stopped. */
  function Forget(g: Grants): Grants {
    g.(active := None, timer := None)
  }

  /** Clears the active grant and its timer, stopping the grant if there was one. */
  function Retire(g: Grants): Grants {
    if g.active.None? then Forget(g) else RememberFinalization(Forget(g), g.active.value)
  }

  function RememberConfirmation(r: Replay, requestId: string): Replay {
    var order := r.order + [requestId];
    var grown := Replay(r.used + {requestId}, order, r.accepted + [requestId]);
    if |order| <= MAX_USED_CONFIRMATIONS then grown
    else grown.(order := order[1..], used := grown.used - {order[0]})
  }

  // -------------------------------------------------------------------------
  // Calls from outside the queue
  // -------------------------------------------------------------------------

  function StopActiveNow(s: Host, listenerThrows: bool): Host {
    var noted := Record(s.grants, Interrupted);
    s.(gate := s.gate.(generation := s.gate.generation + 1),
       grants := if s.grants.active.Some? && listenerThrows then Forget(noted) else Retire(noted))
  }

  function RevokeNow(s: Host, listenerThrows: bool): Host {
    if s.gate.revoked then s
    else
      var noted := Record(s.grants, Interrupted);
      if listenerThrows then s.(gate := s.gate.(revoked := true), grants := noted)
      else s.(gate := s.gate.(revoked := true, generation := s.gate.generation + 1), grants := Retire(noted))
  }

  function RefreshNow(s: Host, listenerThrows: bool, stopListenerThrows: bool): Host {
    if Enabled(s.gate) == s.gate.lastEnabled then s
    else
      var noted := s.(gate := s.gate.(lastEnabled := Enabled(s.gate)));
      if listenerThrows || Enabled(s.gate) then noted else StopActiveNow(noted, stopListenerThrows)
  }

  function TimerFiresNow(s: Host): Host {
    if s.grants.timer.None? || s.grants.active.None? || s.grants.active.value.grantId != s.grants.timer.value
    then s
    else s.(grants := Retire(s.grants))
  }

  // -------------------------------------------------------------------------
  // Stretches of `#handle`
  // -------------------------------------------------------------------------

  function BeginNow(s: Host, aborted: bool): Host {
    if s.pc != Idle || s.queue == [] then s
    else
      var request, taken := s.queue[0], s.(queue := s.queue[1..]);
      if request.operation == Stop && Finalized(s.grants, request) then taken.(pc := Replying)
      else if s.gate.revoked || aborted then taken
      else
        var expired := s.grants.active.Some? && s.grants.active.value.expiresAt <= s.gate.now;
        taken.(grants := if expired then Retire(s.grants) else s.grants, pc := Expiring(request))
  }

  function AfterExpiryNow(s: Host): Host {
    if !s.pc.Expiring? then s
    else
      var request := s.pc.request;
      if !Enabled(s.gate) then
        s.(grants := Retire(s.grants), pc := if s.grants.active.None? then Idle else Replying)
      else match request.operation
        case Status => s.(pc := Replying)
        case Targets => s.(pc := Replying)
        case Activate => ActivateNow(s, request)
        case Observe =>
          s.(pc := if Authorized(s.grants, request) && request.payload.fieldsValid then Replying else Idle)
        case Act => ActNow(s, request)
        case Stop => StopNow(s, request)
  }

  function StopNow(s: Host, request: Request): Host {
    if Finalized(s.grants, request) then s.(pc := Replying)
    else if !Authorized(s.grants, request) then s.(pc := Idle)
    else s.(grants := Retire(s.grants), pc := Replying)
  }

  function ActNow(s: Host, request: Request): Host {
    if !Authorized(s.grants, request) then s.(pc := Idle)
    else
      var grant := s.grants.active.value;
      if request.payload.sequence != Some(grant.nextSequence as int) || !request.payload.actionValid
      then s.(pc := Idle)
      else s.(
        grants := s.grants.(
          active := Some(grant.(nextSequence := grant.nextSequence + 1)),
          acts := s.grants.acts + [(grant.grantId, grant.nextSequence)]),
        pc := Replying)
  }

  function ActivateNow(s: Host, request: Request): Host {
    if s.grants.active.Some? || !ActivationValid(request.payload, s.gate.now)
       || request.payload.requestId in s.replay.used
    then s.(pc := Idle)
    else
      var waiting :=
        if request.payload.hasTarget then AskConfirmation(s.options, request, s.gate.generation)
        else if s.options.canSelect then Selecting(request, s.gate.generation)
        else Idle;
      s.(replay := RememberConfirmation(s.replay, request.payload.requestId),
         grants := Record(s.grants, Started),
         pc := waiting)
  }

  function AskConfirmation(options: Options, request: Request, generation: nat): Pc {
    if options.canConfirm then Confirming(request, generation) else Idle
  }

  function TargetSelectedNow(s: Host, aborted: bool, target: Option<bool>): Host {
    if !s.pc.Selecting? then s
    else
      var request := s.pc.request;
      if aborted || s.gate.revoked || s.gate.setting != On || s.pc.generation != s.gate.generation || target.None?
      then s.(pc := Idle)
      else
        var chosen := request.(payload := request.payload.(
          hasTarget := true, fieldsValid := request.payload.fieldsValid && target.value));
        if !ActivationValid(chosen.payload, s.gate.now) then s.(pc := Idle)
        else s.(pc := AskConfirmation(s.options, chosen, s.pc.generation))
  }

  function ConfirmationAnsweredNow(s: Host, confirmed: bool, aborted: bool): Host {
    if !s.pc.Confirming? then s
    else
      var request := s.pc.request;
      if !confirmed || aborted || s.gate.revoked || s.pc.generation != s.gate.generation || s.gate.setting != On
         || !ActivationValid(request.payload, s.gate.now)
      then s.(pc := Idle)
      else
        var expiresAt := s.gate.now + request.payload.durationSeconds * 1000;
        s.(grants := s.grants.(nextId := s.grants.nextId + 2),
           pc := Activating(Grant(request.sessionId, s.grants.nextId, expiresAt, 1), s.pc.generation))
  }

  function ActivateResolvedNow(s: Host, aborted: bool): Host {
    if !s.pc.Activating? then s
    else
      var grant := s.pc.grant;
      var resolved := Record(s.grants, Resolved(grant.grantId));
      if aborted || s.gate.revoked || (s.gate.setting != Throws
         && (s.gate.setting == Off || s.pc.generation != s.gate.generation))
      then s.(grants := Record(resolved, Stopped(grant.grantId)), pc := Replying)
      else if s.gate.setting == Throws then s.(grants := resolved, pc := Idle)
      else s.(
        grants := Record(resolved, Committed(grant.grantId)).(
          active := Some(grant), timer := Some(grant.grantId)),
        pc := Idle)
  }

  function Next(s: Host, e: Event): Host {
    match e
    case Enqueue(request) => s.(queue := s.queue + [request])
    case ChangeSetting(setting) => s.(gate := s.gate.(setting := setting))
    case Advance(elapsed) => s.(gate := s.gate.(now := s.gate.now + elapsed))
    case StopActive(t) => StopActiveNow(s, t)
    case Revoke(t) => RevokeNow(s, t)
    case Refresh(t, u) => RefreshNow(s, t, u)
    case TimerFires => TimerFiresNow(s)
    case Begin(aborted) => BeginNow(s, aborted)
    case AfterExpiry => AfterExpiryNow(s)
    case TargetSelected(aborted, target) => TargetSelectedNow(s, aborted, target)
    case ConfirmationAnswered(confirmed, aborted) => ConfirmationAnsweredNow(s, confirmed, aborted)
    case ActivateResolved(aborted) => ActivateResolvedNow(s, aborted)
    case Rejected => s.(pc := Idle)
    case ReplySent => if s.pc == Replying then s.(pc := Idle) else s
  }

  predicate Initial(s: Host) {
    && s.grants == Grants(None, None, [], s.grants.nextId, [], [])
    && s.replay == Replay({}, [], [])
    && !s.gate.revoked && s.gate.generation == 0
    && s.queue == [] && s.pc == Idle
  }

  function Run(s: Host, events: seq<Event>): Host {
    if events == [] then s else Next(Run(s, events[..|events| - 1]), events[|events| - 1])
  }

  // -------------------------------------------------------------------------
  // Shape: what holds of the fields in every reachable state
  // -------------------------------------------------------------------------

  function Count(history: seq<Effect>, effect: Effect): nat {
    multiset(history)[effect]
  }

  predicate ActivationPending(pc: Pc) {
    pc.Selecting? || pc.Confirming? || pc.Activating?
  }

  predicate GrantsShape(g: Grants) {
    && g.timer == (if g.active.Some? then Some(g.active.value.grantId) else None)
    && |g.finalizations| <= MAX_FINALIZATIONS
    && (g.active.Some? ==> g.active.value.grantId < g.nextId && g.active.value.nextSequence >= 1)
  }

  predicate PcShape(s: Host) {
    && (ActivationPending(s.pc) ==> s.grants.active.None? && s.pc.generation <= s.gate.generation)
    && (s.pc.Activating? ==> s.pc.grant.grantId < s.grants.nextId && s.pc.grant.nextSequence == 1)
  }

  predicate Shape(s: Host) {
    GrantsShape(s.grants) && PcShape(s)
  }

  lemma RetireShape(g: Grants)
    requires |g.finalizations| <= MAX_FINALIZATIONS
    ensures GrantsShape(Retire(g)) && Retire(g).active.None? && Retire(g).nextId == g.nextId
    ensures GrantsShape(Forget(g))
  {}

  lemma ShapeOutside(s: Host, t: bool, u: bool)
    requires Shape(s)
    ensures Shape(StopActiveNow(s, t)) && Shape(RevokeNow(s, t)) && Shape(TimerFiresNow(s))
  {
    RetireShape(s.grants);
    RetireShape(Record(s.grants, Interrupted));
  }

  lemma ShapeRequest(s: Host, aborted: bool)
    requires Shape(s)
    ensures Shape(BeginNow(s, aborted)) && Shape(AfterExpiryNow(s))
  {
    RetireShape(s.grants);
  }

  lemma ShapeStep(s: Host, e: Event)
    requires Shape(s)
    ensures Shape(Next(s, e))
  {
    match e
    case StopActive(t) => ShapeOutside(s, t, t);
    case Revoke(t) => ShapeOutside(s, t, t);
    case Refresh(t, u) => ShapeOutside(s.(gate := s.gate.(lastEnabled := Enabled(s.gate))), u, u);
    case TimerFires => ShapeOutside(s, true, true);
    case Begin(aborted) => ShapeRequest(s, aborted);
    case AfterExpiry => ShapeRequest(s, true);
    case _ =>
  }

  /** An active grant is only ever replaced by nothing: it is never overwritten. */
  lemma NeverOverwritten(s: Host, e: Event)
    requires Shape(s) && s.grants.active.Some? && Next(s, e).grants.active.Some?
    ensures Next(s, e).grants.active.value.grantId == s.grants.active.value.grantId
  {}

  lemma {:induction false} ShapeRun(s: Host, events: seq<Event>)
    requires Initial(s)
    ensures Shape(Run(s, events))
  {
    if events != [] {
      ShapeRun(s, events[..|events| - 1]);
      ShapeStep(Run(s, events[..|events| - 1]), events[|events| - 1]);
    }
  }

  // -------------------------------------------------------------------------
  // Conservation of grants
  // -------------------------------------------------------------------------

  function ActiveIs(g: Grants, id: nat): bool {
    g.active.Some? && g.active.value.grantId == id
  }

  ghost predicate Balanced(g: Grants, id: nat) {
    && Count(g.history, Stopped(id)) <= Count(g.history, Resolved(id)) <= 1
    && (ActiveIs(g, id) ==> Count(g.history, Resolved(id)) == 1 && Count(g.history, Stopped(id)) == 0)
    && (id >= g.nextId ==> Count(g.history, Resolved(id)) == 0)
  }

  ghost predicate LedgerAt(s: Host, id: nat) {
    && Balanced(s.grants, id)
    && (s.pc.Activating? && s.pc.grant.grantId == id ==> Count(s.grants.history, Resolved(id)) == 0)
  }

  /** Resolved by the backend, neither active nor ever stopped. */
  ghost predicate Lost(g: Grants, id: nat) {
    && Count(g.history, Resolved(id)) == 1
    && Count(g.history, Stopped(id)) == 0
    && !ActiveIs(g, id)
  }

  /** Every grant the backend activated is the active one or was stopped exactly once. */
  ghost predicate Conserved(g: Grants) {
    forall id :: Count(g.history, Resolved(id)) > 0 ==>
      Count(g.history, Stopped(id)) == if ActiveIs(g, id) then 0 else 1
  }

  /**
   * The two steps that drop a grant: `enabled()` throwing on the recheck after
   * `backend.activate`, and an availability listener throwing inside
   * `stopActive` while a grant is active.
   */
  predicate Drops(s: Host, e: Event) {
    match e
    case ActivateResolved(aborted) =>
      s.pc.Activating? && !aborted && !s.gate.revoked && s.gate.setting == Throws
    case StopActive(listenerThrows) => s.grants.active.Some? && listenerThrows
    case Refresh(listenerThrows, stopListenerThrows) =>
      s.gate.lastEnabled && !Enabled(s.gate) && !listenerThrows && s.grants.active.Some? && stopListenerThrows
    case _ => false
  }

  function Dropped(s: Host, e: Event): nat
    requires Drops(s, e)
  {
    if e.ActivateResolved? then s.pc.grant.grantId else s.grants.active.value.grantId
  }

  lemma CountAppend(history: seq<Effect>, more: Effect, effect: Effect)
    ensures Count(history + [more], effect) == Count(history, effect) + (if more == effect then 1 else 0)
  {}

  lemma RecordBalanced(g: Grants, more: Effect, id: nat)
    requires Balanced(g, id) && !more.Resolved? && !more.Stopped?
    ensures Balanced(Record(g, more), id) && (Lost(Record(g, more), id) <==> Lost(g, id))
    ensures Count(Record(g, more).history, Resolved(id)) == Count(g.history, Resolved(id))
  {
    CountAppend(g.history, more, Stopped(id));
    CountAppend(g.history, more, Resolved(id));
  }

  lemma RetireBalanced(g: Grants, id: nat)
    requires Balanced(g, id)
    ensures Balanced(Retire(g), id) && (Lost(Retire(g), id) <==> Lost(g, id))
    ensures Count(Retire(g).history, Resolved(id)) == Count(g.history, Resolved(id))
  {
    if g.active.Some? {
      CountAppend(g.history, Stopped(g.active.value.grantId), Stopped(id));
      CountAppend(g.history, Stopped(g.active.value.grantId), Resolved(id));
    }
  }

  lemma ForgetBalanced(g: Grants, id: nat)
    requires Balanced(g, id)
    ensures Balanced(Forget(g), id) && (Lost(Forget(g), id) <==> Lost(g, id) || ActiveIs(g, id))
  {}

  lemma OutsideLedger(s: Host, t: bool, id: nat)
    requires Shape(s) && LedgerAt(s, id)
    ensures LedgerAt(StopActiveNow(s, t), id) && LedgerAt(RevokeNow(s, t), id)
    ensures Lost(StopActiveNow(s, t).grants, id) <==>
            Lost(s.grants, id) || (s.grants.active.Some? && t && ActiveIs(s.grants, id))
    ensures Lost(RevokeNow(s, t).grants, id) <==> Lost(s.grants, id)
  {
    RecordBalanced(s.grants, Interrupted, id);
    RetireBalanced(Record(s.grants, Interrupted), id);
    ForgetBalanced(Record(s.grants, Interrupted), id);
  }

  lemma BeginLedger(s: Host, aborted: bool, id: nat)
    requires Shape(s) && LedgerAt(s, id)
    ensures LedgerAt(BeginNow(s, aborted), id)
    ensures Lost(BeginNow(s, aborted).grants, id) <==> Lost(s.grants, id)
  {
    RetireBalanced(s.grants, id);
  }

  lemma AfterExpiryLedger(s: Host, id: nat)
    requires Shape(s) && LedgerAt(s, id)
    ensures LedgerAt(AfterExpiryNow(s), id)
    ensures Lost(AfterExpiryNow(s).grants, id) <==> Lost(s.grants, id)
  {
    hide Count, Finalized, ActivationValid, RememberConfirmation, Enabled;
    RetireBalanced(s.grants, id);
    RecordBalanced(s.grants, Started, id);
  }

  lemma ResolvedLedger(s: Host, aborted: bool, id: nat)
    requires Shape(s) && LedgerAt(s, id)
    ensures LedgerAt(ActivateResolvedNow(s, aborted), id)
    ensures Lost(ActivateResolvedNow(s, aborted).grants, id) <==>
            Lost(s.grants, id) || (Drops(s, ActivateResolved(aborted)) && s.pc.grant.grantId == id)
  {
    hide Count;
    if s.pc.Activating? {
      var grantId := s.pc.grant.grantId;
      var resolved := s.grants.history + [Resolved(grantId)];
      CountAppend(s.grants.history, Resolved(grantId), Stopped(id));
      CountAppend(s.grants.history, Resolved(grantId), Resolved(id));
      CountAppend(resolved, Stopped(grantId), Stopped(id));
      CountAppend(resolved, Stopped(grantId), Resolved(id));
      CountAppend(resolved, Committed(grantId), Stopped(id));
      CountAppend(resolved, Committed(grantId), Resolved(id));
    }
  }

  lemma WaitingLedger(s: Host, aborted: bool, answer: bool, target: Option<bool>, id: nat)
    requires Shape(s) && LedgerAt(s, id)
    ensures LedgerAt(TargetSelectedNow(s, aborted, target), id)
    ensures Lost(TargetSelectedNow(s, aborted, target).grants, id) <==> Lost(s.grants, id)
    ensures LedgerAt(ConfirmationAnsweredNow(s, answer, aborted), id)
    ensures Lost(ConfirmationAnsweredNow(s, answer, aborted).grants, id) <==> Lost(s.grants, id)
  {}

  lemma OutsideLedgerStep(s: Host, e: Event, id: nat)
    requires Shape(s) && LedgerAt(s, id)
    requires e.StopActive? || e.Revoke? || e.Refresh? || e.TimerFires?
    ensures LedgerAt(Next(s, e), id)
    ensures Lost(Next(s, e).grants, id) <==> Lost(s.grants, id) || (Drops(s, e) && Dropped(s, e) == id)
  {
    hide Balanced, Lost, GrantsShape, StopActiveNow, RevokeNow, Count;
    match e
    case StopActive(t) => OutsideLedger(s, t, id);
    case Revoke(t) => OutsideLedger(s, t, id);
    case Refresh(t, u) => OutsideLedger(s.(gate := s.gate.(lastEnabled := Enabled(s.gate))), u, id);
    case TimerFires => RetireBalanced(s.grants, id);
  }

  lemma LedgerStep(s: Host, e: Event, id: nat)
    requires Shape(s) && LedgerAt(s, id)
    ensures LedgerAt(Next(s, e), id)
    ensures Lost(Next(s, e).grants, id) <==> Lost(s.grants, id) || (Drops(s, e) && Dropped(s, e) == id)
  {
    match e
    case StopActive(_) => OutsideLedgerStep(s, e, id);
    case Revoke(_) => OutsideLedgerStep(s, e, id);
    case Refresh(_, _) => OutsideLedgerStep(s, e, id);
    case TimerFires => OutsideLedgerStep(s, e, id);
    case Begin(aborted) => BeginLedger(s, aborted, id);
    case AfterExpiry => AfterExpiryLedger(s, id);
    case TargetSelected(aborted, target) => WaitingLedger(s, aborted, true, target, id);
    case ConfirmationAnswered(confirmed, aborted) => WaitingLedger(s, aborted, confirmed, None, id);
    case ActivateResolved(aborted) => ResolvedLedger(s, aborted, id);
    case _ =>
  }

  ghost predicate DropHappened(s: Host, events: seq<Event>, i: nat, id: nat)
    requires i < |events|
  {
    var before := Run(s, events[..i]);
    Drops(before, events[i]) && Dropped(before, events[i]) == id
  }

  lemma InitialLedger(s: Host, id: nat)
    requires Initial(s)
    ensures LedgerAt(s, id) && !Lost(s.grants, id)
  {}

  lemma {:induction false} LedgerRun(s: Host, events: seq<Event>, id: nat)
    requires Initial(s)
    ensures LedgerAt(Run(s, events), id)
    ensures Lost(Run(s, events).grants, id) <==> exists i :: 0 <= i < |events| && DropHappened(s, events, i, id)
  {
    hide LedgerAt, Lost, Drops, Dropped, Next, Shape, Initial;
    if events == [] {
      InitialLedger(s, id);
    } else {
      var last := |events| - 1;
      var front := events[..last];
      LedgerRun(s, front, id);
      ShapeRun(s, front);
      LedgerStep(Run(s, front), events[last], id);
      forall i | 0 <= i < last ensures DropHappened(s, front, i, id) <==> DropHappened(s, events, i, id) {
        assert front[..i] == events[..i];
      }
      assert DropHappened(s, events, last, id) <==> Drops(Run(s, front), events[last])
                                                    && Dropped(Run(s, front), events[last]) == id;
    }
  }

  /** Conservation over whole runs, with the exact condition under which the code keeps it. */
  lemma {:induction false} GrantsConserved(s: Host, events: seq<Event>)
    requires Initial(s)
    ensures Conserved(Run(s, events).grants) <==>
            forall i :: 0 <= i < |events| ==> !Drops(Run(s, events[..i]), events[i])
  {
    var end := Run(s, events).grants;
    if i :| 0 <= i < |events| && Drops(Run(s, events[..i]), events[i]) {
      var id := Dropped(Run(s, events[..i]), events[i]);
      assert DropHappened(s, events, i, id);
      LedgerRun(s, events, id);
    } else {
      forall id | Count(end.history, Resolved(id)) > 0
        ensures Count(end.history, Stopped(id)) == if ActiveIs(end, id) then 0 else 1
      {
        LedgerRun(s, events, id);
      }
    }
  }

  // -------------------------------------------------------------------------
  // Revocation
  // -------------------------------------------------------------------------

  predicate RevokedIsEmpty(s: Host) {
    s.gate.revoked ==> s.grants.active.None?
  }

  /** Revoking while a grant is active and a listener throws before it is cleared. */
  predicate RevokeStalls(s: Host, e: Event) {
    e.Revoke? && e.listenerThrows && !s.gate.revoked && s.grants.active.Some?
  }

  lemma RevokedStep(s: Host, e: Event)
    requires Shape(s) && RevokedIsEmpty(s)
    ensures RevokedIsEmpty(Next(s, e)) <==> !RevokeStalls(s, e)
  {}

  lemma {:induction false} NoStallStaysEmpty(s: Host, events: seq<Event>)
    requires Initial(s)
    requires forall i :: 0 <= i < |events| ==> !RevokeStalls(Run(s, events[..i]), events[i])
    ensures RevokedIsEmpty(Run(s, events))
  {
    if events != [] {
      var front := events[..|events| - 1];
      forall i | 0 <= i < |front| ensures !RevokeStalls(Run(s, front[..i]), front[i]) {
        assert front[..i] == events[..i];
      }
      NoStallStaysEmpty(s, front);
      ShapeRun(s, front);
      RevokedStep(Run(s, front), events[|events| - 1]);
    }
  }

  lemma StallShows(s: Host, events: seq<Event>, i: nat)
    requires Initial(s) && i < |events| && RevokeStalls(Run(s, events[..i]), events[i])
    ensures !RevokedIsEmpty(Run(s, events[..i + 1]))
  {
    var more := events[..i + 1];
    assert more[..|more| - 1] == events[..i] && more[|more| - 1] == events[i];
    ShapeRun(s, events[..i]);
  }

  /** Every state of a run keeps `revoked` away from an active grant, unless a listener broke `revoke`. */
  lemma {:induction false} RevocationEmptiesHost(s: Host, events: seq<Event>)
    requires Initial(s)
    ensures (forall n :: 0 <= n <= |events| ==> RevokedIsEmpty(Run(s, events[..n]))) <==>
            (forall i :: 0 <= i < |events| ==> !RevokeStalls(Run(s, events[..i]), events[i]))
  {
    if i :| 0 <= i < |events| && RevokeStalls(Run(s, events[..i]), events[i]) {
      StallShows(s, events, i);
    } else {
      forall n | 0 <= n <= |events| ensures RevokedIsEmpty(Run(s, events[..n])) {
        var prefix := events[..n];
        forall i | 0 <= i < n ensures !RevokeStalls(Run(s, prefix[..i]), prefix[i]) {
          assert prefix[..i] == events[..i];
        }
        NoStallStaysEmpty(s, prefix);
      }
    }
  }

  // -------------------------------------------------------------------------
  // Two runs that break these promises
  // -------------------------------------------------------------------------

  function SampleRequest(): Request {
    Request(Activate, "session", Payload(None, None, false, true, "request", true, 60, 0, 60000))
  }

  function SampleHost(): Host {
    Host(Options(true, true), Gate(On, 0, false, 0, true), Grants(None, None, [], 0, [], []), Replay({}, [], []), [], Idle)
  }

  function SampleGrant(): Grant {
    Grant("session", 0, 60000, 1)
  }

  /** A grant is requested and confirmed, and the backend is activating it. */
  function Activation(): seq<Event> {
    [Enqueue(SampleRequest()), Begin(false), AfterExpiry, ConfirmationAnswered(true, false)]
  }

  lemma RunAppend(s: Host, events: seq<Event>, e: Event)
    ensures Run(s, events + [e]) == Next(Run(s, events), e)
  {
    assert (events + [e])[..|events|] == events;
  }

  /** The host while it asks for confirmation. */
  function Asking(): Host {
    SampleHost().(
      grants := SampleHost().grants.(history := [Started]),
      replay := Replay({"request"}, ["request"], ["request"]),
      pc := Confirming(SampleRequest(), 0))
  }

  lemma RequestIsTaken()
    ensures var r := SampleRequest();
            Next(Next(SampleHost(), Enqueue(r)), Begin(false)) == SampleHost().(pc := Expiring(r))
  {
    var s := Next(SampleHost(), Enqueue(SampleRequest()));
    assert s.queue == [SampleRequest()] && s.queue[1..] == [];
  }

  lemma ConfirmationIsAsked()
    ensures Next(SampleHost().(pc := Expiring(SampleRequest())), AfterExpiry) == Asking()
  {}

  lemma ActivationRuns()
    ensures Initial(SampleHost())
    ensures var t := Run(SampleHost(), Activation());
            && t.pc == Activating(SampleGrant(), 0) && t.gate == SampleHost().gate
            && t.grants == Grants(None, None, [], 2, [Started], [])
  {
    var r, s0 := SampleRequest(), SampleHost();
    var one: seq<Event> := [Enqueue(r)];
    assert Run(s0, []) == s0;
    assert [] + one == one && one + [Begin(false)] + [AfterExpiry] + [ConfirmationAnswered(true, false)] == Activation();
    RequestIsTaken();
    ConfirmationIsAsked();
    ConfirmationIsAnswered();
    hide Run, Activation, Next;
    RunAppend(s0, [], Enqueue(r));
    RunAppend(s0, one, Begin(false));
    RunAppend(s0, one + [Begin(false)], AfterExpiry);
    RunAppend(s0, one + [Begin(false)] + [AfterExpiry], ConfirmationAnswered(true, false));
  }

  lemma ConfirmationIsAnswered()
    ensures var t := Next(Asking(), ConfirmationAnswered(true, false));
            && t.pc == Activating(SampleGrant(), 0) && t.gate == SampleHost().gate
            && t.grants == Grants(None, None, [], 2, [Started], [])
  {}

  /** The enabled callback begins to throw while the backend activates: the grant is neither active nor stopped. */
  lemma GrantIsLost()
    ensures Initial(SampleHost())
    ensures !Conserved(Run(SampleHost(), Activation() + [ChangeSetting(Throws)] + [ActivateResolved(false)]).grants)
  {
    hide Run, Activation;
    var s0, throwing := SampleHost(), Activation() + [ChangeSetting(Throws)];
    ActivationRuns();
    RunAppend(s0, Activation(), ChangeSetting(Throws));
    RunAppend(s0, throwing, ActivateResolved(false));
    var end := Run(s0, throwing + [ActivateResolved(false)]).grants;
    assert end.active == None && end.history == [Started] + [Resolved(0)];
    assert Count(end.history, Resolved(0)) == 1 && Count(end.history, Stopped(0)) == 0;
  }

  /** A listener throws inside `revoke`: the host is revoked and its grant still active. */
  lemma GrantSurvivesRevocation()
    ensures Initial(SampleHost())
    ensures var end := Run(SampleHost(), Activation() + [ActivateResolved(false)] + [Revoke(true)]);
            end.gate.revoked && end.grants.active == Some(SampleGrant())
  {
    hide Run, Activation;
    var s0, committed := SampleHost(), Activation() + [ActivateResolved(false)];
    ActivationRuns();
    RunAppend(s0, Activation(), ActivateResolved(false));
    RunAppend(s0, committed, Revoke(true));
  }

  // -------------------------------------------------------------------------
  // No grant commits across an interruption
  // -------------------------------------------------------------------------

  ghost predicate QuietSinceStart(history: seq<Effect>) {
    exists j :: 0 <= j < |history| && history[j] == Started
                && forall k :: j < k < |history| ==> history[k] != Interrupted
  }

  /** Each commit follows its own activation's start with no interruption in between. */
  ghost predicate CommitsUninterrupted(history: seq<Effect>) {
    forall i :: 0 <= i < |history| && history[i].Committed? ==> QuietSinceStart(history[..i])
  }

  ghost predicate StillQuiet(s: Host) {
    ActivationPending(s.pc) && s.pc.generation == s.gate.generation && !s.gate.revoked ==>
      QuietSinceStart(s.grants.history)
  }

  lemma QuietAppend(history: seq<Effect>, more: Effect)
    requires more != Interrupted && QuietSinceStart(history)
    ensures QuietSinceStart(history + [more])
  {
    var j :| 0 <= j < |history| && history[j] == Started
             && forall k :: j < k < |history| ==> history[k] != Interrupted;
    assert (history + [more])[j] == Started;
  }

  lemma StartIsQuiet(history: seq<Effect>)
    ensures QuietSinceStart(history + [Started])
  {
    assert (history + [Started])[|history|] == Started;
  }

  lemma CommitsAppend(history: seq<Effect>, more: Effect)
    requires CommitsUninterrupted(history)
    requires more.Committed? ==> QuietSinceStart(history)
    ensures CommitsUninterrupted(history + [more])
  {
    var longer := history + [more];
    forall i | 0 <= i < |longer| && longer[i].Committed? ensures QuietSinceStart(longer[..i]) {
      assert longer[..i] == history[..i];
      assert history[..|history|] == history;
    }
  }

  lemma RetireCommits(g: Grants)
    requires CommitsUninterrupted(g.history)
    ensures CommitsUninterrupted(Retire(g).history)
  {
    if g.active.Some? {
      CommitsAppend(g.history, Stopped(g.active.value.grantId));
    }
  }

  lemma OutsideCommits(s: Host, t: bool)
    requires Shape(s) && CommitsUninterrupted(s.grants.history) && StillQuiet(s)
    ensures CommitsUninterrupted(StopActiveNow(s, t).grants.history) && StillQuiet(StopActiveNow(s, t))
    ensures CommitsUninterrupted(RevokeNow(s, t).grants.history) && StillQuiet(RevokeNow(s, t))
  {
    CommitsAppend(s.grants.history, Interrupted);
    RetireCommits(Record(s.grants, Interrupted));
  }

  lemma ResolvedCommits(s: Host, aborted: bool)
    requires Shape(s) && CommitsUninterrupted(s.grants.history) && StillQuiet(s)
    ensures CommitsUninterrupted(ActivateResolvedNow(s, aborted).grants.history)
  {
    if s.pc.Activating? {
      var grantId := s.pc.grant.grantId;
      var resolved := s.grants.history + [Resolved(grantId)];
      CommitsAppend(s.grants.history, Resolved(grantId));
      CommitsAppend(resolved, Stopped(grantId));
      if s.pc.generation == s.gate.generation && !s.gate.revoked {
        QuietAppend(s.grants.history, Resolved(grantId));
        CommitsAppend(resolved, Committed(grantId));
      }
    }
  }

  lemma RequestCommits(s: Host, aborted: bool)
    requires Shape(s) && CommitsUninterrupted(s.grants.history) && StillQuiet(s)
    ensures CommitsUninterrupted(BeginNow(s, aborted).grants.history) && StillQuiet(BeginNow(s, aborted))
    ensures CommitsUninterrupted(AfterExpiryNow(s).grants.history) && StillQuiet(AfterExpiryNow(s))
  {
    RetireCommits(s.grants);
    CommitsAppend(s.grants.history, Started);
    StartIsQuiet(s.grants.history);
  }

  lemma CommitsStep(s: Host, e: Event)
    requires Shape(s) && CommitsUninterrupted(s.grants.history) && StillQuiet(s)
    ensures CommitsUninterrupted(Next(s, e).grants.history) && StillQuiet(Next(s, e))
  {
    match e
    case StopActive(t) => OutsideCommits(s, t);
    case Revoke(t) => OutsideCommits(s, t);
    case Refresh(t, u) => OutsideCommits(s.(gate := s.gate.(lastEnabled := Enabled(s.gate))), u);
    case TimerFires => RetireCommits(s.grants);
    case Begin(aborted) => RequestCommits(s, aborted);
    case AfterExpiry => RequestCommits(s, true);
    case ActivateResolved(aborted) => ResolvedCommits(s, aborted);
    case _ =>
  }

  /** A grant becomes active only if nothing interrupted its activation, in every run. */
  lemma {:induction false} CommitsAreUninterrupted(s: Host, events: seq<Event>)
    requires Initial(s)
    ensures CommitsUninterrupted(Run(s, events).grants.history)
    ensures StillQuiet(Run(s, events))
  {
    if events != [] {
      CommitsAreUninterrupted(s, events[..|events| - 1]);
      ShapeRun(s, events[..|events| - 1]);
      CommitsStep(Run(s, events[..|events| - 1]), events[|events| - 1]);
    }
  }

  // -------------------------------------------------------------------------
  // The replay window
  // -------------------------------------------------------------------------

  ghost predicate NoRepeatWithin(list: seq<string>, window: nat) {
    forall i, j :: 0 <= i < j < |list| && j - i <= window ==> list[i] != list[j]
  }

  /** The order queue is the recent end of everything accepted, the set its elements. */
  ghost predicate Window(r: Replay) {
    && r.order == KeepLast(r.accepted, MAX_USED_CONFIRMATIONS)
    && (forall id :: id in r.used <==> id in r.order)
    && NoRepeatWithin(r.accepted, MAX_USED_CONFIRMATIONS)
  }

  lemma EvictionKeepsSet(order: seq<string>, used: set<string>)
    requires order != [] && (forall id :: id in used <==> id in order)
    requires forall i :: 0 < i < |order| ==> order[i] != order[0]
    ensures forall id :: id in used - {order[0]} <==> id in order[1..]
  {
    assert order == [order[0]] + order[1..];
    assert order[0] !in order[1..];
  }

  lemma RememberWindow(r: Replay, requestId: string)
    requires Window(r) && requestId !in r.used
    ensures Window(RememberConfirmation(r, requestId))
  {
    hide NoRepeatWithin;
    var order := r.order + [requestId];
    NoRepeatAppend(r.accepted, r.order, MAX_USED_CONFIRMATIONS, requestId);
    RecentAreDistinct(r.accepted, r.order, MAX_USED_CONFIRMATIONS);
    if |order| > MAX_USED_CONFIRMATIONS {
      assert r.order[0] == order[0] && order[0] in r.used;
      EvictionKeepsSet(order, r.used + {requestId});
    }
  }

  lemma NoRepeatAppend(list: seq<string>, recent: seq<string>, window: nat, more: string)
    requires NoRepeatWithin(list, window) && recent == KeepLast(list, window) && more !in recent
    ensures NoRepeatWithin(list + [more], window)
  {
    var start, longer := |list| - |recent|, list + [more];
    forall i, j | 0 <= i < j < |longer| && j - i <= window ensures longer[i] != longer[j] {
      if j == |list| {
        assert recent[i - start] == list[i];
      } else {
        assert longer[i] == list[i] && longer[j] == list[j];
      }
    }
  }

  lemma RecentAreDistinct(list: seq<string>, recent: seq<string>, window: nat)
    requires NoRepeatWithin(list, window) && recent == KeepLast(list, window)
    ensures forall i, j :: 0 <= i < j < |recent| ==> recent[i] != recent[j]
  {
    var start := |list| - |recent|;
    assert forall i :: 0 <= i < |recent| ==> recent[i] == list[start + i];
  }

  lemma WindowStep(s: Host, e: Event)
    requires Window(s.replay)
    ensures Window(Next(s, e).replay)
  {
    if e.AfterExpiry? && s.pc.Expiring? && s.pc.request.payload.requestId !in s.replay.used {
      RememberWindow(s.replay, s.pc.request.payload.requestId);
    }
  }

  lemma {:induction false} WindowRun(s: Host, events: seq<Event>)
    requires Initial(s)
    ensures Window(Run(s, events).replay)
  {
    if events != [] {
      WindowRun(s, events[..|events| - 1]);
      WindowStep(Run(s, events[..|events| - 1]), events[|events| - 1]);
    }
  }

  /** The used set is exactly the order queue, which has no repeats and at most 1024 entries. */
  lemma {:induction false} UsedIsOrder(s: Host, events: seq<Event>)
    requires Initial(s)
    ensures var r := Run(s, events).replay;
            && |r.order| <= MAX_USED_CONFIRMATIONS
            && (forall id :: id in r.used <==> id in r.order)
            && (forall a, b :: 0 <= a < b < |r.order| ==> r.order[a] != r.order[b])
  {
    WindowRun(s, events);
    var r := Run(s, events).replay;
    var start := |r.accepted| - |r.order|;
    assert forall a :: 0 <= a < |r.order| ==> r.order[a] == r.accepted[start + a];
  }

  /** Between two accepted uses of one id lie at least 1024 others, each different from it and from the rest. */
  lemma {:induction false} ReplaySeparation(s: Host, events: seq<Event>, i: nat, j: nat)
    requires Initial(s) && i < j < |Run(s, events).replay.accepted|
    requires Run(s, events).replay.accepted[i] == Run(s, events).replay.accepted[j]
    ensures j - i > MAX_USED_CONFIRMATIONS
    ensures var accepted := Run(s, events).replay.accepted;
            forall a, b :: j - MAX_USED_CONFIRMATIONS <= a < b <= j ==> accepted[a] != accepted[b]
  {
    WindowRun(s, events);
  }

  // -------------------------------------------------------------------------
  // Action sequencing
  // -------------------------------------------------------------------------

  /** The sequence numbers the backend saw under one grant, in order. */
  function ActsUnder(acts: seq<(nat, nat)>, grantId: nat): seq<nat> {
    if acts == [] then []
    else
      var (id, sequence) := acts[|acts| - 1];
      ActsUnder(acts[..|acts| - 1], grantId) + (if id == grantId then [sequence] else [])
  }

  function OneTo(n: nat): seq<nat> {
    seq(n, i requires 0 <= i < n => i + 1)
  }

  ghost predicate SequencedAt(s: Host, id: nat) {
    var sent := ActsUnder(s.grants.acts, id);
    && sent == OneTo(|sent|)
    && (ActiveIs(s.grants, id) ==> |sent| + 1 == s.grants.active.value.nextSequence)
    && (s.pc.Activating? && s.pc.grant.grantId == id ==> sent == [])
    && (id >= s.grants.nextId ==> sent == [])
  }

  lemma ActSequenced(s: Host, request: Request, id: nat)
    requires Shape(s) && SequencedAt(s, id)
    ensures SequencedAt(ActNow(s, request), id)
  {
    var s' := ActNow(s, request);
    if s'.grants.acts != s.grants.acts {
      assert s'.grants.acts[..|s'.grants.acts| - 1] == s.grants.acts;
      var sent := ActsUnder(s.grants.acts, id);
      if ActiveIs(s.grants, id) {
        assert sent + [|sent| + 1] == OneTo(|sent| + 1);
      }
    }
  }

  /** Nothing was acted, and an active or activating grant is an old one or a new one at its start. */
  predicate SequenceKept(s: Host, s': Host, id: nat) {
    && s'.grants.acts == s.grants.acts && s'.grants.nextId >= s.grants.nextId
    && (ActiveIs(s'.grants, id) ==>
          || (ActiveIs(s.grants, id) && s'.grants.active.value.nextSequence == s.grants.active.value.nextSequence)
          || (s.pc.Activating? && s.pc.grant.grantId == id && s'.grants.active.value.nextSequence == 1))
    && (s'.pc.Activating? && s'.pc.grant.grantId == id ==>
          (s.pc.Activating? && s.pc.grant.grantId == id) || id >= s.grants.nextId)
  }

  lemma KeptSequenced(s: Host, s': Host, id: nat)
    requires SequencedAt(s, id) && SequenceKept(s, s', id)
    ensures SequencedAt(s', id)
  {}

  lemma OutsideKeepsSequence(s: Host, e: Event, id: nat)
    requires Shape(s) && !e.AfterExpiry?
    ensures SequenceKept(s, Next(s, e), id)
  {
    hide ActivationValid, Authorized, Finalized, KeepLast, Enabled;
  }

  lemma ExpiryKeepsSequence(s: Host, id: nat)
    requires Shape(s) && s.pc.Expiring? && (s.pc.request.operation != Act || !Enabled(s.gate))
    ensures SequenceKept(s, AfterExpiryNow(s), id)
  {
    hide ActivationValid, Authorized, Finalized, KeepLast, RememberConfirmation;
  }

  lemma SequencedStep(s: Host, e: Event, id: nat)
    requires Shape(s) && SequencedAt(s, id)
    ensures SequencedAt(Next(s, e), id)
  {
    hide SequencedAt, SequenceKept, Shape, ActNow, ActivateNow, StopNow, Authorized;
    if !e.AfterExpiry? {
      OutsideKeepsSequence(s, e, id);
      KeptSequenced(s, Next(s, e), id);
    } else if s.pc.Expiring? {
      if s.pc.request.operation == Act && Enabled(s.gate) {
        ActSequenced(s, s.pc.request, id);
      } else {
        ExpiryKeepsSequence(s, id);
        KeptSequenced(s, AfterExpiryNow(s), id);
      }
    }
  }

  /** Under every grant the backend receives exactly 1, 2, ..., k. */
  lemma {:induction false} ActsAreSequential(s: Host, events: seq<Event>, id: nat)
    requires Initial(s)
    ensures ActsUnder(Run(s, events).grants.acts, id) == OneTo(|ActsUnder(Run(s, events).grants.acts, id)|)
    ensures SequencedAt(Run(s, events), id)
  {
    if events != [] {
      ActsAreSequential(s, events[..|events| - 1], id);
      ShapeRun(s, events[..|events| - 1]);
      SequencedStep(Run(s, events[..|events| - 1]), events[|events| - 1], id);
    }
  }
}
