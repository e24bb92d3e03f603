// The grant host as the source has it: one object whose methods update its
// fields, each method being one stretch between two awaits. Every method keeps
// the object valid, says what becomes of the grant, and is tied to the step
// function that runs are reasoned about with.
module ComputerUseHosting {
  import opened Common
  import opened ComputerUse

  /** The fields' shape, the replay window, and every grant's account with the backend. */
  ghost predicate Sound(s: Host) {
    Shape(s) && Window(s.replay) && forall id: nat :: LedgerAt(s, id)
  }

  lemma SoundStep(s: Host, e: Event)
    requires Sound(s)
    ensures Sound(Next(s, e))
  {
    hide Shape, Window, LedgerAt, Next, Lost, Drops;
    ShapeStep(s, e);
    WindowStep(s, e);
    forall id: nat ensures LedgerAt(Next(s, e), id) { LedgerStep(s, e, id); }
  }

  lemma SoundStart(s: Host)
    requires Initial(s)
    ensures Sound(s)
  {
    hide LedgerAt, Lost;
    forall id: nat ensures LedgerAt(s, id) { InitialLedger(s, id); }
  }

  /** What the invariant says of the fields: the timer is the active grant's, which was activated and never stopped. */
  lemma SoundFields(s: Host)
    requires Sound(s)
    ensures s.grants.timer == if s.grants.active.Some? then Some(s.grants.active.value.grantId) else None
    ensures |s.grants.finalizations| <= MAX_FINALIZATIONS && |s.replay.order| <= MAX_USED_CONFIRMATIONS
    ensures s.grants.active.Some? ==>
      && Count(s.grants.history, Resolved(s.grants.active.value.grantId)) == 1
      && Count(s.grants.history, Stopped(s.grants.active.value.grantId)) == 0
    ensures ActivationPending(s.pc) ==> s.grants.active.None? && s.pc.generation <= s.gate.generation
  {
    hide Count, Window, ActivationPending;
    ShortWindow(s.replay);
    if s.grants.active.Some? { assert LedgerAt(s, s.grants.active.value.grantId); }
  }

  lemma ShortWindow(r: Replay)
    requires Window(r)
    ensures |r.order| <= MAX_USED_CONFIRMATIONS
  {}

  lemma SoundWindow(s: Host)
    requires Sound(s)
    ensures Window(s.replay)
  {}

  lemma SeenIsSound(s: Host, enabled: bool)
    requires Sound(s)
    ensures Sound(s.(gate := s.gate.(lastEnabled := enabled)))
  {
    hide Balanced, Window;
    var t := s.(gate := s.gate.(lastEnabled := enabled));
    forall id: nat ensures LedgerAt(t, id) { assert LedgerAt(s, id); }
  }

  /** The next grant's id has never been activated. */
  lemma NextIsNew(s: Host)
    requires Sound(s)
    ensures Count(s.grants.history, Resolved(s.grants.nextId)) == 0
  {
    hide Count, Window, Shape;
    assert LedgerAt(s, s.grants.nextId);
  }

  class ComputerUseHost {
    const options: Options
    var setting: Setting                       // what `enabled()` would do now
    var clock: int
    var nextId: nat                            // every id `newId` gives out is fresh

    var active: Option<Grant>
    var finalizations: seq<(string, nat)>      // the map's keys, oldest first
    var expiryTimer: Option<nat>
    var usedConfirmations: set<string>
    var confirmationOrder: seq<string>
    var revoked: bool
    var revocationGeneration: nat
    var lastEnabled: bool

    var queue: seq<Request>
    var pc: Pc

    ghost var history: seq<Effect>
    ghost var accepted: seq<string>
    ghost var acts: seq<(nat, nat)>

    ghost function State(): Host
      reads this
    {
      Host(
        options,
        Gate(setting, clock, revoked, revocationGeneration, lastEnabled),
        Grants(active, expiryTimer, finalizations, nextId, history, acts),
        Replay(usedConfirmations, confirmationOrder, accepted),
        queue,
        pc)
    }

    ghost predicate Valid()
      reads this
    {
      Sound(State())
    }

    /** What `backend.stop` is asked when the active grant, if any, is retired. */
    ghost function Retirement(): seq<Effect>
      reads this
    {
      if active.Some? then [Stopped(active.value.grantId)] else []
    }

    constructor (options: Options, setting: Setting, clock: int)
      ensures Valid() && Initial(State()) && this.options == options && this.setting == setting && this.clock == clock
      ensures lastEnabled == (setting == On)
    {
      this.options, this.setting, this.clock, nextId := options, setting, clock, 0;
      active, finalizations, expiryTimer := None, [], None;
      usedConfirmations, confirmationOrder := {}, [];
      revoked, revocationGeneration, lastEnabled := false, 0, setting == On;
      queue, pc := [], Idle;
      history, accepted, acts := [], [], [];
      new;
      SoundStart(State());
    }

    predicate IsEnabled()
      reads this
      ensures IsEnabled() == Enabled(State().gate)
    {
      !revoked && setting == On
    }

    predicate IsAuthorized(request: Request)
      reads this
      ensures IsAuthorized(request) == Authorized(State().grants, request)
    {
      active.Some? && active.value.sessionId == request.sessionId
      && request.payload.grantId == Some(active.value.grantId)
    }

    predicate IsFinalized(request: Request)
      reads this
      ensures IsFinalized(request) == Finalized(State().grants, request)
    {
      request.payload.grantId.Some? && (request.sessionId, request.payload.grantId.value) in finalizations
    }

    // ---- shared pieces ----------------------------------------------------

    method RememberFinalization(grant: Grant)
      requires |finalizations| <= MAX_FINALIZATIONS
      modifies `finalizations, `history
      ensures history == old(history) + [Stopped(grant.grantId)]
      ensures var key := (grant.sessionId, grant.grantId);
              finalizations == if key in old(finalizations) then old(finalizations)
                               else (if |old(finalizations)| == MAX_FINALIZATIONS then old(finalizations)[1..]
                                     else old(finalizations)) + [key]
      ensures State() == old(State()).(
        grants := ComputerUse.RememberFinalization(old(State().grants), grant))
    {
      history := history + [Stopped(grant.grantId)];
      var key := (grant.sessionId, grant.grantId);
      if key !in finalizations { finalizations := finalizations + [key]; }
      ghost var all := finalizations;
      while |finalizations| > MAX_FINALIZATIONS
        invariant KeepLast(finalizations, MAX_FINALIZATIONS) == KeepLast(all, MAX_FINALIZATIONS)
        invariant history == old(history) + [Stopped(grant.grantId)]
      {
        finalizations := finalizations[1..];
      }
    }

    method RetireActive()
      requires |finalizations| <= MAX_FINALIZATIONS
      modifies `active, `expiryTimer, `finalizations, `history
      ensures active == None && expiryTimer == None && history == old(history) + old(Retirement())
      ensures old(active).Some? ==> (old(active).value.sessionId, old(active).value.grantId) in finalizations
      ensures State() == old(State()).(grants := Retire(old(State().grants)))
    {
      var grant := active;
      expiryTimer := None;
      active := None;
      if grant.Some? { RememberFinalization(grant.value); }
    }

    method RememberConfirmation(requestId: string)
      requires Window(State().replay) && requestId !in usedConfirmations
      modifies `usedConfirmations, `confirmationOrder, `accepted
      ensures Window(State().replay) && requestId in usedConfirmations && accepted == old(accepted) + [requestId]
      ensures confirmationOrder == (if |old(confirmationOrder)| == MAX_USED_CONFIRMATIONS then old(confirmationOrder)[1..]
                                    else old(confirmationOrder)) + [requestId]
      ensures State() == old(State()).(
        replay := ComputerUse.RememberConfirmation(old(State().replay), requestId))
    {
      RememberWindow(State().replay, requestId);
      ShortWindow(State().replay);
      usedConfirmations := usedConfirmations + {requestId};
      confirmationOrder := confirmationOrder + [requestId];
      accepted := accepted + [requestId];
      if |confirmationOrder| <= MAX_USED_CONFIRMATIONS { return; }
      var oldest := confirmationOrder[0];
      confirmationOrder := confirmationOrder[1..];
      usedConfirmations := usedConfirmations - {oldest};
    }

    // ---- calls from outside -----------------------------------------------

    method StopActive(listenerThrows: bool) returns (stopped: bool)
      requires Valid()
      modifies this
      ensures Valid() && active == None && expiryTimer == None
      ensures revocationGeneration == old(revocationGeneration) + 1
      ensures stopped <==> old(active).Some? && !listenerThrows
      ensures history == old(history) + [Interrupted] + (if stopped then old(Retirement()) else [])
      ensures State() == StopActiveNow(old(State()), listenerThrows)
    {
      hide Sound, Count, KeepLast;
      SoundFields(State());
      SoundStep(State(), Event.StopActive(listenerThrows));
      history := history + [Interrupted];
      revocationGeneration := revocationGeneration + 1;
      expiryTimer := None;
      var grant := active;
      active := None;
      if grant.Some? && listenerThrows { return false; }
      if grant.Some? { RememberFinalization(grant.value); }
      return grant.Some?;
    }

    method Revoke(listenerThrows: bool)
      requires Valid()
      modifies this
      ensures Valid() && revoked && (old(revoked) ==> State() == old(State()))
      ensures !old(revoked) && !listenerThrows ==>
        && active == None && expiryTimer == None && revocationGeneration == old(revocationGeneration) + 1
        && history == old(history) + [Interrupted] + old(Retirement())
      ensures !old(revoked) && listenerThrows ==>
        active == old(active) && revocationGeneration == old(revocationGeneration) && history == old(history) + [Interrupted]
      ensures State() == RevokeNow(old(State()), listenerThrows)
    {
      hide Sound, Count, KeepLast;
      SoundFields(State());
      SoundStep(State(), Event.Revoke(listenerThrows));
      if revoked { return; }
      revoked := true;
      history := history + [Interrupted];
      if listenerThrows { return; }
      revocationGeneration := revocationGeneration + 1;
      RetireActive();
    }

    method RefreshAvailability(listenerThrows: bool, stopListenerThrows: bool)
      requires Valid()
      modifies this
      ensures Valid() && lastEnabled == IsEnabled()
      ensures old(lastEnabled) && !IsEnabled() && !listenerThrows ==>
        && active == None && expiryTimer == None && revocationGeneration == old(revocationGeneration) + 1
        && history == old(history) + [Interrupted] + (if stopListenerThrows then [] else old(Retirement()))
      ensures !old(lastEnabled) || IsEnabled() || listenerThrows ==>
        active == old(active) && revocationGeneration == old(revocationGeneration) && history == old(history)
      ensures State() == RefreshNow(old(State()), listenerThrows, stopListenerThrows)
    {
      hide Sound;
      SoundStep(State(), Refresh(listenerThrows, stopListenerThrows));
      SeenIsSound(State(), IsEnabled());
      var enabled := IsEnabled();
      if enabled == lastEnabled { return; }
      lastEnabled := enabled;
      if listenerThrows { return; }
      if !enabled { var _ := StopActive(stopListenerThrows); }
    }

    method ExpiryTimerFires()
      requires Valid()
      modifies this
      ensures Valid() && active == None && expiryTimer == None && history == old(history) + old(Retirement())
      ensures old(active).Some? ==> old(expiryTimer) == Some(old(active).value.grantId)
      ensures State() == TimerFiresNow(old(State()))
    {
      hide Sound;
      SoundFields(State());
      SoundStep(State(), TimerFires);
      if expiryTimer.None? || active.None? || active.value.grantId != expiryTimer.value { return; }
      RetireActive();
    }

    // ---- stretches of `#handle` -------------------------------------------

    method Enqueue(request: Request)
      requires Valid()
      modifies `queue
      ensures Valid() && queue == old(queue) + [request]
      ensures State() == Next(old(State()), Event.Enqueue(request))
    {
      hide Sound;
      SoundStep(State(), Event.Enqueue(request));
      queue := queue + [request];
    }

    method BeginRequest(aborted: bool)
      requires Valid()
      modifies this
      ensures Valid() && (old(pc) != Idle || old(queue) == [] ==> State() == old(State()))
      ensures old(pc) == Idle && old(queue) != [] ==> queue == old(queue)[1..] && (pc.Expiring? ==> pc.request == old(queue)[0])
      ensures old(pc) == Idle && pc.Expiring? ==> !revoked && !aborted && (active.Some? ==> active.value.expiresAt > clock)
      ensures || (active == old(active) && history == old(history))
              || (pc.Expiring? && old(active).Some? && old(active).value.expiresAt <= clock && active == None
                  && history == old(history) + old(Retirement()))
      ensures State() == BeginNow(old(State()), aborted)
    {
      hide Sound, Count, KeepLast, LedgerAt, Shape;
      SoundFields(State());
      SoundStep(State(), Begin(aborted));
      if pc != Idle || queue == [] { return; }
      var request := queue[0];
      queue := queue[1..];
      if request.operation == Stop && IsFinalized(request) { pc := Replying; return; }
      if revoked || aborted { return; }
      if active.Some? && active.value.expiresAt <= clock { RetireActive(); }
      pc := Expiring(request);
    }

    method ResumeAfterExpiry()
      requires Valid()
      modifies this
      ensures Valid() && (!old(pc).Expiring? ==> State() == old(State()))
      ensures old(pc).Expiring? ==> !pc.Expiring? && !pc.Activating?
      ensures old(pc).Expiring? && !old(IsEnabled()) ==>
        active == None && history == old(history) + old(Retirement()) && acts == old(acts) && !ActivationPending(pc)
      ensures active.Some? ==> old(active).Some? && active.value.grantId == old(active).value.grantId
      ensures State() == AfterExpiryNow(old(State()))
    {
      hide Sound;
      if !pc.Expiring? { return; }
      var request := pc.request;
      SoundFields(State());
      SoundStep(State(), AfterExpiry);
      if !IsEnabled() {
        pc := if active.None? then Idle else Replying;
        RetireActive();
        return;
      }
      match request.operation
      case Status => pc := Replying;
      case Targets => pc := Replying;
      case Activate => StartActivation(request);
      case Observe => pc := if IsAuthorized(request) && request.payload.fieldsValid then Replying else Idle;
      case Act => PerformAct(request);
      case Stop => PerformStop(request);
    }

    method StartActivation(request: Request)
      requires Valid() && pc == Expiring(request) && request.operation == Activate && IsEnabled()
      modifies this
      ensures Valid() && active == old(active)
      ensures var goes := && old(active).None? && ActivationValid(request.payload, clock)
                          && request.payload.requestId !in old(usedConfirmations);
              && accepted == old(accepted) + (if goes then [request.payload.requestId] else [])
              && history == old(history) + (if goes then [Started] else [])
              && (goes ==> request.payload.requestId in usedConfirmations)
              && (ActivationPending(pc) ==> goes && !pc.Activating? && pc.request == request && pc.generation == revocationGeneration)
              && (pc.Confirming? ==> request.payload.hasTarget)
      ensures State() == ActivateNow(old(State()), request)
    {
      hide Sound, Window, ActivationValid, LedgerAt, Shape;
      SoundStep(State(), AfterExpiry);
      SoundWindow(State());
      pc := Idle;
      if active.Some? { return; }
      if !ActivationValid(request.payload, clock) { return; }
      if request.payload.requestId in usedConfirmations { return; }
      RememberConfirmation(request.payload.requestId);
      history := history + [Started];
      if !request.payload.hasTarget {
        if options.canSelect { pc := Selecting(request, revocationGeneration); }
        return;
      }
      if options.canConfirm { pc := Confirming(request, revocationGeneration); }
    }

    method PerformAct(request: Request)
      requires Valid() && pc == Expiring(request) && request.operation == Act && IsEnabled()
      modifies this
      ensures Valid() && history == old(history)
      ensures if old(IsAuthorized(request)) && request.payload.sequence == Some(old(active).value.nextSequence as int)
                 && request.payload.actionValid
              then && acts == old(acts) + [(old(active).value.grantId, old(active).value.nextSequence)]
                   && active == Some(old(active).value.(nextSequence := old(active).value.nextSequence + 1)) && pc == Replying
              else acts == old(acts) && active == old(active) && pc == Idle
      ensures State() == ActNow(old(State()), request)
    {
      hide Sound;
      SoundStep(State(), AfterExpiry);
      pc := Idle;
      if !IsAuthorized(request) { return; }
      var grant := active.value;
      if request.payload.sequence != Some(grant.nextSequence as int) { return; }
      if !request.payload.actionValid { return; }
      active := Some(grant.(nextSequence := grant.nextSequence + 1));
      acts := acts + [(grant.grantId, grant.nextSequence)];
      pc := Replying;
    }

    method PerformStop(request: Request)
      requires Valid() && pc == Expiring(request) && request.operation == Stop && IsEnabled()
      modifies this
      ensures Valid()
      ensures if old(IsFinalized(request)) then active == old(active) && history == old(history) && pc == Replying
              else if old(IsAuthorized(request))
              then && active == None && history == old(history) + [Stopped(request.payload.grantId.value)]
                   && IsFinalized(request) && pc == Replying
              else active == old(active) && history == old(history) && pc == Idle
      ensures State() == StopNow(old(State()), request)
    {
      hide Sound;
      SoundFields(State());
      SoundStep(State(), AfterExpiry);
      if IsFinalized(request) { pc := Replying; return; }
      if !IsAuthorized(request) { pc := Idle; return; }
      RetireActive();
      pc := Replying;
    }

    method ResumeAfterSelection(aborted: bool, target: Option<bool>)
      requires Valid()
      modifies `pc
      ensures Valid() && (if old(pc).Selecting? then pc == Idle || pc.Confirming? else pc == old(pc))
      ensures old(pc).Selecting? && pc.Confirming? ==>
        && !aborted && IsEnabled() && target.Some? && pc.generation == old(pc).generation == revocationGeneration
        && pc.request.payload.hasTarget && ActivationValid(pc.request.payload, clock)
        && pc.request.sessionId == old(pc).request.sessionId
      ensures State() == TargetSelectedNow(old(State()), aborted, target)
    {
      hide Sound;
      SoundStep(State(), TargetSelected(aborted, target));
      if !pc.Selecting? { return; }
      var request, generation := pc.request, pc.generation;
      pc := Idle;
      if aborted || revoked || setting != On || generation != revocationGeneration { return; }
      if target.None? { return; }
      var chosen := request.(payload := request.payload.(
        hasTarget := true, fieldsValid := request.payload.fieldsValid && target.value));
      if !ActivationValid(chosen.payload, clock) { return; }
      if options.canConfirm { pc := Confirming(chosen, generation); }
    }

    method ResumeAfterConfirmation(confirmed: bool, aborted: bool)
      requires Valid()
      modifies this
      ensures Valid() && active == old(active) && history == old(history)
      ensures if old(pc).Confirming? then pc == Idle || pc.Activating? else pc == old(pc)
      ensures old(pc).Confirming? && pc.Activating? ==>
        && confirmed && !aborted && IsEnabled() && pc.generation == old(pc).generation == revocationGeneration
        && pc.grant.sessionId == old(pc).request.sessionId && pc.grant.nextSequence == 1
        && pc.grant.expiresAt == clock + old(pc).request.payload.durationSeconds * 1000
        && Count(history, Resolved(pc.grant.grantId)) == 0 && pc.grant.grantId < nextId
      ensures State() == ConfirmationAnsweredNow(old(State()), confirmed, aborted)
    {
      hide Sound, ActivationValid;
      SoundStep(State(), ConfirmationAnswered(confirmed, aborted));
      NextIsNew(State());
      if !pc.Confirming? { return; }
      var request, generation := pc.request, pc.generation;
      pc := Idle;
      if !confirmed { return; }
      if aborted || revoked || generation != revocationGeneration { return; }
      if setting != On { return; }
      if !ActivationValid(request.payload, clock) { return; }
      var grant := Grant(request.sessionId, nextId, clock + request.payload.durationSeconds * 1000, 1);
      nextId := nextId + 2;
      pc := Activating(grant, generation);
    }

    method ResumeAfterActivate(aborted: bool)
      requires Valid()
      modifies this
      ensures Valid() && (!old(pc).Activating? ==> State() == old(State()))
      ensures old(pc).Activating? ==>
        var grant := old(pc).grant;
        var resolved := old(history) + [Resolved(grant.grantId)];
        if !aborted && !revoked && setting == Throws
        then active == None && history == resolved && pc == Idle
        else if !aborted && IsEnabled() && old(pc).generation == revocationGeneration
        then && active == Some(grant) && expiryTimer == Some(grant.grantId)
             && history == resolved + [Committed(grant.grantId)] && pc == Idle
        else active == None && history == resolved + [Stopped(grant.grantId)] && pc == Replying
      ensures State() == ActivateResolvedNow(old(State()), aborted)
    {
      hide Sound, Count, LedgerAt, Shape;
      SoundFields(State());
      SoundStep(State(), ActivateResolved(aborted));
      if !pc.Activating? { return; }
      var grant, generation := pc.grant, pc.generation;
      history := history + [Resolved(grant.grantId)];
      pc := Idle;
      if !aborted && !revoked && setting == Throws { return; }
      if aborted || revoked || setting == Off || generation != revocationGeneration {
        history := history + [Stopped(grant.grantId)];
        pc := Replying;
        return;
      }
      active := Some(grant);
      expiryTimer := Some(grant.grantId);
      history := history + [Committed(grant.grantId)];
    }

    /** One event of a run, delivered to the object. */
    method Deliver(e: Event)
      requires Valid()
      modifies this
      ensures Valid() && State() == Next(old(State()), e)
    {
      hide Sound, Shape, LedgerAt, Window, ActivationValid, KeepLast, StopActiveNow, RevokeNow, RefreshNow, TimerFiresNow, BeginNow,
           AfterExpiryNow, TargetSelectedNow, ConfirmationAnsweredNow, ActivateResolvedNow, Count;
      SoundStep(State(), e);
      match e
      case Enqueue(request) => Enqueue(request);
      case ChangeSetting(to) => setting := to;
      case Advance(elapsed) => clock := clock + elapsed;
      case StopActive(t) => var _ := StopActive(t);
      case Revoke(t) => Revoke(t);
      case Refresh(t, u) => RefreshAvailability(t, u);
      case TimerFires => ExpiryTimerFires();
      case Begin(aborted) => BeginRequest(aborted);
      case AfterExpiry => ResumeAfterExpiry();
      case TargetSelected(aborted, target) => ResumeAfterSelection(aborted, target);
      case ConfirmationAnswered(confirmed, aborted) => ResumeAfterConfirmation(confirmed, aborted);
      case ActivateResolved(aborted) => ResumeAfterActivate(aborted);
      case Rejected => pc := Idle;
      case ReplySent => if pc == Replying { pc := Idle; }
    }
  }
}
