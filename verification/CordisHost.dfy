// The Cordis host of one Pi runner: leases, a queue of session starts and one
// shutdown, interleaved at every await.
//
// A session fiber is known by its generation. A fiber whose disposal rejects
// counts as live still.
module CordisHost {

  datatype Mode = Standalone | Composed

  /** The task at the head of the session queue: before its check, or suspended at an await. */
  datatype Task = Unchecked | DisposingOld | AwaitingNew

  datatype Shutdown =
    | NotCalled
    | AwaitingReady
    | AwaitingQueue(tasks: nat)    // the session starts queued when the queue was read
    | DisposingSession
    | DisposingRoot
    | Resolved
    | Rejected

  datatype Sessions = Sessions(
    queued: nat,                   // session starts received
    done: nat,                     // tasks finished
    task: Task,
    generation: nat,
    fiber: set<nat>,               // the variable `sessionFiber`: at most one
    live: set<nat>,
    created: seq<nat>)             // generations of the fibers made so far, in order

  datatype Leases = Leases(mode: Mode, count: int, issued: nat, released: set<nat>)

  datatype Host = Host(sessions: Sessions, leases: Leases, ready: bool, shutdown: Shutdown)

  function Fresh(mode: Mode): Host {
    Host(Sessions(0, 0, Unchecked, 0, {}, {}, []), Leases(mode, 0, 0, {}), false, NotCalled)
  }

  datatype Event =
    | SessionStart
    | Check                        // the next queued task begins
    | OldDisposed(ok: bool, plugged: bool)   // the old fiber's disposal settles; `plugged`: the new fiber is made
    | NewSettled                   // the new fiber settles, either way
    | Ready                        // the runtime fiber settles, either way
    | ShutdownCalled
    | QueueRead
    | QueueDrained
    | SessionDisposed(ok: bool)
    | RootDisposed(ok: bool)
    | Acquire
    | Release(lease: nat)

  // -------------------------------------------------------------------------
  // Steps
  // -------------------------------------------------------------------------

  predicate Busy(s: Sessions) { s.done < s.queued }

  function FinishTask(s: Sessions): Sessions {
    s.(done := s.done + 1, task := Unchecked)
  }

  /** A start delivered after finalization belongs to a stale graph and is dropped. */
  function Checking(h: Host): Host {
    if !Busy(h.sessions) || h.sessions.task != Unchecked then h
    else if h.shutdown != NotCalled then h.(sessions := FinishTask(h.sessions))
    else h.(sessions := h.sessions.(task := DisposingOld))
  }

  function Replacing(s: Sessions, ok: bool, plugged: bool): Sessions {
    if !Busy(s) || s.task != DisposingOld then s
    else if !ok && s.fiber != {} then FinishTask(s)
    else
      var g := s.generation + 1;
      var gone := s.(live := s.live - s.fiber, generation := g);
      if plugged then gone.(fiber := {g}, live := gone.live + {g}, created := s.created + [g], task := AwaitingNew)
      else FinishTask(gone)
  }

  function SettlingNew(s: Sessions): Sessions {
    if Busy(s) && s.task == AwaitingNew then FinishTask(s) else s
  }

  function ShuttingDown(h: Host): Host {
    if h.shutdown == NotCalled then h.(shutdown := AwaitingReady) else h
  }

  function ReadingQueue(h: Host): Host {
    if h.shutdown == AwaitingReady && h.ready then h.(shutdown := AwaitingQueue(h.sessions.queued)) else h
  }

  function Draining(h: Host): Host {
    if h.shutdown.AwaitingQueue? && h.sessions.done >= h.shutdown.tasks then h.(shutdown := DisposingSession) else h
  }

  function DisposingFiber(h: Host, ok: bool): Host {
    if h.shutdown != DisposingSession then h
    else if !ok && h.sessions.fiber != {} then h.(shutdown := Rejected)
    else h.(shutdown := DisposingRoot,
            sessions := h.sessions.(live := h.sessions.live - h.sessions.fiber, fiber := {}))
  }

  function DisposingRootFiber(h: Host, ok: bool): Host {
    if h.shutdown == DisposingRoot then h.(shutdown := if ok then Resolved else Rejected) else h
  }

  /** `acquire` throws once shutdown has been called. */
  function Acquiring(h: Host): Host {
    if h.shutdown != NotCalled then h
    else h.(leases := h.leases.(count := h.leases.count + 1, issued := h.leases.issued + 1))
  }

  function Releasing(h: Host, lease: nat): Host {
    var l := h.leases;
    if lease >= l.issued || lease in l.released then h
    else
      var h' := h.(leases := l.(count := l.count - 1, released := l.released + {lease}));
      if l.mode == Standalone && h'.leases.count == 0 then ShuttingDown(h') else h'
  }

  function Next(h: Host, e: Event): Host {
    match e
    case SessionStart => h.(sessions := h.sessions.(queued := h.sessions.queued + 1))
    case Check => Checking(h)
    case OldDisposed(ok, plugged) => h.(sessions := Replacing(h.sessions, ok, plugged))
    case NewSettled => h.(sessions := SettlingNew(h.sessions))
    case Ready => h.(ready := true)
    case ShutdownCalled => ShuttingDown(h)
    case QueueRead => ReadingQueue(h)
    case QueueDrained => Draining(h)
    case SessionDisposed(ok) => DisposingFiber(h, ok)
    case RootDisposed(ok) => DisposingRootFiber(h, ok)
    case Acquire => Acquiring(h)
    case Release(lease) => Releasing(h, lease)
  }

  function Run(mode: Mode, events: seq<Event>): Host {
    if events == [] then Fresh(mode) else Next(Run(mode, events[..|events| - 1]), events[|events| - 1])
  }

  // -------------------------------------------------------------------------
  // The invariant
  // -------------------------------------------------------------------------

  ghost predicate Increasing(s: seq<nat>) {
    forall i, j :: 0 <= i < j < |s| ==> s[i] < s[j]
  }

  ghost predicate SessionsInv(s: Sessions) {
    && s.done <= s.queued
    && (s.done == s.queued ==> s.task == Unchecked)
    && s.live <= s.fiber && |s.fiber| <= 1
    && (forall g :: g in s.fiber ==> s.created != [] && g == s.created[|s.created| - 1])
    && Increasing(s.created) && (forall i :: 0 <= i < |s.created| ==> 0 < s.created[i] <= s.generation)
  }

  predicate PastQueue(d: Shutdown) {
    d == DisposingSession || d == DisposingRoot || d == Resolved || d == Rejected
  }

  /** From the time the queue was read, only the tasks read can be past their check. */
  ghost predicate ShutdownInv(h: Host) {
    && (h.shutdown.AwaitingQueue? && h.sessions.task != Unchecked ==> h.sessions.done < h.shutdown.tasks)
    && (PastQueue(h.shutdown) ==> h.sessions.task == Unchecked)
    && (h.shutdown == DisposingRoot || h.shutdown == Resolved ==> h.sessions.fiber == {} && h.sessions.live == {})
  }

  ghost predicate LeasesInv(l: Leases) {
    && (forall id :: id in l.released ==> id < l.issued)
    && l.count == |Unreleased(l)|
  }

  /** The leases handed out and not yet released. */
  ghost function Unreleased(l: Leases): set<nat> {
    set id: nat | id < l.issued && id !in l.released
  }

  ghost predicate Inv(h: Host) {
    SessionsInv(h.sessions) && ShutdownInv(h) && LeasesInv(h.leases)
  }

  lemma UnreleasedAcquired(l: Leases)
    requires LeasesInv(l)
    ensures Unreleased(l.(issued := l.issued + 1)) == Unreleased(l) + {l.issued}
    ensures |Unreleased(l.(issued := l.issued + 1))| == |Unreleased(l)| + 1
  {
    var more := Unreleased(l.(issued := l.issued + 1));
    assert more == Unreleased(l) + {l.issued};
  }

  lemma UnreleasedReleased(l: Leases, lease: nat)
    requires lease in Unreleased(l)
    ensures |Unreleased(l.(released := l.released + {lease}))| == |Unreleased(l)| - 1
  {
    assert Unreleased(l.(released := l.released + {lease})) == Unreleased(l) - {lease};
  }

  lemma ReplacingInv(s: Sessions, ok: bool, plugged: bool)
    requires SessionsInv(s)
    ensures SessionsInv(Replacing(s, ok, plugged))
  {
    var s' := Replacing(s, ok, plugged);
    if s'.created != s.created {
      assert s'.live <= s'.fiber == {s.generation + 1};
    }
  }

  lemma LeaseStepInv(h: Host, e: Event)
    requires LeasesInv(h.leases)
    ensures LeasesInv(Next(h, e).leases)
  {
    var l := h.leases;
    match e
    case Acquire =>
      UnreleasedAcquired(l);
      assert Unreleased(Next(h, e).leases) == Unreleased(l.(issued := l.issued + 1)) || Next(h, e).leases == l;
    case Release(lease) =>
      if lease < l.issued && lease !in l.released {
        UnreleasedReleased(l, lease);
        assert Unreleased(Next(h, e).leases) == Unreleased(l.(released := l.released + {lease}));
      }
    case _ =>
  }

  lemma SessionStepInv(h: Host, e: Event)
    requires SessionsInv(h.sessions)
    ensures SessionsInv(Next(h, e).sessions)
  {
    if e.OldDisposed? { ReplacingInv(h.sessions, e.ok, e.plugged); }
    if e.SessionDisposed? { assert |h.sessions.fiber| <= 1; }
  }

  lemma ShutdownStepInv(h: Host, e: Event)
    requires SessionsInv(h.sessions) && ShutdownInv(h)
    ensures ShutdownInv(Next(h, e))
  {}

  lemma StepInv(h: Host, e: Event)
    requires Inv(h)
    ensures Inv(Next(h, e))
  {
    hide Next, SessionsInv, ShutdownInv, LeasesInv;
    LeaseStepInv(h, e);
    SessionStepInv(h, e);
    ShutdownStepInv(h, e);
  }

  lemma {:induction false} RunInv(mode: Mode, events: seq<Event>)
    ensures Inv(Run(mode, events))
  {
    hide Inv, Next;
    if events == [] {
      FreshInv(mode);
    } else {
      RunInv(mode, events[..|events| - 1]);
      StepInv(Run(mode, events[..|events| - 1]), events[|events| - 1]);
    }
  }

  lemma FreshInv(mode: Mode)
    ensures Inv(Fresh(mode))
  {
    assert Unreleased(Fresh(mode).leases) == {};
  }

  // -------------------------------------------------------------------------
  // What holds of every run
  // -------------------------------------------------------------------------

  /** At most one session fiber is live, and it is the last one made. */
  lemma {:induction false} AtMostOneSession(mode: Mode, events: seq<Event>)
    ensures var s := Run(mode, events).sessions;
            |s.live| <= 1 && forall g :: g in s.live ==> s.created != [] && g == s.created[|s.created| - 1]
  {
    RunInv(mode, events);
    var s := Run(mode, events).sessions;
    if s.live != {} { SubsetSize(s.live, s.fiber); }
  }

  lemma SubsetSize<T>(a: set<T>, b: set<T>)
    requires a <= b
    ensures |a| <= |b|
  {
    assert b == a + (b - a);
  }

  /** Generations strictly increase over a run. */
  lemma {:induction false} GenerationsIncrease(mode: Mode, events: seq<Event>)
    ensures Increasing(Run(mode, events).sessions.created)
  {
    RunInv(mode, events);
  }

  /** Each fiber is made only when no other is live. */
  lemma {:induction false} NewSessionReplacesOld(mode: Mode, events: seq<Event>, e: Event)
    requires |Run(mode, events + [e]).sessions.created| > |Run(mode, events).sessions.created|
    ensures var s := Run(mode, events + [e]).sessions;
            && s.created[..|s.created| - 1] == Run(mode, events).sessions.created
            && s.live == {s.created[|s.created| - 1]}
            && (forall g :: g in Run(mode, events).sessions.created ==> g !in s.live)
  {
    RunInv(mode, events);
    assert (events + [e])[..|events + [e]| - 1] == events;
  }

  /** A resolved shutdown leaves no session fiber, and none is ever made again. */
  lemma {:induction false} ShutdownIsFinal(mode: Mode, events: seq<Event>, later: seq<Event>)
    requires Run(mode, events).shutdown == Resolved
    ensures var h := Run(mode, events + later);
            && h.shutdown == Resolved && h.sessions.live == {} && h.sessions.fiber == {}
            && h.sessions.created == Run(mode, events).sessions.created
            && h.leases.issued == Run(mode, events).leases.issued
  {
    hide Inv, Next;
    RunInv(mode, events);
    if later == [] {
      assert events + later == events;
      ResolvedIsEmpty(Run(mode, events));
    } else {
      var front := later[..|later| - 1];
      ShutdownIsFinal(mode, events, front);
      assert (events + later)[..|events + later| - 1] == events + front;
      RunInv(mode, events + front);
      ResolvedStays(Run(mode, events + front), later[|later| - 1]);
    }
  }

  lemma ResolvedIsEmpty(h: Host)
    requires Inv(h) && h.shutdown == Resolved
    ensures h.sessions.live == {} && h.sessions.fiber == {}
  {
    hide SessionsInv, LeasesInv;
  }

  lemma ResolvedStays(h: Host, e: Event)
    requires Inv(h) && h.shutdown == Resolved
    ensures var t := Next(h, e);
            && t.shutdown == Resolved && t.sessions.live == {} && t.sessions.fiber == {}
            && t.sessions.created == h.sessions.created && t.leases.issued == h.leases.issued
  {
    hide LeasesInv;
  }

  /** The count is the number of leases handed out and not released. */
  lemma {:induction false} LeasesBalance(mode: Mode, events: seq<Event>)
    ensures var l := Run(mode, events).leases; l.count == |Unreleased(l)|
  {
    RunInv(mode, events);
  }

  lemma NoLeaseLeft(l: Leases)
    requires LeasesInv(l)
    ensures l.count == 0 <==> Unreleased(l) == {}
  {
    if |Unreleased(l)| == 0 { assert Unreleased(l) == {}; }
  }

  /** Unless it is asked to, a host shuts down exactly when it is standalone and its last lease is released. */
  lemma {:induction false} ShutsDownAfterLastLease(mode: Mode, events: seq<Event>)
    requires ShutdownCalled !in events
    ensures var h := Run(mode, events);
            h.shutdown != NotCalled <==> mode == Standalone && h.leases.issued > 0 && Unreleased(h.leases) == {}
    ensures Run(mode, events).leases.mode == mode
  {
    if events != [] {
      var front, e := events[..|events| - 1], events[|events| - 1];
      assert e in events && ShutdownCalled !in front;
      ShutsDownAfterLastLease(mode, front);
      RunInv(mode, front);
      RunInv(mode, events);
      NoLeaseLeft(Run(mode, front).leases);
      NoLeaseLeft(Run(mode, events).leases);
      AutoStep(Run(mode, front), e);
    }
  }

  lemma AutoStep(h: Host, e: Event)
    requires Inv(h) && e != ShutdownCalled
    requires h.shutdown != NotCalled <==> h.leases.mode == Standalone && h.leases.issued > 0 && h.leases.count == 0
    ensures var h' := Next(h, e);
            h'.shutdown != NotCalled <==> h'.leases.mode == Standalone && h'.leases.issued > 0 && h'.leases.count == 0
    ensures Next(h, e).leases.mode == h.leases.mode
  {
    if e.Release? && e.lease in Unreleased(h.leases) { UnreleasedReleased(h.leases, e.lease); }
    if h.leases.count == 0 { NoLeaseLeft(h.leases); }
  }

  // -------------------------------------------------------------------------
  // The host object
  // -------------------------------------------------------------------------

  /** No fiber but the session's can be live, and none is newer than the generation. */
  lemma OnlyItsFiber(h: Host)
    requires Inv(h)
    ensures h.sessions.live <= h.sessions.fiber
    ensures forall g :: g in h.sessions.created ==> g <= h.sessions.generation
  {
    hide ShutdownInv, LeasesInv;
  }

  lemma ReplacedSession(h: Host, ok: bool, plugged: bool)
    requires Inv(h) && Busy(h.sessions) && h.sessions.task == DisposingOld
    ensures var s, t := h.sessions, Replacing(h.sessions, ok, plugged);
            && (t.created != s.created <==> plugged && (ok || s.fiber == {}))
            && (t.created != s.created ==>
                  t.created == s.created + [t.generation] && t.live == {t.generation} && t.generation > s.generation)
            && (forall g :: g in s.created ==> g <= s.generation <= t.generation)
            && (t.created == s.created ==> t.live <= s.live)
  {
    hide ShutdownInv, LeasesInv;
    var s := h.sessions;
    assert s.live - s.fiber == {};
  }

  /** A task past its check is one of those queued, and of those the shutdown waits for. */
  lemma UnderWay(h: Host)
    requires Inv(h)
    ensures h.sessions.task != Unchecked ==> h.sessions.done < h.sessions.queued
    ensures h.shutdown.AwaitingQueue? && h.sessions.task != Unchecked ==> h.sessions.done < h.shutdown.tasks
    ensures h.shutdown == DisposingRoot ==> h.sessions.live == {}
  {
    hide LeasesInv;
  }

  lemma CountIsUnreleased(h: Host)
    requires Inv(h)
    ensures h.leases.count == |Unreleased(h.leases)|
  {
    hide SessionsInv, ShutdownInv;
  }

  lemma NotReleasedYet(h: Host)
    requires Inv(h)
    ensures h.leases.issued !in h.leases.released
  {
    hide SessionsInv, ShutdownInv;
  }

  /** The closure state of `installDoomCordisHost`, one method per stretch between awaits. */
  class HostController {
    const mode: Mode
    var sessionFiber: set<nat>
    var sessionGeneration: nat
    var leaseCount: int
    var shutdown: Shutdown       // `shutdownPromise`, and where it is suspended
    var queued: nat              // the promise chain behind `sessionQueue`
    var done: nat
    var task: Task
    var ready: bool
    var live: set<nat>
    var created: seq<nat>
    var issued: nat
    var released: set<nat>

    function Now(): Host
      reads this
    {
      Host(Sessions(queued, done, task, sessionGeneration, sessionFiber, live, created),
           Leases(mode, leaseCount, issued, released), ready, shutdown)
    }

    ghost predicate Valid()
      reads this
    {
      Inv(Now())
    }

    constructor (mode: Mode)
      ensures Valid() && Now() == Fresh(mode)
    {
      this.mode := mode;
      sessionFiber, sessionGeneration, leaseCount, shutdown := {}, 0, 0, NotCalled;
      queued, done, task, ready, live, created := 0, 0, Unchecked, false, {}, [];
      issued, released := 0, {};
      new;
      FreshInv(mode);
    }

    method OnSessionStart()
      requires Valid()
      modifies `queued
      ensures Valid() && Now() == Next(old(Now()), SessionStart)
    {
      hide Inv;
      StepInv(Now(), SessionStart);
      queued := queued + 1;
    }

    method BeginTask()
      requires Valid() && done < queued && task == Unchecked
      modifies `done, `task
      ensures Valid() && Now() == Next(old(Now()), Check)
      ensures shutdown != NotCalled <==> done == old(done) + 1
      ensures shutdown == NotCalled <==> task == DisposingOld
    {
      hide Inv;
      StepInv(Now(), Check);
      if shutdown != NotCalled {
        done := done + 1;
        return;
      }
      task := DisposingOld;
    }

    method ReplaceSession(ok: bool, plugged: bool)
      requires Valid() && done < queued && task == DisposingOld
      modifies `sessionFiber, `sessionGeneration, `done, `task, `live, `created
      ensures Valid() && Now() == old(Now()).(sessions := Replacing(old(Now()).sessions, ok, plugged))
      ensures created != old(created) <==> plugged && (ok || old(sessionFiber) == {})
      ensures created != old(created) ==> created == old(created) + [sessionGeneration] && live == {sessionGeneration}
      ensures forall g :: g in old(created) ==> g <= old(sessionGeneration) <= sessionGeneration
      ensures created != old(created) ==> sessionGeneration > old(sessionGeneration)
      ensures created == old(created) ==> live <= old(live)
    {
      hide Inv;
      ghost var h := Now();
      StepInv(h, OldDisposed(ok, plugged));
      ReplacedSession(h, ok, plugged);
      if !ok && sessionFiber != {} {
        done, task := done + 1, Unchecked;
        return;
      }
      live := live - sessionFiber;
      sessionGeneration := sessionGeneration + 1;
      if !plugged {
        done, task := done + 1, Unchecked;
        return;
      }
      sessionFiber, live := {sessionGeneration}, live + {sessionGeneration};
      created, task := created + [sessionGeneration], AwaitingNew;
    }

    method SessionSettled()
      requires Valid() && done < queued && task == AwaitingNew
      modifies `done, `task
      ensures Valid() && Now() == Next(old(Now()), NewSettled)
    {
      hide Inv;
      StepInv(Now(), NewSettled);
      done, task := done + 1, Unchecked;
    }

    method RuntimeReady()
      requires Valid()
      modifies `ready
      ensures Valid() && Now() == Next(old(Now()), Ready)
    {
      hide Inv;
      StepInv(Now(), Ready);
      ready := true;
    }

    method ShutDown()
      requires Valid()
      modifies `shutdown
      ensures Valid() && Now() == ShuttingDown(old(Now()))
      ensures shutdown != NotCalled && (old(shutdown) != NotCalled ==> shutdown == old(shutdown))
    {
      hide Inv;
      StepInv(Now(), ShutdownCalled);
      if shutdown == NotCalled { shutdown := AwaitingReady; }
    }

    /** From here on the shutdown waits for every start already under way, and for no later one. */
    method ReadQueue()
      requires Valid() && shutdown == AwaitingReady && ready
      modifies `shutdown
      ensures Valid() && Now() == Next(old(Now()), QueueRead)
      ensures shutdown == AwaitingQueue(queued) && (task != Unchecked ==> done < shutdown.tasks)
    {
      UnderWay(Now());
      hide Inv;
      StepInv(Now(), QueueRead);
      shutdown := AwaitingQueue(queued);
    }

    method AfterQueue()
      requires Valid() && shutdown.AwaitingQueue? && done >= shutdown.tasks
      modifies `shutdown
      ensures Valid() && Now() == Next(old(Now()), QueueDrained)
      ensures shutdown == DisposingSession && task == Unchecked
    {
      UnderWay(Now());
      hide Inv;
      StepInv(Now(), QueueDrained);
      shutdown := DisposingSession;
    }

    method AfterSession(ok: bool)
      requires Valid() && shutdown == DisposingSession
      modifies `shutdown, `live, `sessionFiber
      ensures Valid() && Now() == Next(old(Now()), SessionDisposed(ok))
      ensures shutdown == DisposingRoot || shutdown == Rejected
      ensures shutdown == DisposingRoot ==> live == {} == sessionFiber
      ensures shutdown == Rejected ==> !ok && sessionFiber == old(sessionFiber) != {}
    {
      OnlyItsFiber(Now());
      hide Inv;
      StepInv(Now(), SessionDisposed(ok));
      if !ok && sessionFiber != {} {
        shutdown := Rejected;
        return;
      }
      live, sessionFiber := live - sessionFiber, {};
      shutdown := DisposingRoot;
    }

    method AfterRoot(ok: bool)
      requires Valid() && shutdown == DisposingRoot
      modifies `shutdown
      ensures Valid() && Now() == Next(old(Now()), RootDisposed(ok))
      ensures shutdown == if ok then Resolved else Rejected
      ensures live == {}
    {
      UnderWay(Now());
      hide Inv;
      StepInv(Now(), RootDisposed(ok));
      shutdown := if ok then Resolved else Rejected;
    }

    method AcquireLease() returns (lease: nat, acquired: bool)
      requires Valid()
      modifies `leaseCount, `issued
      ensures Valid() && Now() == Next(old(Now()), Acquire)
      ensures acquired <==> old(shutdown) == NotCalled
      ensures acquired ==> lease == old(issued) && lease in Unreleased(Now().leases)
      ensures leaseCount == |Unreleased(Now().leases)|
    {
      ghost var h := Now();
      StepInv(h, Acquire);
      CountIsUnreleased(Next(h, Acquire));
      CountIsUnreleased(h);
      hide Inv;
      if shutdown != NotCalled { return 0, false; }
      lease, acquired := issued, true;
      NotReleasedYet(h);
      leaseCount, issued := leaseCount + 1, issued + 1;
    }

    method ReleaseLease(lease: nat)
      requires Valid() && lease < issued
      modifies `leaseCount, `released, `shutdown
      ensures Valid() && Now() == Next(old(Now()), Release(lease))
      ensures lease in old(released) ==> Now() == old(Now())
      ensures Unreleased(Now().leases) == old(Unreleased(Now().leases)) - {lease}
      ensures shutdown != old(shutdown) ==> mode == Standalone && Unreleased(Now().leases) == {}
      ensures lease !in old(released) && mode == Standalone && Unreleased(Now().leases) == {} ==> shutdown != NotCalled
    {
      ghost var h := Now();
      StepInv(h, Release(lease));
      NoLeaseLeft(Next(h, Release(lease)).leases);
      hide Inv;
      if lease in released { return; }
      released, leaseCount := released + {lease}, leaseCount - 1;
      if mode == Standalone && leaseCount == 0 && shutdown == NotCalled { shutdown := AwaitingReady; }
    }

    /** One event of a run, delivered to the host. */
    method Deliver(e: Event)
      requires Valid()
      modifies this
      ensures Valid() && Now() == Next(old(Now()), e)
    {
      hide Inv, Unreleased;
      match e
      case SessionStart => OnSessionStart();
      case Check => if done < queued && task == Unchecked { BeginTask(); }
      case OldDisposed(ok, plugged) => if done < queued && task == DisposingOld { ReplaceSession(ok, plugged); }
      case NewSettled => if done < queued && task == AwaitingNew { SessionSettled(); }
      case Ready => RuntimeReady();
      case ShutdownCalled => ShutDown();
      case QueueRead => if shutdown == AwaitingReady && ready { ReadQueue(); }
      case QueueDrained => if shutdown.AwaitingQueue? && done >= shutdown.tasks { AfterQueue(); }
      case SessionDisposed(ok) => if shutdown == DisposingSession { AfterSession(ok); }
      case RootDisposed(ok) => if shutdown == DisposingRoot { AfterRoot(ok); }
      case Acquire => var _, _ := AcquireLease();
      case Release(lease) => if lease < issued { ReleaseLease(lease); }
    }
  }
}
