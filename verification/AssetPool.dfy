// The two concurrency limits of the bundle-trust worker: the semaphore around
// raw asset fetches, and the pool that runs an operation over a list of values.

// The semaphore. Fetches are numbered by arrival; a slot is held from admission
// until the fetch's `finally` block, including while a hand-off is in flight.
module AssetFetches {

  const CONCURRENCY := 4

  datatype Gate = Gate(
    active: int,                 // `activeAssetFetches`
    waiters: seq<nat>,           // `assetWaiters`, oldest first
    handed: set<nat>,            // woken, not yet resumed
    fetching: set<nat>,          // between admission and `finally`
    arrivals: nat,
    admitted: seq<nat>,          // in order of admission
    epoch: nat,
    epochs: seq<nat>)            // the epoch each fetch arrived in

  const FRESH := Gate(0, [], {}, {}, 0, [], 0, [])

  datatype Event =
    | Arrive
    | Resume(fetch: nat)         // a woken fetch goes on, or finds its epoch over
    | Finish(fetch: nat)         // the `finally` block, after success or failure
    | Reset

  function Arriving(g: Gate): Gate {
    var id := g.arrivals;
    var g' := g.(arrivals := id + 1, epochs := g.epochs + [g.epoch]);
    if g.active >= CONCURRENCY then g'.(waiters := g.waiters + [id])
    else g'.(active := g.active + 1, fetching := g.fetching + {id}, admitted := g.admitted + [id])
  }

  /** `finally`: the slot goes to the oldest waiter, or back. */
  function Release(g: Gate): Gate {
    if g.waiters == [] then g.(active := g.active - 1)
    else g.(waiters := g.waiters[1..], handed := g.handed + {g.waiters[0]}, admitted := g.admitted + [g.waiters[0]])
  }

  function Resuming(g: Gate, fetch: nat): Gate {
    if fetch !in g.handed || fetch >= |g.epochs| then g
    else
      var g' := g.(handed := g.handed - {fetch});
      if g.epochs[fetch] != g.epoch then Release(g') else g'.(fetching := g'.fetching + {fetch})
  }

  function Next(g: Gate, e: Event): Gate {
    match e
    case Arrive => Arriving(g)
    case Resume(fetch) => Resuming(g, fetch)
    case Finish(fetch) => if fetch in g.fetching then Release(g.(fetching := g.fetching - {fetch})) else g
    case Reset => g.(epoch := g.epoch + 1)
  }

  function Run(events: seq<Event>): Gate {
    if events == [] then FRESH else Next(Run(events[..|events| - 1]), events[|events| - 1])
  }

  ghost predicate Counts(s: seq<nat>, from: nat) {
    forall i :: 0 <= i < |s| ==> s[i] == from + i
  }

  /** Slots held (and `spare` more counted), waiters only behind full slots, first come first admitted. */
  ghost predicate Slots(g: Gate, spare: nat) {
    && g.handed !! g.fetching
    && g.active == |g.handed| + |g.fetching| + spare <= CONCURRENCY
    && (g.waiters != [] ==> g.active == CONCURRENCY)
    && |g.admitted| + |g.waiters| == g.arrivals == |g.epochs|
    && Counts(g.admitted, 0) && Counts(g.waiters, |g.admitted|)
    && (forall id :: id in g.handed ==> id < |g.admitted|)
    && (forall id :: id in g.fetching ==> id < |g.admitted|)
  }

  ghost predicate Inv(g: Gate) {
    Slots(g, 0)
  }

  lemma ReleaseInv(g: Gate)
    requires Slots(g, 1)
    ensures Inv(Release(g))
  {
    if g.waiters != [] {
      var id := g.waiters[0];
      assert id == |g.admitted| && id !in g.handed && id !in g.fetching;
      assert |g.handed + {id}| == |g.handed| + 1;
    }
  }

  lemma ResumingInv(g: Gate, fetch: nat)
    requires Inv(g)
    ensures Inv(Resuming(g, fetch))
  {
    if fetch in g.handed {
      var g' := g.(handed := g.handed - {fetch});
      assert |g'.handed| == |g.handed| - 1;
      if g.epochs[fetch] != g.epoch {
        ReleaseInv(g');
      } else {
        assert |g'.fetching + {fetch}| == |g'.fetching| + 1;
      }
    }
  }

  lemma ArrivingInv(g: Gate)
    requires Inv(g)
    ensures Inv(Arriving(g))
  {
    if g.active < CONCURRENCY {
      assert g.arrivals !in g.fetching && g.arrivals !in g.handed;
      assert |g.fetching + {g.arrivals}| == |g.fetching| + 1;
    }
  }

  lemma StepInv(g: Gate, e: Event)
    requires Inv(g)
    ensures Inv(Next(g, e))
  {
    match e
    case Arrive => ArrivingInv(g);
    case Resume(fetch) => ResumingInv(g, fetch);
    case Finish(fetch) =>
      if fetch in g.fetching {
        assert |g.fetching - {fetch}| == |g.fetching| - 1;
        ReleaseInv(g.(fetching := g.fetching - {fetch}));
      }
    case Reset =>
  }

  lemma {:induction false} RunInv(events: seq<Event>)
    ensures Inv(Run(events))
  {
    if events != [] {
      RunInv(events[..|events| - 1]);
      StepInv(Run(events[..|events| - 1]), events[|events| - 1]);
    }
  }

  /** Never more than four fetches hold a slot, and the counter is exactly the slots held. */
  lemma {:induction false} SlotsAreCounted(events: seq<Event>)
    ensures var g := Run(events);
            && g.active == |g.handed + g.fetching| <= CONCURRENCY
            && g.handed !! g.fetching
  {
    RunInv(events);
    var g := Run(events);
    DisjointSize(g.handed, g.fetching);
  }

  lemma DisjointSize<T>(a: set<T>, b: set<T>)
    requires a !! b
    ensures |a + b| == |a| + |b|
  {
    assert (a + b) - a == b;
  }

  /** No wakeup is lost: whoever waits, waits behind four holders. */
  lemma {:induction false} WaitersMeanFull(events: seq<Event>)
    ensures var g := Run(events);
            g.waiters != [] ==> |g.handed| + |g.fetching| == CONCURRENCY
  {
    RunInv(events);
  }

  /** Fetches are admitted in the order they arrived, none twice, and the rest wait in that order. */
  lemma {:induction false} FirstComeFirstAdmitted(events: seq<Event>)
    ensures var g := Run(events);
            && |g.admitted| + |g.waiters| == g.arrivals
            && forall i :: 0 <= i < g.arrivals ==> (g.admitted + g.waiters)[i] == i
  {
    RunInv(events);
  }

  /** When the last holder leaves, every fetch that arrived has been admitted. */
  lemma {:induction false} NobodyIsForgotten(events: seq<Event>)
    requires Run(events).handed == {} && Run(events).fetching == {}
    ensures var g := Run(events); g.active == 0 && g.waiters == [] && |g.admitted| == g.arrivals
  {
    RunInv(events);
  }

  lemma LeavingSlots(g: Gate, fetch: nat)
    requires Inv(g) && fetch in g.fetching
    ensures Slots(g.(fetching := g.fetching - {fetch}), 1)
  {
    assert |g.fetching - {fetch}| == |g.fetching| - 1;
  }

  lemma WokenSlots(g: Gate, fetch: nat)
    requires Inv(g) && fetch in g.handed
    ensures Slots(g.(handed := g.handed - {fetch}), 1)
  {
    assert |g.handed - {fetch}| == |g.handed| - 1;
  }

  /** The worker's module state around `fetchRawAsset`. */
  class AssetGate {
    var activeAssetFetches: int
    var assetWaiters: seq<nat>
    var handed: set<nat>
    var fetching: set<nat>
    var arrivals: nat
    var admitted: seq<nat>
    var trustEpoch: nat
    var epochs: seq<nat>

    function Now(): Gate
      reads this
    {
      Gate(activeAssetFetches, assetWaiters, handed, fetching, arrivals, admitted, trustEpoch, epochs)
    }

    ghost predicate Valid()
      reads this
    {
      Inv(Now())
    }

    constructor ()
      ensures Valid() && Now() == FRESH
    {
      activeAssetFetches, assetWaiters, handed, fetching := 0, [], {}, {};
      arrivals, admitted, trustEpoch, epochs := 0, [], 0, [];
    }

    method Enter() returns (fetch: nat, waits: bool)
      requires Valid()
      modifies this
      ensures Valid() && Now() == Next(old(Now()), Arrive)
      ensures fetch == old(arrivals) && (waits <==> fetch in assetWaiters[|old(assetWaiters)|..])
      ensures waits <==> |old(handed)| + |old(fetching)| == CONCURRENCY
    {
      ArrivingInv(Now());
      fetch, waits := arrivals, activeAssetFetches >= CONCURRENCY;
      arrivals, epochs := arrivals + 1, epochs + [trustEpoch];
      if waits {
        assetWaiters := assetWaiters + [fetch];
      } else {
        activeAssetFetches := activeAssetFetches + 1;
        fetching, admitted := fetching + {fetch}, admitted + [fetch];
      }
    }

    /** One slot is counted and no longer held: it goes to the longest waiting fetch, or is free again. */
    method LeaveSlot()
      requires Slots(Now(), 1)
      modifies `activeAssetFetches, `assetWaiters, `handed, `admitted
      ensures Valid() && Now() == Release(old(Now()))
      ensures handed == old(handed) <==> old(assetWaiters) == []
      ensures forall fetch :: fetch in handed - old(handed) ==> forall other :: other in old(assetWaiters) ==> fetch <= other
    {
      ghost var g := Now();
      ReleaseInv(g);
      if assetWaiters == [] {
        activeAssetFetches := activeAssetFetches - 1;
      } else {
        var next := assetWaiters[0];
        assert next == |admitted| && next !in handed;
        assetWaiters, handed, admitted := assetWaiters[1..], handed + {next}, admitted + [next];
        assert next in handed - g.handed;
      }
    }

    method Woken(fetch: nat) returns (goesOn: bool)
      requires Valid() && fetch in handed
      modifies this
      ensures Valid() && Now() == Next(old(Now()), Resume(fetch))
      ensures fetch < |epochs| && (goesOn <==> epochs[fetch] == trustEpoch)
      ensures goesOn <==> fetch in fetching
    {
      ResumingInv(Now(), fetch);
      WokenSlots(Now(), fetch);
      goesOn := epochs[fetch] == trustEpoch;
      handed := handed - {fetch};
      if goesOn {
        fetching := fetching + {fetch};
      } else {
        LeaveSlot();
      }
    }

    method Exit(fetch: nat)
      requires Valid() && fetch in fetching
      modifies this
      ensures Valid() && Now() == Next(old(Now()), Finish(fetch))
      ensures |handed| + |fetching| == if old(assetWaiters) == [] then old(|handed| + |fetching|) - 1 else CONCURRENCY
    {
      LeavingSlots(Now(), fetch);
      fetching := fetching - {fetch};
      LeaveSlot();
    }

    /** One event of a run, delivered to the gate. */
    method Deliver(e: Event)
      requires Valid()
      modifies this
      ensures Valid() && Now() == Next(old(Now()), e)
    {
      match e
      case Arrive => var _, _ := Enter();
      case Resume(fetch) => if fetch in handed { var _ := Woken(fetch); }
      case Finish(fetch) => if fetch in fetching { Exit(fetch); }
      case Reset => trustEpoch := trustEpoch + 1;
    }
  }
}

// The pool: up to four workers share an index into the values and a failure flag.
module BoundedPool {

  const CONCURRENCY := 4

  /** A worker: at its loop condition, awaiting the operation on a value, or over. */
  datatype Worker = Looking | Running(value: nat) | Returned | Threw

  datatype Pool = Pool(
    count: nat,                  // `values.length`
    index: nat, failed: bool, workers: seq<Worker>,
    started: seq<nat>,           // values whose operation was started, in order
    completed: set<nat>)         // values whose operation succeeded

  function WorkerCount(count: nat): nat {
    if count < CONCURRENCY then count else CONCURRENCY
  }

  function Fresh(count: nat): Pool {
    Pool(count, 0, false, seq(WorkerCount(count), _ => Looking), [], {})
  }

  datatype Event = Look(worker: nat) | Settle(worker: nat, ok: bool)

  /** The loop condition and, if it holds, the next value. */
  function Looks(p: Pool, w: nat): Pool
    requires w < |p.workers|
  {
    if !p.failed && p.index < p.count then
      p.(index := p.index + 1, workers := p.workers[w := Running(p.index)], started := p.started + [p.index])
    else p.(workers := p.workers[w := Returned])
  }

  function Settles(p: Pool, w: nat, ok: bool): Pool
    requires w < |p.workers| && p.workers[w].Running?
  {
    if ok then Looks(p.(completed := p.completed + {p.workers[w].value}), w)
    else p.(failed := true, workers := p.workers[w := Threw])
  }

  function Next(p: Pool, e: Event): Pool {
    if e.worker >= |p.workers| then p
    else match e
      case Look(w) => if p.workers[w] == Looking then Looks(p, w) else p
      case Settle(w, ok) => if p.workers[w].Running? then Settles(p, w, ok) else p
  }

  function Run(count: nat, events: seq<Event>): Pool {
    if events == [] then Fresh(count) else Next(Run(count, events[..|events| - 1]), events[|events| - 1])
  }

  ghost predicate Inv(p: Pool) {
    && |p.workers| == WorkerCount(p.count)
    && p.index <= p.count && |p.started| == p.index
    && (forall i :: 0 <= i < p.index ==> p.started[i] == i)
    && (forall v :: v in p.completed ==> v < p.index)
    && (forall w :: 0 <= w < |p.workers| && p.workers[w].Running? ==>
          p.workers[w].value < p.index && p.workers[w].value !in p.completed)
    && (forall w, x :: 0 <= w < x < |p.workers| && p.workers[w].Running? ==> p.workers[w] != p.workers[x])
    && (forall w :: 0 <= w < |p.workers| && p.workers[w] == Returned ==> p.failed || p.index == p.count)
    && (p.failed <==> exists w :: 0 <= w < |p.workers| && p.workers[w] == Threw)
    && (!p.failed ==> forall v :: 0 <= v < p.index ==> v in p.completed || InFlight(p, v))
  }

  ghost predicate InFlight(p: Pool, v: nat) {
    exists w :: 0 <= w < |p.workers| && p.workers[w] == Running(v)
  }

  lemma LooksInv(p: Pool, w: nat)
    requires Inv(p) && w < |p.workers| && p.workers[w] == Looking
    ensures Inv(Looks(p, w))
  {
    var r := Looks(p, w);
    if p.failed {
      var x :| 0 <= x < |p.workers| && p.workers[x] == Threw;
      assert r.workers[x] == Threw;
    } else {
      forall v | 0 <= v < r.index ensures v in r.completed || InFlight(r, v) {
        if v == p.index {
          assert r.workers[w] == Running(v);
        } else if v !in r.completed {
          assert InFlight(p, v);
          var x :| 0 <= x < |p.workers| && p.workers[x] == Running(v);
          assert r.workers[x] == Running(v);
        }
      }
    }
  }

  /** The worker's operation has succeeded and it is back at its loop condition. */
  function Succeeded(p: Pool, w: nat): Pool
    requires w < |p.workers| && p.workers[w].Running?
  {
    p.(completed := p.completed + {p.workers[w].value}, workers := p.workers[w := Looking])
  }

  lemma SucceededInv(p: Pool, w: nat)
    requires Inv(p) && w < |p.workers| && p.workers[w].Running?
    ensures Inv(Succeeded(p, w))
  {
    var q, v := Succeeded(p, w), p.workers[w].value;
    forall x | 0 <= x < |p.workers| && x != w ensures p.workers[x] != Running(v) && q.workers[x] == p.workers[x] {
      if x < w { assert p.workers[x] != p.workers[w]; }
    }
    if p.failed {
      var x :| 0 <= x < |p.workers| && p.workers[x] == Threw;
      assert q.workers[x] == Threw;
    } else {
      forall u | 0 <= u < q.index ensures u in q.completed || InFlight(q, u) {
        if u !in q.completed {
          assert InFlight(p, u);
          var x :| 0 <= x < |p.workers| && p.workers[x] == Running(u);
          assert q.workers[x] == Running(u);
        }
      }
    }
  }

  lemma StepInv(p: Pool, e: Event)
    requires Inv(p)
    ensures Inv(Next(p, e))
  {
    if e.worker < |p.workers| {
      var w := e.worker;
      if e.Look? && p.workers[w] == Looking {
        LooksInv(p, w);
      } else if e.Settle? && p.workers[w].Running? {
        if e.ok {
          SucceededInv(p, w);
          LooksInv(Succeeded(p, w), w);
          LooksFromSuccess(p, w);
        } else {
          assert Settles(p, w, false).workers[w] == Threw;
        }
      }
    }
  }

  lemma LooksFromSuccess(p: Pool, w: nat)
    requires w < |p.workers| && p.workers[w].Running?
    ensures Settles(p, w, true) == Looks(Succeeded(p, w), w)
  {
    assert p.workers[w := Looking][w := Returned] == p.workers[w := Returned];
    assert p.workers[w := Looking][w := Running(p.index)] == p.workers[w := Running(p.index)];
  }

  lemma {:induction false} RunInv(count: nat, events: seq<Event>)
    ensures Inv(Run(count, events)) && Run(count, events).count == count
  {
    if events != [] {
      RunInv(count, events[..|events| - 1]);
      StepInv(Run(count, events[..|events| - 1]), events[|events| - 1]);
    }
  }

  ghost predicate AllOver(p: Pool) {
    forall w :: 0 <= w < |p.workers| ==> p.workers[w] == Returned || p.workers[w] == Threw
  }

  /** Values are started in order, each at most once, and no two workers share one. */
  lemma {:induction false} StartedAtMostOnce(count: nat, events: seq<Event>)
    ensures var p := Run(count, events);
            && |p.started| == p.index <= count
            && (forall i :: 0 <= i < p.index ==> p.started[i] == i)
            && (forall w, x :: 0 <= w < x < |p.workers| && p.workers[w].Running? ==> p.workers[w] != p.workers[x])
  {
    RunInv(count, events);
  }

  /** When every worker is over, either one threw, or every value was started and has succeeded. */
  lemma {:induction false} AllOrFailure(count: nat, events: seq<Event>)
    requires AllOver(Run(count, events))
    ensures var p := Run(count, events);
            && (p.failed <==> exists w :: 0 <= w < |p.workers| && p.workers[w] == Threw)
            && (!p.failed ==> p.index == count && forall v :: 0 <= v < count ==> v in p.completed)
  {
    RunInv(count, events);
    var p := Run(count, events);
    if !p.failed && count > 0 {
      assert p.workers[0] == Returned;
      forall v | 0 <= v < count ensures v in p.completed {
        assert v in p.completed || InFlight(p, v);
      }
    }
  }

  /** After a failure is seen nothing more is started. */
  lemma {:induction false} NothingStartsAfterFailure(count: nat, events: seq<Event>, later: seq<Event>)
    requires Run(count, events).failed
    ensures Run(count, events + later).failed && Run(count, events + later).started == Run(count, events).started
  {
    if later == [] {
      assert events + later == events;
    } else {
      var front := later[..|later| - 1];
      NothingStartsAfterFailure(count, events, front);
      assert (events + later)[..|events + later| - 1] == events + front;
    }
  }

  /** The closure of one `runBounded` call. */
  class BoundedRun {
    const count: nat
    var index: nat
    var failed: bool
    var workers: seq<Worker>
    var started: seq<nat>
    var completed: set<nat>

    function Now(): Pool
      reads this
    {
      Pool(count, index, failed, workers, started, completed)
    }

    ghost predicate Valid()
      reads this
    {
      Inv(Now())
    }

    constructor (count: nat)
      ensures Valid() && Now() == Fresh(count)
    {
      this.count, index, failed := count, 0, false;
      workers, started, completed := seq(WorkerCount(count), _ => Looking), [], {};
    }

    /** `while (!failed && index < values.length)` and the start of its body. */
    method Advance(w: nat)
      requires Valid() && w < |workers| && workers[w] == Looking
      modifies `index, `workers, `started
      ensures Valid() && Now() == Looks(old(Now()), w)
      ensures |workers| == old(|workers|) && (workers[w].Running? || workers[w] == Returned)
      ensures workers[w] == Returned ==> started == old(started) && (failed || |started| == count)
      ensures workers[w].Running? ==> !failed && started == old(started) + [workers[w].value]
      ensures workers[w].Running? ==> workers[w].value !in old(started) && workers[w] !in old(workers)
    {
      LooksInv(Now(), w);
      if failed || index >= count {
        workers := workers[w := Returned];
        return;
      }
      workers, started := workers[w := Running(index)], started + [index];
      index := index + 1;
    }

    method OperationSettled(w: nat, ok: bool)
      requires Valid() && w < |workers| && workers[w].Running?
      modifies this
      ensures Valid() && Now() == Next(old(Now()), Settle(w, ok))
      ensures ok ==> completed == old(completed) + {old(workers[w]).value} && failed == old(failed)
      ensures !ok ==> failed && started == old(started) && completed == old(completed)
      ensures old(failed) ==> started == old(started)
    {
      ghost var p := Now();
      StepInv(p, Settle(w, ok));
      if !ok {
        failed, workers := true, workers[w := Threw];
        return;
      }
      SucceededInv(p, w);
      LooksFromSuccess(p, w);
      completed, workers := completed + {workers[w].value}, workers[w := Looking];
      Advance(w);
    }

    /** One event of a run, delivered to the pool. */
    method Deliver(e: Event)
      requires Valid()
      modifies this
      ensures Valid() && Now() == Next(old(Now()), e)
    {
      if e.worker >= |workers| { return; }
      match e
      case Look(w) => if workers[w] == Looking { Advance(w); }
      case Settle(w, ok) => if workers[w].Running? { OperationSettled(w, ok); }
    }
  }
}
