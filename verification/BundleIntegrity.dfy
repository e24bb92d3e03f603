// Safety of the bundle-trust worker over every interleaving: what the storage,
// the queue, the running operation and the lazy downloads keep, and from it the
// integrity of the active bundle.
module BundleIntegrity {
  import opened Common
  import opened BundleTrust

  // -------------------------------------------------------------------------
  // Storage
  // -------------------------------------------------------------------------

  predicate AllVerify(store: Store, m: Manifest) {
    forall p :: p in store ==> Verifies(m, p, store[p])
  }

  /** Names and handles agree, and a cache made for a manifest holds only its verified bytes. */
  predicate DiskInv(d: Disk, births: map<CacheName, Birth>) {
    && d.owners.Keys == d.stores.Keys
    && (forall id :: id in d.owners ==> id < d.nextId)
    && (forall n :: n in d.names ==> d.names[n] in d.owners && d.owners[d.names[n]] == n)
    && (forall id :: id in d.stores && d.owners[id] in births ==>
          AllVerify(d.stores[id], births[d.owners[id]].manifest))
  }

  /** No cache goes away behind its handle, and none loses a required asset. */
  predicate KeepsRequired(d: Disk, d': Disk, births: map<CacheName, Birth>)
    requires d.owners.Keys == d.stores.Keys
  {
    && (forall id :: id in d.stores ==> id in d'.stores && id in d'.owners && d'.owners[id] == d.owners[id])
    && (forall id, p :: id in d.stores && p in d.stores[id] && d.owners[id] in births
                        && p !in OptionalPaths(births[d.owners[id]].manifest) ==>
          id in d'.stores && p in d'.stores[id])
  }

  predicate SameOrGone(d: Disk, d': Disk, gone: set<CacheName>) {
    forall n :: n in d.names ==> (n in d'.names && d'.names[n] == d.names[n]) || n in gone
  }

  lemma OpenDisk(d: Disk, name: CacheName, births: map<CacheName, Birth>)
    requires DiskInv(d, births)
    ensures DiskInv(Open(d, name), births)
  {
    var d' := Open(d, name);
    forall id | id in d'.stores && d'.owners[id] in births
      ensures AllVerify(d'.stores[id], births[d'.owners[id]].manifest)
    {
      if id in d.stores { assert d'.stores[id] == d.stores[id] && d'.owners[id] == d.owners[id]; }
    }
  }

  lemma OpenKeeps(d: Disk, name: CacheName, births: map<CacheName, Birth>)
    requires DiskInv(d, births)
    ensures var d', id := Open(d, name), OpenedId(d, name);
            && DiskInv(d', births) && KeepsRequired(d, d', births) && SameOrGone(d, d', {})
            && id in d'.stores && d'.owners[id] == name && name in d'.names && d'.names[name] == id
  {
    hide DiskInv, KeepsRequired, OptionalPaths;
    OpenDisk(d, name, births);
    OpenedStores(d, name, births);
    SameStoresKeep(d, Open(d, name), births);
  }

  lemma OpenedStores(d: Disk, name: CacheName, births: map<CacheName, Birth>)
    requires DiskInv(d, births)
    ensures d.owners.Keys == d.stores.Keys
    ensures var d', id := Open(d, name), OpenedId(d, name);
            && id in d'.stores && d'.owners[id] == name
            && forall k :: k in d.stores ==>
                 k in d'.stores && k in d'.owners && d'.stores[k] == d.stores[k] && d'.owners[k] == d.owners[k]
  {}

  lemma SameStoresKeep(d: Disk, d': Disk, births: map<CacheName, Birth>)
    requires d.owners.Keys == d.stores.Keys
    requires forall k :: k in d.stores ==>
      k in d'.stores && k in d'.owners && d'.stores[k] == d.stores[k] && d'.owners[k] == d.owners[k]
    ensures KeepsRequired(d, d', births)
  {
    hide OptionalPaths;
  }

  lemma DeleteKeeps(d: Disk, name: CacheName, births: map<CacheName, Birth>)
    requires DiskInv(d, births)
    ensures var d' := Delete(d, name);
            DiskInv(d', births) && KeepsRequired(d, d', births) && SameOrGone(d, d', {name})
  {}

  lemma PutKeeps(d: Disk, id: nat, path: Path, bytes: Bytes, births: map<CacheName, Birth>)
    requires DiskInv(d, births) && id in d.stores
    requires d.owners[id] in births && Verifies(births[d.owners[id]].manifest, path, bytes)
    ensures var d' := Put(d, id, path, bytes);
            && DiskInv(d', births) && KeepsRequired(d, d', births) && SameOrGone(d, d', {})
            && d'.stores[id] == d.stores[id][path := bytes]
  {}

  lemma RemoveKeeps(d: Disk, id: nat, path: Path, births: map<CacheName, Birth>)
    requires DiskInv(d, births) && id in d.stores
    requires d.owners[id] in births && path in OptionalPaths(births[d.owners[id]].manifest)
    ensures var d' := Remove(d, id, path);
            DiskInv(d', births) && KeepsRequired(d, d', births) && SameOrGone(d, d', {})
  {}

  // -------------------------------------------------------------------------
  // Records, the queue, and resets
  // -------------------------------------------------------------------------

  predicate Sound(r: Record, births: map<CacheName, Birth>) {
    && r.cacheName in births
    && births[r.cacheName].manifest == r.manifest
    && r.digest == ManifestSha256(r.manifest)
    && r.revision == r.manifest.revision
    && r.optional == OptionalPaths(r.manifest)
  }

  predicate ResetQueued(queue: seq<Queued>) {
    exists k :: 0 <= k < |queue| && queue[k].op == Reset
  }

  /** A reset message arrived whose operation has not cleared the record yet. */
  predicate ResetPending(t: Trust) {
    ResetQueued(t.queue) || t.running.Clearing?
  }

  predicate QueueInv(queue: seq<Queued>, epoch: nat) {
    forall i :: 0 <= i < |queue| ==>
      && queue[i].epoch <= epoch
      && (queue[i].epoch == epoch || exists k :: i < k < |queue| && queue[k].op == Reset)
  }

  predicate RecordsInv(ledger: Ledger, record: Option<Record>, epoch: nat, pending: bool) {
    && (forall r :: r in ledger.seen ==> Sound(r, ledger.births))
    && (forall n :: n in ledger.births ==> ledger.births[n].epoch <= epoch)
    && (record.Some? ==> record.value in ledger.seen)
    && (record.Some? ==> ledger.births[record.value.cacheName].epoch == epoch || pending)
  }

  // -------------------------------------------------------------------------
  // The running operation
  // -------------------------------------------------------------------------

  predicate Timely(t: Trust, epoch: nat) {
    epoch <= t.epoch && (epoch == t.epoch || ResetQueued(t.queue))
  }

  predicate Unseen(ledger: Ledger, name: CacheName) {
    forall r :: r in ledger.seen ==> r.cacheName != name
  }

  /** What an activation knows from the moment its manifest was accepted until it commits. */
  predicate ActInv(t: Trust, act: Act) {
    && Timely(t, act.job.epoch)
    && act.previous == t.record
    && act.name.Bundle?
    && act.name in t.ledger.births && t.ledger.births[act.name] == Birth(act.manifest, act.job.epoch)
    && Unseen(t.ledger, act.name)
    && (act.previous.Some? ==>
          && act.previous.value.signer == act.job.signer
          && act.previous.value.revision <= act.manifest.revision
          && (act.previous.value.revision == act.manifest.revision ==>
                act.previous.value.digest == ManifestSha256(act.manifest)))
  }

  predicate HandleInv(d: Disk, id: nat, name: CacheName) {
    id in d.stores && id in d.owners && d.owners[id] == name
  }

  predicate NamedInv(d: Disk, id: nat, name: CacheName) {
    name in d.names && d.names[name] == id
  }

  predicate StagingInv(d: Disk, act: Act, pending: bool) {
    && NamedInv(d, act.staging, act.name) && HandleInv(d, act.staging, act.name)
    && (act.reusable.Some? ==>
          && act.previous.Some?
          && HandleInv(d, act.reusable.value, act.previous.value.cacheName)
          && (NamedInv(d, act.reusable.value, act.previous.value.cacheName) || pending))
  }

  predicate Holds(d: Disk, id: nat, paths: set<Path>) {
    id in d.stores && forall p :: p in paths ==> p in d.stores[id]
  }

  function PolicyPart(m: Manifest): set<Path> {
    if POLICY_PATH in m.assets then {POLICY_PATH} else {}
  }

  lemma RequiredSplits(m: Manifest)
    ensures RequiredPaths(m) == ToCopy(m) + PolicyPart(m)
  {}

  predicate CheckingInv(d: Disk, act: Act, todo: set<Path>, complete: bool) {
    && MayReuse(act)
    && Holds(d, act.reusable.value, PolicyPart(act.manifest))
    && (complete ==> Holds(d, act.reusable.value, ToCopy(act.manifest) - todo))
  }

  predicate CommittingInv(ledger: Ledger, d: Disk, act: Act, next: Record, full: bool, started: nat) {
    && started == act.job.epoch
    && Sound(next, ledger.births)
    && next.signer == act.job.signer
    && next.manifest == act.manifest
    && (if full then
          next.cacheName == act.name && Holds(d, act.staging, RequiredPaths(act.manifest))
        else
          && MayReuse(act)
          && next.cacheName == act.previous.value.cacheName
          && Holds(d, act.reusable.value, RequiredPaths(act.manifest)))
  }

  /** The states from staging to commit, in which a failure deletes the staging cache. */
  predicate Staged(r: Running) {
    r.ProbingReusable? || r.OpeningReusable? || r.StagingPolicy? || r.ProbingPolicy? || r.Checking? || r.Copying?
    || r.CopyingOptional? || r.Committing?
  }

  predicate ProgressInv(t: Trust, d: Disk)
    requires Staged(t.running)
  {
    var act := t.running.act;
    var m := act.manifest;
    match t.running
    case ProbingReusable(_) => act.reusable.None?
    case OpeningReusable(_) => act.reusable.None?
    case StagingPolicy(_) => true
    case ProbingPolicy(_) => MayReuse(act) && Holds(d, act.staging, PolicyPart(m))
    case Checking(_, todo, complete) =>
      CheckingInv(d, act, todo, complete) && Holds(d, act.staging, PolicyPart(m))
    case Copying(_, todo) => Holds(d, act.staging, RequiredPaths(m) - todo)
    case CopyingOptional(_) => Holds(d, act.staging, RequiredPaths(m))
    case Committing(_, next, full, started) => CommittingInv(t.ledger, d, act, next, full, started)
    case _ => true
  }

  predicate RunningInv(t: Trust, d: Disk) {
    if Staged(t.running) then
      ActInv(t, t.running.act) && StagingInv(d, t.running.act, ResetPending(t)) && ProgressInv(t, d)
    else match t.running
      case RefreshReading(_, epoch, _) => Timely(t, epoch)
      case Reading(job) => Timely(t, job.epoch)
      case Fetching(job, previous) =>
        Timely(t, job.epoch) && previous == t.record && (previous.Some? ==> previous.value.signer == job.signer)
      case OpeningStaging(act) => ActInv(t, act) && act.reusable.None?
      case Listing(act) => t.record.Some? && t.record.value.cacheName == act.name
      case Sweeping(act, doomed) =>
        t.record.Some? && t.record.value.cacheName == act.name && act.name !in doomed
      case Discarding(act) => Unseen(t.ledger, act.name)
      case ClearingList(_) => t.record.None?
      case ClearingSweep(_, _) => t.record.None?
      case _ => true
  }

  // -------------------------------------------------------------------------
  // Lazy downloads
  // -------------------------------------------------------------------------

  predicate LazyInv(ledger: Ledger, epoch: nat, d: Disk, key: LazyKey, l: Lazy) {
    && l.record in ledger.seen
    && key.path in OptionalPaths(l.record.manifest)
    && l.epoch <= epoch
    && l.record.cacheName in ledger.births && ledger.births[l.record.cacheName].epoch <= l.epoch
    && (match l.pc
        case Caching(id) => HandleInv(d, id, l.record.cacheName)
        case SecondRead(id) => HandleInv(d, id, l.record.cacheName)
        case SecondChecked(id, _) => HandleInv(d, id, l.record.cacheName)
        case DeletingAsset(id) => HandleInv(d, id, l.record.cacheName)
        case DeletingCache => l.epoch < epoch
        case _ => true)
  }

  predicate LaziesInv(ledger: Ledger, epoch: nat, d: Disk, lazies: map<LazyKey, Lazy>) {
    forall key :: key in lazies ==> LazyInv(ledger, epoch, d, key, lazies[key])
  }

  // -------------------------------------------------------------------------
  // Integrity
  // -------------------------------------------------------------------------

  /** The record's cache is there and has every required asset. */
  predicate Complete(d: Disk, r: Record) {
    r.cacheName in d.names && Holds(d, d.names[r.cacheName], RequiredPaths(r.manifest))
  }

  predicate Intact(record: Option<Record>, assured: bool, pending: bool, d: Disk) {
    record.Some? && assured && !pending ==> Complete(d, record.value)
  }

  predicate TrustInv(t: Trust) {
    QueueInv(t.queue, t.epoch) && RecordsInv(t.ledger, t.record, t.epoch, ResetPending(t))
  }

  predicate Inv(s: Worker) {
    && DiskInv(s.disk, s.trust.ledger.births)
    && TrustInv(s.trust)
    && RunningInv(s.trust, s.disk)
    && LaziesInv(s.trust.ledger, s.trust.epoch, s.disk, s.lazies)
    && Intact(s.trust.record, s.trust.ledger.assured, ResetPending(s.trust), s.disk)
  }

  // -------------------------------------------------------------------------
  // What a change of the storage may do to the rest
  // -------------------------------------------------------------------------

  /** Caches of records from an earlier epoch: the only active names a lazy download deletes. */
  function Outdated(t: Trust): set<CacheName> {
    set r | r in t.ledger.seen && r.cacheName in t.ledger.births
            && t.ledger.births[r.cacheName].epoch < t.epoch :: r.cacheName
  }

  predicate Disturbs(t: Trust, d: Disk, d': Disk)
    requires DiskInv(d, t.ledger.births)
  {
    && DiskInv(d', t.ledger.births)
    && KeepsRequired(d, d', t.ledger.births)
    && SameOrGone(d, d', Outdated(t))
  }

  lemma HoldsKept(t: Trust, d: Disk, d': Disk, id: nat, name: CacheName, paths: set<Path>)
    requires DiskInv(d, t.ledger.births) && Disturbs(t, d, d') && HandleInv(d, id, name)
    requires name in t.ledger.births && paths <= RequiredPaths(t.ledger.births[name].manifest)
    requires Holds(d, id, paths)
    ensures Holds(d', id, paths)
  {}

  lemma StagingKept(t: Trust, d: Disk, d': Disk, act: Act)
    requires DiskInv(d, t.ledger.births) && Disturbs(t, d, d') && TrustInv(t)
    requires ActInv(t, act) && StagingInv(d, act, ResetPending(t))
    ensures StagingInv(d', act, ResetPending(t))
  {
    assert act.name !in Outdated(t);
  }

  lemma RunningKept(t: Trust, d: Disk, d': Disk)
    requires DiskInv(d, t.ledger.births) && Disturbs(t, d, d') && TrustInv(t)
    requires RunningInv(t, d)
    ensures RunningInv(t, d')
  {
    if Staged(t.running) {
      var act := t.running.act;
      StagingKept(t, d, d', act);
      RequiredSplits(act.manifest);
    }
  }

  lemma IntactKept(t: Trust, d: Disk, d': Disk)
    requires DiskInv(d, t.ledger.births) && Disturbs(t, d, d') && TrustInv(t)
    requires Intact(t.record, t.ledger.assured, ResetPending(t), d)
    ensures Intact(t.record, t.ledger.assured, ResetPending(t), d')
  {
    if t.record.Some? && t.ledger.assured && !ResetPending(t) {
      var r := t.record.value;
      assert r.cacheName !in Outdated(t);
      HoldsKept(t, d, d', d.names[r.cacheName], r.cacheName, RequiredPaths(r.manifest));
    }
  }

  lemma LaziesKept(t: Trust, d: Disk, d': Disk, lazies: map<LazyKey, Lazy>)
    requires DiskInv(d, t.ledger.births) && KeepsRequired(d, d', t.ledger.births)
    requires LaziesInv(t.ledger, t.epoch, d, lazies)
    ensures LaziesInv(t.ledger, t.epoch, d', lazies)
  {
    forall key | key in lazies ensures LazyInv(t.ledger, t.epoch, d', key, lazies[key]) {
      assert LazyInv(t.ledger, t.epoch, d, key, lazies[key]);
    }
  }

  lemma DisturbedInv(s: Worker, d': Disk)
    requires Inv(s) && Disturbs(s.trust, s.disk, d')
    ensures Inv(s.(disk := d'))
  {
    RunningKept(s.trust, s.disk, d');
    IntactKept(s.trust, s.disk, d');
    LaziesKept(s.trust, s.disk, d', s.lazies);
  }

  // The running operation moves on, possibly touching the storage.
  lemma MovedInv(s: Worker, d': Disk, r': Running)
    requires Inv(s) && Disturbs(s.trust, s.disk, d')
    requires !s.trust.running.Clearing? && !r'.Clearing?
    requires RunningInv(s.trust.(running := r'), d')
    ensures Inv(At(s.(disk := d'), r'))
  {
    DisturbedInv(s, d');
  }

  // The running operation deletes a cache that is not the active one.
  lemma SweptInv(s: Worker, name: CacheName, r': Running)
    requires Inv(s) && !s.trust.running.Clearing? && !r'.Clearing? && !Staged(r')
    requires s.trust.record.Some? ==> s.trust.record.value.cacheName != name
    requires RunningInv(s.trust.(running := r'), Delete(s.disk, name))
    ensures Inv(At(s.(disk := Delete(s.disk, name)), r'))
  {
    DeleteKeeps(s.disk, name, s.trust.ledger.births);
    LaziesKept(s.trust, s.disk, Delete(s.disk, name), s.lazies);
  }

  // -------------------------------------------------------------------------
  // The queue
  // -------------------------------------------------------------------------

  lemma PostInv(s: Worker, op: Op)
    requires Inv(s) && op != Reset
    ensures Inv(PostNow(s, op))
  {
    var t, t' := s.trust, Enqueued(s.trust, op);
    assert forall k :: 0 <= k < |t.queue| ==> t'.queue[k] == t.queue[k];
    assert ResetQueued(t'.queue) == ResetQueued(t.queue) by {
      if k :| 0 <= k < |t.queue| && t.queue[k].op == Reset { assert t'.queue[k].op == Reset; }
    }
    forall i | 0 <= i < |t'.queue| ensures t'.queue[i].epoch == t'.epoch
      || exists k :: i < k < |t'.queue| && t'.queue[k].op == Reset
    {
      if i < |t.queue| && t.queue[i].epoch != t.epoch {
        var k :| i < k < |t.queue| && t.queue[k].op == Reset;
        assert t'.queue[k].op == Reset;
      }
    }
  }

  lemma PostResetInv(s: Worker)
    requires Inv(s)
    ensures Inv(PostResetNow(s))
  {
    var t, t' := s.trust, PostResetNow(s).trust;
    var last := |t.queue|;
    assert t'.queue[last].op == Reset;
    assert forall k :: 0 <= k < last ==> t'.queue[k] == t.queue[k];
    forall key | key in s.lazies ensures LazyInv(t'.ledger, t'.epoch, s.disk, key, s.lazies[key]) {
      assert LazyInv(t.ledger, t.epoch, s.disk, key, s.lazies[key]);
    }
  }

  lemma TailQueue(queue: seq<Queued>, epoch: nat)
    requires queue != [] && QueueInv(queue, epoch)
    ensures QueueInv(queue[1..], epoch)
    ensures queue[0].epoch <= epoch && (queue[0].epoch == epoch || ResetQueued(queue[1..]))
    ensures ResetQueued(queue) <==> queue[0].op == Reset || ResetQueued(queue[1..])
  {
    var tail := queue[1..];
    assert forall k :: 0 <= k < |tail| ==> tail[k] == queue[k + 1];
    forall i | 0 <= i < |tail| && tail[i].epoch != epoch
      ensures exists k :: i < k < |tail| && tail[k].op == Reset
    {
      var k :| i + 1 < k < |queue| && queue[k].op == Reset;
      assert tail[k - 1].op == Reset;
    }
    if k :| 0 < k < |queue| && queue[k].op == Reset {
      assert tail[k - 1].op == Reset;
    }
  }

  lemma PoppedInv(s: Worker, r': Running)
    requires Inv(s) && s.trust.running.Idle? && s.trust.queue != []
    requires r'.Clearing? <==> s.trust.queue[0].op == Reset
    requires RunningInv(s.trust.(queue := s.trust.queue[1..], running := r'), s.disk)
    ensures Inv(s.(trust := s.trust.(queue := s.trust.queue[1..], running := r')))
  {
    TailQueue(s.trust.queue, s.trust.epoch);
  }

  lemma StartNextInv(s: Worker)
    requires Inv(s)
    ensures Inv(StartNextNow(s))
  {
    hide DiskInv, LaziesInv, Intact, RecordsInv;
    if s.trust.running.Idle? && s.trust.queue != [] {
      TailQueue(s.trust.queue, s.trust.epoch);
      PoppedInv(s, StartNextNow(s).trust.running);
    }
  }

  // -------------------------------------------------------------------------
  // Steps of an activation
  // -------------------------------------------------------------------------

  lemma NoChange(s: Worker)
    requires Inv(s)
    ensures Disturbs(s.trust, s.disk, s.disk)
  {}

  lemma RefreshReadInv(s: Worker)
    requires Inv(s)
    ensures Inv(RefreshReadNow(s))
  {
    hide DiskInv, LaziesInv;
  }

  lemma PreviousReadInv(s: Worker)
    requires Inv(s)
    ensures Inv(PreviousReadNow(s))
  {
    hide DiskInv, LaziesInv;
  }

  lemma BirthKeeps(s: Worker, name: CacheName, birth: Birth)
    requires Inv(s) && FreshName(s, name) && birth.epoch <= s.trust.epoch
    ensures var ledger := s.trust.ledger.(births := s.trust.ledger.births[name := birth]);
            && DiskInv(s.disk, ledger.births)
            && RecordsInv(ledger, s.trust.record, s.trust.epoch, ResetPending(s.trust))
            && LaziesInv(ledger, s.trust.epoch, s.disk, s.lazies)
            && Unseen(ledger, name)
  {
    var ledger := s.trust.ledger.(births := s.trust.ledger.births[name := birth]);
    assert forall id :: id in s.disk.owners ==> s.disk.owners[id] in s.disk.owners.Values;
    forall key | key in s.lazies ensures LazyInv(ledger, s.trust.epoch, s.disk, key, s.lazies[key]) {
      assert LazyInv(s.trust.ledger, s.trust.epoch, s.disk, key, s.lazies[key]);
    }
  }

  lemma ManifestArrivesInv(s: Worker, manifest: Option<Manifest>, uuid: nat)
    requires Inv(s)
    ensures Inv(ManifestArrivesNow(s, manifest, uuid))
  {
    hide DiskInv, LaziesInv, Intact;
    if s.trust.running.Fetching? && manifest.Some? {
      var name := Bundle(manifest.value.revision, uuid);
      if FreshName(s, name) {
        BirthKeeps(s, name, Birth(manifest.value, s.trust.running.job.epoch));
      }
    }
  }

  lemma StagingOpensInv(s: Worker)
    requires Inv(s)
    ensures Inv(StagingOpensNow(s))
  {
    hide DiskInv, LaziesInv, Intact, RecordsInv;
    if s.trust.running.OpeningStaging? {
      var s' := StagingOpensNow(s);
      OpenKeeps(s.disk, s.trust.running.act.name, s.trust.ledger.births);
      MovedInv(s, s'.disk, s'.trust.running);
    }
  }

  lemma ReusableProbedInv(s: Worker)
    requires Inv(s)
    ensures Inv(ReusableProbedNow(s))
  {
    hide DiskInv, LaziesInv, Intact, RecordsInv, Disturbs;
    if s.trust.running.ProbingReusable? && s.trust.running.act.previous.Some? {
      NoChange(s);
      MovedInv(s, s.disk, ReusableProbedNow(s).trust.running);
    }
  }

  lemma ReusableOpensInv(s: Worker)
    requires Inv(s)
    ensures Inv(ReusableOpensNow(s))
  {
    hide DiskInv, LaziesInv, Intact;
    if s.trust.running.OpeningReusable? && s.trust.running.act.previous.Some? {
      var s' := ReusableOpensNow(s);
      OpenKeeps(s.disk, s.trust.running.act.previous.value.cacheName, s.trust.ledger.births);
      StagingKept(s.trust, s.disk, s'.disk, s.trust.running.act);
      MovedInv(s, s'.disk, s'.trust.running);
    }
  }

  lemma StagingPut(s: Worker, path: Path)
    requires Inv(s) && Staged(s.trust.running) && path in s.trust.running.act.manifest.assets
    ensures var act := s.trust.running.act;
            var d' := Put(s.disk, act.staging, path, act.manifest.assets[path].of);
            && Disturbs(s.trust, s.disk, d') && RunningInv(s.trust, d')
            && act.staging in d'.stores && act.staging in s.disk.stores
            && d'.stores[act.staging].Keys == s.disk.stores[act.staging].Keys + {path}
  {
    var act := s.trust.running.act;
    PutKeeps(s.disk, act.staging, path, act.manifest.assets[path].of, s.trust.ledger.births);
    RunningKept(s.trust, s.disk, Put(s.disk, act.staging, path, act.manifest.assets[path].of));
  }

  lemma PolicyStagedInv(s: Worker)
    requires Inv(s)
    ensures Inv(PolicyStagedNow(s))
  {
    hide DiskInv, LaziesInv, Intact, RecordsInv, Disturbs;
    if s.trust.running.StagingPolicy? {
      var s' := PolicyStagedNow(s);
      var m := s.trust.running.act.manifest;
      NoChange(s);
      RequiredSplits(m);
      if POLICY_PATH in m.assets { StagingPut(s, POLICY_PATH); }
      MovedInv(s, s'.disk, s'.trust.running);
    }
  }

  lemma PolicyProbedInv(s: Worker)
    requires Inv(s)
    ensures Inv(PolicyProbedNow(s))
  {
    hide DiskInv, LaziesInv, Intact, RecordsInv, Disturbs;
    if s.trust.running.ProbingPolicy? && s.trust.running.act.reusable.Some? {
      NoChange(s);
      RequiredSplits(s.trust.running.act.manifest);
      MovedInv(s, s.disk, PolicyProbedNow(s).trust.running);
    }
  }

  lemma AssetCheckedInv(s: Worker, path: Path)
    requires Inv(s)
    ensures Inv(AssetCheckedNow(s, path))
  {
    hide DiskInv, LaziesInv, Intact, RecordsInv, Disturbs, RequiredPaths;
    if s.trust.running.Checking? && path in s.trust.running.todo && s.trust.running.act.reusable.Some? {
      NoChange(s);
      MovedInv(s, s.disk, AssetCheckedNow(s, path).trust.running);
    }
  }

  // A complete check has found every required asset in the previous record's cache.
  lemma ReuseIsComplete(t: Trust, d: Disk)
    requires t.running.Checking? && t.running.complete && t.running.todo == {} && t.running.act.previous.Some?
    requires RunningInv(t, d) && TrustInv(t) && t.running.act.job.epoch == t.epoch
    ensures var act := t.running.act;
            var next := act.previous.value.(manifest := act.manifest, optional := OptionalPaths(act.manifest));
            MayReuse(act) && CommittingInv(t.ledger, d, act, next, false, t.epoch)
  {
    hide StagingInv, QueueInv, Timely, OptionalPaths, RequiredPaths, ResetQueued, ToCopy;
    var act := t.running.act;
    RequiredSplits(act.manifest);
    assert act.previous.value in t.ledger.seen;
    ReusedRecordIsSound(t, act);
  }

  lemma ReusedRecordIsSound(t: Trust, act: Act)
    requires ActInv(t, act) && TrustInv(t) && MayReuse(act)
    ensures Sound(act.previous.value.(manifest := act.manifest, optional := OptionalPaths(act.manifest)), t.ledger.births)
  {
    hide QueueInv, OptionalPaths, ResetQueued;
    assert Sound(act.previous.value, t.ledger.births);
  }

  lemma ChecksFinishRunning(t: Trust, d: Disk, r': Running)
    requires RunningInv(t, d) && t.running.Checking?
    requires
      var act := t.running.act;
      || r' == Copying(act, ToCopy(act.manifest))
      || r' == Discarding(act)
      || (r'.Committing? && r'.act == act && CommittingInv(t.ledger, d, act, r'.next, r'.full, r'.started))
    ensures RunningInv(t.(running := r'), d)
  {
    hide StagingInv, ToCopy, RequiredPaths, PolicyPart, CommittingInv, ResetQueued;
    RequiredSplits(t.running.act.manifest);
  }

  lemma ChecksFinishInv(s: Worker)
    requires Inv(s)
    ensures Inv(ChecksFinishNow(s))
  {
    hide DiskInv, LaziesInv, Intact, RecordsInv, Disturbs, CheckingInv, CommittingInv, StagingInv,
         ActInv, RunningInv, QueueInv, MayReuse, ToCopy, OptionalPaths;
    if s.trust.running.Checking? && s.trust.running.todo == {} && s.trust.running.act.previous.Some? {
      NoChange(s);
      if s.trust.running.complete && s.trust.running.act.job.epoch == s.trust.epoch { ReuseIsComplete(s.trust, s.disk); }
      var r' := ChecksFinishNow(s).trust.running;
      ChecksFinishRunning(s.trust, s.disk, r');
      MovedInv(s, s.disk, r');
    }
  }

  lemma AssetCopiedInv(s: Worker, path: Path)
    requires Inv(s)
    ensures Inv(AssetCopiedNow(s, path))
  {
    hide DiskInv, LaziesInv, Intact, RecordsInv, Disturbs;
    var r := s.trust.running;
    if r.Copying? && path in r.todo && path in r.act.manifest.assets {
      StagingPut(s, path);
      var s' := AssetCopiedNow(s, path);
      MovedInv(s, s'.disk, s'.trust.running);
    }
  }

  lemma OptionalCopiedInv(s: Worker, path: Path)
    requires Inv(s)
    ensures Inv(OptionalCopiedNow(s, path))
  {
    if s.trust.running.CopyingOptional? && path in s.trust.running.act.manifest.assets {
      StagingPut(s, path);
      DisturbedInv(s, OptionalCopiedNow(s, path).disk);
    }
  }

  lemma CopiesFinishInv(s: Worker)
    requires Inv(s)
    ensures Inv(CopiesFinishNow(s))
  {
    hide DiskInv, LaziesInv, Intact, RecordsInv, Disturbs;
    if s.trust.running.Copying? {
      NoChange(s);
      MovedInv(s, s.disk, CopiesFinishNow(s).trust.running);
    }
  }

  lemma OptionalFinishInv(s: Worker)
    requires Inv(s)
    ensures Inv(OptionalFinishNow(s))
  {
    hide DiskInv, LaziesInv, Intact, RecordsInv, Disturbs;
    if s.trust.running.CopyingOptional? {
      NoChange(s);
      MovedInv(s, s.disk, OptionalFinishNow(s).trust.running);
    }
  }

  lemma StageFailsInv(s: Worker)
    requires Inv(s)
    ensures Inv(StageFailsNow(s))
  {
    hide DiskInv, LaziesInv, Intact, RecordsInv, Disturbs;
    if !s.trust.running.Clearing? {
      NoChange(s);
      MovedInv(s, s.disk, StageFailsNow(s).trust.running);
    }
  }

  lemma OperationEndsInv(s: Worker)
    requires Inv(s)
    ensures Inv(OperationEndsNow(s))
  {
    hide DiskInv, LaziesInv, RecordsInv, Disturbs, Intact;
    if MayEnd(s.trust.running) {
      NoChange(s);
      MovedInv(s, s.disk, Idle);
    }
  }

  lemma CommitLandsInv(s: Worker)
    requires Inv(s)
    ensures Inv(CommitLandsNow(s))
  {
    hide DiskInv;
    if s.trust.running.Committing? {
      var t, t' := s.trust, CommitLandsNow(s).trust;
      forall key | key in s.lazies ensures LazyInv(t'.ledger, t'.epoch, s.disk, key, s.lazies[key]) {
        assert LazyInv(t.ledger, t.epoch, s.disk, key, s.lazies[key]);
      }
    }
  }

  lemma KeysListedInv(s: Worker)
    requires Inv(s)
    ensures Inv(KeysListedNow(s)) && Inv(ClearingKeysListedNow(s))
  {
    hide DiskInv, LaziesInv;
  }

  lemma CacheSweptInv(s: Worker, name: CacheName)
    requires Inv(s)
    ensures Inv(CacheSweptNow(s, name))
  {
    hide DiskInv, LaziesInv, Intact, RecordsInv;
    var r := s.trust.running;
    if r.Sweeping? && name in r.doomed { SweptInv(s, name, Sweeping(r.act, r.doomed - {name})); }
  }

  lemma StagingDeletedInv(s: Worker)
    requires Inv(s)
    ensures Inv(StagingDeletedNow(s))
  {
    hide DiskInv, LaziesInv, Intact;
    if s.trust.running.Discarding? { SweptInv(s, s.trust.running.act.name, Idle); }
  }

  lemma RecordClearsInv(s: Worker)
    requires Inv(s)
    ensures Inv(RecordClearsNow(s))
  {
    hide DiskInv;
  }

  lemma ClearingSweptInv(s: Worker, name: CacheName)
    requires Inv(s)
    ensures Inv(ClearingSweptNow(s, name))
  {
    hide DiskInv, LaziesInv, Intact, RecordsInv;
    var r := s.trust.running;
    if r.ClearingSweep? && name in r.doomed { SweptInv(s, name, ClearingSweep(r.ticket, r.doomed - {name})); }
  }

  // -------------------------------------------------------------------------
  // Steps of a lazy download
  // -------------------------------------------------------------------------

  lemma LazyMovedInv(s: Worker, d': Disk, lazies: map<LazyKey, Lazy>, key: LazyKey)
    requires Inv(s) && Disturbs(s.trust, s.disk, d')
    requires forall k :: k in lazies && k != key ==> k in s.lazies && lazies[k] == s.lazies[k]
    requires key in lazies ==> LazyInv(s.trust.ledger, s.trust.epoch, d', key, lazies[key])
    ensures Inv(Worker(s.trust, d', lazies))
  {
    DisturbedInv(s, d');
  }

  lemma LazyDownloadedInv(s: Worker, key: LazyKey, ok: bool)
    requires Inv(s)
    ensures Inv(LazyDownloadedNow(s, key, ok))
  {
    hide DiskInv, RecordsInv, Intact, RunningInv, Disturbs;
    NoChange(s);
    LazyMovedInv(s, s.disk, LazyDownloadedNow(s, key, ok).lazies, key);
  }

  lemma LazyReadsInv(s: Worker, key: LazyKey)
    requires Inv(s)
    ensures Inv(LazyReadsNow(s, key))
  {
    hide DiskInv, RecordsInv, Intact, RunningInv, Disturbs;
    NoChange(s);
    LazyMovedInv(s, s.disk, LazyReadsNow(s, key).lazies, key);
  }

  lemma LazyContinuesInv(s: Worker, key: LazyKey)
    requires Inv(s)
    ensures Inv(LazyContinuesNow(s, key))
  {
    hide DiskInv, RecordsInv, Intact, RunningInv, Disturbs, OptionalPaths, QueueInv, ResetQueued;
    NoChange(s);
    LazyMovedInv(s, s.disk, LazyContinuesNow(s, key).lazies, key);
  }

  lemma LazyStartsInv(s: Worker, record: Record, path: Path)
    requires Inv(s)
    ensures Inv(LazyStartsNow(s, record, path))
  {
    NoChange(s);
    LazyMovedInv(s, s.disk, LazyStartsNow(s, record, path).lazies, LazyKey(record.cacheName, record.digest, path));
  }

  lemma LazyOpensInv(s: Worker, key: LazyKey)
    requires Inv(s)
    ensures Inv(LazyOpensNow(s, key))
  {
    hide RecordsInv, Intact, RunningInv;
    if key in s.lazies && s.lazies[key].pc.OpeningCache? {
      var l, s' := s.lazies[key], LazyOpensNow(s, key);
      assert LazyInv(s.trust.ledger, s.trust.epoch, s.disk, key, l);
      OpenKeeps(s.disk, l.record.cacheName, s.trust.ledger.births);
      LazyMovedInv(s, s'.disk, s'.lazies, key);
    }
  }

  lemma LazyPutsInv(s: Worker, key: LazyKey)
    requires Inv(s)
    ensures Inv(LazyPutsNow(s, key))
  {
    hide Intact, RunningInv;
    if key in s.lazies && s.lazies[key].pc.Caching? && key.path in s.lazies[key].record.manifest.assets {
      var l, s' := s.lazies[key], LazyPutsNow(s, key);
      assert LazyInv(s.trust.ledger, s.trust.epoch, s.disk, key, l);
      PutKeeps(s.disk, l.pc.id, key.path, l.record.manifest.assets[key.path].of, s.trust.ledger.births);
      LazyMovedInv(s, s'.disk, s'.lazies, key);
    }
  }

  lemma {:induction false} LazyDeletesInv(s: Worker, key: LazyKey)
    requires Inv(s)
    ensures Inv(LazyDeletesNow(s, key))
  {
    NoChange(s);
    if key in s.lazies {
      var l, s' := s.lazies[key], LazyDeletesNow(s, key);
      assert LazyInv(s.trust.ledger, s.trust.epoch, s.disk, key, l);
      if l.pc.DeletingCache? {
        DeleteKeeps(s.disk, l.record.cacheName, s.trust.ledger.births);
        assert l.record.cacheName in Outdated(s.trust);
        LazyMovedInv(s, s'.disk, s'.lazies, key);
      } else if l.pc.DeletingAsset? {
        RemoveKeeps(s.disk, l.pc.id, key.path, s.trust.ledger.births);
        LazyMovedInv(s, s'.disk, s'.lazies, key);
      }
    }
  }

  lemma ResponseOpensInv(s: Worker, record: Record)
    requires Inv(s) && record in s.trust.ledger.seen
    ensures Inv(ResponseOpensNow(s, record))
  {
    OpenKeeps(s.disk, record.cacheName, s.trust.ledger.births);
    DisturbedInv(s, Open(s.disk, record.cacheName));
  }

  // -------------------------------------------------------------------------
  // Every run
  // -------------------------------------------------------------------------

  predicate Activating(e: Event) {
    e.RefreshRead? || e.PreviousRead? || e.ManifestArrives? || e.StagingOpens? || e.ReusableProbed?
    || e.ReusableOpens? || e.PolicyStaged? || e.PolicyProbed? || e.AssetChecked? || e.ChecksFinish?
    || e.AssetCopied? || e.CopiesFinish? || e.OptionalCopied? || e.OptionalFinish? || e.StageFails?
  }

  predicate Downloading(e: Event) {
    e.LazyStarts? || e.LazyDownloaded? || e.LazyReads? || e.LazyContinues? || e.LazyOpens? || e.LazyPuts?
    || e.LazyDeletes? || e.ResponseOpens?
  }

  lemma ActivationStepInv(s: Worker, e: Event)
    requires Inv(s) && Activating(e)
    ensures Inv(Next(s, e))
  {
    hide Inv, PostNow, PostResetNow, StartNextNow, RefreshReadNow, PreviousReadNow, ManifestArrivesNow, StagingOpensNow,
         ReusableProbedNow, ReusableOpensNow, PolicyStagedNow, PolicyProbedNow, AssetCheckedNow,
         ChecksFinishNow, AssetCopiedNow, CopiesFinishNow, OptionalCopiedNow, OptionalFinishNow,
         StageFailsNow, CommitLandsNow, KeysListedNow, CacheSweptNow, StagingDeletedNow, RecordClearsNow,
         ClearingKeysListedNow, ClearingSweptNow, LazyStartsNow, LazyDownloadedNow, LazyReadsNow,
         LazyContinuesNow, LazyOpensNow, LazyPutsNow, LazyDeletesNow;
    match e
    case RefreshRead => RefreshReadInv(s);
    case PreviousRead => PreviousReadInv(s);
    case ManifestArrives(manifest, uuid) => ManifestArrivesInv(s, manifest, uuid);
    case StagingOpens => StagingOpensInv(s);
    case ReusableProbed => ReusableProbedInv(s);
    case ReusableOpens => ReusableOpensInv(s);
    case PolicyStaged => PolicyStagedInv(s);
    case PolicyProbed => PolicyProbedInv(s);
    case AssetChecked(path) => AssetCheckedInv(s, path);
    case ChecksFinish => ChecksFinishInv(s);
    case AssetCopied(path) => AssetCopiedInv(s, path);
    case CopiesFinish => CopiesFinishInv(s);
    case OptionalCopied(path) => OptionalCopiedInv(s, path);
    case OptionalFinish => OptionalFinishInv(s);
    case StageFails => StageFailsInv(s);
  }

  lemma DownloadStepInv(s: Worker, e: Event)
    requires Inv(s) && Downloading(e)
    ensures Inv(Next(s, e))
  {
    hide Inv, PostNow, PostResetNow, StartNextNow, RefreshReadNow, PreviousReadNow, ManifestArrivesNow, StagingOpensNow,
         ReusableProbedNow, ReusableOpensNow, PolicyStagedNow, PolicyProbedNow, AssetCheckedNow,
         ChecksFinishNow, AssetCopiedNow, CopiesFinishNow, OptionalCopiedNow, OptionalFinishNow,
         StageFailsNow, CommitLandsNow, KeysListedNow, CacheSweptNow, StagingDeletedNow, RecordClearsNow,
         ClearingKeysListedNow, ClearingSweptNow, LazyStartsNow, LazyDownloadedNow, LazyReadsNow,
         LazyContinuesNow, LazyOpensNow, LazyPutsNow, LazyDeletesNow;
    hide Open, Delete, ResponseOpensNow;
    match e
    case LazyStarts(record, path) => LazyStartsInv(s, record, path);
    case LazyDownloaded(key, ok) => LazyDownloadedInv(s, key, ok);
    case LazyReads(key) => LazyReadsInv(s, key);
    case LazyContinues(key) => LazyContinuesInv(s, key);
    case LazyOpens(key) => LazyOpensInv(s, key);
    case LazyPuts(key) => LazyPutsInv(s, key);
    case LazyDeletes(key) => LazyDeletesInv(s, key);
    case ResponseOpens(record) => if record in s.trust.ledger.seen { ResponseOpensInv(s, record); }
  }

  lemma StepInv(s: Worker, e: Event)
    requires Inv(s)
    ensures Inv(Next(s, e))
  {
    hide Inv, PostNow, PostResetNow, StartNextNow, RefreshReadNow, PreviousReadNow, ManifestArrivesNow, StagingOpensNow,
         ReusableProbedNow, ReusableOpensNow, PolicyStagedNow, PolicyProbedNow, AssetCheckedNow,
         ChecksFinishNow, AssetCopiedNow, CopiesFinishNow, OptionalCopiedNow, OptionalFinishNow,
         StageFailsNow, CommitLandsNow, KeysListedNow, CacheSweptNow, StagingDeletedNow, RecordClearsNow,
         ClearingKeysListedNow, ClearingSweptNow, LazyStartsNow, LazyDownloadedNow, LazyReadsNow,
         LazyContinuesNow, LazyOpensNow, LazyPutsNow, LazyDeletesNow;
    if Activating(e) { ActivationStepInv(s, e); return; }
    if Downloading(e) { DownloadStepInv(s, e); return; }
    match e
    case Post(op) => if op != Reset { PostInv(s, op); }
    case PostReset => PostResetInv(s);
    case StartNext => StartNextInv(s);
    case CommitLands => CommitLandsInv(s);
    case KeysListed => KeysListedInv(s);
    case CacheSwept(name) => CacheSweptInv(s, name);
    case StagingDeleted => StagingDeletedInv(s);
    case RecordClears => RecordClearsInv(s);
    case ClearingKeysListed => KeysListedInv(s);
    case ClearingSwept(name) => ClearingSweptInv(s, name);
    case OperationEnds => OperationEndsInv(s);
  }

  /**
   * A worker that has just started: no memory, whatever record and caches the
   * last one left, provided the record's own cache holds no unverified bytes.
   */
  predicate Initial(s: Worker) {
    && s.trust.epoch == 0 && s.trust.nextTicket == 1 && s.trust.queue == [] && s.trust.running == Idle
    && s.lazies == map[]
    && DiskInv(s.disk, s.trust.ledger.births)
    && match s.trust.record
       case None => s.trust.ledger == Ledger(map[], {}, [], true)
       case Some(r) =>
         var births := map[r.cacheName := Birth(r.manifest, 0)];
         && Sound(r, births)
         && s.trust.ledger == Ledger(births, {r}, [Committed(r, 0, 0, 0)], Complete(s.disk, r))
  }

  lemma {:induction false} RunInv(s: Worker, events: seq<Event>)
    requires Initial(s)
    ensures Inv(Run(s, events))
  {
    if events != [] {
      RunInv(s, events[..|events| - 1]);
      StepInv(Run(s, events[..|events| - 1]), events[|events| - 1]);
    }
  }

  /**
   * In every interleaving, while no reset is pending, the active record's cache
   * exists and holds verified bytes for every asset that is not optional. It
   * holds from the start when the inherited cache was complete, and in any case
   * from the first commit on.
   */
  lemma {:induction false} ActiveBundleIsIntact(s: Worker, events: seq<Event>, path: Path)
    requires Initial(s)
    requires var end := Run(s, events).trust; end.record.Some? && end.ledger.assured && !ResetPending(end)
    requires path in Run(s, events).trust.record.value.manifest.assets
    requires path !in Run(s, events).trust.record.value.optional
    ensures var d, r := Run(s, events).disk, Run(s, events).trust.record.value;
            && r.cacheName in d.names && d.names[r.cacheName] in d.stores
            && path in d.stores[d.names[r.cacheName]]
            && r.manifest.assets[path] == Sha256(d.stores[d.names[r.cacheName]][path])
  {
    RunInv(s, events);
  }

  /** A cache name determines its manifest, for every record that was ever active. */
  lemma {:induction false} CacheNameDeterminesManifest(s: Worker, events: seq<Event>, a: Record, b: Record)
    requires Initial(s)
    requires a in Run(s, events).trust.ledger.seen && b in Run(s, events).trust.ledger.seen
    requires a.cacheName == b.cacheName
    ensures a.digest == b.digest && a.manifest == b.manifest && a.optional == b.optional
  {
    RunInv(s, events);
  }
}
