// The worker's module state and the stretches of its functions, as the source
// updates them in place. Every method keeps `Valid()`, and says what its caller
// gets; `Deliver` makes a run of them a run of the machine.
module BundleWorkers {
  import opened Common
  import opened BundleTrust
  import opened BundleIntegrity

  // -------------------------------------------------------------------------
  // What single steps keep
  // -------------------------------------------------------------------------

  ghost predicate StaysComplete(d: Disk, d': Disk, record: Option<Record>) {
    record.Some? && Complete(d, record.value) ==> Complete(d', record.value)
  }

  lemma PutStaysComplete(d: Disk, id: nat, path: Path, bytes: Bytes, record: Option<Record>)
    ensures StaysComplete(d, Put(d, id, path, bytes), record)
  {
    hide RequiredPaths;
  }

  lemma OpenStaysComplete(s: Worker, name: CacheName)
    requires Inv(s)
    ensures StaysComplete(s.disk, Open(s.disk, name), s.trust.record)
  {
    hide RequiredPaths, RunningInv, LaziesInv, TrustInv, Intact;
    var record := s.trust.record;
    if record.Some? && Complete(s.disk, record.value) && name !in s.disk.names {
      assert s.disk.names[record.value.cacheName] in s.disk.owners;
    }
  }

  lemma SweptStaysComplete(s: Worker, name: CacheName)
    requires Inv(s) && s.trust.running.Sweeping? && name in s.trust.running.doomed
    ensures StaysComplete(s.disk, Delete(s.disk, name), s.trust.record)
  {
    hide RequiredPaths, DiskInv, LaziesInv, TrustInv, Intact;
  }

  lemma StagingStaysComplete(s: Worker)
    requires Inv(s) && s.trust.running.Discarding?
    ensures StaysComplete(s.disk, Delete(s.disk, s.trust.running.act.name), s.trust.record)
  {
    hide RequiredPaths, DiskInv, LaziesInv, Intact;
  }

  lemma UndoneStaysComplete(s: Worker, key: LazyKey)
    requires Inv(s) && !ResetPending(s.trust)
    ensures StaysComplete(s.disk, LazyDeletesNow(s, key).disk, s.trust.record)
  {
    hide RunningInv, OptionalPaths;
    if key in s.lazies && s.trust.record.Some? && Complete(s.disk, s.trust.record.value) {
      var l, r := s.lazies[key], s.trust.record.value;
      assert LazyInv(s.trust.ledger, s.trust.epoch, s.disk, key, l);
      assert Sound(r, s.trust.ledger.births) && Sound(l.record, s.trust.ledger.births);
      if l.pc.DeletingAsset? && s.disk.names[r.cacheName] == l.pc.id {
        assert s.disk.owners[l.pc.id] == r.cacheName == l.record.cacheName;
      }
    }
  }

  /** What a cache made for a manifest holds, it holds verified. */
  lemma HeldIsVerified(s: Worker, id: nat, name: CacheName, paths: set<Path>)
    requires Inv(s) && HandleInv(s.disk, id, name) && name in s.trust.ledger.births && Holds(s.disk, id, paths)
    ensures forall p :: p in paths ==> HoldsVerified(s.disk, id, s.trust.ledger.births[name].manifest, p)
  {
    hide RunningInv, LaziesInv, TrustInv, Intact;
  }

  /** What an activation has staged is verified. */
  lemma StagedIsVerified(s: Worker, paths: set<Path>)
    requires Inv(s) && Staged(s.trust.running) && Holds(s.disk, s.trust.running.act.staging, paths)
    ensures var act := s.trust.running.act; forall p :: p in paths ==> HoldsVerified(s.disk, act.staging, act.manifest, p)
  {
    hide DiskInv, LaziesInv, TrustInv, Intact, ProgressInv, HoldsVerified;
    var act := s.trust.running.act;
    HeldIsVerified(s, act.staging, act.name, paths);
  }

  /** What a reuse check has found in the previous record's cache is verified, for the new manifest too. */
  lemma ReusedIsVerified(s: Worker, paths: set<Path>)
    requires Inv(s) && Staged(s.trust.running) && MayReuse(s.trust.running.act)
    requires Holds(s.disk, s.trust.running.act.reusable.value, paths)
    ensures var act := s.trust.running.act;
            forall p :: p in paths ==> HoldsVerified(s.disk, act.reusable.value, act.manifest, p)
  {
    hide DiskInv, LaziesInv, Intact, ProgressInv, HoldsVerified;
    var act := s.trust.running.act;
    var previous := act.previous.value;
    assert Sound(previous, s.trust.ledger.births);
    HeldIsVerified(s, act.reusable.value, previous.cacheName, paths);
  }

  lemma FreshInv(s: Worker)
    requires Initial(s)
    ensures Inv(s)
  {
    RunInv(s, []);
  }

  lemma QueuedResets(queue: seq<Queued>, q: Queued)
    ensures ResetQueued(queue + [q]) <==> ResetQueued(queue) || q.op == Reset
  {
    var more := queue + [q];
    assert more[|queue|] == q;
    if ResetQueued(queue) {
      var k :| 0 <= k < |queue| && queue[k].op == Reset;
      assert more[k].op == Reset;
    }
    if ResetQueued(more) {
      var k :| 0 <= k < |more| && more[k].op == Reset;
      if k < |queue| { assert queue[k].op == Reset; }
    }
  }

  lemma EpochsSoFar(s: Worker)
    requires Inv(s)
    ensures forall q :: q in s.trust.queue ==> q.epoch <= s.trust.epoch
    ensures forall key :: key in s.lazies ==> s.lazies[key].epoch <= s.trust.epoch
  {
    hide DiskInv, RunningInv, Intact, RecordsInv;
    forall key | key in s.lazies ensures s.lazies[key].epoch <= s.trust.epoch {
      assert LazyInv(s.trust.ledger, s.trust.epoch, s.disk, key, s.lazies[key]);
    }
  }

  lemma StartedResets(s: Worker)
    requires Inv(s)
    ensures ResetPending(StartNextNow(s).trust) == ResetPending(s.trust)
  {
    hide DiskInv, LaziesInv, RunningInv, Intact, RecordsInv;
    if s.trust.running.Idle? && s.trust.queue != [] { TailQueue(s.trust.queue, s.trust.epoch); }
  }

  lemma AcceptedManifest(s: Worker, manifest: Option<Manifest>, uuid: nat)
    requires Inv(s) && s.trust.running.Fetching?
    ensures s.trust.running.previous == s.trust.record
    ensures manifest.Some? && FreshName(s, Bundle(manifest.value.revision, uuid)) ==>
      Unseen(s.trust.ledger, Bundle(manifest.value.revision, uuid))
  {
    hide DiskInv, LaziesInv, Intact;
  }

  lemma SameDiskStaysComplete(d: Disk, record: Option<Record>)
    ensures StaysComplete(d, d, record)
  {}

  lemma PreviousIsActive(s: Worker)
    requires Inv(s) && Staged(s.trust.running)
    ensures s.trust.running.act.previous == s.trust.record
  {
    hide DiskInv, LaziesInv, TrustInv, Intact, ProgressInv, StagingInv;
  }

  lemma PolicyIsStaged(s: Worker)
    requires Inv(s) && s.trust.running.StagingPolicy?
    ensures var t, act := PolicyStagedNow(s), s.trust.running.act;
            forall p :: p in PolicyPart(act.manifest) ==> HoldsVerified(t.disk, act.staging, act.manifest, p)
  {
    hide RequiredPaths, OptionalPaths, Intact, LaziesInv, TrustInv, ProgressInv;
    var act := s.trust.running.act;
    assert HandleInv(s.disk, act.staging, act.name);
  }

  lemma NoPolicyNothingOptional(m: Manifest)
    requires POLICY_PATH !in m.assets
    ensures OptionalPaths(m) == {}
  {}

  lemma RequiredIs(m: Manifest, required: set<Path>)
    requires required == m.assets.Keys - OptionalPaths(m) - {POLICY_PATH}
    ensures required == ToCopy(m)
  {}

  lemma ProbingMayReuse(s: Worker)
    requires Inv(s) && s.trust.running.ProbingPolicy?
    ensures MayReuse(s.trust.running.act)
  {
    hide DiskInv, LaziesInv, TrustInv, Intact, StagingInv, ActInv;
  }

  lemma CheckedIsVerified(s: Worker)
    requires Inv(s) && s.trust.running.Checking?
    ensures var r := s.trust.running;
            MayReuse(r.act) && (r.complete ==> forall p :: p in ToCopy(r.act.manifest) - r.todo ==>
              HoldsVerified(s.disk, r.act.reusable.value, r.act.manifest, p))
  {
    hide DiskInv, LaziesInv, TrustInv, Intact, StagingInv, ActInv, HoldsVerified, ToCopy;
    var r := s.trust.running;
    assert CheckingInv(s.disk, r.act, r.todo, r.complete);
    if r.complete { ReusedIsVerified(s, ToCopy(r.act.manifest) - r.todo); }
  }

  lemma CopiedIsVerified(s: Worker)
    requires Inv(s) && s.trust.running.Copying?
    ensures var r := s.trust.running;
            forall p :: p in RequiredPaths(r.act.manifest) - r.todo ==> HoldsVerified(s.disk, r.act.staging, r.act.manifest, p)
  {
    hide DiskInv, LaziesInv, TrustInv, Intact, StagingInv, ActInv, HoldsVerified, RequiredPaths;
    StagedIsVerified(s, RequiredPaths(s.trust.running.act.manifest) - s.trust.running.todo);
  }

  /** What is about to be committed has every required asset, verified. */
  lemma CommitIsVerified(s: Worker)
    requires Inv(s) && s.trust.running.Committing?
    ensures var r := s.trust.running;
            && (!r.full ==> MayReuse(r.act)) && r.next.manifest == r.act.manifest
            && forall p :: p in RequiredPaths(r.next.manifest) ==>
                 HoldsVerified(s.disk, if r.full then r.act.staging else r.act.reusable.value, r.next.manifest, p)
  {
    hide DiskInv, LaziesInv, TrustInv, Intact, StagingInv, ActInv, HoldsVerified, RequiredPaths;
    var r := s.trust.running;
    assert CommittingInv(s.trust.ledger, s.disk, r.act, r.next, r.full, r.started);
    if r.full {
      StagedIsVerified(s, RequiredPaths(r.act.manifest));
    } else {
      ReusedIsVerified(s, RequiredPaths(r.act.manifest));
    }
  }

  lemma DiscardedIsUnseen(s: Worker)
    requires Inv(s) && s.trust.running.Discarding?
    ensures Unseen(s.trust.ledger, s.trust.running.act.name)
  {
    hide DiskInv, LaziesInv, TrustInv, Intact;
  }

  lemma AssuredIsComplete(s: Worker)
    requires Inv(s) && s.trust.record.Some? && s.trust.ledger.assured && !ResetPending(s.trust)
    ensures Complete(s.disk, s.trust.record.value)
  {
    hide DiskInv, LaziesInv, TrustInv, RunningInv;
  }

  lemma DoomedIsNotActive(s: Worker)
    requires Inv(s) && s.trust.running.Sweeping?
    ensures s.trust.record.Some? && s.trust.record.value.cacheName !in s.trust.running.doomed
  {
    hide DiskInv, LaziesInv, TrustInv, Intact;
  }

  lemma ClearingHasNoRecord(s: Worker)
    requires Inv(s) && (s.trust.running.ClearingList? || s.trust.running.ClearingSweep?)
    ensures s.trust.record == None
  {
    hide DiskInv, LaziesInv, TrustInv, Intact;
  }

  lemma LazyHandle(s: Worker, key: LazyKey)
    requires Inv(s) && key in s.lazies && s.lazies[key].pc.Caching?
    ensures HandleInv(s.disk, s.lazies[key].pc.id, s.lazies[key].record.cacheName)
    ensures key.path in OptionalPaths(s.lazies[key].record.manifest)
  {
    hide DiskInv, RunningInv, TrustInv, Intact, OptionalPaths;
    assert LazyInv(s.trust.ledger, s.trust.epoch, s.disk, key, s.lazies[key]);
  }

  /** What the outside can do: fresh uuids, lazy requests and responses for records that were active. */
  ghost predicate Deliverable(s: Worker, e: Event) {
    match e
    case Post(op) => op != Reset
    case ManifestArrives(manifest, uuid) => manifest.Some? ==> FreshName(s, Bundle(manifest.value.revision, uuid))
    case LazyStarts(record, path) => record in s.trust.ledger.seen && path in OptionalPaths(record.manifest)
    case ResponseOpens(record) => record in s.trust.ledger.seen
    case _ => true
  }

  // -------------------------------------------------------------------------
  // The worker
  // -------------------------------------------------------------------------

  class BundleWorker {
    var trustEpoch: nat
    var trustOperations: seq<Queued>           // the promise chain, head first
    var running: Running                       // the operation between two awaits
    var activeBundle: Option<Record>           // the durable record
    var caches: Disk
    var optionalFetches: map<LazyKey, Lazy>
    var tickets: nat
    ghost var ledger: Ledger

    ghost function State(): Worker
      reads this
    {
      Worker(
        Trust(trustEpoch, tickets, trustOperations, running, activeBundle, ledger), caches, optionalFetches)
    }

    ghost predicate Valid()
      reads this
    {
      Inv(State())
    }

    ghost predicate ResetPending()
      reads this
    {
      BundleIntegrity.ResetPending(State().trust)
    }

    /** A worker that starts with what the last one left. */
    constructor (record: Option<Record>, disk: Disk)
      requires record.Some? ==> Sound(record.value, map[record.value.cacheName := Birth(record.value.manifest, 0)])
      requires DiskInv(disk, if record.None? then map[] else map[record.value.cacheName := Birth(record.value.manifest, 0)])
      ensures Valid() && Initial(State()) && activeBundle == record && caches == disk
    {
      trustEpoch, trustOperations, running, tickets := 0, [], Idle, 1;
      activeBundle, caches, optionalFetches := record, disk, map[];
      ledger := match record
        case None => Ledger(map[], {}, [], true)
        case Some(r) => Ledger(map[r.cacheName := Birth(r.manifest, 0)], {r}, [Committed(r, 0, 0, 0)], Complete(disk, r));
      new;
      FreshInv(State());
    }

    // ---- messages ---------------------------------------------------------

    method QueueTrustOperation(op: Op)
      requires Valid() && op != Reset
      modifies `trustOperations, `tickets
      ensures Valid() && State() == PostNow(old(State()), op)
      ensures trustOperations == old(trustOperations) + [Queued(op, trustEpoch, old(tickets))]
      ensures ResetPending() == old(ResetPending())
    {
      hide Inv;
      PostInv(State(), op);
      QueuedResets(trustOperations, Queued(op, trustEpoch, tickets));
      trustOperations := trustOperations + [Queued(op, trustEpoch, tickets)];
      tickets := tickets + 1;
    }

    method HandleReset()
      requires Valid()
      modifies `trustEpoch, `trustOperations, `tickets
      ensures Valid() && State() == PostResetNow(old(State()))
      ensures ResetPending() && trustEpoch == old(trustEpoch) + 1
      ensures trustOperations == old(trustOperations) + [Queued(Reset, trustEpoch, old(tickets))]
      ensures forall q :: q in old(trustOperations) ==> q.epoch < trustEpoch
      ensures forall key :: key in optionalFetches ==> optionalFetches[key].epoch < trustEpoch
    {
      hide Inv;
      ghost var s := State();
      PostResetInv(s);
      EpochsSoFar(s);
      QueuedResets(trustOperations, Queued(Reset, trustEpoch + 1, tickets));
      trustEpoch := trustEpoch + 1;
      trustOperations := trustOperations + [Queued(Reset, trustEpoch, tickets)];
      tickets := tickets + 1;
    }

    // ---- the queue --------------------------------------------------------

    method EnterActivation(job: Job)
      modifies `running
      ensures State() == Enter(old(State()), job)
    {
      running := Idle;
      if job.epoch != trustEpoch { return; }
      running := Reading(job);
    }

    method StartNextOperation()
      requires Valid()
      modifies `trustOperations, `running
      ensures Valid() && State() == StartNextNow(old(State()))
      ensures if old(running) != Idle || old(trustOperations) == [] then trustOperations == old(trustOperations)
              else trustOperations == old(trustOperations)[1..]
      ensures ResetPending() == old(ResetPending())
      ensures running.Reading? && running != old(running) ==> running.job.epoch == trustEpoch
      ensures old(running == Idle && trustOperations != [] && trustOperations[0].op.Activate?) ==>
        (running == Idle <==> old(trustOperations)[0].epoch != trustEpoch)
    {
      hide Inv;
      ghost var s := State();
      StartNextInv(s);
      StartedResets(s);
      if running != Idle || trustOperations == [] { return; }
      var next := trustOperations[0];
      trustOperations := trustOperations[1..];
      match next.op
      case Activate(signer, minimum) => EnterActivation(Job(signer, minimum, next.epoch, next.ticket));
      case Refresh => running := RefreshReading(None, next.epoch, next.ticket);
      case Revalidate(expected) => running := RefreshReading(Some(expected), next.epoch, next.ticket);
      case Reset => running := Clearing(next.ticket);
      case Plugin => running := PluginBusy(next.ticket);
    }

    method ResumeRefresh()
      requires Valid()
      modifies `running
      ensures Valid() && State() == RefreshReadNow(old(State()))
      ensures old(running).RefreshReading? ==> running.Reading? || running == Idle
      ensures old(running).RefreshReading? && running.Reading? ==>
        && activeBundle.Some? && running.job.signer == activeBundle.value.signer
        && running.job.minimum == activeBundle.value.revision && running.job.epoch == trustEpoch
        && (old(running).expected.Some? ==> old(running).expected.value.cacheName == activeBundle.value.cacheName)
    {
      hide Inv;
      RefreshReadInv(State());
      if !running.RefreshReading? { return; }
      var expected, epoch, ticket := running.expected, running.epoch, running.ticket;
      running := Idle;
      if activeBundle.None? { return; }
      var current := activeBundle.value;
      if expected.Some?
         && (current.cacheName != expected.value.cacheName || current.signer != expected.value.signer) { return; }
      EnterActivation(Job(current.signer, current.revision, epoch, ticket));
    }

    // ---- activateBundle ---------------------------------------------------

    method ResumeWithPrevious()
      requires Valid()
      modifies `running
      ensures Valid() && State() == PreviousReadNow(old(State()))
      ensures old(running).Reading? ==>
        if activeBundle.Some? && activeBundle.value.signer != old(running).job.signer then running == Idle
        else running == Fetching(old(running).job, activeBundle)
    {
      hide Inv;
      PreviousReadInv(State());
      if !running.Reading? { return; }
      var job := running.job;
      running := Idle;
      if activeBundle.Some? && activeBundle.value.signer != job.signer { return; }
      running := Fetching(job, activeBundle);
    }

    method ResumeWithManifest(manifest: Option<Manifest>, uuid: nat)
      requires Valid() && Deliverable(State(), ManifestArrives(manifest, uuid))
      modifies `running, `ledger
      ensures Valid() && State() == ManifestArrivesNow(old(State()), manifest, uuid)
      ensures old(running).Fetching? ==> running == Idle || running.OpeningStaging?
      ensures old(running).Fetching? && running.OpeningStaging? ==>
        var act := running.act;
        && manifest == Some(act.manifest) && act.job == old(running).job && act.previous == activeBundle
        && act.manifest.revision >= act.job.minimum
        && (activeBundle.Some? ==> act.manifest.revision >= activeBundle.value.revision)
        && (activeBundle.Some? && act.manifest.revision == activeBundle.value.revision ==>
              activeBundle.value.digest == ManifestSha256(act.manifest))
        && act.name !in caches.names && forall r :: r in ledger.seen ==> r.cacheName != act.name
    {
      hide Inv;
      ghost var s := State();
      ManifestArrivesInv(s, manifest, uuid);
      if running.Fetching? { AcceptedManifest(s, manifest, uuid); }
      if !running.Fetching? { return; }
      var job, previous := running.job, running.previous;
      running := Idle;
      if manifest.None? { return; }
      var m := manifest.value;
      var floor := job.minimum;
      if previous.Some? && previous.value.revision > floor { floor := previous.value.revision; }
      if m.revision < floor { return; }
      if previous.Some? && previous.value.revision == m.revision
         && previous.value.digest != ManifestSha256(m) { return; }
      var name := Bundle(m.revision, uuid);
      running := OpeningStaging(Act(job, previous, m, name, 0, None));
      ledger := ledger.(births := ledger.births[name := Birth(m, job.epoch)]);
    }

    method OpenCache(name: CacheName) returns (id: nat)
      modifies `caches
      ensures caches == Open(old(caches), name) && id == OpenedId(old(caches), name)
    {
      if name in caches.names { return caches.names[name]; }
      id := caches.nextId;
      caches := Disk(
        caches.names[name := id], caches.stores[id := map[]], caches.owners[id := name], id + 1);
    }

    method ResumeOpeningStaging()
      requires Valid()
      modifies `caches, `running
      ensures Valid() && State() == StagingOpensNow(old(State()))
      ensures StaysComplete(old(caches), caches, activeBundle)
      ensures old(running).OpeningStaging? ==>
        Staged(running) && NamedInv(caches, running.act.staging, old(running).act.name)
    {
      hide Inv, StaysComplete;
      ghost var s := State();
      StagingOpensInv(s);
      if !running.OpeningStaging? { SameDiskStaysComplete(caches, activeBundle); return; }
      OpenStaysComplete(s, running.act.name);
      var act := running.act;
      var id := OpenCache(act.name);
      act := act.(staging := id);
      running := if act.previous.Some? then ProbingReusable(act) else StagingPolicy(act);
    }

    method ProbeReusable()
      requires Valid()
      modifies `running
      ensures Valid() && State() == ReusableProbedNow(old(State()))
      ensures running.OpeningReusable? && running != old(running) ==>
        activeBundle.Some? && activeBundle.value.cacheName in caches.names
    {
      hide Inv;
      ghost var s := State();
      ReusableProbedInv(s);
      if !running.ProbingReusable? || running.act.previous.None? { return; }
      PreviousIsActive(s);
      var act := running.act;
      running := if act.previous.value.cacheName in caches.names then OpeningReusable(act) else StagingPolicy(act);
    }

    method OpenReusable()
      requires Valid()
      modifies `caches, `running
      ensures Valid() && State() == ReusableOpensNow(old(State()))
      ensures StaysComplete(old(caches), caches, activeBundle)
      ensures running.StagingPolicy? && running != old(running) ==>
        activeBundle.Some? && running.act.reusable.Some?
        && NamedInv(caches, running.act.reusable.value, activeBundle.value.cacheName)
    {
      hide Inv, StaysComplete;
      ghost var s := State();
      ReusableOpensInv(s);
      if !running.OpeningReusable? || running.act.previous.None? { SameDiskStaysComplete(caches, activeBundle); return; }
      PreviousIsActive(s);
      var act := running.act;
      OpenStaysComplete(s, act.previous.value.cacheName);
      var id := OpenCache(act.previous.value.cacheName);
      running := StagingPolicy(act.(reusable := Some(id)));
    }

    method PutAsset(id: nat, path: Path, bytes: Bytes)
      modifies `caches
      ensures caches == Put(old(caches), id, path, bytes)
    {
      if id !in caches.stores { return; }
      caches := caches.(stores := caches.stores[id := caches.stores[id][path := bytes]]);
    }

    /** `policyBytes`: the verified policy, from the reusable cache or fetched, if the manifest lists one. */
    method ResumeWithPolicy(policyBytes: Option<Bytes>)
      requires Valid()
      requires running.StagingPolicy? ==>
        match policyBytes
        case None => POLICY_PATH !in running.act.manifest.assets
        case Some(bytes) => Verifies(running.act.manifest, POLICY_PATH, bytes)
      modifies `caches, `running
      ensures Valid() && State() == PolicyStagedNow(old(State()))
      ensures StaysComplete(old(caches), caches, activeBundle)
      ensures old(running).StagingPolicy? ==>
        && Staged(running) && running.act == old(running).act
        && (forall p :: p in PolicyPart(running.act.manifest) ==> HoldsVerified(caches, running.act.staging, running.act.manifest, p))
        && (running.Copying? ==> running.todo == RequiredPaths(running.act.manifest) - {POLICY_PATH})
    {
      hide Inv, StaysComplete, RequiredPaths, OptionalPaths;
      ghost var s := State();
      PolicyStagedInv(s);
      if !running.StagingPolicy? { SameDiskStaysComplete(caches, activeBundle); return; }
      PolicyIsStaged(s);
      var act := running.act;
      var optional: set<Path> := {};
      if policyBytes.Some? {
        PutStaysComplete(caches, act.staging, POLICY_PATH, policyBytes.value, activeBundle);
        PutAsset(act.staging, POLICY_PATH, policyBytes.value);
        VerifiedPolicyIsThePolicy(act.manifest, policyBytes.value);
        optional := OptionalPathsOf(act.manifest, policyBytes.value);
      } else {
        SameDiskStaysComplete(caches, activeBundle);
        NoPolicyNothingOptional(act.manifest);
      }
      var required := act.manifest.assets.Keys - optional - {POLICY_PATH};
      RequiredIs(act.manifest, required);
      running := if !MayReuse(act) then Copying(act, required)
        else if policyBytes.Some? then ProbingPolicy(act)
        else Checking(act, required, true);
    }

    method ResumeProbingPolicy()
      requires Valid()
      modifies `running
      ensures Valid() && State() == PolicyProbedNow(old(State()))
      ensures running.Checking? && running != old(running) ==>
        MayReuse(running.act) && HoldsVerified(caches, running.act.reusable.value, running.act.manifest, POLICY_PATH)
    {
      hide Inv, HoldsVerified, RequiredPaths;
      ghost var s := State();
      PolicyProbedInv(s);
      if !running.ProbingPolicy? || running.act.reusable.None? { return; }
      ProbingMayReuse(s);
      var act := running.act;
      var held := HoldsVerified(caches, act.reusable.value, act.manifest, POLICY_PATH);
      running := if held then Checking(act, ToCopy(act.manifest), true) else Copying(act, ToCopy(act.manifest));
    }

    method CheckAsset(path: Path)
      requires Valid()
      modifies `running
      ensures Valid() && State() == AssetCheckedNow(old(State()), path)
      ensures old(running).Checking? ==> running.Checking? && running.act == old(running).act && MayReuse(running.act)
      ensures running.Checking? && running.complete ==> forall p :: p in ToCopy(running.act.manifest) - running.todo ==>
        MayReuse(running.act) && HoldsVerified(caches, running.act.reusable.value, running.act.manifest, p)
    {
      hide Inv, HoldsVerified, RequiredPaths, ToCopy;
      ghost var s := State();
      AssetCheckedInv(s, path);
      if running.Checking? {
        CheckedIsVerified(AssetCheckedNow(s, path));
        CheckedIsVerified(s);
      }
      if !running.Checking? || path !in running.todo || running.act.reusable.None? { return; }
      var act, complete := running.act, running.complete;
      if !HoldsVerified(caches, act.reusable.value, act.manifest, path) { complete := false; }
      running := Checking(act, running.todo - {path}, complete);
    }

    method FinishChecks()
      requires Valid()
      modifies `running
      ensures Valid() && State() == ChecksFinishNow(old(State()))
      ensures running.Committing? && running != old(running) ==>
        && running.started == running.act.job.epoch == trustEpoch && !running.full
        && activeBundle.Some? && running.next.cacheName == activeBundle.value.cacheName
        && MayReuse(running.act)
        && forall p :: p in RequiredPaths(running.next.manifest) ==>
             HoldsVerified(caches, running.act.reusable.value, running.next.manifest, p)
      ensures running.Discarding? && running != old(running) ==> running.act.job.epoch != trustEpoch
    {
      hide Inv, HoldsVerified, RequiredPaths, OptionalPaths;
      ghost var s := State();
      ChecksFinishInv(s);
      if !running.Checking? || running.todo != {} || running.act.previous.None? { return; }
      PreviousIsActive(s);
      var act := running.act;
      if !running.complete { running := Copying(act, ToCopy(act.manifest)); return; }
      if act.job.epoch != trustEpoch { running := Discarding(act); return; }
      var next := act.previous.value.(manifest := act.manifest, optional := OptionalPaths(act.manifest));
      running := Committing(act, next, false, trustEpoch);
      CommitIsVerified(State());
    }

    method CopyAsset(path: Path)
      requires Valid()
      modifies `caches, `running
      ensures Valid() && State() == AssetCopiedNow(old(State()), path)
      ensures StaysComplete(old(caches), caches, activeBundle) && caches.names == old(caches).names
      ensures old(running).Copying? ==> running.Copying? && running.act == old(running).act
      ensures running.Copying? ==> forall p :: p in RequiredPaths(running.act.manifest) - running.todo ==>
        HoldsVerified(caches, running.act.staging, running.act.manifest, p)
    {
      hide Inv, StaysComplete, HoldsVerified, RequiredPaths;
      ghost var s := State();
      AssetCopiedInv(s, path);
      if running.Copying? {
        CopiedIsVerified(AssetCopiedNow(s, path));
        CopiedIsVerified(s);
      }
      if !running.Copying? || path !in running.todo || path !in running.act.manifest.assets {
        SameDiskStaysComplete(caches, activeBundle);
        return;
      }
      PutStaysComplete(caches, running.act.staging, path, running.act.manifest.assets[path].of, activeBundle);
      PutAsset(running.act.staging, path, running.act.manifest.assets[path].of);
      running := Copying(running.act, running.todo - {path});
    }

    method FinishCopies()
      requires Valid()
      modifies `running
      ensures Valid() && State() == CopiesFinishNow(old(State()))
      ensures running.CopyingOptional? && running != old(running) ==>
        forall p :: p in RequiredPaths(running.act.manifest) ==>
          HoldsVerified(caches, running.act.staging, running.act.manifest, p)
    {
      hide Inv, HoldsVerified, RequiredPaths;
      ghost var s := State();
      CopiesFinishInv(s);
      if !running.Copying? || running.todo != {} { return; }
      CopiedIsVerified(s);
      running := CopyingOptional(running.act);
    }

    method CopyOptionalAsset(path: Path)
      requires Valid()
      modifies `caches
      ensures Valid() && State() == OptionalCopiedNow(old(State()), path)
      ensures StaysComplete(old(caches), caches, activeBundle) && caches.names == old(caches).names
    {
      hide Inv, StaysComplete, OptionalPaths;
      OptionalCopiedInv(State(), path);
      SameDiskStaysComplete(caches, activeBundle);
      if !running.CopyingOptional? || path !in OptionalPaths(running.act.manifest) { return; }
      if path !in running.act.manifest.assets { return; }
      PutStaysComplete(caches, running.act.staging, path, running.act.manifest.assets[path].of, activeBundle);
      PutAsset(running.act.staging, path, running.act.manifest.assets[path].of);
    }

    method FinishOptional()
      requires Valid()
      modifies `running
      ensures Valid() && State() == OptionalFinishNow(old(State()))
      ensures running.Committing? && running != old(running) ==>
        && running.started == running.act.job.epoch == trustEpoch && running.full
        && running.next.signer == running.act.job.signer && running.next.cacheName == running.act.name
        && running.next.manifest == running.act.manifest
        && forall p :: p in RequiredPaths(running.next.manifest) ==>
             HoldsVerified(caches, running.act.staging, running.next.manifest, p)
      ensures running.Discarding? && running != old(running) ==> running.act.job.epoch != trustEpoch
    {
      hide Inv, HoldsVerified, RequiredPaths, OptionalPaths;
      ghost var s := State();
      OptionalFinishInv(s);
      if !running.CopyingOptional? { return; }
      var act := running.act;
      var m := act.manifest;
      if act.job.epoch != trustEpoch { running := Discarding(act); return; }
      var next := Record(act.job.signer, ManifestSha256(m), m.revision, act.name, m, OptionalPaths(m));
      running := Committing(act, next, true, trustEpoch);
      CommitIsVerified(State());
    }

    /** A stretch threw, or the commit was rejected. */
    method FailStage()
      requires Valid()
      modifies `running
      ensures Valid() && State() == StageFailsNow(old(State()))
      ensures old(Staged(running)) ==> running == Idle || running == Discarding(old(running).act)
      ensures running.Discarding? ==> forall r :: r in ledger.seen ==> r.cacheName != running.act.name
    {
      hide Inv;
      ghost var s := State();
      StageFailsInv(s);
      if StageFailsNow(s).trust.running.Discarding? { DiscardedIsUnseen(StageFailsNow(s)); }
      if running.RefreshReading? || running.Reading? || running.OpeningStaging? || running.ProbingReusable?
         || running.OpeningReusable? {
        running := Idle;
      } else if running.StagingPolicy? || running.ProbingPolicy? || running.Checking? || running.Copying?
                || running.CopyingOptional? || running.Committing? {
        running := Discarding(running.act);
      }
    }

    method LandCommit()
      requires Valid()
      modifies `running, `activeBundle, `ledger
      ensures Valid() && State() == CommitLandsNow(old(State()))
      ensures old(running).Committing? ==> activeBundle == Some(old(running).next)
      ensures !old(running).Committing? ==> activeBundle == old(activeBundle)
      ensures old(running).Committing? && !ResetPending() ==> Complete(caches, activeBundle.value)
    {
      hide Inv, Complete;
      ghost var s := State();
      CommitLandsInv(s);
      if running.Committing? && !ResetPending() { AssuredIsComplete(CommitLandsNow(s)); }
      if !running.Committing? { return; }
      var act, next := running.act, running.next;
      activeBundle := Some(next);
      ledger := ledger.(
        seen := ledger.seen + {next},
        log := ledger.log + [Committed(next, act.job.ticket, act.job.epoch, running.started)],
        assured := true);
      running := if running.full then Listing(act) else Discarding(act);
    }

    method ListCaches()
      requires Valid()
      modifies `running
      ensures Valid() && State() == KeysListedNow(old(State()))
      ensures running.Sweeping? && running != old(running) ==>
        activeBundle.Some? && activeBundle.value.cacheName !in running.doomed
    {
      hide Inv;
      ghost var s := State();
      KeysListedInv(s);
      if running.Listing? { DoomedIsNotActive(KeysListedNow(s)); }
      if !running.Listing? { return; }
      var act := running.act;
      var doomed := set n | n in caches.names && n.Bundle? && n != act.name
                            && (act.previous.None? || n != act.previous.value.cacheName);
      running := Sweeping(act, doomed);
    }

    method DeleteCache(name: CacheName)
      modifies `caches
      ensures caches == Delete(old(caches), name)
    {
      caches := caches.(names := caches.names - {name});
    }

    method SweepOne(name: CacheName)
      requires Valid()
      modifies `caches, `running
      ensures Valid() && State() == CacheSweptNow(old(State()), name)
      ensures StaysComplete(old(caches), caches, activeBundle)
      ensures old(running).Sweeping? && name in old(running).doomed ==> name !in caches.names
    {
      hide Inv, StaysComplete;
      ghost var s := State();
      CacheSweptInv(s, name);
      SameDiskStaysComplete(caches, activeBundle);
      if !running.Sweeping? || name !in running.doomed { return; }
      SweptStaysComplete(s, name);
      DeleteCache(name);
      running := Sweeping(running.act, running.doomed - {name});
    }

    method DeleteStaging()
      requires Valid()
      modifies `caches, `running
      ensures Valid() && State() == StagingDeletedNow(old(State()))
      ensures StaysComplete(old(caches), caches, activeBundle)
      ensures old(running).Discarding? ==> running == Idle && caches.names.Keys == old(caches).names.Keys - {old(running).act.name}
    {
      hide Inv, StaysComplete;
      ghost var s := State();
      StagingDeletedInv(s);
      SameDiskStaysComplete(caches, activeBundle);
      if !running.Discarding? { return; }
      StagingStaysComplete(s);
      DeleteCache(running.act.name);
      running := Idle;
    }

    method EndOperation()
      requires Valid()
      modifies `running
      ensures Valid() && State() == OperationEndsNow(old(State()))
      ensures MayEnd(old(running)) ==> running == Idle
    {
      hide Inv;
      OperationEndsInv(State());
      if running.Listing? || running.Sweeping? || running.ClearingList? || running.ClearingSweep? || running.PluginBusy? {
        running := Idle;
      }
    }

    // ---- resetBundleTrust -------------------------------------------------

    method ClearRecord()
      requires Valid()
      modifies `running, `activeBundle, `ledger
      ensures Valid() && State() == RecordClearsNow(old(State()))
      ensures old(running).Clearing? ==> activeBundle == None && (ResetPending() <==> ResetQueued(trustOperations))
      ensures !old(running).Clearing? ==> activeBundle == old(activeBundle)
    {
      hide Inv;
      RecordClearsInv(State());
      if !running.Clearing? { return; }
      activeBundle := None;
      ledger := ledger.(log := ledger.log + [Cleared(running.ticket)]);
      running := ClearingList(running.ticket);
    }

    method ListAllCaches()
      requires Valid()
      modifies `running
      ensures Valid() && State() == ClearingKeysListedNow(old(State()))
      ensures old(running).ClearingList? ==> activeBundle == None
    {
      hide Inv;
      ghost var s := State();
      KeysListedInv(s);
      if running.ClearingList? || running.ClearingSweep? { ClearingHasNoRecord(s); }
      if !running.ClearingList? { return; }
      var doomed := set n | n in caches.names && (n.Bundle? || n.PluginCache?);
      running := ClearingSweep(running.ticket, doomed);
    }

    method ClearOne(name: CacheName)
      requires Valid()
      modifies `caches, `running
      ensures Valid() && State() == ClearingSweptNow(old(State()), name)
      ensures old(running).ClearingSweep? ==> activeBundle == None
      ensures old(running).ClearingSweep? && name in old(running).doomed ==> name !in caches.names
      ensures !old(running).ClearingSweep? ==> caches == old(caches)
    {
      hide Inv;
      ghost var s := State();
      ClearingSweptInv(s, name);
      if running.ClearingList? || running.ClearingSweep? { ClearingHasNoRecord(s); }
      if !running.ClearingSweep? || name !in running.doomed { return; }
      DeleteCache(name);
      running := ClearingSweep(running.ticket, running.doomed - {name});
    }

    // ---- lazyVerifiedResponse ---------------------------------------------

    method LazyVerifiedResponse(record: Record, path: Path)
      requires Valid() && Deliverable(State(), LazyStarts(record, path))
      modifies `optionalFetches
      ensures Valid() && State() == LazyStartsNow(old(State()), record, path)
      ensures var key := LazyKey(record.cacheName, record.digest, path);
              optionalFetches.Keys == old(optionalFetches).Keys + {key}
              && (key !in old(optionalFetches) ==> optionalFetches[key] == Lazy(record, trustEpoch, Downloading))
      ensures forall key :: key in old(optionalFetches) ==> optionalFetches[key] == old(optionalFetches)[key]
    {
      hide Inv;
      LazyStartsInv(State(), record, path);
      var key := LazyKey(record.cacheName, record.digest, path);
      if key in optionalFetches { return; }
      optionalFetches := optionalFetches[key := Lazy(record, trustEpoch, Downloading)];
    }

    method LazyDownloadSettles(key: LazyKey, ok: bool)
      requires Valid()
      modifies `optionalFetches
      ensures Valid() && State() == LazyDownloadedNow(old(State()), key, ok)
      ensures key in old(optionalFetches) && old(optionalFetches)[key].pc.Downloading? ==> (key in optionalFetches <==> ok)
    {
      hide Inv;
      LazyDownloadedInv(State(), key, ok);
      if key !in optionalFetches || !optionalFetches[key].pc.Downloading? { return; }
      optionalFetches := if ok then optionalFetches[key := optionalFetches[key].(pc := FirstRead)] else optionalFetches - {key};
    }

    method ReadActiveForLazy(key: LazyKey)
      requires Valid()
      modifies `optionalFetches
      ensures Valid() && State() == LazyReadsNow(old(State()), key)
      ensures key in optionalFetches && key in old(optionalFetches) && optionalFetches[key] != old(optionalFetches)[key] ==>
        var pc := optionalFetches[key].pc;
        (pc.FirstChecked? || pc.SecondChecked?) && pc.seen == activeBundle
    {
      hide Inv;
      LazyReadsInv(State(), key);
      if key !in optionalFetches { return; }
      var fetching := optionalFetches[key];
      match fetching.pc
      case FirstRead => optionalFetches := optionalFetches[key := fetching.(pc := FirstChecked(activeBundle))];
      case SecondRead(id) =>
        optionalFetches := optionalFetches[key := fetching.(pc := SecondChecked(id, activeBundle))];
      case _ =>
    }

    method ResumeLazy(key: LazyKey)
      requires Valid()
      modifies `optionalFetches
      ensures Valid() && State() == LazyContinuesNow(old(State()), key)
      ensures key in optionalFetches && key in old(optionalFetches) && optionalFetches[key] != old(optionalFetches)[key] ==>
        var was, l := old(optionalFetches)[key], optionalFetches[key];
        && (l.pc.OpeningCache? ==> was.pc.FirstChecked? && StillActive(l, was.pc.seen, trustEpoch))
        && (l.pc.DeletingCache? ==> l.epoch < trustEpoch)
        && (l.pc.DeletingAsset? ==> l.epoch == trustEpoch)
    {
      hide Inv;
      ghost var s := State();
      LazyContinuesInv(s, key);
      EpochsSoFar(s);
      if key !in optionalFetches { return; }
      var fetching := optionalFetches[key];
      match fetching.pc
      case FirstChecked(seen) =>
        if StillActive(fetching, seen, trustEpoch) {
          optionalFetches := optionalFetches[key := fetching.(pc := OpeningCache)];
        } else {
          optionalFetches := optionalFetches - {key};
        }
      case SecondChecked(id, seen) =>
        if StillActive(fetching, seen, trustEpoch) {
          optionalFetches := optionalFetches - {key};
        } else if fetching.epoch != trustEpoch {
          optionalFetches := optionalFetches[key := fetching.(pc := DeletingCache)];
        } else {
          optionalFetches := optionalFetches[key := fetching.(pc := DeletingAsset(id))];
        }
      case _ =>
    }

    method OpenForLazy(key: LazyKey)
      requires Valid()
      modifies `optionalFetches, `caches
      ensures Valid() && State() == LazyOpensNow(old(State()), key)
      ensures StaysComplete(old(caches), caches, activeBundle)
    {
      hide Inv, StaysComplete;
      ghost var s := State();
      LazyOpensInv(s, key);
      SameDiskStaysComplete(caches, activeBundle);
      if key !in optionalFetches || !optionalFetches[key].pc.OpeningCache? { return; }
      OpenStaysComplete(s, optionalFetches[key].record.cacheName);
      var id := OpenCache(optionalFetches[key].record.cacheName);
      optionalFetches := optionalFetches[key := optionalFetches[key].(pc := Caching(id))];
    }

    method PutForLazy(key: LazyKey)
      requires Valid()
      modifies `optionalFetches, `caches
      ensures Valid() && State() == LazyPutsNow(old(State()), key)
      ensures StaysComplete(old(caches), caches, activeBundle) && caches.names == old(caches).names
      ensures key in optionalFetches && key in old(optionalFetches) && optionalFetches[key] != old(optionalFetches)[key] ==>
        && optionalFetches[key].pc.SecondRead?
        && key.path in OptionalPaths(optionalFetches[key].record.manifest)
        && HoldsVerified(caches, optionalFetches[key].pc.id, optionalFetches[key].record.manifest, key.path)
    {
      hide Inv, StaysComplete, OptionalPaths;
      ghost var s := State();
      LazyPutsInv(s, key);
      SameDiskStaysComplete(caches, activeBundle);
      if key !in optionalFetches || !optionalFetches[key].pc.Caching? { return; }
      LazyHandle(s, key);
      var fetching := optionalFetches[key];
      if key.path !in fetching.record.manifest.assets { return; }
      PutStaysComplete(caches, fetching.pc.id, key.path, fetching.record.manifest.assets[key.path].of, activeBundle);
      PutAsset(fetching.pc.id, key.path, fetching.record.manifest.assets[key.path].of);
      optionalFetches := optionalFetches[key := fetching.(pc := SecondRead(fetching.pc.id))];
    }

    method UndoLazy(key: LazyKey)
      requires Valid()
      modifies `optionalFetches, `caches
      ensures Valid() && State() == LazyDeletesNow(old(State()), key)
      ensures !ResetPending() ==> StaysComplete(old(caches), caches, activeBundle)
    {
      hide Inv, StaysComplete;
      ghost var s := State();
      LazyDeletesInv(s, key);
      if !ResetPending() { UndoneStaysComplete(s, key); }
      if key !in optionalFetches { return; }
      var fetching := optionalFetches[key];
      match fetching.pc
      case DeletingCache =>
        DeleteCache(fetching.record.cacheName);
        optionalFetches := optionalFetches - {key};
      case DeletingAsset(id) =>
        if id in caches.stores {
          caches := caches.(stores := caches.stores[id := caches.stores[id] - {key.path}]);
        }
        optionalFetches := optionalFetches - {key};
      case _ =>
    }

    /** A page response opens its record's cache by name. */
    method OpenForResponse(record: Record)
      requires Valid() && record in ledger.seen
      modifies `caches
      ensures Valid() && State() == ResponseOpensNow(old(State()), record)
      ensures StaysComplete(old(caches), caches, activeBundle)
    {
      hide Inv, StaysComplete;
      ghost var s := State();
      ResponseOpensInv(s, record);
      OpenStaysComplete(s, record.cacheName);
      var id := OpenCache(record.cacheName);
    }

    // ---- runs -------------------------------------------------------------

    /** The policy the staging is about to use. */
    function PolicyBytes(): (bytes: Option<Bytes>)
      reads this
      ensures running.StagingPolicy? ==>
        match bytes
        case None => POLICY_PATH !in running.act.manifest.assets
        case Some(b) => Verifies(running.act.manifest, POLICY_PATH, b)
    {
      if running.StagingPolicy? && POLICY_PATH in running.act.manifest.assets
      then Some(running.act.manifest.assets[POLICY_PATH].of)
      else None
    }

    /** One event of a run, delivered to the worker. */
    method Deliver(e: Event)
      requires Valid() && Deliverable(State(), e)
      modifies this
      ensures Valid() && State() == Next(old(State()), e)
    {
      hide Inv, StaysComplete, HoldsVerified, RequiredPaths, OptionalPaths, Complete, FreshName;
      if Activating(e) {
        DeliverToActivation(e);
      } else if e.LazyStarts? || e.LazyDownloaded? || e.LazyReads? || e.LazyContinues? {
        DeliverToDownload(e);
      } else if BundleIntegrity.Downloading(e) {
        DeliverToCaches(e);
      } else {
        DeliverToQueue(e);
      }
    }

    method DeliverToActivation(e: Event)
      requires Valid() && Activating(e) && Deliverable(State(), e)
      modifies this
      ensures Valid() && State() == Next(old(State()), e)
    {
      hide Inv, StaysComplete, HoldsVerified, RequiredPaths, OptionalPaths, Complete, FreshName,
           RefreshReadNow, PreviousReadNow, ManifestArrivesNow, StagingOpensNow, ReusableProbedNow, ReusableOpensNow,
           PolicyStagedNow, PolicyProbedNow, AssetCheckedNow, ChecksFinishNow, AssetCopiedNow, CopiesFinishNow,
           OptionalCopiedNow, OptionalFinishNow, StageFailsNow;
      match e
      case RefreshRead => ResumeRefresh();
      case PreviousRead => ResumeWithPrevious();
      case ManifestArrives(manifest, uuid) => ResumeWithManifest(manifest, uuid);
      case StagingOpens => ResumeOpeningStaging();
      case ReusableProbed => ProbeReusable();
      case ReusableOpens => OpenReusable();
      case PolicyStaged => ResumeWithPolicy(PolicyBytes());
      case PolicyProbed => ResumeProbingPolicy();
      case AssetChecked(path) => CheckAsset(path);
      case ChecksFinish => FinishChecks();
      case AssetCopied(path) => CopyAsset(path);
      case CopiesFinish => FinishCopies();
      case OptionalCopied(path) => CopyOptionalAsset(path);
      case OptionalFinish => FinishOptional();
      case StageFails => FailStage();
    }

    method DeliverToDownload(e: Event)
      requires Valid() && (e.LazyStarts? || e.LazyDownloaded? || e.LazyReads? || e.LazyContinues?) && Deliverable(State(), e)
      modifies this
      ensures Valid() && State() == Next(old(State()), e)
    {
      hide Inv, StaysComplete, HoldsVerified, RequiredPaths, OptionalPaths, Complete, FreshName,
           LazyStartsNow, LazyDownloadedNow, LazyReadsNow, LazyContinuesNow, LazyOpensNow,
           LazyPutsNow, LazyDeletesNow, ResponseOpensNow, StillActive;
      match e
      case LazyStarts(record, path) => LazyVerifiedResponse(record, path);
      case LazyDownloaded(key, ok) => LazyDownloadSettles(key, ok);
      case LazyReads(key) => ReadActiveForLazy(key);
      case LazyContinues(key) => ResumeLazy(key);
    }

    method DeliverToCaches(e: Event)
      requires Valid() && (e.LazyOpens? || e.LazyPuts? || e.LazyDeletes? || e.ResponseOpens?) && Deliverable(State(), e)
      modifies this
      ensures Valid() && State() == Next(old(State()), e)
    {
      hide Inv, StaysComplete, HoldsVerified, RequiredPaths, OptionalPaths, Complete, FreshName,
           LazyStartsNow, LazyDownloadedNow, LazyReadsNow, LazyContinuesNow, LazyOpensNow,
           LazyPutsNow, LazyDeletesNow, ResponseOpensNow, StillActive;
      match e
      case LazyOpens(key) => OpenForLazy(key);
      case LazyPuts(key) => PutForLazy(key);
      case LazyDeletes(key) => UndoLazy(key);
      case ResponseOpens(record) => OpenForResponse(record);
    }

    method DeliverToQueue(e: Event)
      requires Valid() && !Activating(e) && !BundleIntegrity.Downloading(e) && Deliverable(State(), e)
      modifies this
      ensures Valid() && State() == Next(old(State()), e)
    {
      hide Inv, StaysComplete, HoldsVerified, RequiredPaths, OptionalPaths, Complete, FreshName,
           PostNow, PostResetNow, StartNextNow, CommitLandsNow, KeysListedNow, CacheSweptNow, StagingDeletedNow,
           RecordClearsNow, ClearingKeysListedNow, ClearingSweptNow, OperationEndsNow;
      match e
      case Post(op) => QueueTrustOperation(op);
      case PostReset => HandleReset();
      case StartNext => StartNextOperation();
      case CommitLands => LandCommit();
      case KeysListed => ListCaches();
      case CacheSwept(name) => SweepOne(name);
      case StagingDeleted => DeleteStaging();
      case RecordClears => ClearRecord();
      case ClearingKeysListed => ListAllCaches();
      case ClearingSwept(name) => ClearOne(name);
      case OperationEnds => EndOperation();
    }
  }
}
