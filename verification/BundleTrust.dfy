// The bundle-trust worker as a state machine over its atomic stretches.
//
// Trust operations run one at a time on a queue; lazy downloads, page responses
// and reset messages interleave with them at every await. A SHA-256 digest is
// modelled by a constructor, which is to say that hashing is injective.
module BundleTrust {
  import opened Common

  type Path = string
  type Signer = string

  const INDEX_PATH: Path := "/index.html"
  const POLICY_PATH: Path := "/bundle-asset-policy.json"

  /** Asset bytes, with the optional list they hold when they parse as a policy. */
  datatype Bytes = Bytes(identity: nat, policy: Option<set<Path>>)

  datatype Digest = Sha256(of: Bytes)

  datatype Manifest = Manifest(revision: nat, assets: map<Path, Digest>)

  datatype ManifestDigest = ManifestSha256(of: Manifest)

  /** The durable record of the active, signed bundle. */
  datatype Record = Record(
    signer: Signer,
    digest: ManifestDigest,
    revision: nat,
    cacheName: CacheName,
    manifest: Manifest,
    optional: set<Path>)

  datatype CacheName =
    | Bundle(revision: nat, uuid: nat)
    | PluginCache(id: string)
    | ForeignCache(id: string)

  // -------------------------------------------------------------------------
  // Manifests
  // -------------------------------------------------------------------------

  /** `verifyBundleAsset`: the bytes are the ones the manifest recorded for the path. */
  predicate Verifies(m: Manifest, path: Path, bytes: Bytes) {
    path in m.assets && m.assets[path] == Sha256(bytes)
  }

  /** `optionalPaths`: an unsupported policy means nothing is optional. */
  function OptionalPathsOf(m: Manifest, policyBytes: Bytes): set<Path> {
    if policyBytes.policy.Some?
       && INDEX_PATH !in policyBytes.policy.value
       && POLICY_PATH !in policyBytes.policy.value
       && policyBytes.policy.value <= m.assets.Keys
    then policyBytes.policy.value
    else {}
  }

  /** The optional paths of a manifest: verified policy bytes leave no choice. */
  function OptionalPaths(m: Manifest): set<Path> {
    if POLICY_PATH in m.assets then OptionalPathsOf(m, m.assets[POLICY_PATH].of) else {}
  }

  lemma VerifiedPolicyIsThePolicy(m: Manifest, policyBytes: Bytes)
    requires Verifies(m, POLICY_PATH, policyBytes)
    ensures OptionalPathsOf(m, policyBytes) == OptionalPaths(m)
  {}

  function RequiredPaths(m: Manifest): set<Path> {
    m.assets.Keys - OptionalPaths(m)
  }

  // -------------------------------------------------------------------------
  // Cache storage: names lead to caches, and a handle outlives its name
  // -------------------------------------------------------------------------

  type Store = map<Path, Bytes>

  datatype Disk = Disk(
    names: map<CacheName, nat>,
    stores: map<nat, Store>,
    owners: map<nat, CacheName>,     // the name each cache was opened under
    nextId: nat)

  function OpenedId(d: Disk, name: CacheName): nat {
    if name in d.names then d.names[name] else d.nextId
  }

  function Open(d: Disk, name: CacheName): Disk {
    if name in d.names then d
    else Disk(d.names[name := d.nextId], d.stores[d.nextId := map[]], d.owners[d.nextId := name], d.nextId + 1)
  }

  function Delete(d: Disk, name: CacheName): Disk {
    d.(names := d.names - {name})
  }

  function Put(d: Disk, id: nat, path: Path, bytes: Bytes): Disk {
    if id in d.stores then d.(stores := d.stores[id := d.stores[id][path := bytes]]) else d
  }

  function Remove(d: Disk, id: nat, path: Path): Disk {
    if id in d.stores then d.(stores := d.stores[id := d.stores[id] - {path}]) else d
  }

  /** `verifiedCachedBytes` finds the asset in the cache behind the handle. */
  predicate HoldsVerified(d: Disk, id: nat, m: Manifest, path: Path) {
    id in d.stores && path in d.stores[id] && Verifies(m, path, d.stores[id][path])
  }

  // -------------------------------------------------------------------------
  // The worker
  // -------------------------------------------------------------------------

  datatype Op =
    | Activate(signer: Signer, minimum: nat)
    | Refresh
    | Revalidate(expected: Record)
    | Reset
    | Plugin

  datatype Queued = Queued(op: Op, epoch: nat, ticket: nat)

  datatype Job = Job(signer: Signer, minimum: nat, epoch: nat, ticket: nat)

  datatype Act = Act(
    job: Job, previous: Option<Record>, manifest: Manifest, name: CacheName, staging: nat, reusable: Option<nat>)

  /** Where the trust operation that is running is suspended. */
  datatype Running =
    | Idle
    | RefreshReading(expected: Option<Record>, epoch: nat, ticket: nat)
    | Reading(job: Job)
    | Fetching(job: Job, previous: Option<Record>)
    | OpeningStaging(act: Act)
    | ProbingReusable(act: Act)
    | OpeningReusable(act: Act)
    | StagingPolicy(act: Act)
    | ProbingPolicy(act: Act)
    | Checking(act: Act, todo: set<Path>, complete: bool)
    | Copying(act: Act, todo: set<Path>)
    | CopyingOptional(act: Act)
    | Committing(act: Act, next: Record, full: bool, started: nat)
    | Listing(act: Act)
    | Sweeping(act: Act, doomed: set<CacheName>)
    | Discarding(act: Act)
    | Clearing(ticket: nat)
    | ClearingList(ticket: nat)
    | ClearingSweep(ticket: nat, doomed: set<CacheName>)
    | PluginBusy(ticket: nat)

  datatype LazyKey = LazyKey(cacheName: CacheName, digest: ManifestDigest, path: Path)

  /** Where a lazy optional download is suspended. */
  datatype LazyPc =
    | Downloading
    | FirstRead
    | FirstChecked(seen: Option<Record>)
    | OpeningCache
    | Caching(id: nat)
    | SecondRead(id: nat)
    | SecondChecked(id: nat, seen: Option<Record>)
    | DeletingCache
    | DeletingAsset(id: nat)

  datatype Lazy = Lazy(record: Record, epoch: nat, pc: LazyPc)

  datatype Birth = Birth(manifest: Manifest, epoch: nat)

  /** What happened to the durable record. */
  datatype Entry =
    | Committed(record: Record, ticket: nat, queuedIn: nat, startedIn: nat)
    | Cleared(ticket: nat)

  datatype Ledger = Ledger(
    births: map<CacheName, Birth>,   // which manifest each bundle cache was created for, and when
    seen: set<Record>,               // every record that was ever active
    log: seq<Entry>,
    assured: bool)                   // the record was complete at the start, or was committed since

  /** The serialized part: the queue, the running operation and the durable record. */
  datatype Trust = Trust(
    epoch: nat,
    nextTicket: nat,
    queue: seq<Queued>,
    running: Running,
    record: Option<Record>,
    ledger: Ledger)

  datatype Worker = Worker(trust: Trust, disk: Disk, lazies: map<LazyKey, Lazy>)

  datatype Event =
    | Post(op: Op)
    | PostReset
    | StartNext
    | RefreshRead
    | PreviousRead
    | ManifestArrives(manifest: Option<Manifest>, uuid: nat)
    | StagingOpens
    | ReusableProbed
    | ReusableOpens
    | PolicyStaged
    | PolicyProbed
    | AssetChecked(path: Path)
    | ChecksFinish
    | AssetCopied(path: Path)
    | CopiesFinish
    | OptionalCopied(path: Path)
    | OptionalFinish
    | StageFails
    | CommitLands
    | KeysListed
    | CacheSwept(name: CacheName)
    | StagingDeleted
    | RecordClears
    | ClearingKeysListed
    | ClearingSwept(name: CacheName)
    | OperationEnds
    | LazyStarts(record: Record, path: Path)
    | LazyDownloaded(key: LazyKey, ok: bool)
    | LazyReads(key: LazyKey)
    | LazyContinues(key: LazyKey)
    | LazyOpens(key: LazyKey)
    | LazyPuts(key: LazyKey)
    | LazyDeletes(key: LazyKey)
    | ResponseOpens(record: Record)

  function At(s: Worker, running: Running): Worker {
    s.(trust := s.trust.(running := running))
  }

  function Enqueued(t: Trust, op: Op): Trust {
    t.(queue := t.queue + [Queued(op, t.epoch, t.nextTicket)], nextTicket := t.nextTicket + 1)
  }

  function PostNow(s: Worker, op: Op): Worker {
    s.(trust := Enqueued(s.trust, op))
  }

  /** A reset message: the epoch rises before the reset is queued. */
  function PostResetNow(s: Worker): Worker {
    s.(trust := Enqueued(s.trust.(epoch := s.trust.epoch + 1), Reset))
  }

  /** The first stretch of `activateBundle`: a stale epoch ends it at once. */
  function Enter(s: Worker, job: Job): Worker {
    At(s, if job.epoch != s.trust.epoch then Idle else Reading(job))
  }

  function StartNextNow(s: Worker): Worker {
    if !s.trust.running.Idle? || s.trust.queue == [] then s
    else
      var q, taken := s.trust.queue[0], s.(trust := s.trust.(queue := s.trust.queue[1..]));
      match q.op
      case Activate(signer, minimum) => Enter(taken, Job(signer, minimum, q.epoch, q.ticket))
      case Refresh => At(taken, RefreshReading(None, q.epoch, q.ticket))
      case Revalidate(expected) => At(taken, RefreshReading(Some(expected), q.epoch, q.ticket))
      case Reset => At(taken, Clearing(q.ticket))
      case Plugin => At(taken, PluginBusy(q.ticket))
  }

  function RefreshReadNow(s: Worker): Worker {
    if !s.trust.running.RefreshReading? then s
    else
      var r := s.trust.running;
      if s.trust.record.None? || (r.expected.Some?
         && (s.trust.record.value.cacheName != r.expected.value.cacheName
             || s.trust.record.value.signer != r.expected.value.signer))
      then At(s, Idle)
      else Enter(s, Job(s.trust.record.value.signer, s.trust.record.value.revision, r.epoch, r.ticket))
  }

  function PreviousReadNow(s: Worker): Worker {
    if !s.trust.running.Reading? then s
    else if s.trust.record.Some? && s.trust.record.value.signer != s.trust.running.job.signer then At(s, Idle)
    else At(s, Fetching(s.trust.running.job, s.trust.record))
  }

  function Floor(minimum: nat, previous: Option<Record>): nat {
    if previous.Some? && previous.value.revision > minimum then previous.value.revision else minimum
  }

  predicate FreshName(s: Worker, name: CacheName) {
    name !in s.trust.ledger.births && name !in s.disk.names && name !in s.disk.owners.Values
  }

  /** The manifest is refused, or authenticated and given a fresh staging cache name. */
  function ManifestArrivesNow(s: Worker, manifest: Option<Manifest>, uuid: nat): Worker {
    if !s.trust.running.Fetching? then s
    else
      var job, previous := s.trust.running.job, s.trust.running.previous;
      if manifest.None? || manifest.value.revision < Floor(job.minimum, previous) then At(s, Idle)
      else
        var m := manifest.value;
        var name := Bundle(m.revision, uuid);
        if previous.Some? && previous.value.revision == m.revision && previous.value.digest != ManifestSha256(m)
        then At(s, Idle)
        else if !FreshName(s, name) then s
        else s.(trust := s.trust.(
          running := OpeningStaging(Act(job, previous, m, name, 0, None)),
          ledger := s.trust.ledger.(births := s.trust.ledger.births[name := Birth(m, job.epoch)])))
  }

  function StagingOpensNow(s: Worker): Worker {
    if !s.trust.running.OpeningStaging? then s
    else
      var act := s.trust.running.act.(staging := OpenedId(s.disk, s.trust.running.act.name));
      At(s.(disk := Open(s.disk, act.name)),
         if act.previous.Some? then ProbingReusable(act) else StagingPolicy(act))
  }

  function ReusableProbedNow(s: Worker): Worker {
    if !s.trust.running.ProbingReusable? || s.trust.running.act.previous.None? then s
    else
      var act := s.trust.running.act;
      At(s, if act.previous.value.cacheName in s.disk.names then OpeningReusable(act) else StagingPolicy(act))
  }

  function ReusableOpensNow(s: Worker): Worker {
    if !s.trust.running.OpeningReusable? || s.trust.running.act.previous.None? then s
    else
      var act := s.trust.running.act;
      var name := act.previous.value.cacheName;
      At(s.(disk := Open(s.disk, name)),
         StagingPolicy(act.(reusable := Some(OpenedId(s.disk, name)))))
  }

  /** Required assets the staging cache still lacks once the policy is in. */
  function ToCopy(m: Manifest): set<Path> {
    RequiredPaths(m) - {POLICY_PATH}
  }

  predicate MayReuse(act: Act) {
    act.previous.Some? && act.previous.value.revision == act.manifest.revision && act.reusable.Some?
  }

  function AfterPolicy(act: Act): Running {
    if !MayReuse(act) then Copying(act, ToCopy(act.manifest))
    else if POLICY_PATH in act.manifest.assets then ProbingPolicy(act)
    else Checking(act, ToCopy(act.manifest), true)
  }

  function PolicyStagedNow(s: Worker): Worker {
    if !s.trust.running.StagingPolicy? then s
    else
      var act := s.trust.running.act;
      var m := act.manifest;
      var disk := if POLICY_PATH in m.assets
                  then Put(s.disk, act.staging, POLICY_PATH, m.assets[POLICY_PATH].of)
                  else s.disk;
      At(s.(disk := disk), AfterPolicy(act))
  }

  function PolicyProbedNow(s: Worker): Worker {
    if !s.trust.running.ProbingPolicy? || s.trust.running.act.reusable.None? then s
    else
      var act := s.trust.running.act;
      At(s, if HoldsVerified(s.disk, act.reusable.value, act.manifest, POLICY_PATH)
            then Checking(act, ToCopy(act.manifest), true)
            else Copying(act, ToCopy(act.manifest)))
  }

  function AssetCheckedNow(s: Worker, path: Path): Worker {
    if !s.trust.running.Checking? || path !in s.trust.running.todo || s.trust.running.act.reusable.None? then s
    else
      var r := s.trust.running;
      At(s, Checking(
        r.act, r.todo - {path},
        r.complete && HoldsVerified(s.disk, r.act.reusable.value, r.act.manifest, path)))
  }

  function ChecksFinishNow(s: Worker): Worker {
    if !s.trust.running.Checking? || s.trust.running.todo != {} || s.trust.running.act.previous.None? then s
    else
      var act := s.trust.running.act;
      if !s.trust.running.complete then At(s, Copying(act, ToCopy(act.manifest)))
      else if act.job.epoch != s.trust.epoch then At(s, Discarding(act))
      else
        var next := act.previous.value.(manifest := act.manifest, optional := OptionalPaths(act.manifest));
        At(s, Committing(act, next, false, s.trust.epoch))
  }

  function AssetCopiedNow(s: Worker, path: Path): Worker {
    if !s.trust.running.Copying? || path !in s.trust.running.todo || path !in s.trust.running.act.manifest.assets then s
    else
      var r := s.trust.running;
      At(s.(disk := Put(s.disk, r.act.staging, path, r.act.manifest.assets[path].of)),
         Copying(r.act, r.todo - {path}))
  }

  function CopiesFinishNow(s: Worker): Worker {
    if !s.trust.running.Copying? || s.trust.running.todo != {} then s
    else At(s, CopyingOptional(s.trust.running.act))
  }

  function OptionalCopiedNow(s: Worker, path: Path): Worker {
    if !s.trust.running.CopyingOptional? || path !in OptionalPaths(s.trust.running.act.manifest)
       || path !in s.trust.running.act.manifest.assets then s
    else
      var act := s.trust.running.act;
      s.(disk := Put(s.disk, act.staging, path, act.manifest.assets[path].of))
  }

  function OptionalFinishNow(s: Worker): Worker {
    if !s.trust.running.CopyingOptional? then s
    else
      var act := s.trust.running.act;
      var m := act.manifest;
      if act.job.epoch != s.trust.epoch then At(s, Discarding(act))
      else
        var next := Record(act.job.signer, ManifestSha256(m), m.revision, act.name, m, OptionalPaths(m));
        At(s, Committing(act, next, true, s.trust.epoch))
  }

  /** A stretch threw, or the commit was rejected: only from staging on is the staging cache deleted. */
  function StageFailsNow(s: Worker): Worker {
    if s.trust.running.RefreshReading? || s.trust.running.Reading? || s.trust.running.OpeningStaging?
       || s.trust.running.ProbingReusable? || s.trust.running.OpeningReusable?
    then At(s, Idle)
    else if s.trust.running.StagingPolicy? || s.trust.running.ProbingPolicy? || s.trust.running.Checking? || s.trust.running.Copying?
         || s.trust.running.CopyingOptional? || s.trust.running.Committing?
    then At(s, Discarding(s.trust.running.act))
    else s
  }

  function CommitLandsNow(s: Worker): Worker {
    if !s.trust.running.Committing? then s
    else
      var r := s.trust.running;
      s.(trust := s.trust.(
        record := Some(r.next),
        running := if r.full then Listing(r.act) else Discarding(r.act),
        ledger := s.trust.ledger.(
          seen := s.trust.ledger.seen + {r.next},
          log := s.trust.ledger.log + [Committed(r.next, r.act.job.ticket, r.act.job.epoch, r.started)],
          assured := true)))
  }

  function KeysListedNow(s: Worker): Worker {
    if !s.trust.running.Listing? then s
    else
      var act := s.trust.running.act;
      var doomed := set n | n in s.disk.names && n.Bundle? && n != act.name
                            && (act.previous.None? || n != act.previous.value.cacheName);
      At(s, Sweeping(act, doomed))
  }

  function CacheSweptNow(s: Worker, name: CacheName): Worker {
    if !s.trust.running.Sweeping? || name !in s.trust.running.doomed then s
    else At(s.(disk := Delete(s.disk, name)), Sweeping(s.trust.running.act, s.trust.running.doomed - {name}))
  }

  function StagingDeletedNow(s: Worker): Worker {
    if !s.trust.running.Discarding? then s
    else At(s.(disk := Delete(s.disk, s.trust.running.act.name)), Idle)
  }

  function RecordClearsNow(s: Worker): Worker {
    if !s.trust.running.Clearing? then s
    else s.(trust := s.trust.(
      record := None,
      running := ClearingList(s.trust.running.ticket),
      ledger := s.trust.ledger.(log := s.trust.ledger.log + [Cleared(s.trust.running.ticket)])))
  }

  function ClearingKeysListedNow(s: Worker): Worker {
    if !s.trust.running.ClearingList? then s
    else
      var doomed := set n | n in s.disk.names && (n.Bundle? || n.PluginCache?);
      At(s, ClearingSweep(s.trust.running.ticket, doomed))
  }

  function ClearingSweptNow(s: Worker, name: CacheName): Worker {
    if !s.trust.running.ClearingSweep? || name !in s.trust.running.doomed then s
    else At(s.(disk := Delete(s.disk, name)),
            ClearingSweep(s.trust.running.ticket, s.trust.running.doomed - {name}))
  }

  predicate MayEnd(r: Running) {
    r.Listing? || r.Sweeping? || r.ClearingList? || r.ClearingSweep? || r.PluginBusy?
  }

  function OperationEndsNow(s: Worker): Worker {
    if MayEnd(s.trust.running) then At(s, Idle) else s
  }

  // ---- lazy optional downloads ---------------------------------------------

  function LazyStartsNow(s: Worker, record: Record, path: Path): Worker {
    var key := LazyKey(record.cacheName, record.digest, path);
    if record !in s.trust.ledger.seen || path !in OptionalPaths(record.manifest) || key in s.lazies then s
    else s.(lazies := s.lazies[key := Lazy(record, s.trust.epoch, Downloading)])
  }

  function LazyMoves(s: Worker, key: LazyKey, pc: LazyPc): Worker
    requires key in s.lazies
  {
    s.(lazies := s.lazies[key := s.lazies[key].(pc := pc)])
  }

  function LazyEnds(s: Worker, key: LazyKey): Worker {
    s.(lazies := s.lazies - {key})
  }

  function LazyDownloadedNow(s: Worker, key: LazyKey, ok: bool): Worker {
    if key !in s.lazies || !s.lazies[key].pc.Downloading? then s
    else if !ok then LazyEnds(s, key)
    else LazyMoves(s, key, FirstRead)
  }

  function LazyReadsNow(s: Worker, key: LazyKey): Worker {
    if key !in s.lazies then s
    else match s.lazies[key].pc
      case FirstRead => LazyMoves(s, key, FirstChecked(s.trust.record))
      case SecondRead(id) => LazyMoves(s, key, SecondChecked(id, s.trust.record))
      case _ => s
  }

  predicate StillActive(l: Lazy, seen: Option<Record>, epoch: nat) {
    && l.epoch == epoch
    && seen.Some?
    && seen.value.cacheName == l.record.cacheName
    && seen.value.digest == l.record.digest
  }

  function LazyContinuesNow(s: Worker, key: LazyKey): Worker {
    if key !in s.lazies then s
    else
      var l := s.lazies[key];
      match l.pc
      case FirstChecked(seen) =>
        if StillActive(l, seen, s.trust.epoch) then LazyMoves(s, key, OpeningCache) else LazyEnds(s, key)
      case SecondChecked(id, seen) =>
        if StillActive(l, seen, s.trust.epoch) then LazyEnds(s, key)
        else if l.epoch != s.trust.epoch then LazyMoves(s, key, DeletingCache)
        else LazyMoves(s, key, DeletingAsset(id))
      case _ => s
  }

  function LazyOpensNow(s: Worker, key: LazyKey): Worker {
    if key !in s.lazies || !s.lazies[key].pc.OpeningCache? then s
    else
      var name := s.lazies[key].record.cacheName;
      LazyMoves(s, key, Caching(OpenedId(s.disk, name))).(disk := Open(s.disk, name))
  }

  function LazyPutsNow(s: Worker, key: LazyKey): Worker {
    if key !in s.lazies || !s.lazies[key].pc.Caching? then s
    else
      var l := s.lazies[key];
      if key.path !in l.record.manifest.assets then s
      else LazyMoves(s, key, SecondRead(l.pc.id)).(
        disk := Put(s.disk, l.pc.id, key.path, l.record.manifest.assets[key.path].of))
  }

  function LazyDeletesNow(s: Worker, key: LazyKey): Worker {
    if key !in s.lazies then s
    else match s.lazies[key].pc
      case DeletingCache => LazyEnds(s, key).(disk := Delete(s.disk, s.lazies[key].record.cacheName))
      case DeletingAsset(id) => LazyEnds(s, key).(disk := Remove(s.disk, id, key.path))
      case _ => s
  }

  /** A page response opens its record's cache by name. */
  function ResponseOpensNow(s: Worker, record: Record): Worker {
    s.(disk := Open(s.disk, record.cacheName))
  }

  function Next(s: Worker, e: Event): Worker {
    match e
    case Post(op) => if op == Reset then s else PostNow(s, op)
    case PostReset => PostResetNow(s)
    case StartNext => StartNextNow(s)
    case RefreshRead => RefreshReadNow(s)
    case PreviousRead => PreviousReadNow(s)
    case ManifestArrives(manifest, uuid) => ManifestArrivesNow(s, manifest, uuid)
    case StagingOpens => StagingOpensNow(s)
    case ReusableProbed => ReusableProbedNow(s)
    case ReusableOpens => ReusableOpensNow(s)
    case PolicyStaged => PolicyStagedNow(s)
    case PolicyProbed => PolicyProbedNow(s)
    case AssetChecked(path) => AssetCheckedNow(s, path)
    case ChecksFinish => ChecksFinishNow(s)
    case AssetCopied(path) => AssetCopiedNow(s, path)
    case CopiesFinish => CopiesFinishNow(s)
    case OptionalCopied(path) => OptionalCopiedNow(s, path)
    case OptionalFinish => OptionalFinishNow(s)
    case StageFails => StageFailsNow(s)
    case CommitLands => CommitLandsNow(s)
    case KeysListed => KeysListedNow(s)
    case CacheSwept(name) => CacheSweptNow(s, name)
    case StagingDeleted => StagingDeletedNow(s)
    case RecordClears => RecordClearsNow(s)
    case ClearingKeysListed => ClearingKeysListedNow(s)
    case ClearingSwept(name) => ClearingSweptNow(s, name)
    case OperationEnds => OperationEndsNow(s)
    case LazyStarts(record, path) => LazyStartsNow(s, record, path)
    case LazyDownloaded(key, ok) => LazyDownloadedNow(s, key, ok)
    case LazyReads(key) => LazyReadsNow(s, key)
    case LazyContinues(key) => LazyContinuesNow(s, key)
    case LazyOpens(key) => LazyOpensNow(s, key)
    case LazyPuts(key) => LazyPutsNow(s, key)
    case LazyDeletes(key) => LazyDeletesNow(s, key)
    case ResponseOpens(record) => if record in s.trust.ledger.seen then ResponseOpensNow(s, record) else s
  }

  function Run(s: Worker, events: seq<Event>): Worker {
    if events == [] then s else Next(Run(s, events[..|events| - 1]), events[|events| - 1])
  }
}
