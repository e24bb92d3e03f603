// Copying the runtime packages of the desktop artifact and everything they need.
//
// The flat artifact holds one version of each package. Declared packages are
// taken from the root; the rest come from whichever dependent meets them first.
module RuntimeCopy {

  type Dir = string

  datatype Manifest = Manifest(dependencies: seq<string>, peers: seq<string>, optionalPeers: set<string>)

  /** Who asks for a package: the root resolver, or the resolver of a copied package. */
  datatype Require = Root | Of(source: Dir)

  datatype World = World(
    root: Dir,
    resolution: map<(Dir, string), Dir>,   // where a name resolves; absent means that resolving throws
    manifests: map<Dir, Manifest>,         // the packages that can be read and copied
    shallow: set<string>)

  datatype Copied = Copied(name: string, require: Require, source: Dir)

  datatype Outcome = Done | Failed(require: Require, name: string)

  function ResolverDir(w: World, require: Require): Dir {
    if require.Root? then w.root else require.source
  }

  predicate Resolves(w: World, require: Require, name: string) {
    (ResolverDir(w, require), name) in w.resolution
  }

  predicate Loads(w: World, require: Require, name: string) {
    Resolves(w, require, name) && w.resolution[(ResolverDir(w, require), name)] in w.manifests
  }

  /** The names a package brings along: an optional peer only where it resolves. */
  predicate Needs(w: World, source: Dir, name: string) {
    && source in w.manifests
    && (name in w.manifests[source].dependencies
        || (name in w.manifests[source].peers
            && (name in w.manifests[source].optionalPeers ==> Resolves(w, Of(source), name))))
  }

  /** Every name the copier can meet. */
  ghost function Universe(w: World, declared: seq<string>): set<string> {
    (set n | n in declared)
    + (set d, n | d in w.manifests && n in w.manifests[d].dependencies :: n)
    + (set d, n | d in w.manifests && n in w.manifests[d].peers :: n)
  }

  ghost predicate Deep(w: World, c: Copied) {
    c.name !in w.shallow
  }

  /** Why an entry was copied: it was declared, or an earlier deep entry needs it. */
  ghost predicate Justified(w: World, declared: seq<string>, log: seq<Copied>, k: nat)
    requires k < |log|
  {
    match log[k].require
    case Root => log[k].name in declared
    case Of(source) =>
      && log[k].name !in declared
      && Needs(w, source, log[k].name)
      && exists j :: 0 <= j < k && log[j].source == source && Deep(w, log[j])
  }

  /** The log of an artifact: each name once, from where it resolves, for a reason. */
  ghost predicate Artifact(w: World, declared: seq<string>, log: seq<Copied>) {
    && (forall i, j :: 0 <= i < j < |log| ==> log[i].name != log[j].name)
    && (forall k :: 0 <= k < |log| ==>
          && Loads(w, log[k].require, log[k].name)
          && log[k].source == w.resolution[(ResolverDir(w, log[k].require), log[k].name)]
          && Justified(w, declared, log, k))
  }

  ghost predicate Settled(w: World, copied: set<string>, declared: seq<string>, c: Copied) {
    Deep(w, c) ==> forall n :: Needs(w, c.source, n) ==> n in copied || n in declared
  }

  lemma Append(w: World, declared: seq<string>, log: seq<Copied>, c: Copied)
    requires Artifact(w, declared, log)
    requires forall e :: e in log ==> e.name != c.name
    requires Loads(w, c.require, c.name) && c.source == w.resolution[(ResolverDir(w, c.require), c.name)]
    requires c.require == Root ==> c.name in declared
    requires c.require != Root ==> c.name !in declared && Needs(w, c.require.source, c.name)
    requires c.require != Root ==> exists e :: e in log && e.source == c.require.source && Deep(w, e)
    ensures Artifact(w, declared, log + [c])
  {
    var log' := log + [c];
    forall k | 0 <= k < |log'| ensures Justified(w, declared, log', k) {
      if k < |log| {
        assert Justified(w, declared, log, k);
        if log[k].require != Root {
          var j :| 0 <= j < k && log[j].source == log[k].require.source && Deep(w, log[j]);
          assert log'[j] == log[j];
        }
      } else if c.require != Root {
        var e :| e in log && e.source == c.require.source && Deep(w, e);
        var j :| 0 <= j < |log| && log[j] == e;
        assert log'[j] == e;
      }
    }
  }

  /** One finished (recursive) copy: the log grows, and what it gained has all it needs. */
  ghost predicate Extends(w: World, declared: seq<string>, before: seq<Copied>, log: seq<Copied>, copied: set<string>) {
    && before <= log
    && forall k :: |before| <= k < |log| ==> Settled(w, copied, declared, log[k])
  }

  lemma ExtendsTwice(w: World, declared: seq<string>, a: seq<Copied>, b: seq<Copied>, c: seq<Copied>,
                     copied: set<string>, more: set<string>)
    requires Extends(w, declared, a, b, copied) && Extends(w, declared, b, c, more) && copied <= more
    ensures Extends(w, declared, a, c, more)
  {
    forall k | |a| <= k < |c| ensures Settled(w, more, declared, c[k]) {
      if k < |b| {
        assert c[k] == b[k] && Settled(w, copied, declared, b[k]);
      }
    }
  }

  lemma NeededIsInUniverse(w: World, declared: seq<string>, source: Dir, name: string)
    requires Needs(w, source, name)
    ensures name in Universe(w, declared)
  {}

  ghost predicate DependenciesSettled(w: World, declared: seq<string>, copied: set<string>, source: Dir) {
    source in w.manifests
    && forall n :: n in w.manifests[source].dependencies ==> n in copied || n in declared
  }

  ghost predicate PeersSettled(w: World, declared: seq<string>, copied: set<string>, source: Dir) {
    source in w.manifests
    && forall n :: n in w.manifests[source].peers && Needs(w, source, n) ==> n in copied || n in declared
  }

  lemma AllNeedsSettle(w: World, declared: seq<string>, copied: set<string>, entry: Copied)
    requires DependenciesSettled(w, declared, copied, entry.source)
    requires PeersSettled(w, declared, copied, entry.source)
    ensures Settled(w, copied, declared, entry)
  {}

  lemma EntrySettles(w: World, declared: seq<string>, log: seq<Copied>, entry: Copied, copied: set<string>)
    requires Settled(w, copied, declared, entry)
    ensures Extends(w, declared, log, log + [entry], copied)
  {}

  lemma ShallowIsSettled(w: World, declared: seq<string>, log: seq<Copied>, entry: Copied, copied: set<string>)
    requires entry.name in w.shallow
    ensures Extends(w, declared, log, log + [entry], copied)
  {}

  class Copier {
    const w: World
    const declared: seq<string>
    var copied: set<string>
    var log: seq<Copied>     // the packages written to the output tree, in order

    constructor (w: World, declared: seq<string>)
      ensures this.w == w && this.declared == declared && copied == {} && log == []
    {
      this.w, this.declared := w, declared;
      copied, log := {}, [];
    }

    ghost predicate Valid()
      reads this
    {
      && Artifact(w, declared, log)
      && (forall n :: n in copied <==> exists c :: c in log && c.name == n)
    }

    /** Somebody in the artifact is entitled to ask for the name. */
    ghost predicate Asks(require: Require, name: string)
      reads this
    {
      match require
      case Root => name in declared
      case Of(source) => Needs(w, source, name) && exists c :: c in log && c.source == source && Deep(w, c)
    }

    /** A failure is a name somebody asked for that does not load. */
    ghost predicate Honest(outcome: Outcome)
      reads this
    {
      outcome.Failed? ==> Asks(outcome.require, outcome.name) && !Loads(w, outcome.require, outcome.name)
    }

    /** The recursive closure `copy`. */
    method Copy(name: string, require: Require) returns (outcome: Outcome)
      requires Valid() && Asks(require, name)
      modifies this
      ensures Valid() && Honest(outcome) && old(log) <= log && old(copied) <= copied
      ensures outcome.Done? ==> Extends(w, declared, old(log), log, copied)
      ensures outcome.Done? ==> name in copied || (require != Root && name in declared)
      decreases Universe(w, declared) - copied, 0
    {
      hide Artifact, Settled, Universe, Needs;
      if name in copied || (require != Root && name in declared) {
        return Done;
      }
      if !Loads(w, require, name) { return Failed(require, name); }
      var source := w.resolution[(ResolverDir(w, require), name)];
      var entry := Copied(name, require, source);
      AskedIsInUniverse(require, name);
      Append(w, declared, log, entry);
      copied, log := copied + {name}, log + [entry];
      if name in w.shallow {
        ShallowIsSettled(w, declared, old(log), entry, copied);
        return Done;
      }
      ghost var started := log;
      outcome := CopyDependencies(entry);
      if outcome.Failed? { return; }
      ghost var log1, copied1 := log, copied;
      outcome := CopyPeers(entry);
      if outcome.Failed? { return; }
      ExtendsTwice(w, declared, started, log1, log, copied1, copied);
      AllNeedsSettle(w, declared, copied, entry);
      EntrySettles(w, declared, old(log), entry, copied);
      ExtendsTwice(w, declared, old(log), started, log, copied, copied);
    }

    lemma AskedIsInUniverse(require: Require, name: string)
      requires Asks(require, name)
      ensures name in Universe(w, declared)
    {
      if require != Root { NeededIsInUniverse(w, declared, require.source, name); }
    }

    ghost predicate Entered(entry: Copied)
      reads this
    {
      Valid() && entry in log && entry.source in w.manifests && Deep(w, entry)
    }

    /** The loop of `copy` over the dependencies of the package it has just copied. */
    method CopyDependencies(entry: Copied) returns (outcome: Outcome)
      requires Entered(entry)
      modifies this
      ensures Entered(entry) && Honest(outcome) && old(log) <= log && old(copied) <= copied
      ensures outcome.Done? ==> Extends(w, declared, old(log), log, copied)
      ensures outcome.Done? ==> DependenciesSettled(w, declared, copied, entry.source)
      decreases Universe(w, declared) - copied, 1
    {
      hide Artifact, Settled, Universe, Loads;
      var names := w.manifests[entry.source].dependencies;
      outcome := Done;
      for i := 0 to |names|
        invariant Entered(entry) && old(log) <= log && old(copied) <= copied && outcome == Done
        invariant Extends(w, declared, old(log), log, copied)
        invariant forall k :: 0 <= k < i ==> names[k] in copied || names[k] in declared
      {
        ghost var log1, copied1 := log, copied;
        outcome := Copy(names[i], Of(entry.source));
        if outcome.Failed? { return; }
        ExtendsTwice(w, declared, old(log), log1, log, copied1, copied);
      }
    }

    /** The loop of `copy` over the peers: an optional peer that does not resolve is passed over. */
    method CopyPeers(entry: Copied) returns (outcome: Outcome)
      requires Entered(entry) && DependenciesSettled(w, declared, copied, entry.source)
      modifies this
      ensures Entered(entry) && Honest(outcome) && old(log) <= log && old(copied) <= copied
      ensures outcome.Done? ==> Extends(w, declared, old(log), log, copied)
      ensures outcome.Done? ==> DependenciesSettled(w, declared, copied, entry.source)
      ensures outcome.Done? ==> PeersSettled(w, declared, copied, entry.source)
      decreases Universe(w, declared) - copied, 1
    {
      hide Artifact, Settled, Universe, Loads;
      var manifest := w.manifests[entry.source];
      var peers := manifest.peers;
      outcome := Done;
      for i := 0 to |peers|
        invariant Entered(entry) && old(log) <= log && old(copied) <= copied && outcome == Done
        invariant Extends(w, declared, old(log), log, copied)
        invariant forall k :: 0 <= k < i && Needs(w, entry.source, peers[k]) ==> peers[k] in copied || peers[k] in declared
      {
        if peers[i] in manifest.optionalPeers && !Resolves(w, Of(entry.source), peers[i]) {
          continue;
        }
        ghost var log1, copied1 := log, copied;
        outcome := Copy(peers[i], Of(entry.source));
        if outcome.Failed? { return; }
        ExtendsTwice(w, declared, old(log), log1, log, copied1, copied);
      }
    }
  }

  /** A finished artifact: complete, and with every declared package in it. */
  ghost predicate Complete(w: World, declared: seq<string>, log: seq<Copied>, copied: set<string>) {
    && (forall n :: n in copied <==> exists c :: c in log && c.name == n)
    && (forall n :: n in declared ==> n in copied)
    && (forall c :: c in log && Deep(w, c) ==> forall n :: Needs(w, c.source, n) ==> n in copied)
  }

  /** The artifact, or the first package somebody in it asked for that could not be copied. */
  method CopyRuntimePackages(w: World, declared: seq<string>)
    returns (outcome: Outcome, log: seq<Copied>, copied: set<string>)
    ensures Artifact(w, declared, log)
    ensures outcome.Done? ==> Complete(w, declared, log, copied)
    ensures outcome.Failed? ==> !Loads(w, outcome.require, outcome.name)
    ensures outcome.Failed? ==>
      match outcome.require
      case Root => outcome.name in declared
      case Of(source) => Needs(w, source, outcome.name) && exists c :: c in log && c.source == source && Deep(w, c)
  {
    var copier := new Copier(w, declared);
    outcome := Done;
    for i := 0 to |declared|
      invariant copier.w == w && copier.declared == declared && copier.Valid() && outcome == Done
      invariant Extends(w, declared, [], copier.log, copier.copied)
      invariant forall k :: 0 <= k < i ==> declared[k] in copier.copied
    {
      ghost var log1, copied1 := copier.log, copier.copied;
      outcome := copier.Copy(declared[i], Root);
      if outcome.Failed? { return outcome, copier.log, copier.copied; }
      ExtendsTwice(w, declared, [], log1, copier.log, copied1, copier.copied);
    }
    log, copied := copier.log, copier.copied;
    forall c | c in log && Deep(w, c) ensures forall n :: Needs(w, c.source, n) ==> n in copied {
      var k :| 0 <= k < |log| && log[k] == c;
      assert Settled(w, copied, declared, log[k]);
    }
  }

  /** A declared package in the artifact is the root's version, never a dependent's. */
  lemma DeclaredRootWins(w: World, declared: seq<string>, log: seq<Copied>, c: Copied)
    requires Artifact(w, declared, log) && c in log
    ensures c.name in declared <==> c.require == Root
    ensures c.name in declared ==> (w.root, c.name) in w.resolution && c.source == w.resolution[(w.root, c.name)]
  {
    var k :| 0 <= k < |log| && log[k] == c;
    assert Justified(w, declared, log, k);
  }

  ghost predicate IsChain(w: World, declared: seq<string>, log: seq<Copied>, chain: seq<Copied>) {
    && chain != [] && chain[0].name in declared && chain[0].require == Root
    && (forall i :: 0 <= i < |chain| ==> chain[i] in log)
    && (forall i :: 0 <= i < |chain| - 1 ==>
          Deep(w, chain[i]) && chain[i + 1].require == Of(chain[i].source) && Needs(w, chain[i].source, chain[i + 1].name))
  }

  /** Nothing is copied without a chain of needs that starts at a declared package. */
  lemma {:induction false} EveryCopyIsNeeded(w: World, declared: seq<string>, log: seq<Copied>, k: nat)
    returns (chain: seq<Copied>)
    requires Artifact(w, declared, log) && k < |log|
    ensures IsChain(w, declared, log, chain) && chain[|chain| - 1] == log[k]
  {
    assert Justified(w, declared, log, k);
    if log[k].require == Root {
      chain := [log[k]];
    } else {
      var j :| 0 <= j < k && log[j].source == log[k].require.source && Deep(w, log[j]);
      chain := EveryCopyIsNeeded(w, declared, log, j);
      chain := chain + [log[k]];
    }
  }
}
