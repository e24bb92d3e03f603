// The worklist that finds the native packages behind a set of extension entries.
module NativePackages {
  import opened Common

  type Dir = string

  datatype Package = Package(name: string, dependencies: seq<string>)

  /** The file system as the walk sees it. */
  datatype World = World(
    owners: map<string, Dir>,               // the package directory that owns an entry file
    links: map<Dir, Dir>,                   // directories that are symbolic links
    manifests: map<Dir, Package>,           // directories whose package.json is a readable record
    resolution: map<(Dir, string), Dir>)    // a dependency's package directory, where it resolves

  const NATIVE_NAMES := {
    "@tursodatabase/database", "sqlite-vec", "ruvector-onnx-embeddings-wasm", "@napi-rs/keyring"
  }

  function Canonical(w: World, d: Dir): Dir {
    if d in w.links then w.links[d] else d
  }

  predicate Native(w: World, d: Dir) {
    d in w.manifests && w.manifests[d].name in NATIVE_NAMES
  }

  // -------------------------------------------------------------------------
  // Reachability
  // -------------------------------------------------------------------------

  /** `owner` has a manifest, is not native, and one of its dependencies resolves to `d`. */
  ghost predicate Depends(w: World, owner: Dir, d: Dir) {
    && owner in w.manifests && !Native(w, owner)
    && exists name :: name in w.manifests[owner].dependencies
                      && (owner, name) in w.resolution && Canonical(w, w.resolution[(owner, name)]) == d
  }

  ghost predicate Starts(w: World, entries: seq<string>, d: Dir) {
    exists entry :: entry in entries && entry in w.owners && Canonical(w, w.owners[entry]) == d
  }

  ghost predicate IsPath(w: World, entries: seq<string>, path: seq<Dir>) {
    && path != [] && Starts(w, entries, path[0])
    && forall i :: 0 <= i < |path| - 1 ==> Depends(w, path[i], path[i + 1])
  }

  /** Some path leads from an entry to `d` through packages that are not native. */
  ghost predicate Reachable(w: World, entries: seq<string>, d: Dir) {
    exists path :: IsPath(w, entries, path) && path[|path| - 1] == d
  }

  lemma ReachableStart(w: World, entries: seq<string>, d: Dir)
    requires Starts(w, entries, d)
    ensures Reachable(w, entries, d)
  {
    assert IsPath(w, entries, [d]);
  }

  lemma ReachableNext(w: World, entries: seq<string>, owner: Dir, d: Dir)
    requires Reachable(w, entries, owner) && Depends(w, owner, d)
    ensures Reachable(w, entries, d)
  {
    var path :| IsPath(w, entries, path) && path[|path| - 1] == owner;
    assert IsPath(w, entries, path + [d]);
  }

  /** A set that holds the starts and is closed under dependencies holds all that is reachable. */
  lemma {:induction false} ClosedHoldsPath(w: World, entries: seq<string>, closed: set<Dir>, path: seq<Dir>)
    requires forall d :: Starts(w, entries, d) ==> d in closed
    requires forall owner, d :: owner in closed && Depends(w, owner, d) ==> d in closed
    requires IsPath(w, entries, path)
    ensures path[|path| - 1] in closed
  {
    if |path| > 1 {
      var front := path[..|path| - 1];
      assert IsPath(w, entries, front);
      ClosedHoldsPath(w, entries, closed, front);
      assert Depends(w, path[|path| - 2], path[|path| - 1]);
    }
  }

  // -------------------------------------------------------------------------
  // The walk
  // -------------------------------------------------------------------------

  ghost predicate Pending(w: World, queue: seq<Dir>, d: Dir) {
    exists q :: q in queue && Canonical(w, q) == d
  }

  /** The queue that `entries.map(packageManifestDirectory)` leaves after dropping the missing. */
  method Enqueue(w: World, entries: seq<string>) returns (queue: seq<Dir>)
    ensures forall d :: Pending(w, queue, d) <==> Starts(w, entries, d)
  {
    queue := [];
    for n := 0 to |entries|
      invariant forall q :: q in queue <==> exists e :: e in entries[..n] && e in w.owners && w.owners[e] == q
    {
      if entries[n] in w.owners { queue := queue + [w.owners[entries[n]]]; }
      assert entries[..n + 1] == entries[..n] + [entries[n]];
    }
    assert entries[..|entries|] == entries;
    forall d ensures Pending(w, queue, d) <==> Starts(w, entries, d) {
      if Starts(w, entries, d) {
        var e :| e in entries && e in w.owners && Canonical(w, w.owners[e]) == d;
        assert w.owners[e] in queue;
      }
    }
  }

  /** Where the names resolve, in their order, the missing ones dropped. */
  function Resolutions(w: World, owner: Dir, names: seq<string>): seq<Dir> {
    if names == [] then []
    else
      var front, last := names[..|names| - 1], names[|names| - 1];
      Resolutions(w, owner, front) + if (owner, last) in w.resolution then [w.resolution[(owner, last)]] else []
  }

  lemma {:induction false} ResolutionsResolve(w: World, owner: Dir, names: seq<string>)
    ensures forall q :: q in Resolutions(w, owner, names) <==>
      exists name :: name in names && (owner, name) in w.resolution && w.resolution[(owner, name)] == q
  {
    if names != [] {
      var front, last := names[..|names| - 1], names[|names| - 1];
      ResolutionsResolve(w, owner, front);
      assert names == front + [last];
    }
  }

  /** The resolved dependencies of one package, in order. */
  method Dependencies(w: World, owner: Dir) returns (found: seq<Dir>)
    requires owner in w.manifests && !Native(w, owner)
    ensures found == Resolutions(w, owner, w.manifests[owner].dependencies)
    ensures forall d :: Pending(w, found, d) <==> Depends(w, owner, d)
  {
    found := [];
    var names := w.manifests[owner].dependencies;
    for n := 0 to |names|
      invariant found == Resolutions(w, owner, names[..n])
    {
      if (owner, names[n]) in w.resolution { found := found + [w.resolution[(owner, names[n])]]; }
      assert names[..n + 1][..n] == names[..n];
    }
    assert names[..|names|] == names;
    ResolutionsResolve(w, owner, names);
    forall d ensures Pending(w, found, d) <==> Depends(w, owner, d) {
      if Depends(w, owner, d) {
        var name :| name in names && (owner, name) in w.resolution && Canonical(w, w.resolution[(owner, name)]) == d;
        assert w.resolution[(owner, name)] in found;
      }
    }
  }

  /** What is visited or pending is reachable, and nothing reachable is beyond it. */
  ghost predicate Frontier(w: World, entries: seq<string>, queue: seq<Dir>, visited: set<Dir>) {
    && (forall d :: d in visited || Pending(w, queue, d) ==> Reachable(w, entries, d))
    && (forall d :: Starts(w, entries, d) ==> d in visited || Pending(w, queue, d))
    && (forall owner, d :: owner in visited && Depends(w, owner, d) ==> d in visited || Pending(w, queue, d))
  }

  lemma PendingCons(w: World, queue: seq<Dir>, d: Dir)
    requires queue != []
    ensures Pending(w, queue, d) <==> d == Canonical(w, queue[0]) || Pending(w, queue[1..], d)
  {
    assert queue == [queue[0]] + queue[1..];
    assert queue[0] in queue;
    if Pending(w, queue[1..], d) {
      var q :| q in queue[1..] && Canonical(w, q) == d;
      assert q in queue;
    }
  }

  lemma PendingAppend(w: World, a: seq<Dir>, b: seq<Dir>, d: Dir)
    ensures Pending(w, a + b, d) <==> Pending(w, a, d) || Pending(w, b, d)
  {
    if Pending(w, a, d) {
      var q :| q in a && Canonical(w, q) == d;
      assert q in a + b;
    }
    if Pending(w, b, d) {
      var q :| q in b && Canonical(w, q) == d;
      assert q in a + b;
    }
  }

  lemma SkipVisited(w: World, entries: seq<string>, queue: seq<Dir>, visited: set<Dir>)
    requires queue != [] && Frontier(w, entries, queue, visited) && Canonical(w, queue[0]) in visited
    ensures Frontier(w, entries, queue[1..], visited)
  {
    hide Pending, Reachable, Starts, Depends;
    forall d ensures Pending(w, queue, d) <==> d == Canonical(w, queue[0]) || Pending(w, queue[1..], d) {
      PendingCons(w, queue, d);
    }
  }

  lemma Visit(w: World, entries: seq<string>, queue: seq<Dir>, visited: set<Dir>, more: seq<Dir>)
    requires queue != [] && Frontier(w, entries, queue, visited)
    requires forall d :: Pending(w, more, d) <==> Depends(w, Canonical(w, queue[0]), d)
    ensures Frontier(w, entries, queue[1..] + more, visited + {Canonical(w, queue[0])})
  {
    hide Pending, Reachable, Starts, Depends;
    var directory, rest := Canonical(w, queue[0]), queue[1..];
    var next := rest + more;
    forall d
      ensures Pending(w, queue, d) <==> d == directory || Pending(w, rest, d)
      ensures Pending(w, next, d) <==> Pending(w, rest, d) || Pending(w, more, d)
    {
      PendingCons(w, queue, d);
      PendingAppend(w, rest, more, d);
    }
    assert Reachable(w, entries, directory) by { assert Pending(w, queue, directory); }
    forall d | Depends(w, directory, d) ensures Reachable(w, entries, d) {
      ReachableNext(w, entries, directory, d);
    }
  }

  lemma Begin(w: World, entries: seq<string>, queue: seq<Dir>)
    requires forall d :: Pending(w, queue, d) <==> Starts(w, entries, d)
    ensures Frontier(w, entries, queue, {})
  {
    hide Pending, Starts, Reachable;
    forall d | Starts(w, entries, d) ensures Reachable(w, entries, d) { ReachableStart(w, entries, d); }
  }

  lemma Exhausted(w: World, entries: seq<string>, visited: set<Dir>)
    requires Frontier(w, entries, [], visited)
    ensures forall d :: d in visited <==> Reachable(w, entries, d)
  {
    forall d | Reachable(w, entries, d) ensures d in visited {
      var path :| IsPath(w, entries, path) && path[|path| - 1] == d;
      ClosedHoldsPath(w, entries, visited, path);
    }
  }

  /** Exactly the reachable native packages, each once, whatever cycles the dependencies form. */
  method NativePackageDirectories(w: World, entries: seq<string>) returns (found: seq<Dir>)
    ensures NoDuplicates(found)
    ensures forall d :: d in found <==> Reachable(w, entries, d) && Native(w, d)
  {
    hide Frontier, Reachable, Pending, Starts, Depends, Native;
    var queue := Enqueue(w, entries);
    var visited: set<Dir> := {};
    found := [];
    Begin(w, entries, queue);
    while queue != []
      invariant NoDuplicates(found)
      invariant forall d :: d in found <==> d in visited && Native(w, d)
      invariant Frontier(w, entries, queue, visited)
      decreases w.manifests.Keys - visited, |queue|
    {
      var directory := Canonical(w, queue[0]);
      if directory in visited {
        SkipVisited(w, entries, queue, visited);
        queue := queue[1..];
        continue;
      }
      var more := [];
      if directory !in w.manifests {
        DependsOnNothing(w, directory);
        assert w.manifests.Keys - (visited + {directory}) == w.manifests.Keys - visited;
      } else if Native(w, directory) {
        DependsOnNothing(w, directory);
        found := found + [directory];
      } else {
        more := Dependencies(w, directory);
      }
      Visit(w, entries, queue, visited, more);
      visited := visited + {directory};
      queue := queue[1..] + more;
    }
    Exhausted(w, entries, visited);
  }

  lemma DependsOnNothing(w: World, owner: Dir)
    requires owner !in w.manifests || Native(w, owner)
    ensures forall d :: !Depends(w, owner, d) && !Pending(w, [], d)
    ensures owner !in w.manifests ==> !Native(w, owner)
  {}
}
