// The task dependency graph: cycle detection, inverse adjacency, blockers.
module TaskGraph {

  datatype Status = Pending | InProgress | Completed | Failed | Deleted

  // An absent `blockedBy` and an empty one are the same list.
  datatype Task = Task(id: int, status: Status, blockedBy: seq<int>)

  type Edges = map<int, seq<int>>

  predicate Open(status: Status) {
    status != Completed && status != Deleted
  }

  /** True when a non-empty list has no visible work left to finish. */
  predicate IsTaskListComplete(list: seq<Task>) {
    && (exists t :: t in list && t.status != Deleted)
    && (forall t :: t in list && t.status != Deleted ==> t.status == Completed)
  }

  /** `[...new Set(s)]`: the first occurrence of every element, in order. */
  function Dedup(s: seq<int>): seq<int> {
    if s == [] then []
    else
      var front := Dedup(s[..|s| - 1]);
      if s[|s| - 1] in front then front else front + [s[|s| - 1]]
  }

  lemma DedupElements(s: seq<int>)
    ensures forall x :: x in Dedup(s) <==> x in s
  {
    if s != [] {
      DedupElements(s[..|s| - 1]);
      assert s == s[..|s| - 1] + [s[|s| - 1]];
    }
  }

  // -------------------------------------------------------------------------
  // The graph
  // -------------------------------------------------------------------------

  function Successors(edges: Edges, node: int): seq<int> {
    if node in edges then edges[node] else []
  }

  ghost predicate IsWalk(edges: Edges, p: seq<int>) {
    forall i :: 0 <= i < |p| - 1 ==> p[i + 1] in Successors(edges, p[i])
  }

  ghost predicate IsCycle(edges: Edges, p: seq<int>) {
    |p| >= 2 && IsWalk(edges, p) && p[0] == p[|p| - 1]
  }

  ghost predicate HasCycle(edges: Edges) {
    exists p :: IsCycle(edges, p)
  }

  /** The edge map `detectCycle` builds: a later task with the same id wins. */
  function MergedEdges(list: seq<Task>, taskId: int, newBlockedBy: seq<int>): Edges {
    if list == [] then map[]
    else
      var t := list[|list| - 1];
      MergedEdges(list[..|list| - 1], taskId, newBlockedBy)
        [t.id := if t.id == taskId then Dedup(t.blockedBy + newBlockedBy) else t.blockedBy]
  }

  /** Every node the search can meet. */
  ghost function Nodes(edges: Edges): set<int> {
    edges.Keys + (set n, i | n in edges && 0 <= i < |edges[n]| :: edges[n][i])
  }

  // `order` lists finished nodes; each one's successors finished before it.
  ghost predicate Topological(edges: Edges, order: seq<int>) {
    forall i, w :: 0 <= i < |order| && w in Successors(edges, order[i]) ==> w in order[..i]
  }

  lemma TopologicalAppend(edges: Edges, order: seq<int>, node: int)
    requires Topological(edges, order) && forall w :: w in Successors(edges, node) ==> w in order
    ensures Topological(edges, order + [node])
  {
    var more := order + [node];
    forall k, w | 0 <= k < |more| && w in Successors(edges, more[k]) ensures w in more[..k] {
      assert more[..k] == if k < |order| then order[..k] else order;
    }
  }

  ghost function Rank(order: seq<int>, v: int): (r: nat)
    requires v in order
    ensures r < |order| && order[r] == v
    ensures forall j :: 0 <= j < |order| && order[j] == v ==> r <= j
  {
    if order[0] == v then 0 else 1 + Rank(order[1..], v)
  }

  lemma {:induction false} RanksDescend(edges: Edges, order: seq<int>, p: seq<int>, k: nat)
    requires Topological(edges, order) && IsWalk(edges, p)
    requires k < |p| && p[0] in order
    ensures p[k] in order && Rank(order, p[k]) + k <= Rank(order, p[0])
  {
    if k > 0 {
      RanksDescend(edges, order, p, k - 1);
      var r := Rank(order, p[k - 1]);
      assert p[k] in Successors(edges, order[r]);
      var j :| 0 <= j < r && order[..r][j] == p[k];
      assert order[j] == p[k];
    }
  }

  /** When the finished order covers every key there is nowhere left for a cycle. */
  lemma TopologicalIsAcyclic(edges: Edges, order: seq<int>)
    requires Topological(edges, order)
    requires forall n :: n in edges ==> n in order
    ensures !HasCycle(edges)
  {
    forall p | IsCycle(edges, p) ensures false {
      assert p[1] in Successors(edges, p[0]);
      RanksDescend(edges, order, p, |p| - 1);
    }
  }

  lemma ClosingStackIsCycle(edges: Edges, stack: seq<int>, node: int)
    requires IsWalk(edges, stack + [node]) && node in stack
    ensures HasCycle(edges)
  {
    var i :| 0 <= i < |stack| && stack[i] == node;
    var p := (stack + [node])[i..];
    assert IsCycle(edges, p);
  }

  // -------------------------------------------------------------------------
  // The search
  // -------------------------------------------------------------------------

  /** The closure state of `detectCycle`: `edges`, `visiting` and `visited`. */
  class CycleSearch {
    const edges: Edges
    var visiting: set<int>
    var visited: set<int>
    ghost var stack: seq<int>  // the grey nodes, root first
    ghost var order: seq<int>  // the black nodes, in finishing order

    constructor (edges: Edges)
      ensures this.edges == edges && visiting == {} && visited == {} && stack == [] && order == []
    {
      this.edges := edges;
      visiting, visited := {}, {};
      stack, order := [], [];
    }

    ghost predicate Valid()
      reads this
    {
      && (forall n :: n in visiting <==> n in stack)
      && (forall n :: n in visited <==> n in order)
      && visiting !! visited
      && Topological(edges, order)
    }

    /** The recursive closure: grey means a cycle, black means already cleared. */
    method HasCycleFrom(node: int) returns (found: bool)
      requires Valid() && node in Nodes(edges) && IsWalk(edges, stack + [node])
      modifies this
      ensures found ==> HasCycle(edges)
      ensures !found ==> Valid() && stack == old(stack) && visiting == old(visiting)
      ensures !found ==> node in visited && old(visited) <= visited
      decreases Nodes(edges) - visited - visiting, 1
    {
      hide Topological, HasCycle;
      if node in visiting {
        ClosingStackIsCycle(edges, stack, node);
        return true;
      }
      if node in visited { return false; }
      visiting, stack := visiting + {node}, stack + [node];
      var next := Successors(edges, node);
      var i := 0;
      while i < |next|
        invariant 0 <= i <= |next|
        invariant Valid() && stack == old(stack) + [node] && visiting == old(visiting) + {node}
        invariant old(visited) <= visited
        invariant forall j :: 0 <= j < i ==> next[j] in visited
      {
        assert next[i] in Nodes(edges);
        assert IsWalk(edges, stack + [next[i]]);
        var inner := HasCycleFrom(next[i]);
        if inner { return true; }
        i := i + 1;
      }
      assert stack[..|stack| - 1] == old(stack);
      visiting, stack := visiting - {node}, stack[..|stack| - 1];
      TopologicalAppend(edges, order, node);
      visited, order := visited + {node}, order + [node];
      return false;
    }
  }

  method Pick<T>(rest: set<T>) returns (x: T)
    requires rest != {}
    ensures x in rest
  {
    x :| x in rest;
  }

  /** Would merging `newBlockedBy` into `taskId`'s dependencies leave a cycle? */
  method DetectCycle(list: seq<Task>, taskId: int, newBlockedBy: seq<int>) returns (found: bool)
    ensures found <==> HasCycle(MergedEdges(list, taskId, newBlockedBy))
  {
    var edges: Edges := map[];
    for n := 0 to |list|
      invariant edges == MergedEdges(list[..n], taskId, newBlockedBy)
    {
      var t := list[n];
      assert list[..n + 1][..n] == list[..n];
      edges := edges[t.id := if t.id == taskId then Dedup(t.blockedBy + newBlockedBy) else t.blockedBy];
    }
    assert list[..|list|] == list;

    var search := new CycleSearch(edges);
    var rest: set<int> := edges.Keys;
    while rest != {}
      invariant search.edges == edges && search.Valid() && search.stack == []
      invariant rest <= edges.Keys && edges.Keys - rest <= search.visited
      decreases rest
    {
      var node := Pick(rest);
      var cyclic := search.HasCycleFrom(node);
      if cyclic { return true; }
      rest := rest - {node};
    }
    TopologicalIsAcyclic(edges, search.order);
    return false;
  }

  // -------------------------------------------------------------------------
  // Inverse adjacency
  // -------------------------------------------------------------------------

  /** `n` copies of `id`: one per time the dependency is listed. */
  function Repeated(deps: seq<int>, dep: int, id: int): seq<int> {
    if deps == [] then []
    else Repeated(deps[..|deps| - 1], dep, id) + (if deps[|deps| - 1] == dep then [id] else [])
  }

  function Dependents(list: seq<Task>, dep: int): seq<int> {
    if list == [] then []
    else
      var t := list[|list| - 1];
      Dependents(list[..|list| - 1], dep) + Repeated(t.blockedBy, dep, t.id)
  }

  lemma {:induction false} RepeatedElements(deps: seq<int>, dep: int, id: int)
    ensures forall x :: x in Repeated(deps, dep, id) <==> x == id && dep in deps
  {
    if deps != [] {
      RepeatedElements(deps[..|deps| - 1], dep, id);
      assert deps == deps[..|deps| - 1] + [deps[|deps| - 1]];
    }
  }

  /** The inverse really is the inverse: u depends on d exactly when d lists u. */
  lemma {:induction false} DependentsInvert(list: seq<Task>, dep: int, id: int)
    ensures id in Dependents(list, dep) <==> exists t :: t in list && t.id == id && dep in t.blockedBy
  {
    if list != [] {
      var t := list[|list| - 1];
      DependentsInvert(list[..|list| - 1], dep, id);
      RepeatedElements(t.blockedBy, dep, t.id);
      assert list == list[..|list| - 1] + [t];
    }
  }

  function At(blocks: map<int, seq<int>>, d: int): seq<int> {
    if d in blocks then blocks[d] else []
  }

  ghost predicate InvertsAt(blocks: map<int, seq<int>>, list: seq<Task>, partial: seq<int>, id: int, d: int) {
    && At(blocks, d) == Dependents(list, d) + Repeated(partial, d, id)
    && (d in blocks ==> blocks[d] != [])
  }

  ghost predicate Inverts(blocks: map<int, seq<int>>, list: seq<Task>, partial: seq<int>, id: int) {
    forall d :: InvertsAt(blocks, list, partial, id, d)
  }

  lemma AppendDependent(blocks: map<int, seq<int>>, list: seq<Task>, deps: seq<int>, k: nat, id: int)
    requires k < |deps| && Inverts(blocks, list, deps[..k], id)
    ensures Inverts(blocks[deps[k] := At(blocks, deps[k]) + [id]], list, deps[..k + 1], id)
  {
    var blocks', more := blocks[deps[k] := At(blocks, deps[k]) + [id]], deps[..k + 1];
    var some := deps[..k];
    forall d ensures InvertsAt(blocks', list, more, id, d) {
      assert InvertsAt(blocks, list, some, id, d);
      AppendDependentAt(blocks, list, deps, k, id, d);
    }
  }

  lemma AppendDependentAt(blocks: map<int, seq<int>>, list: seq<Task>, deps: seq<int>, k: nat, id: int, d: int)
    requires k < |deps| && InvertsAt(blocks, list, deps[..k], id, d)
    ensures InvertsAt(blocks[deps[k] := At(blocks, deps[k]) + [id]], list, deps[..k + 1], id, d)
  {
    assert deps[..k + 1][..k] == deps[..k];
  }

  lemma FinishTask(blocks: map<int, seq<int>>, list: seq<Task>, n: nat)
    requires n < |list| && Inverts(blocks, list[..n], list[n].blockedBy, list[n].id)
    ensures Inverts(blocks, list[..n + 1], [], 0)
  {
    assert list[..n + 1][..n] == list[..n];
    var done, front := list[..n + 1], list[..n];
    forall d ensures InvertsAt(blocks, done, [], 0, d) {
      assert InvertsAt(blocks, front, list[n].blockedBy, list[n].id, d);
    }
  }

  lemma StartTask(blocks: map<int, seq<int>>, list: seq<Task>, id: int)
    requires Inverts(blocks, list, [], 0)
    ensures Inverts(blocks, list, [], id)
  {
    forall d ensures InvertsAt(blocks, list, [], id, d) {
      assert InvertsAt(blocks, list, [], 0, d);
    }
  }

  method DeriveBlocks(list: seq<Task>) returns (blocks: map<int, seq<int>>)
    ensures forall d :: d in blocks <==> exists t :: t in list && d in t.blockedBy
    ensures forall d :: d in blocks ==> blocks[d] == Dependents(list, d)
  {
    blocks := map[];
    for n := 0 to |list|
      invariant Inverts(blocks, list[..n], [], 0)
    {
      var t := list[n];
      StartTask(blocks, list[..n], t.id);
      assert t.blockedBy[..0] == [];
      for k := 0 to |t.blockedBy|
        invariant Inverts(blocks, list[..n], t.blockedBy[..k], t.id)
      {
        AppendDependent(blocks, list[..n], t.blockedBy, k, t.id);
        var dep := t.blockedBy[k];
        var dependents := if dep in blocks then blocks[dep] else [];
        blocks := blocks[dep := dependents + [t.id]];
      }
      assert t.blockedBy[..|t.blockedBy|] == t.blockedBy;
      FinishTask(blocks, list, n);
    }
    assert list[..|list|] == list;
    KeysAreDependencies(blocks, list);
  }

  lemma KeysAreDependencies(blocks: map<int, seq<int>>, list: seq<Task>)
    requires Inverts(blocks, list, [], 0)
    ensures forall d :: d in blocks <==> exists t :: t in list && d in t.blockedBy
    ensures forall d :: d in blocks ==> blocks[d] == Dependents(list, d)
  {
    forall d ensures d in blocks ==> blocks[d] == Dependents(list, d)
      ensures d !in blocks ==> Dependents(list, d) == []
      ensures d in blocks ==> blocks[d] != []
    {
      assert InvertsAt(blocks, list, [], 0, d);
    }
    forall d ensures d in blocks <==> exists t :: t in list && d in t.blockedBy {
      if d in blocks {
        assert blocks[d][0] in Dependents(list, d);
        DependentsInvert(list, d, blocks[d][0]);
      }
      forall t | t in list && d in t.blockedBy ensures d in blocks {
        DependentsInvert(list, d, t.id);
      }
    }
  }

  // -------------------------------------------------------------------------
  // Blockers
  // -------------------------------------------------------------------------

  /** `taskList.find`: the first task with the id, as a list of at most one. */
  function Find(list: seq<Task>, id: int): seq<Task> {
    if list == [] then [] else if list[0].id == id then [list[0]] else Find(list[1..], id)
  }

  predicate Unresolved(list: seq<Task>, dep: int) {
    var found := Find(list, dep);
    found != [] && Open(found[0].status)
  }

  function FilterUnresolved(list: seq<Task>, deps: seq<int>): seq<int> {
    if deps == [] then []
    else (if Unresolved(list, deps[0]) then [deps[0]] else []) + FilterUnresolved(list, deps[1..])
  }

  function UnresolvedBlockers(list: seq<Task>, task: Task): seq<int> {
    FilterUnresolved(list, task.blockedBy)
  }

  predicate IsBlocked(list: seq<Task>, task: Task) {
    |UnresolvedBlockers(list, task)| > 0
  }

  lemma {:induction false} FilterElements(list: seq<Task>, deps: seq<int>)
    ensures forall d :: d in FilterUnresolved(list, deps) <==> d in deps && Unresolved(list, d)
  {
    if deps != [] {
      FilterElements(list, deps[1..]);
      assert deps == [deps[0]] + deps[1..];
    }
  }

  lemma {:induction false} FindIsFirst(list: seq<Task>, id: int)
    ensures Find(list, id) != [] ==> Find(list, id)[0] in list && Find(list, id)[0].id == id
    ensures Find(list, id) == [] ==> forall t :: t in list ==> t.id != id
  {
    if list != [] {
      FindIsFirst(list[1..], id);
      assert list == [list[0]] + list[1..];
    }
  }

  /** `completed` and `deleted` release a dependent, `failed` and the rest hold it. */
  lemma BlockedMeansOpenBlocker(list: seq<Task>, task: Task)
    requires DistinctIds(list)
    ensures IsBlocked(list, task) <==>
            exists i :: 0 <= i < |list| && list[i].id in task.blockedBy && Open(list[i].status)
  {
    FilterElements(list, task.blockedBy);
    if IsBlocked(list, task) {
      var d := UnresolvedBlockers(list, task)[0];
      assert d in UnresolvedBlockers(list, task);
      FindIsFirst(list, d);
      assert Find(list, d)[0] in list;
    }
    forall i | 0 <= i < |list| && list[i].id in task.blockedBy && Open(list[i].status)
      ensures IsBlocked(list, task)
    {
      FindIsFirst(list, list[i].id);
      assert list[i] in list;
      assert list[i].id in UnresolvedBlockers(list, task);
    }
  }

  lemma {:induction false} CompleteListFilters(list: seq<Task>, deps: seq<int>)
    requires IsTaskListComplete(list)
    ensures FilterUnresolved(list, deps) == []
  {
    if deps != [] {
      FindIsFirst(list, deps[0]);
      CompleteListFilters(list, deps[1..]);
    }
  }

  /** A finished list holds nobody back. */
  lemma CompleteListBlocksNothing(list: seq<Task>, task: Task)
    requires IsTaskListComplete(list)
    ensures UnresolvedBlockers(list, task) == []
  {
    CompleteListFilters(list, task.blockedBy);
  }

  // -------------------------------------------------------------------------
  // Cycles and deadlock
  // -------------------------------------------------------------------------

  ghost predicate DistinctIds(list: seq<Task>) {
    forall i, j :: 0 <= i < j < |list| ==> list[i].id != list[j].id
  }

  /** The list after the merge was accepted. */
  function Merge(list: seq<Task>, taskId: int, newBlockedBy: seq<int>): seq<Task> {
    seq(|list|, i requires 0 <= i < |list| =>
      if list[i].id == taskId
      then list[i].(blockedBy := Dedup(list[i].blockedBy + newBlockedBy))
      else list[i])
  }

  /** Some work is open and all of it is blocked. */
  ghost predicate Stuck(list: seq<Task>) {
    && (exists i :: 0 <= i < |list| && Open(list[i].status))
    && (forall i :: 0 <= i < |list| && Open(list[i].status) ==> IsBlocked(list, list[i]))
  }

  /** Same tasks and dependencies, possibly other statuses. */
  ghost predicate SameShape(a: seq<Task>, b: seq<Task>) {
    |a| == |b| && forall i :: 0 <= i < |a| ==> a[i].id == b[i].id && a[i].blockedBy == b[i].blockedBy
  }

  function EdgesOf(list: seq<Task>): Edges {
    MergedEdges(list, 0, [])
  }

  lemma {:induction false} EdgesAt(list: seq<Task>, taskId: int, newBlockedBy: seq<int>, i: nat)
    requires DistinctIds(list) && i < |list|
    ensures var t, edges := list[i], MergedEdges(list, taskId, newBlockedBy);
            t.id in edges
            && edges[t.id] == if t.id == taskId then Dedup(t.blockedBy + newBlockedBy) else t.blockedBy
  {
    if i < |list| - 1 {
      EdgesAt(list[..|list| - 1], taskId, newBlockedBy, i);
    }
  }

  lemma {:induction false} EdgeKeys(list: seq<Task>, taskId: int, newBlockedBy: seq<int>, n: int)
    ensures n in MergedEdges(list, taskId, newBlockedBy) <==> exists i :: 0 <= i < |list| && list[i].id == n
  {
    if list != [] {
      EdgeKeys(list[..|list| - 1], taskId, newBlockedBy, n);
      if list[|list| - 1].id != n {
        forall i | 0 <= i < |list| && list[i].id == n ensures list[..|list| - 1][i].id == n {}
      }
    }
  }

  lemma SuccessorsAt(list: seq<Task>, i: nat)
    requires DistinctIds(list) && i < |list|
    ensures forall w :: w in Successors(EdgesOf(list), list[i].id) <==> w in list[i].blockedBy
  {
    EdgesAt(list, 0, [], i);
    assert list[i].blockedBy + [] == list[i].blockedBy;
    DedupElements(list[i].blockedBy);
  }

  lemma {:induction false} DistinctFitsIn(p: seq<int>, universe: set<int>)
    requires forall i :: 0 <= i < |p| ==> p[i] in universe
    requires forall i, j :: 0 <= i < j < |p| ==> p[i] != p[j]
    ensures |p| <= |universe|
  {
    if p != [] {
      DistinctFitsIn(p[1..], universe - {p[0]});
    }
  }

  lemma RepeatIsCycle(edges: Edges, p: seq<int>, universe: set<int>)
    requires IsWalk(edges, p) && |p| > |universe|
    requires forall i :: 0 <= i < |p| ==> p[i] in universe
    ensures HasCycle(edges)
  {
    if forall i, j :: 0 <= i < j < |p| ==> p[i] != p[j] {
      DistinctFitsIn(p, universe);
    } else {
      var i, j :| 0 <= i < j < |p| && p[i] == p[j];
      assert IsCycle(edges, p[i..j + 1]);
    }
  }

  ghost predicate OpenId(list: seq<Task>, n: int) {
    exists i :: 0 <= i < |list| && list[i].id == n && Open(list[i].status)
  }

  lemma StuckStep(list: seq<Task>, n: int) returns (w: int)
    requires DistinctIds(list) && Stuck(list) && OpenId(list, n)
    ensures OpenId(list, w) && w in Successors(EdgesOf(list), n)
  {
    var i :| 0 <= i < |list| && list[i].id == n && Open(list[i].status);
    BlockedMeansOpenBlocker(list, list[i]);
    var j :| 0 <= j < |list| && list[j].id in list[i].blockedBy && Open(list[j].status);
    SuccessorsAt(list, i);
    w := list[j].id;
  }

  // When everything open is blocked, a walk through open tasks never ends.
  lemma {:induction false} StuckWalk(list: seq<Task>, n: nat) returns (p: seq<int>)
    requires DistinctIds(list) && Stuck(list)
    ensures |p| == n + 1 && IsWalk(EdgesOf(list), p)
    ensures forall k :: 0 <= k < |p| ==> OpenId(list, p[k])
  {
    if n == 0 {
      var i :| 0 <= i < |list| && Open(list[i].status);
      p := [list[i].id];
      assert OpenId(list, p[0]);
    } else {
      var q := StuckWalk(list, n - 1);
      var w := StuckStep(list, q[|q| - 1]);
      p := q + [w];
    }
  }

  /** With an acyclic list, whenever work is open some of it can start. */
  lemma AcyclicNeverStuck(list: seq<Task>)
    requires DistinctIds(list) && !HasCycle(EdgesOf(list))
    ensures !Stuck(list)
  {
    if Stuck(list) {
      var ids := set i | 0 <= i < |list| :: list[i].id;
      var p := StuckWalk(list, |ids|);
      forall k | 0 <= k < |p| ensures p[k] in ids {
        assert OpenId(list, p[k]);
      }
      RepeatIsCycle(EdgesOf(list), p, ids);
    }
  }

  lemma SuccessorsIncludeCycles(a: Edges, b: Edges)
    requires forall n, w :: w in Successors(a, n) ==> w in Successors(b, n)
    ensures HasCycle(a) ==> HasCycle(b)
  {
    if p :| IsCycle(a, p) {
      assert IsCycle(b, p);
    }
  }

  lemma MergedSuccessors(list: seq<Task>, taskId: int, newBlockedBy: seq<int>, n: int)
    requires DistinctIds(list) && DistinctIds(Merge(list, taskId, newBlockedBy))
    ensures forall w :: w in Successors(EdgesOf(Merge(list, taskId, newBlockedBy)), n) <==>
                        w in Successors(MergedEdges(list, taskId, newBlockedBy), n)
  {
    var merged := Merge(list, taskId, newBlockedBy);
    EdgeKeys(list, taskId, newBlockedBy, n);
    EdgeKeys(merged, 0, [], n);
    if i :| 0 <= i < |list| && list[i].id == n {
      assert merged[i].id == n;
      SuccessorsAt(merged, i);
      EdgesAt(list, taskId, newBlockedBy, i);
    } else {
      assert forall i :: 0 <= i < |merged| ==> merged[i].id == list[i].id;
    }
  }

  /** The map the search ran on is the graph of the list the reducer then stores. */
  lemma MergeHasMergedEdges(list: seq<Task>, taskId: int, newBlockedBy: seq<int>)
    requires DistinctIds(list)
    ensures DistinctIds(Merge(list, taskId, newBlockedBy))
    ensures HasCycle(EdgesOf(Merge(list, taskId, newBlockedBy))) <==>
            HasCycle(MergedEdges(list, taskId, newBlockedBy))
  {
    var merged := Merge(list, taskId, newBlockedBy);
    assert forall i :: 0 <= i < |list| ==> merged[i].id == list[i].id;
    forall n { MergedSuccessors(list, taskId, newBlockedBy, n); }
    SuccessorsIncludeCycles(EdgesOf(merged), MergedEdges(list, taskId, newBlockedBy));
    SuccessorsIncludeCycles(MergedEdges(list, taskId, newBlockedBy), EdgesOf(merged));
  }

  lemma {:induction false} SameShapeSameEdges(a: seq<Task>, b: seq<Task>)
    requires SameShape(a, b)
    ensures EdgesOf(a) == EdgesOf(b)
  {
    if a != [] {
      SameShapeSameEdges(a[..|a| - 1], b[..|b| - 1]);
    }
  }

  /** Open exactly the tasks of `nodes`, complete the rest. */
  function OpenOnly(list: seq<Task>, nodes: seq<int>): seq<Task> {
    seq(|list|, i requires 0 <= i < |list| =>
      list[i].(status := if list[i].id in nodes then Pending else Completed))
  }

  // Every node of a cycle is a listed task waiting for another node of the cycle.
  lemma CycleNode(list: seq<Task>, p: seq<int>, k: nat) returns (i: nat, w: int)
    requires DistinctIds(list) && IsCycle(EdgesOf(list), p) && k < |p|
    ensures i < |list| && list[i].id == p[k] && w in p && w in list[i].blockedBy
  {
    var k' := if k == |p| - 1 then 0 else k;
    w := p[k' + 1];
    assert w in Successors(EdgesOf(list), p[k']);
    EdgeKeys(list, 0, [], p[k]);
    i :| 0 <= i < |list| && list[i].id == p[k];
    SuccessorsAt(list, i);
  }

  lemma CycleGetsStuck(list: seq<Task>, p: seq<int>)
    requires DistinctIds(list) && IsCycle(EdgesOf(list), p)
    ensures SameShape(list, OpenOnly(list, p)) && Stuck(OpenOnly(list, p))
  {
    var bad := OpenOnly(list, p);
    assert DistinctIds(bad);
    var first, _ := CycleNode(list, p, 0);
    assert Open(bad[first].status);
    forall i | 0 <= i < |bad| && Open(bad[i].status) ensures IsBlocked(bad, bad[i]) {
      var k :| 0 <= k < |p| && p[k] == list[i].id;
      var i', w := CycleNode(list, p, k);
      assert i' == i;
      var k' :| 0 <= k' < |p| && p[k'] == w;
      var j, _ := CycleNode(list, p, k');
      assert bad[j].id in bad[i].blockedBy && Open(bad[j].status);
      BlockedMeansOpenBlocker(bad, bad[i]);
    }
  }

  /** Exactly the merges `detectCycle` accepts can never deadlock, whatever statuses the tasks take. */
  lemma AcceptedIffNeverStuck(list: seq<Task>, taskId: int, newBlockedBy: seq<int>)
    requires DistinctIds(list)
    ensures !HasCycle(MergedEdges(list, taskId, newBlockedBy)) <==>
            forall later :: SameShape(Merge(list, taskId, newBlockedBy), later) ==> !Stuck(later)
  {
    var merged := Merge(list, taskId, newBlockedBy);
    MergeHasMergedEdges(list, taskId, newBlockedBy);
    if !HasCycle(MergedEdges(list, taskId, newBlockedBy)) {
      forall later | SameShape(merged, later) ensures !Stuck(later) {
        SameShapeSameEdges(merged, later);
        AcyclicNeverStuck(later);
      }
    } else {
      var p :| IsCycle(EdgesOf(merged), p);
      CycleGetsStuck(merged, p);
    }
  }
}
