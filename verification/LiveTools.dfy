// The live tool reconciler: a plugin's registered tools follow a collection
// that can change, be disposed or be aborted in the middle of reconciling.
//
// Whenever the reconciler calls out (to take a snapshot, to abort a tool's
// signal, to register a tool) outside code may call back in. A script decides
// what that code does at each call, so every interleaving is some script.
module LiveTools {
  import opened Common

  /** A declaration object: equal means the same object. */
  datatype Decl = Decl(name: string, id: nat)

  /** One registration. `exposed`: Pi holds the callback. `active`: it has a live controller. */
  datatype Entry = Entry(decl: Decl, active: bool, exposed: bool)

  /** What outside code does during one call: the collection notifies when it changes. */
  datatype Reaction = Change(content: seq<Decl>) | Abort | Dispose

  datatype Ending = Returns | ThrowsUndone | ThrowsDone

  /**
   * What one call to the outside does. A snapshot is taken before the reactions, or
   * after them when `late`, or throws; `ending` is how a registration ends.
   */
  datatype Response = Response(reactions: seq<Reaction>, late: bool, snapshotThrows: bool, ending: Ending)

  /** How one registration ended, and whether its entry was still active then. */
  datatype Registration = Registration(ending: Ending, live: bool)

  /** The tools: every registration so far, and the current one of each name in map order. */
  datatype Tools = Tools(entries: seq<Entry>, names: seq<string>, registered: map<string, nat>)

  datatype Flags = Flags(aborted: bool, disposed: bool)

  predicate Dead(f: Flags) { f.disposed || f.aborted }

  /** Pi can run the entry: its callback neither throws nor returns an aborted signal. */
  predicate Callable(t: Tools, f: Flags, i: nat) {
    i < |t.entries| && t.entries[i].exposed && t.entries[i].active && !Dead(f)
  }

  predicate Current(t: Tools, i: nat) {
    i < |t.entries| && t.entries[i].decl.name in t.registered && t.registered[t.entries[i].decl.name] == i
  }

  ghost predicate Consistent(t: Tools, leaked: set<nat>) {
    && (forall n :: n in t.names <==> n in t.registered)
    && (forall n :: n in t.registered ==> t.registered[n] < |t.entries| && t.entries[t.registered[n]].decl.name == n)
    && (forall i :: 0 <= i < |t.entries| && t.entries[i].exposed && t.entries[i].active ==> Current(t, i) || i in leaked)
    && (forall i :: i in leaked ==> i < |t.entries| && t.entries[i].exposed && t.entries[i].active && !Current(t, i))
  }

  /** Nothing is registered and nothing activated. */
  ghost predicate Frozen(t: Tools, u: Tools) {
    && u.registered == t.registered && u.names == t.names && |u.entries| == |t.entries|
    && forall i :: 0 <= i < |t.entries| ==>
         && u.entries[i].decl == t.entries[i].decl && u.entries[i].exposed == t.entries[i].exposed
         && (u.entries[i].active ==> t.entries[i].active)
         && (u.entries[i].active != t.entries[i].active ==> Current(t, i))
  }

  ghost predicate NoneLost(t: Tools, u: Tools) {
    forall i :: 0 <= i < |t.entries| && i < |u.entries| && t.entries[i].active ==> u.entries[i].active
  }

  /** The name's current entry has a live controller. */
  predicate NameActive(t: Tools, name: string) {
    name in t.registered && t.registered[name] < |t.entries| && t.entries[t.registered[name]].active
  }

  /** The name's active entry is not one the collection asks for. */
  predicate Stale(t: Tools, name: string, wanted: seq<Decl>) {
    NameActive(t, name) && t.entries[t.registered[name]].decl !in wanted
  }

  ghost predicate Quiet(t: Tools) {
    forall n :: n in t.registered ==> !NameActive(t, n)
  }

  lemma FrozenTwice(t: Tools, u: Tools, v: Tools)
    requires Frozen(t, u) && Frozen(u, v)
    ensures Frozen(t, v) && (NoneLost(t, u) && NoneLost(u, v) ==> NoneLost(t, v))
  {}

  lemma FrozenActive(t: Tools, u: Tools)
    requires Frozen(t, u)
    ensures forall n :: NameActive(u, n) ==> NameActive(t, n)
    ensures forall n, wanted :: Stale(u, n, wanted) ==> Stale(t, n, wanted)
  {}

  lemma NamesAreAll(t: Tools, l: set<nat>)
    requires Consistent(t, l)
    ensures forall n :: n in t.names <==> n in t.registered
  {}

  lemma FrozenConsistent(t: Tools, u: Tools, leaked: set<nat>)
    requires Consistent(t, leaked) && Frozen(t, u)
    ensures Consistent(u, leaked)
  {}

  /** Pi holds every current entry. */
  ghost predicate Exposed(t: Tools) {
    forall n :: n in t.registered && t.registered[n] < |t.entries| ==> t.entries[t.registered[n]].exposed
  }

  predicate DistinctNames(ds: seq<Decl>) {
    forall i, j :: 0 <= i < j < |ds| ==> ds[i].name != ds[j].name
  }

  ghost predicate Adopted(t: Tools, d: Decl) {
    Held(t, d) && NameActive(t, d.name)
  }

  /** Entries not asked for are inactive. */
  ghost predicate Pruned(t: Tools, wanted: seq<Decl>) {
    forall n :: n in t.registered ==> !Stale(t, n, wanted)
  }

  ghost predicate Matches(t: Tools, wanted: seq<Decl>) {
    DistinctNames(wanted) && Pruned(t, wanted) && forall d :: d in wanted ==> Adopted(t, d)
  }

  /** History: entries are only added, and one that is not current stays so and is not reactivated. */
  ghost predicate Grew(t: Tools, u: Tools) {
    && |t.entries| <= |u.entries|
    && forall i :: 0 <= i < |t.entries| ==>
         && u.entries[i].decl == t.entries[i].decl && u.entries[i].exposed == t.entries[i].exposed
         && (Current(u, i) ==> Current(t, i))
         && (!Current(t, i) && u.entries[i].active ==> t.entries[i].active)
  }

  lemma GrewTwice(t: Tools, u: Tools, v: Tools)
    requires Grew(t, u) && Grew(u, v)
    ensures Grew(t, v)
  {}

  lemma FrozenGrew(t: Tools, u: Tools)
    requires Frozen(t, u)
    ensures Grew(t, u)
  {}

  /** Other names keep their entries, and lose activity only to death. */
  ghost predicate KeptBut(t: Tools, u: Tools, name: string, f: Flags) {
    forall n :: n != name ==>
      && (n in u.registered <==> n in t.registered)
      && (n in u.registered ==> u.registered[n] == t.registered[n] && KeptAt(t, u, u.registered[n], f))
  }

  ghost predicate KeptAt(t: Tools, u: Tools, i: nat, f: Flags) {
    i < |t.entries| <= |u.entries| ==>
      && u.entries[i].decl == t.entries[i].decl
      && (u.entries[i].active ==> t.entries[i].active)
      && (t.entries[i].active ==> u.entries[i].active || Dead(f))
  }

  /** The entries Pi can go on running although registering them threw: see `Logged`. */
  function LeakedBy(log: seq<Registration>): set<nat> {
    set i: nat | i < |log| && log[i] == Registration(ThrowsDone, true)
  }

  /** One registration per entry, in order: it decides whether Pi holds the callback, and whether the entry leaks. */
  ghost predicate Logged(t: Tools, log: seq<Registration>, leaked: set<nat>) {
    && |log| == |t.entries| && leaked == LeakedBy(log)
    && (forall i :: 0 <= i < |log| ==> (t.entries[i].exposed <==> log[i].ending != ThrowsUndone))
    && (forall i: nat :: Current(t, i) ==> log[i].ending == Returns)
  }

  ghost predicate EndingFrom(ending: Ending, script: seq<Response>, rest: Ending) {
    ending == rest || exists r :: r in script && r.ending == ending
  }

  /** Registrations are only added, and end as the script says. */
  ghost predicate LogGrew(before: seq<Registration>, after: seq<Registration>, script: seq<Response>, rest: Ending) {
    before <= after && forall i :: |before| <= i < |after| ==> EndingFrom(after[i].ending, script, rest)
  }

  /** Outside code does nothing of its own, and takes every snapshot. */
  predicate Calm(script: seq<Response>) {
    forall r :: r in script ==> r.reactions == [] && !r.snapshotThrows
  }

  /** New entries are asked for, and were active when their registration ended. */
  ghost predicate CalmGrowth(t: Tools, u: Tools, log: seq<Registration>, content: seq<Decl>) {
    forall i :: |t.entries| <= i < |u.entries| && i < |log| ==> log[i].live && u.entries[i].decl in content
  }

  /** Some registration of the new ones threw. */
  ghost predicate SomeThrew(before: seq<Registration>, after: seq<Registration>) {
    exists i :: |before| <= i < |after| && after[i].ending != Returns
  }

  /** From one state of the registrations to a later one. */
  ghost predicate Progress(t: Tools, before: seq<Registration>, u: Tools, after: seq<Registration>,
                           script: seq<Response>, rest: Ending, content: seq<Decl>) {
    Grew(t, u) && LogGrew(before, after, script, rest) && (Calm(script) ==> CalmGrowth(t, u, after, content))
  }

  lemma ProgressTwice(t: Tools, a: seq<Registration>, u: Tools, b: seq<Registration>, v: Tools, c: seq<Registration>,
                      script: seq<Response>, later: seq<Response>, rest: Ending, content: seq<Decl>, wanted: seq<Decl>)
    requires Progress(t, a, u, b, script, rest, content) && Progress(u, b, v, c, later, rest, wanted)
    requires |b| == |u.entries| && forall r :: r in later ==> r in script
    requires Calm(script) ==> forall d :: d in wanted ==> d in content
    ensures Progress(t, a, v, c, script, rest, content)
  {
    hide EndingFrom;
    GrewTwice(t, u, v);
    forall i | |a| <= i < |c| ensures EndingFrom(c[i].ending, script, rest) {
      if i >= |b| { EndingFromMore(c[i].ending, script, later, rest); }
    }
  }

  lemma FrozenProgress(t: Tools, u: Tools, log: seq<Registration>, script: seq<Response>, rest: Ending, content: seq<Decl>)
    requires Frozen(t, u)
    ensures Progress(t, log, u, log, script, rest, content)
  {}

  lemma ReactivatedProgress(t: Tools, i: nat, log: seq<Registration>, script: seq<Response>, rest: Ending, content: seq<Decl>)
    requires i < |t.entries| && Grew(t, Reactivate(t, i))
    ensures Progress(t, log, Reactivate(t, i), log, script, rest, content)
  {}

  lemma SomeThrewSince(a: seq<Registration>, b: seq<Registration>, c: seq<Registration>)
    requires a <= b <= c && SomeThrew(b, c)
    ensures SomeThrew(a, c)
  {}

  lemma ProgressLogs(t: Tools, a: seq<Registration>, u: Tools, b: seq<Registration>,
                     script: seq<Response>, rest: Ending, content: seq<Decl>)
    requires Progress(t, a, u, b, script, rest, content)
    ensures a <= b && Grew(t, u)
  {}

  lemma EndingFromMore(ending: Ending, script: seq<Response>, later: seq<Response>, rest: Ending)
    requires EndingFrom(ending, later, rest) && forall r :: r in later ==> r in script
    ensures EndingFrom(ending, script, rest)
  {}

  lemma FrozenLogged(t: Tools, u: Tools, log: seq<Registration>, leaked: set<nat>)
    requires Logged(t, log, leaked) && Frozen(t, u)
    ensures Logged(u, log, leaked)
  {
    forall i: nat | Current(u, i) ensures Current(t, i) {}
  }

  lemma ReactivatedLogged(t: Tools, i: nat, log: seq<Registration>, leaked: set<nat>)
    requires Logged(t, log, leaked) && i < |t.entries|
    ensures Logged(Reactivate(t, i), log, leaked)
  {
    var u := Reactivate(t, i);
    forall k: nat | Current(u, k) ensures Current(t, k) {}
  }

  /** A registration that has ended is logged. */
  lemma ConcludedLogged(t: Tools, d: Decl, u: Tools, ending: Ending, log: seq<Registration>, leaked: set<nat>)
    requires Logged(t, log, leaked) && Frozen(Enter(t, d), u)
    ensures |t.entries| < |u.entries|
    ensures Logged(Conclude(u, |t.entries|, ending), log + [Registration(ending, u.entries[|t.entries|].active)],
                   Leaks(u, |t.entries|, ending, leaked))
  {
    var e, i := Enter(t, d), |t.entries|;
    var v, more := Conclude(u, i, ending), log + [Registration(ending, u.entries[i].active)];
    assert e.entries[i] == Entry(d, true, false);
    assert LeakedBy(more) == Leaks(u, i, ending, leaked);
    forall k | 0 <= k < |more| ensures v.entries[k].exposed <==> more[k].ending != ThrowsUndone {
      if k < i { assert e.entries[k] == t.entries[k]; }
    }
    forall k: nat | Current(v, k) ensures more[k].ending == Returns {
      if k < i { assert e.entries[k] == t.entries[k] && Current(t, k); }
    }
  }

  lemma FrozenExposed(t: Tools, u: Tools)
    requires Exposed(t) && Frozen(t, u)
    ensures Exposed(u)
  {}

  lemma FrozenNames(t: Tools, u: Tools)
    requires Frozen(t, u)
    ensures u.registered == t.registered && u.names == t.names
  {}

  lemma Unchanged(t: Tools)
    ensures Frozen(t, t) && NoneLost(t, t) && Grew(t, t)
  {}

  lemma StaleIsInactive(t: Tools, wanted: seq<Decl>, i: nat, l: set<nat>)
    requires i < |wanted| && DistinctNames(wanted) && Pruned(t, wanted) && Consistent(t, l)
    ensures Held(t, wanted[i]) || !NameActive(t, wanted[i].name)
  {}

  lemma AdoptedHeld(t: Tools, d: Decl)
    ensures Adopted(t, d) <==> Held(t, d) && NameActive(t, d.name)
  {}

  lemma MatchesNow(t: Tools, wanted: seq<Decl>, f: Flags)
    requires DistinctNames(wanted) && Pruned(t, wanted)
    requires forall k :: 0 <= k < |wanted| ==> Held(t, wanted[k]) && (NameActive(t, wanted[k].name) || Dead(f))
    ensures Dead(f) || Matches(t, wanted)
  {}

  lemma AdoptedInTurn(t: Tools, u: Tools, wanted: seq<Decl>, i: nat, f: Flags, l: set<nat>)
    requires i < |wanted| && DistinctNames(wanted) && Pruned(t, wanted) && Consistent(t, l)
    requires Grew(t, u) && KeptBut(t, u, wanted[i].name, f)
    requires Held(u, wanted[i]) && (NameActive(u, wanted[i].name) || Dead(f))
    requires forall k :: 0 <= k < i ==> Held(t, wanted[k]) && (NameActive(t, wanted[k].name) || Dead(f))
    ensures Pruned(u, wanted)
    ensures forall k :: 0 <= k <= i ==> Held(u, wanted[k]) && (NameActive(u, wanted[k].name) || Dead(f))
  {}

  // -------------------------------------------------------------------------
  // One registration
  // -------------------------------------------------------------------------

  /** The declaration is its name's current entry. */
  predicate Held(t: Tools, d: Decl) {
    && d.name in t.registered && t.registered[d.name] < |t.entries|
    && t.entries[t.registered[d.name]].decl == d
  }

  /** `entry.active ??= new AbortController()`. */
  function Reactivate(t: Tools, i: nat): Tools
    requires i < |t.entries|
  {
    t.(entries := t.entries[i := t.entries[i].(active := true)])
  }

  lemma Reactivated(t: Tools, d: Decl, f: Flags, l: set<nat>)
    requires Consistent(t, l) && Exposed(t) && Held(t, d)
    ensures var u := Reactivate(t, t.registered[d.name]);
            Consistent(u, l) && Exposed(u) && Grew(t, u) && KeptBut(t, u, d.name, f) && Held(u, d) && Adopted(u, d)
  {
    var i := t.registered[d.name];
    var u := Reactivate(t, i);
    assert forall k :: 0 <= k < |t.entries| && k != i ==> u.entries[k] == t.entries[k];
    assert Current(t, i);
  }

  /** The map entry is set before Pi is asked to register. */
  function Enter(t: Tools, d: Decl): Tools {
    Tools(t.entries + [Entry(d, true, false)],
          if d.name in t.registered then t.names else t.names + [d.name],
          t.registered[d.name := |t.entries|])
  }

  /** What is left once Pi has answered, or thrown. */
  function Conclude(t: Tools, i: nat, ending: Ending): Tools
    requires i < |t.entries|
  {
    var name := t.entries[i].decl.name;
    var exposed := t.entries[i := t.entries[i].(exposed := true)];
    match ending
    case Returns => t.(entries := exposed)
    case ThrowsDone => Tools(exposed, Without(t.names, name), t.registered - {name})
    case ThrowsUndone => Tools(t.entries, Without(t.names, name), t.registered - {name})
  }

  /** An entry leaks when Pi keeps its callback although registering it threw. */
  function Leaks(t: Tools, i: nat, ending: Ending, l: set<nat>): set<nat>
    requires i < |t.entries|
  {
    if ending == ThrowsDone && t.entries[i].active then l + {i} else l
  }

  lemma ReturningLeaksNothing(t: Tools, i: nat, l: set<nat>)
    requires i < |t.entries|
    ensures Leaks(t, i, Returns, l) == l
  {}

  lemma EnterConsistent(t: Tools, d: Decl, l: set<nat>)
    requires Consistent(t, l) && !Held(t, d)
    requires !NameActive(t, d.name)
    ensures Consistent(Enter(t, d), l)
  {
    var u := Enter(t, d);
    forall i | 0 <= i < |u.entries| && u.entries[i].exposed && u.entries[i].active ensures Current(u, i) || i in l {
      assert i < |t.entries| && u.entries[i] == t.entries[i];
    }
  }

  lemma ConcludeConsistent(t: Tools, i: nat, ending: Ending, l: set<nat>)
    requires Consistent(t, l) && i < |t.entries| && Current(t, i) && !t.entries[i].exposed
    ensures Consistent(Conclude(t, i, ending), Leaks(t, i, ending, l))
  {
    var u, l' := Conclude(t, i, ending), Leaks(t, i, ending, l);
    forall k | 0 <= k < |u.entries| && u.entries[k].exposed && u.entries[k].active ensures Current(u, k) || k in l' {
      if k != i { assert u.entries[k] == t.entries[k]; }
    }
  }

  lemma LogLength(t: Tools, log: seq<Registration>, leaked: set<nat>)
    requires Logged(t, log, leaked)
    ensures |log| == |t.entries|
  {}

  lemma AnsweredFrom(r: Response, script: seq<Response>, rest: Ending)
    requires r in script || r == Response([], false, false, rest)
    ensures EndingFrom(r.ending, script, rest)
  {}

  lemma EnteredIsCurrent(t: Tools, u: Tools, d: Decl)
    requires Frozen(Enter(t, d), u)
    ensures |u.entries| == |t.entries| + 1 && Current(u, |t.entries|) && !u.entries[|t.entries|].exposed
  {
    assert Enter(t, d).entries[|t.entries|] == Entry(d, true, false);
  }

  /** The end of a registration, seen from its start. */
  lemma Registered(t: Tools, u: Tools, d: Decl, ending: Ending, f: Flags, l: set<nat>)
    requires Consistent(t, l) && Exposed(t)
    requires Frozen(Enter(t, d), u) && (Dead(f) || NoneLost(Enter(t, d), u))
    ensures |t.entries| < |u.entries|
    ensures var v := Conclude(u, |t.entries|, ending);
            && Exposed(v)
            && (ending == Returns ==> Adopted(v, d) || Dead(f))
            && (d.name in v.registered <==> ending == Returns)
            && (ending == Returns ==> Held(v, d))
  {
    var e, i := Enter(t, d), |t.entries|;
    assert e.entries[i] == Entry(d, true, false);
    var v := Conclude(u, i, ending);
    forall k | 0 <= k < i ensures v.entries[k].exposed == t.entries[k].exposed {
      assert e.entries[k] == t.entries[k];
    }
  }

  lemma RegisteredGrew(t: Tools, u: Tools, d: Decl, ending: Ending, f: Flags)
    requires Frozen(Enter(t, d), u) && (Dead(f) || NoneLost(Enter(t, d), u)) && |t.entries| < |u.entries|
    ensures Grew(t, Conclude(u, |t.entries|, ending)) && KeptBut(t, Conclude(u, |t.entries|, ending), d.name, f)
  {
    var e, i := Enter(t, d), |t.entries|;
    var v := Conclude(u, i, ending);
    assert e.entries[i] == Entry(d, true, false);
    forall k | 0 <= k < i ensures v.entries[k].decl == t.entries[k].decl && v.entries[k].exposed == t.entries[k].exposed
      ensures (v.entries[k].active ==> t.entries[k].active) && (t.entries[k].active ==> v.entries[k].active || Dead(f))
    {
      assert e.entries[k] == t.entries[k];
    }
  }

  lemma RegisteredProgress(t: Tools, u: Tools, d: Decl, ending: Ending, log: seq<Registration>,
                           script: seq<Response>, rest: Ending)
    requires |log| == |t.entries| < |u.entries| == |t.entries| + 1 && EndingFrom(ending, script, rest)
    requires Grew(t, Conclude(u, |t.entries|, ending)) && (Calm(script) ==> u == Enter(t, d))
    ensures var more := log + [Registration(ending, u.entries[|t.entries|].active)];
            && Progress(t, log, Conclude(u, |t.entries|, ending), more, script, rest, [d])
            && (ending != Returns ==> SomeThrew(log, more))
  {
    hide Grew, EndingFrom;
    var more := log + [Registration(ending, u.entries[|t.entries|].active)];
    assert more[|log|].ending == ending;
  }

  class Reconciler {
    // The outside: the collection, the plugin's signal, and what callbacks will do.
    var content: seq<Decl>
    var flags: Flags
    var script: seq<Response>
    const rest: Ending                 // how registrations end once the script is over
    var log: seq<Registration>         // how each entry's registration ended
    // The reconciler's own state.
    var tools: Tools
    var subscribing: bool
    var reconciling: bool
    var pending: bool
    ghost var leaked: set<nat>         // entries whose registration threw after Pi had taken the callback

    /** A reconcile begun now does no more than set `pending` or deactivate. */
    predicate Guarded()
      reads this
    {
      reconciling || subscribing || Dead(flags)
    }

    /** Pi holds every current entry, and every entry's registration is logged. */
    ghost predicate Sound()
      reads this
    {
      Exposed(tools) && Logged(tools, log, leaked)
    }

    /** Outside code has run; it leaves a mark when it changes the collection. */
    twostate predicate Waited()
      reads this
    {
      && Frozen(old(tools), tools) && (Dead(flags) || NoneLost(old(tools), tools))
      && Steady()
    }

    twostate predicate Steady()
      reads this
    {
      && (old(flags.disposed) ==> flags.disposed) && (old(flags.aborted) ==> flags.aborted)
      && log == old(log) && leaked == old(leaked) && reconciling == old(reconciling) && subscribing == old(subscribing)
      && (old(pending) ==> pending)
      && (content != old(content) ==> pending)
      && |script| <= |old(script)| && (forall r :: r in script ==> r in old(script))
    }

    /** Calm outside code neither changes the collection nor ends the plugin. */
    twostate predicate Undisturbed()
      reads this
    {
      Calm(old(script)) ==> flags == old(flags) && content == old(content)
    }

    /** One call to the outside. */
    method CallOut() returns (r: Response)
      requires Guarded() && Consistent(tools, leaked)
      modifies this
      ensures Waited() && Guarded() && Consistent(tools, leaked)
      ensures pending && !old(pending) ==> |script| < |old(script)|
      ensures r in old(script) || r == Response([], false, false, rest)
      ensures Undisturbed() && (Calm(old(script)) ==> tools == old(tools))
      decreases |script|, 0
    {
      if script == [] { return Response([], false, false, rest); }
      r, script := script[0], script[1..];
      for i := 0 to |r.reactions|
        invariant Waited() && Guarded() && Consistent(tools, leaked)
        invariant |script| < |old(script)|
        invariant i == 0 ==> tools == old(tools) && flags == old(flags) && content == old(content)
      {
        ghost var before := tools;
        React(r.reactions[i]);
        FrozenTwice(old(tools), before, tools);
      }
    }

    method React(reaction: Reaction)
      requires Guarded() && Consistent(tools, leaked)
      modifies this
      ensures Waited() && Guarded() && Consistent(tools, leaked)
      decreases |script|, 5
    {
      match reaction
      case Change(c) =>
        content := c;
        // The subscription swallows what a reconcile throws; here none can.
        var threw := Reconcile();
      case Abort =>
        flags := flags.(aborted := true);
      case Dispose =>
        flags := flags.(disposed := true);
        Deactivate();
    }

    /** `deactivate`: abort every registered entry. Nothing can reactivate one meanwhile. */
    method Deactivate()
      requires Guarded() && Consistent(tools, leaked)
      modifies this
      ensures Frozen(old(tools), tools) && Steady() && Guarded() && Consistent(tools, leaked)
      ensures Quiet(tools) && Undisturbed()
      decreases |script|, 2
    {
      hide Frozen, Consistent, NameActive;
      var all := tools.names;
      NamesAreAll(tools, leaked);
      Unchanged(tools);
      for i := 0 to |all|
        invariant Frozen(old(tools), tools) && Steady() && Guarded() && Consistent(tools, leaked)
        invariant forall k :: 0 <= k < i ==> !NameActive(tools, all[k])
        invariant Undisturbed()
      {
        ghost var before := tools;
        Retire(all[i]);
        FrozenActive(before, tools);
        FrozenTwice(old(tools), before, tools);
      }
      FrozenNames(old(tools), tools);
    }

    /** `entry.active?.abort(); entry.active = undefined`: the signal is aborted before its listeners run. */
    method Retire(name: string)
      requires Guarded() && Consistent(tools, leaked)
      modifies this
      ensures Frozen(old(tools), tools) && Steady() && Guarded() && Consistent(tools, leaked)
      ensures !NameActive(tools, name) && Undisturbed()
      ensures pending && !old(pending) ==> |script| < |old(script)|
      decreases |script|, 1
    {
      Unchanged(tools);
      if !NameActive(tools, name) { return; }
      var i := tools.registered[name];
      tools := tools.(entries := tools.entries[i := tools.entries[i].(active := false)]);
      ghost var before := tools;
      FrozenConsistent(old(tools), tools, leaked);
      var r := CallOut();
      FrozenTwice(old(tools), before, tools);
    }

    /** The flags only rise, and outside changes leave `pending` set. */
    twostate predicate Advanced()
      reads this
    {
      && (old(flags.disposed) ==> flags.disposed) && (old(flags.aborted) ==> flags.aborted)
      && reconciling == old(reconciling) && subscribing == old(subscribing)
      && (old(pending) ==> pending)
      && (content != old(content) ==> pending)
      && |script| <= |old(script)| && (forall r :: r in script ==> r in old(script))
      && (pending && !old(pending) ==> |script| < |old(script)|)
    }

    /** The loop that aborts entries whose declaration left the collection. */
    method RetireStale(wanted: seq<Decl>)
      requires reconciling && Consistent(tools, leaked)
      modifies this
      ensures Frozen(old(tools), tools) && Advanced() && log == old(log) && leaked == old(leaked)
      ensures Consistent(tools, leaked) && Pruned(tools, wanted) && Undisturbed()
      decreases |script|, 2
    {
      hide Frozen, Consistent;
      var all := tools.names;
      NamesAreAll(tools, leaked);
      Unchanged(tools);
      for i := 0 to |all|
        invariant Frozen(old(tools), tools) && Advanced() && log == old(log) && leaked == old(leaked)
        invariant Consistent(tools, leaked) && Undisturbed()
        invariant forall k :: 0 <= k < i ==> !Stale(tools, all[k], wanted)
      {
        if Stale(tools, all[i], wanted) {
          ghost var before := tools;
          Retire(all[i]);
          FrozenActive(before, tools);
          FrozenTwice(old(tools), before, tools);
        }
      }
      FrozenNames(old(tools), tools);
    }

    /** Registering a declaration that its name's entry does not hold. */
    method Register(d: Decl) returns (threw: bool)
      requires reconciling && Consistent(tools, leaked) && Sound() && !Held(tools, d)
      requires !NameActive(tools, d.name)
      modifies this
      ensures Advanced() && Consistent(tools, leaked) && Sound() && Undisturbed()
      ensures Progress(old(tools), old(log), tools, log, old(script), rest, [d]) && KeptBut(old(tools), tools, d.name, flags)
      ensures !threw ==> leaked == old(leaked) && Held(tools, d) && (Adopted(tools, d) || Dead(flags))
      ensures threw ==> d.name !in tools.registered && SomeThrew(old(log), log)
      decreases |script|, 1
    {
      hide Exposed, Grew, KeptBut, Adopted, Frozen, NoneLost, Consistent, Held, Current, Conclude, NameActive, Progress,
           Logged, SomeThrew, Calm, EndingFrom, Enter, Leaks, LeakedBy, Without;
      var i := |tools.entries|;
      EnterConsistent(tools, d, leaked);
      LogLength(tools, log, leaked);
      tools := Enter(tools, d);
      var r := CallOut();
      AnsweredFrom(r, old(script), rest);
      Registered(old(tools), tools, d, r.ending, flags, leaked);
      RegisteredGrew(old(tools), tools, d, r.ending, flags);
      EnteredIsCurrent(old(tools), tools, d);
      ConcludeConsistent(tools, i, r.ending, leaked);
      ConcludedLogged(old(tools), d, tools, r.ending, log, leaked);
      RegisteredProgress(old(tools), tools, d, r.ending, log, old(script), rest);
      ReturningLeaksNothing(tools, i, leaked);
      log, leaked := log + [Registration(r.ending, tools.entries[i].active)], Leaks(tools, i, r.ending, leaked);
      tools := Conclude(tools, i, r.ending);
      return r.ending != Returns;
    }

    /** One declaration of a snapshot: keep its entry, or register a new one over the old. */
    method Adopt(d: Decl) returns (threw: bool)
      requires reconciling && Consistent(tools, leaked) && Sound()
      requires Held(tools, d) || !NameActive(tools, d.name)
      modifies this
      ensures Advanced() && Consistent(tools, leaked) && Sound() && Undisturbed()
      ensures Progress(old(tools), old(log), tools, log, old(script), rest, [d]) && KeptBut(old(tools), tools, d.name, flags)
      ensures !threw ==> leaked == old(leaked) && Held(tools, d) && (Adopted(tools, d) || Dead(flags))
      ensures threw ==> d.name !in tools.registered && SomeThrew(old(log), log)
      decreases |script|, 2
    {
      hide Exposed, Grew, KeptBut, Adopted, Consistent, Logged, Progress, Calm;
      if Held(tools, d) {
        var i := tools.registered[d.name];
        Reactivated(tools, d, flags, leaked);
        ReactivatedLogged(tools, i, log, leaked);
        ReactivatedProgress(tools, i, log, script, rest, [d]);
        tools := Reactivate(tools, i);
        return false;
      }
      threw := Register(d);
    }

    /** One round of the loop in `reconcile`. */
    method Round() returns (threw: bool)
      requires reconciling && !pending && Consistent(tools, leaked) && Sound()
      modifies this
      ensures Advanced() && Consistent(tools, leaked) && Sound() && Undisturbed()
      ensures Progress(old(tools), old(log), tools, log, old(script), rest, old(content)) && (!threw ==> leaked == old(leaked))
      ensures threw && Calm(old(script)) ==> SomeThrew(old(log), log) || !DistinctNames(old(content))
      ensures !threw && !pending ==> Dead(flags) || Matches(tools, content)
      decreases |script|, 3
    {
      hide Consistent, Exposed, Grew, Frozen, Pruned, Held, NameActive, NoneLost, KeptBut, Progress, Logged, LogGrew,
           SomeThrew, CalmGrowth, Adopted, DistinctNames;
      var before := content;
      var r := CallOut();
      var wanted := if r.late then content else before;
      FrozenProgress(old(tools), tools, log, old(script), rest, old(content));
      FrozenExposed(old(tools), tools);
      FrozenLogged(old(tools), tools, log, leaked);
      if r.snapshotThrows || !DistinctNames(wanted) { return true; }
      ghost var t, was, left := tools, log, script;
      RetireStale(wanted);
      FrozenExposed(t, tools);
      FrozenLogged(t, tools, log, leaked);
      LogLength(t, was, leaked);
      FrozenProgress(t, tools, log, left, rest, wanted);
      ProgressTwice(old(tools), old(log), t, was, tools, log, old(script), left, rest, old(content), wanted);
      for i := 0 to |wanted|
        invariant Advanced() && reconciling && Consistent(tools, leaked) && Sound() && Undisturbed()
        invariant Progress(old(tools), old(log), tools, log, old(script), rest, old(content))
        invariant leaked == old(leaked) && Pruned(tools, wanted) && (pending || content == wanted)
        invariant forall k :: 0 <= k < i ==> Held(tools, wanted[k]) && (NameActive(tools, wanted[k].name) || Dead(flags))
      {
        t, was, left := tools, log, script;
        StaleIsInactive(tools, wanted, i, leaked);
        LogLength(t, was, leaked);
        threw := Adopt(wanted[i]);
        ProgressLogs(old(tools), old(log), t, was, old(script), rest, old(content));
        ProgressLogs(t, was, tools, log, left, rest, [wanted[i]]);
        ProgressTwice(old(tools), old(log), t, was, tools, log, old(script), left, rest, old(content), [wanted[i]]);
        if threw {
          SomeThrewSince(old(log), was, log);
          return;
        }
        AdoptedHeld(tools, wanted[i]);
        AdoptedInTurn(t, tools, wanted, i, flags, leaked);
      }
      MatchesNow(tools, wanted, flags);
      return false;
    }

    /** `reconcile`. On a quiet reconciler it follows the collection to the end or retires every tool. */
    method Reconcile() returns (threw: bool)
      requires Consistent(tools, leaked) && (Guarded() || Sound())
      modifies this
      ensures Consistent(tools, leaked)
      ensures old(Guarded()) ==> Waited() && Guarded() && pending && !threw
      ensures old(Dead(flags)) ==> Quiet(tools)
      ensures Undisturbed()
      ensures !old(Guarded()) ==> Sound() && !reconciling && !subscribing && (threw ==> Quiet(tools))
      ensures !old(Guarded()) ==> Progress(old(tools), old(log), tools, log, old(script), rest, old(content))
      ensures threw && Calm(old(script)) ==> SomeThrew(old(log), log) || !DistinctNames(old(content))
      ensures !old(Guarded()) && !threw ==> leaked == old(leaked) && (Dead(flags) || Matches(tools, content))
      decreases |script|, 4
    {
      hide Consistent, Exposed, Grew, Frozen, Quiet, Matches, NoneLost, Progress, Logged, SomeThrew, DistinctNames;
      threw := false;
      pending := true;
      if Dead(flags) {
        Deactivate();
        return;
      }
      Unchanged(tools);
      if reconciling || subscribing { return; }
      reconciling := true;
      FrozenProgress(tools, tools, log, script, rest, content);
      var again := true;
      while again
        invariant reconciling && !subscribing && Consistent(tools, leaked) && Sound() && Undisturbed()
        invariant Progress(old(tools), old(log), tools, log, old(script), rest, old(content))
        invariant forall r :: r in script ==> r in old(script)
        invariant !threw && leaked == old(leaked) && (again || Dead(flags) || Matches(tools, content))
        decreases |script|, again
      {
        ghost var t, was, left, c := tools, log, script, content;
        LogLength(t, was, leaked);
        pending := false;
        threw := Round();
        ProgressLogs(old(tools), old(log), t, was, old(script), rest, old(content));
        ProgressLogs(t, was, tools, log, left, rest, c);
        ProgressTwice(old(tools), old(log), t, was, tools, log, old(script), left, rest, old(content), c);
        if threw {
          if SomeThrew(was, log) { SomeThrewSince(old(log), was, log); }
          t, left, c := tools, script, content;
          LogLength(t, log, leaked);
          Deactivate();
          FrozenExposed(t, tools);
          FrozenLogged(t, tools, log, leaked);
          FrozenProgress(t, tools, log, left, rest, c);
          ProgressTwice(old(tools), old(log), t, log, tools, log, old(script), left, rest, old(content), c);
          break;
        }
        again := pending && !flags.disposed;
      }
      reconciling := false;
    }

    /** Between events: nobody is reconciling, and the subscription is in place. */
    ghost predicate Idle()
      reads this
    {
      !reconciling && !subscribing && Consistent(tools, leaked) && Sound()
    }

    /** Subscribing, with whatever notifications that brings, and the first reconcile. */
    constructor (content: seq<Decl>, aborted: bool, script: seq<Response>, rest: Ending)
      ensures !reconciling && subscribing && Consistent(tools, leaked) && Sound() && log == []
      ensures this.script == script && tools == Tools([], [], map[]) && this.rest == rest
      ensures this.content == content && flags == Flags(aborted, false)
    {
      this.content, this.flags, this.script, this.rest := content, Flags(aborted, false), script, rest;
      tools := Tools([], [], map[]);
      subscribing, reconciling, pending, log, leaked := true, false, false, [], {};
    }

    method Start() returns (threw: bool)
      requires !reconciling && subscribing && Consistent(tools, leaked) && Sound()
      modifies this
      ensures Idle() && Outcome(tools, flags, content, threw, leaked) && Undisturbed()
      ensures Progress(old(tools), old(log), tools, log, old(script), rest, old(content))
      ensures threw && Calm(old(script)) ==> SomeThrew(old(log), log) || !DistinctNames(old(content))
    {
      hide Consistent, Exposed, Logged, Outcome, Progress, SomeThrew, DistinctNames, Frozen, NoneLost;
      var r := CallOut();
      FrozenExposed(old(tools), tools);
      FrozenLogged(old(tools), tools, log, leaked);
      FrozenProgress(old(tools), tools, log, old(script), rest, old(content));
      subscribing := false;
      ghost var t, left, c := tools, script, content;
      LogLength(tools, log, leaked);
      threw := Settle();
      ProgressTwice(old(tools), old(log), t, old(log), tools, log, old(script), left, rest, old(content), c);
    }

    /** An outermost reconcile, whatever state the plugin is in. */
    method Settle() returns (threw: bool)
      requires Idle()
      modifies this
      ensures Idle() && Outcome(tools, flags, content, threw, leaked) && Undisturbed()
      ensures Progress(old(tools), old(log), tools, log, old(script), rest, old(content))
      ensures threw && Calm(old(script)) ==> SomeThrew(old(log), log) || !DistinctNames(old(content))
      ensures old(Dead(flags)) ==> Dead(flags) && !threw
    {
      hide Consistent, Exposed, Logged, Progress, Frozen, Quiet, Matches, NoneLost, SomeThrew, DistinctNames;
      threw := Reconcile();
      if old(Dead(flags)) {
        FrozenExposed(old(tools), tools);
        FrozenLogged(old(tools), tools, log, leaked);
        FrozenProgress(old(tools), tools, log, old(script), rest, old(content));
      }
    }

    /** The collection changes and notifies while nothing is reconciling; the subscription swallows what is thrown. */
    method Notified(content: seq<Decl>, script: seq<Response>) returns (threw: bool)
      requires Idle()
      modifies this
      ensures Idle() && Outcome(tools, flags, this.content, threw, leaked)
      ensures Progress(old(tools), old(log), tools, log, script, rest, content)
      ensures old(Dead(flags)) ==> Dead(flags) && !threw
      ensures Calm(script) ==> flags == old(flags) && this.content == content
      ensures threw && Calm(script) ==> SomeThrew(old(log), log) || !DistinctNames(content)
    {
      hide Consistent, Exposed, Logged, Progress, Outcome, Calm, DistinctNames, SomeThrew;
      this.content, this.script := content, script;
      threw := Settle();
    }

    /** The plugin's signal is aborted: by its host, or by `mount` because the first reconcile threw. */
    method Aborted()
      requires Idle()
      modifies this
      ensures Idle() && Dead(flags) && tools == old(tools) && log == old(log)
    {
      flags := flags.(aborted := true);
    }

    method DisposePlugin(script: seq<Response>)
      requires Idle()
      modifies this
      ensures Idle() && Dead(flags) && Grew(old(tools), tools) && log == old(log)
    {
      this.script := script;
      flags := flags.(disposed := true);
      Deactivate();
      FrozenGrew(old(tools), tools);
      FrozenExposed(old(tools), tools);
      FrozenLogged(old(tools), tools, log, leaked);
    }
  }

  // -------------------------------------------------------------------------
  // Whole runs
  // -------------------------------------------------------------------------

  /** What a finished reconcile leaves: the collection's tools, or none after throwing or death. */
  ghost predicate Outcome(t: Tools, f: Flags, content: seq<Decl>, threw: bool, leaked: set<nat>) {
    Dead(f) || (if threw then Quiet(t) else Matches(t, content))
  }

  /** Leaks aside, the callable tools are exactly the collection's declarations, once each. */
  ghost predicate Tracks(t: Tools, f: Flags, content: seq<Decl>, leaked: set<nat>) {
    && (forall d :: d in content ==> exists i: nat :: Callable(t, f, i) && i !in leaked && t.entries[i].decl == d)
    && (forall i: nat :: Callable(t, f, i) && i !in leaked ==> t.entries[i].decl in content)
    && (forall i: nat, j: nat :: Callable(t, f, i) && Callable(t, f, j) && i !in leaked && j !in leaked
          ==> (t.entries[i].decl.name == t.entries[j].decl.name ==> i == j))
  }

  /** No lost updates: what a finished reconcile leaves is the collection as it is then. */
  lemma CallableIsTheCollection(t: Tools, f: Flags, content: seq<Decl>, leaked: set<nat>)
    requires Consistent(t, leaked) && Exposed(t) && Matches(t, content) && !Dead(f)
    ensures Tracks(t, f, content, leaked)
  {
    forall d | d in content ensures exists i: nat :: Callable(t, f, i) && i !in leaked && t.entries[i].decl == d {
      assert Adopted(t, d);
      assert Current(t, t.registered[d.name]);
    }
    forall i: nat | Callable(t, f, i) && i !in leaked ensures Current(t, i) && t.entries[i].decl in content {
      assert Current(t, i);
    }
  }

  datatype Event = Notification(content: seq<Decl>, script: seq<Response>) | Abortion | Disposal(script: seq<Response>)

  function ScriptOf(e: Event): seq<Response> {
    match e
    case Notification(_, script) => script
    case Abortion => []
    case Disposal(script) => script
  }

  /** What can be seen after an event, and how the registrations so far ended. */
  datatype Moment = Moment(tools: Tools, flags: Flags, content: seq<Decl>, threw: bool, log: seq<Registration>)

  /**
   * Nothing is callable in a dead plugin. In a live one a leaked entry always is;
   * beside them, after a throwing reconcile nothing, otherwise the collection.
   */
  ghost predicate Correct(m: Moment) {
    && |m.log| == |m.tools.entries|
    && (forall i: nat :: i in LeakedBy(m.log) ==> (Callable(m.tools, m.flags, i) <==> !Dead(m.flags)))
    && (Dead(m.flags) ==> forall i: nat :: !Callable(m.tools, m.flags, i))
    && (!Dead(m.flags) && m.threw ==> forall i: nat :: Callable(m.tools, m.flags, i) ==> i in LeakedBy(m.log))
    && (!Dead(m.flags) && !m.threw ==> Tracks(m.tools, m.flags, m.content, LeakedBy(m.log)))
  }

  /** The entry is no longer the one its name stands for. */
  predicate Superseded(m: Moment, i: nat) {
    i < |m.tools.entries| && !Current(m.tools, i)
  }

  /** After a reconcile that threw, the callable entries are exactly the leaked ones. */
  lemma CallableAfterThrowing(t: Tools, f: Flags, log: seq<Registration>, leaked: set<nat>)
    requires Consistent(t, leaked) && Logged(t, log, leaked) && Quiet(t)
    ensures forall i: nat :: Callable(t, f, i) <==> !Dead(f) && i < |log| && log[i] == Registration(ThrowsDone, true)
  {
    forall i: nat | Callable(t, f, i) ensures i in leaked {
      assert Current(t, i) || i in leaked;
    }
  }

  lemma OutcomeIsCorrect(m: Moment, leaked: set<nat>)
    requires Consistent(m.tools, leaked) && Exposed(m.tools) && Logged(m.tools, m.log, leaked)
    requires Outcome(m.tools, m.flags, m.content, m.threw, leaked)
    ensures Correct(m)
  {
    if !Dead(m.flags) {
      if m.threw {
        CallableAfterThrowing(m.tools, m.flags, m.log, leaked);
      } else {
        CallableIsTheCollection(m.tools, m.flags, m.content, leaked);
      }
    }
  }

  /** What one event adds: entries are registered in turn, and end as its script says. */
  ghost predicate Follows(m: Moment, next: Moment, script: seq<Response>, rest: Ending) {
    Grew(m.tools, next.tools) && LogGrew(m.log, next.log, script, rest)
  }

  /**
   * A leak is never undone, and there is a new one exactly for each new entry whose own
   * registration threw after Pi had taken the callback, while the entry was still active.
   */
  ghost predicate LeaksGrow(m: Moment, next: Moment) {
    && LeakedBy(m.log) <= LeakedBy(next.log)
    && forall i: nat ::
         (i in LeakedBy(next.log) && i !in LeakedBy(m.log)
          <==> |m.tools.entries| <= i < |next.log| && next.log[i] == Registration(ThrowsDone, true))
  }

  lemma LeaksAreNew(m: Moment, next: Moment, script: seq<Response>, rest: Ending)
    requires Follows(m, next, script, rest) && Correct(m)
    ensures LeaksGrow(m, next)
  {
    hide Grew, EndingFrom, Callable, Tracks;
  }

  ghost predicate Chained(moments: seq<Moment>) {
    forall n :: 0 <= n < |moments| - 1 ==> Grew(moments[n].tools, moments[n + 1].tools) && moments[n].log <= moments[n + 1].log
  }

  /** An entry that lost its name does not get it back, and does not begin to leak. */
  lemma {:induction false} SupersededStays(moments: seq<Moment>, j: nat, k: nat, i: nat)
    requires j <= k < |moments| && Superseded(moments[j], i) && |moments[j].log| == |moments[j].tools.entries|
    requires Chained(moments)
    ensures Superseded(moments[k], i)
    ensures |moments[j].log| <= |moments[k].log| && (i in LeakedBy(moments[k].log) <==> i in LeakedBy(moments[j].log))
  {
    if j < k {
      SupersededStays(moments, j, k - 1, i);
      assert Grew(moments[k - 1].tools, moments[k - 1 + 1].tools) && moments[k - 1].log <= moments[k - 1 + 1].log;
    }
  }

  /** A callable entry is its name's current one, or leaked. */
  ghost predicate CurrentOrLeaked(m: Moment) {
    forall i: nat :: Callable(m.tools, m.flags, i) ==> Current(m.tools, i) || i in LeakedBy(m.log)
  }

  lemma ConsistentMoment(m: Moment, leaked: set<nat>)
    requires Consistent(m.tools, leaked) && Logged(m.tools, m.log, leaked)
    ensures CurrentOrLeaked(m)
  {}

  /** One event, and what can be seen after it. */
  method Happen(r: Reconciler, e: Event) returns (m: Moment)
    requires r.Idle()
    modifies r
    ensures r.Idle() && m.tools == r.tools && m.flags == r.flags && m.log == r.log
    ensures Correct(m) && CurrentOrLeaked(m) && (old(Dead(r.flags)) ==> Dead(r.flags))
    ensures Grew(old(r.tools), r.tools) && LogGrew(old(r.log), r.log, ScriptOf(e), r.rest)
  {
    hide Consistent, Exposed, Logged, Outcome, Grew, LogGrew, Correct, CurrentOrLeaked, Calm, CalmGrowth, SomeThrew, DistinctNames;
    var threw := false;
    NothingLogged(r.log, ScriptOf(e), r.rest);
    match e {
      case Notification(c, s) =>
        threw := r.Notified(c, s);
      case Abortion =>
        Unchanged(r.tools);
        r.Aborted();
      case Disposal(s) =>
        r.DisposePlugin(s);
    }
    m := Moment(r.tools, r.flags, r.content, threw, r.log);
    OutcomeIsCorrect(m, r.leaked);
    ConsistentMoment(m, r.leaked);
  }

  /**
   * Every run of a plugin, whatever its registrations do. When the first reconcile throws, `mount` aborts
   * the plugin, after as many events as come before its turn.
   */
  method Live(content: seq<Decl>, aborted: bool, script: seq<Response>, rest: Ending, events: seq<Event>, turn: nat)
    returns (moments: seq<Moment>)
    ensures |moments| == |events| + 1
    ensures moments[0].threw ==> forall k :: turn < k < |moments| ==> Dead(moments[k].flags)
    ensures forall k :: 0 <= k < |moments| ==> Correct(moments[k])
    ensures forall k :: 0 <= k < |events| ==>
      Follows(moments[k], moments[k + 1], ScriptOf(events[k]), rest) && LeaksGrow(moments[k], moments[k + 1])
    ensures forall j, k, i: nat :: 0 <= j <= k < |moments| && Superseded(moments[j], i) ==>
      (Callable(moments[k].tools, moments[k].flags, i) ==> i in LeakedBy(moments[j].log))
  {
    hide Consistent, Exposed, Logged, Outcome, Grew, LogGrew, Correct, CurrentOrLeaked, LeaksGrow, Calm, CalmGrowth, SomeThrew, DistinctNames;
    var r := new Reconciler(content, aborted, script, rest);
    var threw := r.Start();
    var m := Moment(r.tools, r.flags, r.content, threw, r.log);
    OutcomeIsCorrect(m, r.leaked);
    ConsistentMoment(m, r.leaked);
    moments := [m];
    for n := 0 to |events|
      invariant r.Idle() && r.rest == rest && |moments| == n + 1
      invariant moments[n].tools == r.tools && moments[n].log == r.log
      invariant moments[0].threw ==> (n > turn ==> Dead(r.flags)) && forall k :: turn < k < |moments| ==> Dead(moments[k].flags)
      invariant forall k :: 0 <= k < |moments| ==> Correct(moments[k]) && CurrentOrLeaked(moments[k])
      invariant forall k :: 0 <= k < n ==>
        Follows(moments[k], moments[k + 1], ScriptOf(events[k]), rest) && LeaksGrow(moments[k], moments[k + 1])
    {
      if moments[0].threw && n == turn { r.Aborted(); }
      m := Happen(r, events[n]);
      assert Follows(moments[n], m, ScriptOf(events[n]), rest);
      LeaksAreNew(moments[n], m, ScriptOf(events[n]), rest);
      moments := moments + [m];
    }
    AllChained(moments, events, rest);
    forall j, k, i: nat | 0 <= j <= k < |moments| && Superseded(moments[j], i)
      ensures Callable(moments[k].tools, moments[k].flags, i) ==> i in LeakedBy(moments[j].log)
    {
      LogsEntries(moments[j]);
      SupersededStays(moments, j, k, i);
      if Callable(moments[k].tools, moments[k].flags, i) { NotCurrent(moments[k], i); }
    }
  }

  lemma NothingLogged(log: seq<Registration>, script: seq<Response>, rest: Ending)
    ensures LogGrew(log, log, script, rest)
  {}

  lemma LogsEntries(m: Moment)
    requires Correct(m)
    ensures |m.log| == |m.tools.entries|
  {}

  lemma NotCurrent(m: Moment, i: nat)
    requires CurrentOrLeaked(m) && Callable(m.tools, m.flags, i) && !Current(m.tools, i)
    ensures i in LeakedBy(m.log)
  {}

  lemma AllChained(moments: seq<Moment>, events: seq<Event>, rest: Ending)
    requires |moments| == |events| + 1
    requires forall k :: 0 <= k < |events| ==> Follows(moments[k], moments[k + 1], ScriptOf(events[k]), rest)
    ensures Chained(moments)
  {
    forall n | 0 <= n < |moments| - 1
      ensures Grew(moments[n].tools, moments[n + 1].tools) && moments[n].log <= moments[n + 1].log
    {
      assert Follows(moments[n], moments[n + 1], ScriptOf(events[n]), rest);
    }
  }

  /**
   * A plugin that starts without tools and then gets one, whose registration throws late: the subscription swallows
   * that, the plugin lives on, and the tool stays callable.
   */
  method LeakedTool(d: Decl) returns (began: Moment, after: Moment)
    ensures !began.threw && !Dead(began.flags) && began.content == []
    ensures after.threw && !Dead(after.flags) && after.content == [d]
    ensures exists i: nat :: Callable(after.tools, after.flags, i) && after.tools.entries[i].decl == d
  {
    hide Consistent, Exposed, Grew;
    var r := new Reconciler([], false, [], ThrowsDone);
    var threw := r.Start();
    began := Moment(r.tools, r.flags, r.content, threw, r.log);
    NothingToRegister(r.tools, threw, r.log, r.leaked);
    threw := r.Notified([d], []);
    after := Moment(r.tools, r.flags, r.content, threw, r.log);
    LateThrowLeaks(began.tools, r.tools, r.flags, d, threw, r.log, r.leaked);
  }

  lemma NothingToRegister(t: Tools, threw: bool, log: seq<Registration>, leaked: set<nat>)
    requires Logged(t, log, leaked) && CalmGrowth(Tools([], [], map[]), t, log, [])
    requires threw ==> SomeThrew([], log) || !DistinctNames([])
    ensures log == [] && t.entries == [] && !threw
  {
    if t.entries != [] { AskedFor(t, log, leaked, [], 0); }
  }

  lemma AskedFor(t: Tools, log: seq<Registration>, leaked: set<nat>, content: seq<Decl>, i: nat)
    requires Logged(t, log, leaked) && CalmGrowth(Tools([], [], map[]), t, log, content) && i < |t.entries|
    ensures t.entries[i].decl in content
  {}

  lemma LateThrowLeaks(before: Tools, t: Tools, f: Flags, d: Decl, threw: bool, log: seq<Registration>, leaked: set<nat>)
    requires Consistent(t, leaked) && Logged(t, log, leaked) && Outcome(t, f, [d], threw, leaked)
    requires f == Flags(false, false) && before.entries == [] && LogGrew([], log, [], ThrowsDone)
    requires CalmGrowth(before, t, log, [d]) && (threw ==> SomeThrew([], log) || !DistinctNames([d]))
    ensures threw && exists i: nat :: Callable(t, f, i) && t.entries[i].decl == d
  {
    forall i | 0 <= i < |log| ensures log[i].ending == ThrowsDone {
      assert EndingFrom(log[i].ending, [], ThrowsDone);
    }
    if !threw {
      AdoptedReturned(t, d, log, leaked);
      assert false;
    }
    var i :| 0 <= i < |log| && log[i].ending != Returns;
    assert i in leaked;
  }

  lemma AdoptedReturned(t: Tools, d: Decl, log: seq<Registration>, leaked: set<nat>)
    requires Consistent(t, leaked) && Logged(t, log, leaked) && Matches(t, [d])
    ensures exists i :: 0 <= i < |log| && log[i].ending == Returns
  {
    assert d in [d] && Adopted(t, d);
    assert Current(t, t.registered[d.name]);
  }
}
