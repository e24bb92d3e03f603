// Naming the inputs of a shared build independently of the worktree, resolving
// the names in another worktree, and handing out one token per input.
//
// An absolute path is the sequence of its segments; a digest of a path is a
// constructor over it, which is to say that hashing is injective.
module LogicalInputs {
  import opened Common
  import PathPieces

  type Dir = seq<string>

  /** `repo/` with a relative path, `external/` with a digest, or anything else a manifest may say. */
  datatype LogicalPath = RepoPath(relative: seq<string>) | ExternalPath(identity: Dir) | OtherPath(text: string)

  datatype Input = Input(logicalPath: LogicalPath, source: Option<Dir>)

  /** What `realpath` returns: no empty, dot or dot-dot segments. */
  predicate Canonical(p: Dir) {
    forall i :: 0 <= i < |p| ==> p[i] != "" && p[i] != "." && p[i] != ".."
  }

  /** `isInside`: the relative path may not begin with two dots, even as part of a name. */
  predicate Inside(root: Dir, target: Dir) {
    root <= target && (|target| > |root| ==> !(".." <= target[|root|]))
  }

  function LogicalInput(target: Dir, root: Dir): Input {
    if Inside(root, target) then Input(RepoPath(target[|root|..]), None)
    else Input(ExternalPath(target), Some(target))
  }

  function Walk(base: Dir, segments: seq<string>): Dir {
    if segments == [] then base
    else
      var here, last := Walk(base, segments[..|segments| - 1]), segments[|segments| - 1];
      if last == "" || last == "." then here
      else if last == ".." then (if here == [] then [] else here[..|here| - 1])
      else here + [last]
  }

  /** `path.resolve`: a relative part that begins with a slash starts over. */
  function ResolvePath(root: Dir, segments: seq<string>): Dir {
    if |segments| > 1 && segments[0] == "" then Walk([], segments) else Walk(root, segments)
  }

  function ResolveLogicalInputPath(input: Input, root: Dir): Option<Dir> {
    match input.logicalPath
    case RepoPath(relative) =>
      var target := ResolvePath(root, relative);
      if input.source == None && Inside(root, target) then Some(target) else None
    case ExternalPath(identity) => if input.source == Some(identity) then input.source else None
    case OtherPath(_) => None
  }

  lemma {:induction false} WalkNames(base: Dir, names: seq<string>)
    requires Canonical(names)
    ensures Walk(base, names) == base + names
  {
    if names == [] {
      assert base + names == base;
    } else {
      WalkNames(base, names[..|names| - 1]);
      assert base + names == base + names[..|names| - 1] + [names[|names| - 1]];
    }
  }

  /** In any worktree an input resolves to its own place: the same relative path, or the same external file. */
  lemma InputsRelocate(target: Dir, root: Dir, root': Dir)
    requires Canonical(target)
    ensures ResolveLogicalInputPath(LogicalInput(target, root), root')
         == Some(if Inside(root, target) then root' + target[|root|..] else target)
  {
    if Inside(root, target) {
      var relative := target[|root|..];
      assert Canonical(relative);
      WalkNames(root', relative);
      assert relative != [] ==> relative[0] == target[|root|];
    }
  }

  /** Naming an input and resolving the name in the same worktree gives the input. */
  lemma NamesResolveBack(target: Dir, root: Dir)
    requires Canonical(target)
    ensures ResolveLogicalInputPath(LogicalInput(target, root), root) == Some(target)
  {
    InputsRelocate(target, root, root);
    assert Inside(root, target) ==> root + target[|root|..] == target;
  }

  /** The same file of two worktrees has the same name, and two files never share one. */
  lemma NamesIgnoreTheWorktree(root: Dir, root': Dir, relative: seq<string>)
    ensures Inside(root, root + relative) <==> Inside(root', root' + relative)
    ensures Inside(root, root + relative) ==>
      LogicalInput(root + relative, root) == LogicalInput(root' + relative, root')
  {
    assert (root + relative)[|root|..] == relative && (root' + relative)[|root'|..] == relative;
    if relative != [] {
      assert (root + relative)[|root|] == relative[0] && (root' + relative)[|root'|] == relative[0];
    }
  }

  /** A repository file is taken for an external one exactly when its first segment begins with two dots. */
  lemma DottedNamesAreExternal(root: Dir, relative: seq<string>)
    ensures LogicalInput(root + relative, root).source.Some? <==> relative != [] && ".." <= relative[0]
  {
    if relative != [] { assert (root + relative)[|root|] == relative[0]; }
  }

  lemma NamesAreDistinct(a: Dir, b: Dir, root: Dir)
    requires LogicalInput(a, root).logicalPath == LogicalInput(b, root).logicalPath
    ensures a == b
  {
    if Inside(root, a) {
      assert a == root + a[|root|..] && b == root + b[|root|..];
    }
  }

  // -------------------------------------------------------------------------
  // Tokens
  // -------------------------------------------------------------------------

  const ROOT_NAME := "ROOT"

  function Digit(d: nat): char
    requires d < 10
  {
    '0' + d as char
  }

  /** `String(index)`. */
  function Decimal(n: nat): (s: string)
    ensures s != ""
  {
    if n < 10 then [Digit(n)] else Decimal(n / 10) + [Digit(n % 10)]
  }

  lemma {:induction false} DecimalIsValid(n: nat)
    ensures PathPieces.ValidName(Decimal(n)) && Decimal(n) != ROOT_NAME
  {
    assert Decimal(n)[|Decimal(n)| - 1] == Digit(n % 10);
    if n >= 10 { DecimalIsValid(n / 10); }
  }

  lemma {:induction false} DecimalIsInjective(m: nat, n: nat)
    requires Decimal(m) == Decimal(n)
    ensures m == n
  {
    var s := Decimal(m);
    assert m >= 10 ==> s[|s| - 1] == Digit(m % 10) && s[..|s| - 1] == Decimal(m / 10);
    assert n >= 10 ==> s[|s| - 1] == Digit(n % 10) && s[..|s| - 1] == Decimal(n / 10);
    if m >= 10 && n >= 10 { DecimalIsInjective(m / 10, n / 10); }
  }

  /** An input path as the compiler listed it, and the canonical path behind it. */
  datatype Listed = Listed(target: Dir, canonical: Dir)

  /** The listed paths of one file system: links lead to canonical paths, which lead to themselves. */
  ghost predicate Coherent(listed: seq<Listed>, root: Dir) {
    && (forall x, y :: x in listed && y in listed && x.target == y.target ==> x.canonical == y.canonical)
    && (forall x, y :: x in listed && y in listed && x.target == y.canonical ==> x.canonical == y.canonical)
    && (forall x :: x in listed ==> x.target != root && x.canonical != root)
  }

  function NameOf(x: Listed, root: Dir): LogicalPath {
    LogicalInput(x.canonical, root).logicalPath
  }

  /** Each name seen so far has the index of some listed input of that name. */
  ghost predicate Tokens(tokens: map<LogicalPath, string>, listed: seq<Listed>, root: Dir, n: nat)
    requires n <= |listed|
  {
    && (forall i :: 0 <= i < n ==> NameOf(listed[i], root) in tokens)
    && (forall p :: p in tokens ==> TokenFrom(tokens[p], p, listed, root, n))
  }

  ghost predicate TokenFrom(token: string, p: LogicalPath, listed: seq<Listed>, root: Dir, n: nat)
    requires n <= |listed|
  {
    exists i :: 0 <= i < n && token == Decimal(i) && NameOf(listed[i], root) == p
  }

  lemma TokensAreDistinct(tokens: map<LogicalPath, string>, listed: seq<Listed>, root: Dir, p: LogicalPath, q: LogicalPath)
    requires Tokens(tokens, listed, root, |listed|) && p in tokens && q in tokens && tokens[p] == tokens[q]
    ensures p == q
  {
    assert TokenFrom(tokens[p], p, listed, root, |listed|) && TokenFrom(tokens[q], q, listed, root, |listed|);
    var i :| 0 <= i < |listed| && tokens[p] == Decimal(i) && NameOf(listed[i], root) == p;
    var j :| 0 <= j < |listed| && tokens[q] == Decimal(j) && NameOf(listed[j], root) == q;
    DecimalIsInjective(i, j);
  }

  ghost predicate Holds(byTarget: map<Dir, string>, tokens: map<LogicalPath, string>, p: Dir, name: LogicalPath) {
    p in byTarget && name in tokens && byTarget[p] == tokens[name]
  }

  lemma OneMoreToken(tokens: map<LogicalPath, string>, listed: seq<Listed>, root: Dir, i: nat)
    requires i < |listed| && Tokens(tokens, listed, root, i)
    ensures var name := NameOf(listed[i], root);
            Tokens(if name in tokens then tokens else tokens[name := Decimal(i)], listed, root, i + 1)
  {
    var name := NameOf(listed[i], root);
    var more := if name in tokens then tokens else tokens[name := Decimal(i)];
    forall p | p in more ensures TokenFrom(more[p], p, listed, root, i + 1) {
      if p in tokens {
        assert TokenFrom(tokens[p], p, listed, root, i);
        var k :| 0 <= k < i && tokens[p] == Decimal(k) && NameOf(listed[k], root) == p;
      }
    }
  }

  /** The first `n` inputs have their tokens under the paths `of` gives. */
  ghost predicate Served(byTarget: map<Dir, string>, tokens: map<LogicalPath, string>, listed: seq<Listed>, root: Dir,
                         of: Listed -> Dir, n: nat)
    requires n <= |listed|
  {
    forall k :: 0 <= k < n ==> Holds(byTarget, tokens, of(listed[k]), NameOf(listed[k], root))
  }

  ghost predicate Valid(byTarget: map<Dir, string>, root: Dir) {
    && root in byTarget && byTarget[root] == ROOT_NAME
    && forall p :: p in byTarget ==> PathPieces.ValidName(byTarget[p]) && (p != root ==> byTarget[p] != ROOT_NAME)
  }

  function CanonicalOf(x: Listed): Dir { x.canonical }

  function TargetOf(x: Listed): Dir { x.target }

  lemma ServeCanonical(byTarget: map<Dir, string>, tokens: map<LogicalPath, string>, more: map<LogicalPath, string>,
                       listed: seq<Listed>, root: Dir, i: nat)
    requires i < |listed| && Coherent(listed, root) && Served(byTarget, tokens, listed, root, CanonicalOf, i)
    requires NameOf(listed[i], root) in more && forall p :: p in tokens ==> p in more && more[p] == tokens[p]
    ensures Served(byTarget[listed[i].canonical := more[NameOf(listed[i], root)]], more, listed, root, CanonicalOf, i + 1)
  {
    hide LogicalInput;
  }

  lemma ServeTarget(byTarget: map<Dir, string>, tokens: map<LogicalPath, string>, listed: seq<Listed>, root: Dir, i: nat)
    requires i < |listed| && Coherent(listed, root) && NameOf(listed[i], root) in tokens
    requires Served(byTarget, tokens, listed, root, CanonicalOf, |listed|)
    requires Served(byTarget, tokens, listed, root, TargetOf, i)
    ensures var more := byTarget[listed[i].target := tokens[NameOf(listed[i], root)]];
            Served(more, tokens, listed, root, CanonicalOf, |listed|) && Served(more, tokens, listed, root, TargetOf, i + 1)
  {
    hide LogicalInput;
    assert forall k :: 0 <= k < |listed| ==> listed[k] in listed;
  }

  /** An input of the shared build: how it is named, the file whose digest is taken, and its token. */
  datatype Shared = Shared(input: Input, file: Option<Dir>, token: string)

  /** The worktree itself: it has a token and no digest. */
  function RootInput(): Shared {
    Shared(Input(RepoPath([]), None), None, ROOT_NAME)
  }

  function SharedAs(x: Listed, root: Dir, token: string): Shared {
    Shared(LogicalInput(x.canonical, root), Some(x.canonical), token)
  }

  /** The first `n` inputs are shared under their tokens, once each, and nothing else but the root. */
  ghost predicate Shares(shared: seq<Shared>, tokens: map<LogicalPath, string>, listed: seq<Listed>, root: Dir, n: nat)
    requires n <= |listed|
  {
    && RootInput() in shared
    && (forall k :: 0 <= k < n ==> SharedUnder(shared, tokens, listed[k], root))
    && (forall e :: e in shared ==> e == RootInput() || exists k :: 0 <= k < n && Names(e, tokens, listed[k], root))
  }

  ghost predicate Names(e: Shared, tokens: map<LogicalPath, string>, x: Listed, root: Dir) {
    NameOf(x, root) in tokens && e == SharedAs(x, root, tokens[NameOf(x, root)])
  }

  ghost predicate SharedUnder(shared: seq<Shared>, tokens: map<LogicalPath, string>, x: Listed, root: Dir) {
    NameOf(x, root) in tokens && SharedAs(x, root, tokens[NameOf(x, root)]) in shared
  }

  lemma MetBefore(tokens: map<LogicalPath, string>, listed: seq<Listed>, root: Dir, i: nat) returns (k: nat)
    requires i < |listed| && Tokens(tokens, listed, root, i) && NameOf(listed[i], root) in tokens
    ensures k < i && listed[k].canonical == listed[i].canonical
  {
    hide LogicalInput, Decimal, NameOf;
    var name := NameOf(listed[i], root);
    assert TokenFrom(tokens[name], name, listed, root, i);
    k :| k < i && tokens[name] == Decimal(k) && NameOf(listed[k], root) == name;
    SameNameSameFile(listed[i], listed[k], root);
  }

  // An input whose file was met before is shared already.
  lemma SeenIsShared(shared: seq<Shared>, tokens: map<LogicalPath, string>, listed: seq<Listed>, root: Dir, i: nat)
    requires i < |listed| && Shares(shared, tokens, listed, root, i) && Tokens(tokens, listed, root, i)
    requires NameOf(listed[i], root) in tokens
    ensures Shares(shared, tokens, listed, root, i + 1)
  {
    var k := MetBefore(tokens, listed, root, i);
    hide SharedUnder, Names, NameOf, Tokens, RootInput;
    assert SharedUnder(shared, tokens, listed[k], root);
    SharedUnderFile(shared, tokens, listed[i], listed[k], root);
    forall e | e in shared && e != RootInput() ensures exists n :: 0 <= n < i + 1 && Names(e, tokens, listed[n], root) {
      var n :| 0 <= n < i && Names(e, tokens, listed[n], root);
      assert 0 <= n < i + 1;
    }
  }

  lemma SharedUnderFile(shared: seq<Shared>, tokens: map<LogicalPath, string>, x: Listed, y: Listed, root: Dir)
    requires x.canonical == y.canonical && SharedUnder(shared, tokens, y, root)
    ensures SharedUnder(shared, tokens, x, root)
  {}

  lemma NewIsShared(shared: seq<Shared>, tokens: map<LogicalPath, string>, listed: seq<Listed>, root: Dir, i: nat, token: string)
    requires i < |listed| && Shares(shared, tokens, listed, root, i) && NameOf(listed[i], root) !in tokens
    ensures Shares(shared + [SharedAs(listed[i], root, token)], tokens[NameOf(listed[i], root) := token], listed, root, i + 1)
  {
    hide NameOf, SharedAs, RootInput;
    var added, more := SharedAs(listed[i], root, token), tokens[NameOf(listed[i], root) := token];
    forall e | e in shared + [added] && e != RootInput() ensures exists n :: 0 <= n < i + 1 && Names(e, more, listed[n], root) {
      if e in shared {
        var n :| 0 <= n < i && Names(e, tokens, listed[n], root);
        assert Names(e, more, listed[n], root);
      } else {
        assert Names(e, more, listed[i], root);
      }
    }
    forall k | 0 <= k < i ensures SharedUnder(shared + [added], more, listed[k], root) {
      assert SharedUnder(shared, tokens, listed[k], root);
    }
  }

  /** What `tokenizedInputs` leaves: see the method. */
  ghost predicate Tokenized(listed: seq<Listed>, root: Dir, byTarget: map<Dir, string>, shared: seq<Shared>) {
    && Valid(byTarget, root)
    && (forall x :: x in listed ==>
          x.target in byTarget && x.canonical in byTarget && byTarget[x.target] == byTarget[x.canonical])
    && (forall x, y :: x in listed && y in listed ==>
          (byTarget[x.canonical] == byTarget[y.canonical] <==> x.canonical == y.canonical))
    && (forall p :: p in byTarget ==> p == root || OfListed(p, listed))
    && RootInput() in shared
    && (forall x :: x in listed ==> SharedAs(x, root, byTarget[x.canonical]) in shared)
    && (forall e :: e in shared ==> e == RootInput() || exists x :: x in listed && e == SharedAs(x, root, byTarget[x.canonical]))
  }

  ghost predicate OfListed(p: Dir, listed: seq<Listed>) {
    exists x :: x in listed && (p == x.target || p == x.canonical)
  }

  /**
   * One token per input file: aliases share it, different files never do, and none is the
   * root's. Each file is shared once, under its name and token, and the root beside them.
   */
  method TokenizedInputs(listed: seq<Listed>, root: Dir) returns (byTarget: map<Dir, string>, shared: seq<Shared>)
    requires Coherent(listed, root)
    ensures Tokenized(listed, root, byTarget, shared)
  {
    hide Tokens, Served, NameOf, Decimal, Shares, Valid, OfListed, RootInput;
    byTarget, shared := map[root := ROOT_NAME], [RootInput()];
    var tokens: map<LogicalPath, string> := map[];
    NothingYet(byTarget, tokens, listed, root);
    RootIsValid(byTarget, root);
    NothingShared(tokens, listed, root);
    for i := 0 to |listed|
      invariant Valid(byTarget, root) && Tokens(tokens, listed, root, i)
      invariant Served(byTarget, tokens, listed, root, CanonicalOf, i)
      invariant Shares(shared, tokens, listed, root, i)
      invariant forall p :: p in byTarget ==> p == root || OfListed(p, listed)
    {
      var x, name := listed[i], NameOf(listed[i], root);
      var more := if name in tokens then tokens else tokens[name := Decimal(i)];
      OneMoreToken(tokens, listed, root, i);
      if name in tokens {
        SeenIsShared(shared, tokens, listed, root, i);
      } else {
        NewIsShared(shared, tokens, listed, root, i, Decimal(i));
      }
      ServeCanonical(byTarget, tokens, more, listed, root, i);
      TokensAreValid(more, listed, root, i + 1, name);
      StaysValid(byTarget, root, x.canonical, more[name]);
      ItsOwn(x, listed);
      if name !in tokens { shared := shared + [SharedAs(x, root, Decimal(i))]; }
      tokens, byTarget := more, byTarget[x.canonical := more[name]];
    }
    NothingYet(byTarget, tokens, listed, root);
    for i := 0 to |listed|
      invariant Valid(byTarget, root) && Served(byTarget, tokens, listed, root, TargetOf, i)
      invariant Served(byTarget, tokens, listed, root, CanonicalOf, |listed|)
      invariant forall p :: p in byTarget ==> p == root || OfListed(p, listed)
    {
      var x, name := listed[i], NameOf(listed[i], root);
      ServedAt(byTarget, tokens, listed, root, CanonicalOf, i);
      ServeTarget(byTarget, tokens, listed, root, i);
      TokensAreValid(tokens, listed, root, |listed|, name);
      StaysValid(byTarget, root, x.target, tokens[name]);
      ItsOwn(x, listed);
      byTarget := byTarget[x.target := tokens[name]];
    }
    AllTokenized(byTarget, tokens, listed, root, shared);
  }

  lemma RootIsValid(byTarget: map<Dir, string>, root: Dir)
    requires byTarget == map[root := ROOT_NAME]
    ensures Valid(byTarget, root)
  {}

  lemma StaysValid(byTarget: map<Dir, string>, root: Dir, p: Dir, token: string)
    requires Valid(byTarget, root) && p != root && PathPieces.ValidName(token) && token != ROOT_NAME
    ensures Valid(byTarget[p := token], root)
  {}

  lemma ItsOwn(x: Listed, listed: seq<Listed>)
    requires x in listed
    ensures OfListed(x.target, listed) && OfListed(x.canonical, listed)
  {}

  lemma NothingShared(tokens: map<LogicalPath, string>, listed: seq<Listed>, root: Dir)
    ensures Shares([RootInput()], tokens, listed, root, 0)
  {}

  lemma AllTokenized(byTarget: map<Dir, string>, tokens: map<LogicalPath, string>, listed: seq<Listed>, root: Dir, shared: seq<Shared>)
    requires Valid(byTarget, root) && Tokens(tokens, listed, root, |listed|) && Shares(shared, tokens, listed, root, |listed|)
    requires Served(byTarget, tokens, listed, root, CanonicalOf, |listed|)
    requires Served(byTarget, tokens, listed, root, TargetOf, |listed|)
    requires forall p :: p in byTarget ==> p == root || OfListed(p, listed)
    ensures Tokenized(listed, root, byTarget, shared)
  {
    hide Decimal, LogicalInput, NameOf, RootInput, SharedAs, Valid, Tokens, Served, OfListed;
    forall x | x in listed
      ensures Holds(byTarget, tokens, x.canonical, NameOf(x, root)) && Holds(byTarget, tokens, x.target, NameOf(x, root))
      ensures SharedUnder(shared, tokens, x, root)
    {
      var i :| 0 <= i < |listed| && listed[i] == x;
      ServedAt(byTarget, tokens, listed, root, CanonicalOf, i);
      ServedAt(byTarget, tokens, listed, root, TargetOf, i);
    }
    forall x, y | x in listed && y in listed && byTarget[x.canonical] == byTarget[y.canonical]
      ensures x.canonical == y.canonical
    {
      TokensAreDistinct(tokens, listed, root, NameOf(x, root), NameOf(y, root));
      SameNameSameFile(x, y, root);
    }
    forall e | e in shared && e != RootInput() ensures exists x :: x in listed && e == SharedAs(x, root, byTarget[x.canonical]) {
      var k :| 0 <= k < |listed| && Names(e, tokens, listed[k], root);
      assert listed[k] in listed;
    }
  }

  lemma SameNameSameFile(x: Listed, y: Listed, root: Dir)
    requires NameOf(x, root) == NameOf(y, root)
    ensures x.canonical == y.canonical
  {
    NamesAreDistinct(x.canonical, y.canonical, root);
  }

  lemma NothingYet(byTarget: map<Dir, string>, tokens: map<LogicalPath, string>, listed: seq<Listed>, root: Dir)
    ensures tokens == map[] ==> Tokens(tokens, listed, root, 0)
    ensures Served(byTarget, tokens, listed, root, CanonicalOf, 0) && Served(byTarget, tokens, listed, root, TargetOf, 0)
  {}

  lemma ServedAt(byTarget: map<Dir, string>, tokens: map<LogicalPath, string>, listed: seq<Listed>, root: Dir,
                 of: Listed -> Dir, i: nat)
    requires i < |listed|
    requires Served(byTarget, tokens, listed, root, of, i + 1) || Served(byTarget, tokens, listed, root, of, |listed|)
    ensures Holds(byTarget, tokens, of(listed[i]), NameOf(listed[i], root))
  {}

  lemma TokensAreValid(tokens: map<LogicalPath, string>, listed: seq<Listed>, root: Dir, n: nat, p: LogicalPath)
    requires n <= |listed| && Tokens(tokens, listed, root, n) && p in tokens
    ensures PathPieces.ValidName(tokens[p]) && tokens[p] != ROOT_NAME
  {
    assert TokenFrom(tokens[p], p, listed, root, n);
    var i :| 0 <= i < n && tokens[p] == Decimal(i) && NameOf(listed[i], root) == p;
    DecimalIsValid(i);
  }
}
