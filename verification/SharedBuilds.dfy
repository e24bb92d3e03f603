// A compiled module on its way through the shared store: tokenized and published
// in one worktree, found and materialized in another.
module SharedBuilds {
  import opened Common
  import opened PathPieces
  import opened PathTokens
  import opened PathReadings
  import opened PathMixtures
  import Cache = SharedStore
  import Inputs = LogicalInputs

  /** The publisher declared an input for every path it tokenized. */
  ghost predicate Declares(o: Cache.Options, targets: seq<Target>) {
    forall t :: t in targets ==> exists input :: input in o.inputs && input.token == Token(t.name)
  }

  /** The token map a reader gets for the published build; see `Cache.FirstServing`. */
  ghost function TokenMap(o: Cache.Options, before: Cache.Collation, machine: Cache.Machine): map<string, string>
    requires Cache.Accepts(o)
  {
    Cache.Replacements(machine, Cache.ManifestOf(o, before).build.inputs)
  }

  /** The store may serve the published build to the machine. */
  ghost predicate Served(s: Cache.Store, o: Cache.Options, before: Cache.Collation, machine: Cache.Machine) {
    Cache.Accepts(o) && Cache.Serves(s, o.lookup, Cache.ManifestOf(o, before).key, machine)
  }

  /** The reader's targets are the token map. */
  ghost predicate Reads(targets: seq<Target>, replacements: map<string, string>) {
    && (forall t :: t in targets ==> Token(t.name) in replacements && replacements[Token(t.name)] == t.path)
    && (forall token :: token in replacements ==> exists t :: t in targets && Token(t.name) == token)
  }

  lemma TokenIsInjective(a: string, b: string)
    requires Token(a) == Token(b)
    ensures a == b
  {
    var m := |MARKER|;
    assert Token(a)[m..m + |a|] == a && Token(b)[m..m + |b|] == b;
  }

  lemma {:induction false} EveryTokenIsReplaced(machine: Cache.Machine, inputs: seq<Cache.Input>, input: Cache.Input)
    requires input in inputs && forall i :: i in inputs ==> Cache.InputHolds(machine, i)
    ensures input.token in Cache.Replacements(machine, inputs)
  {
    var front, last := inputs[..|inputs| - 1], inputs[|inputs| - 1];
    assert last in inputs && inputs == front + [last];
    if input != last { EveryTokenIsReplaced(machine, front, input); }
  }

  /** What find returns under the published key is the published manifest, served, with the token map. */
  lemma FoundIsServed(s: Cache.Store, o: Cache.Options, before: Cache.Collation, machine: Cache.Machine, found: Cache.Found)
    requires Cache.Accepts(o) && Cache.FirstServing(s, o.lookup, machine, Some(found))
    requires found.key == Cache.ManifestOf(o, before).key
    ensures Served(s, o, before, machine) && found.manifest == Cache.ManifestOf(o, before)
    ensures found.replacements == TokenMap(o, before, machine)
  {
    Cache.ManifestLists(o, before);
  }

  /** Every token of the publisher is one the reader resolves. */
  lemma ReaderResolves(s: Cache.Store, o: Cache.Options, before: Cache.Collation, machine: Cache.Machine,
                       output: Target, targets: seq<Target>, output': Target, targets': seq<Target>)
    requires Served(s, o, before, machine) && output.name == output'.name
    requires Declares(o, targets) && Reads(targets', TokenMap(o, before, machine))
    ensures Resolves(output, targets, output', targets')
  {
    var inputs := Cache.ManifestOf(o, before).build.inputs;
    Cache.ManifestLists(o, before);
    SortElements(o.inputs, Cache.ByLogicalPath(before));
    assert forall input :: input in inputs ==> Cache.InputHolds(machine, input);
    forall t | t in [output] + targets ensures exists t' :: t' in [output'] + targets' && t'.name == t.name {
      if t in targets {
        var input :| input in o.inputs && input.token == Token(t.name);
        EveryTokenIsReplaced(machine, inputs, input);
        var t' :| t' in targets' && Token(t'.name) == Token(t.name);
        TokenIsInjective(t'.name, t.name);
        assert t' in [output'] + targets';
      } else {
        assert output' in [output'] + targets';
      }
    }
  }

  /**
   * From any store that serves the build: a published module materializes to its code,
   * with the reader's paths in the place of the publisher's, unless that holds the marker or tokens mix.
   */
  lemma {:induction false} ModuleArrives(s: Cache.Store, o: Cache.Options, before: Cache.Collation, machine: Cache.Machine,
                                         a: Cache.Asset, code: string, output: Target, targets: seq<Target>,
                                         output': Target, targets': seq<Target>, book': Book)
    requires Served(s, o, before, machine)
    requires Publishable(code, output, targets) && WritableBuild(output', targets', book')
    requires a in o.assets && a.content == Cache.Text(Store(code, output, targets))
    requires Declares(o, targets) && Reads(targets', TokenMap(o, before, machine)) && output.name == output'.name
    requires TokenFree(Reading(code, output, targets, book'), output', targets')
    ensures var files, path := s.objects[Cache.ManifestOf(o, before).key].files, Cache.SafeRelativePath(a.path).value;
            && path in files && files[path].content.Text?
            && Read(files[path].content.text, output', targets')
               == if Mixing(code, output, targets, output', targets') then None else Checked(Reading(code, output, targets, book'))
  {
    hide Publishable, WritableBuild, Mixing, Store, Read, Reading, TokenFree, Checked;
    Cache.FoundBytesWerePublished(s, o, before, machine, a);
    ReaderResolves(s, o, before, machine, output, targets, output', targets');
    Relocates(code, output, targets, output', targets', book');
  }

  /** Served in the worktree it was published from, a module is byte for byte what was compiled. */
  lemma {:induction false} ModuleReturns(s: Cache.Store, o: Cache.Options, before: Cache.Collation, machine: Cache.Machine,
                                         a: Cache.Asset, code: string, output: Target, targets: seq<Target>,
                                         targets': seq<Target>, book: Book)
    requires Served(s, o, before, machine)
    requires Publishable(code, output, targets) && WritableBuild(output, targets', book)
    requires a in o.assets && a.content == Cache.Text(Store(code, output, targets))
    requires Declares(o, targets) && Reads(targets', TokenMap(o, before, machine))
    requires !Misread(code, output, targets, book) && !Contains(code, MARKER)
    requires !Follow(code, output, targets, URL) && !Mixing(code, output, targets, output, targets')
    ensures var files, path := s.objects[Cache.ManifestOf(o, before).key].files, Cache.SafeRelativePath(a.path).value;
            && path in files && files[path].content.Text?
            && Read(files[path].content.text, output, targets') == Some(code)
  {
    hide Publishable, WritableBuild, Contains, Store, Read, Mixing, Follow, Misread;
    Cache.FoundBytesWerePublished(s, o, before, machine, a);
    ReaderResolves(s, o, before, machine, output, targets, output, targets');
    RoundTrip(code, output, targets, output, targets', book);
  }

  lemma ModuleReturnsIff(s: Cache.Store, o: Cache.Options, before: Cache.Collation, machine: Cache.Machine,
                         a: Cache.Asset, code: string, output: Target, targets: seq<Target>,
                         targets': seq<Target>, book: Book, up: bool)
    requires Served(s, o, before, machine)
    requires Publishable(code, output, targets) && WritableBuild(output, targets', book)
    requires a in o.assets && a.content == Cache.Text(Store(code, output, targets))
    requires Declares(o, targets) && Reads(targets', TokenMap(o, before, machine))
    requires !Contains(code, MARKER) ==> TokenFree(Reading(code, output, targets, book), output, targets')
    requires forall step :: Found(code, output, targets, step) ==> Leans(|step.value|, |Value(book, step.tok)|, up)
    requires Follow(code, output, targets, URL) ==>
               forall step :: Found(code, output, targets, step) ==> Stretches(step, book)
    ensures var files, path := s.objects[Cache.ManifestOf(o, before).key].files, Cache.SafeRelativePath(a.path).value;
            && path in files && files[path].content.Text?
            && (Read(files[path].content.text, output, targets') == Some(code)
                <==> && !Contains(code, MARKER) && !Mixing(code, output, targets, output, targets')
                     && !Follow(code, output, targets, URL) && !Misread(code, output, targets, book))
  {
    hide Publishable, WritableBuild, Contains, Store, Read, Mixing, Follow, Misread, Found, Leans, Stretches, Value, Reading, TokenFree;
    Cache.FoundBytesWerePublished(s, o, before, machine, a);
    ReaderResolves(s, o, before, machine, output, targets, output, targets');
    RoundTripIff(code, output, targets, output, targets', book, up);
  }

  // -------------------------------------------------------------------------
  // From the compiler's inputs
  // -------------------------------------------------------------------------

  function Joined(d: Inputs.Dir): string {
    if d == [] then "" else Joined(d[..|d| - 1]) + "/" + d[|d| - 1]
  }

  /** The text of a path. */
  function Spell(d: Inputs.Dir): string {
    if d == [] then "/" else Joined(d)
  }

  type Disk = map<string, Cache.Content>

  /** The input as it is published, with the digest its file has then. */
  function Declared(e: Inputs.Shared, disk: Disk): Cache.Input {
    Cache.Input(
      e.input.logicalPath,
      if e.file.Some? && Spell(e.file.value) in disk then Cache.Sha256(disk[Spell(e.file.value)]) else Cache.NoDigest,
      Token(e.token),
      if e.input.source.Some? then Cache.AbsoluteSource(e.input.source.value) else Cache.NoSource)
  }

  ghost predicate Publishes(o: Cache.Options, shared: seq<Inputs.Shared>, disk: Disk) {
    forall i :: i in o.inputs <==> exists e :: e in shared && i == Declared(e, disk)
  }

  /** Where `resolveInput` finds an input in a worktree. */
  function Place(i: Cache.Input, root: Inputs.Dir): Option<Inputs.Dir> {
    match i.source
    case NoSource => Inputs.ResolveLogicalInputPath(Inputs.Input(i.logicalPath, None), root)
    case AbsoluteSource(path) => Inputs.ResolveLogicalInputPath(Inputs.Input(i.logicalPath, Some(path)), root)
    case RelativeSource(_) => None
  }

  ghost predicate ResolvesAt(machine: Cache.Machine, o: Cache.Options, root: Inputs.Dir) {
    forall i :: i in o.inputs ==>
      && (i in machine.resolve <==> Place(i, root).Some?)
      && (i in machine.resolve ==> machine.resolve[i] == Spell(Place(i, root).value))
  }

  function Relocated(file: Inputs.Dir, root: Inputs.Dir, root': Inputs.Dir): Inputs.Dir {
    if Inputs.Inside(root, file) then root' + file[|root|..] else file
  }

  function TargetAt(byTarget: map<Inputs.Dir, string>, p: Inputs.Dir, href: string -> string): Target
    requires p in byTarget
  {
    Target(byTarget[p], href(Spell(p)), Spell(p))
  }

  /** The targets are the token map's paths, aliases included. */
  ghost predicate Paths(targets: seq<Target>, byTarget: map<Inputs.Dir, string>, href: string -> string) {
    && (forall t :: t in targets ==> exists p :: p in byTarget && t == TargetAt(byTarget, p, href))
    && (forall p :: p in byTarget ==> TargetAt(byTarget, p, href) in targets)
  }

  /** The compiler's inputs, their tokens, and what is published of them. */
  ghost predicate Compiled(listed: seq<Inputs.Listed>, root: Inputs.Dir, byTarget: map<Inputs.Dir, string>,
                           shared: seq<Inputs.Shared>, o: Cache.Options, disk: Disk) {
    && Inputs.Coherent(listed, root) && Inputs.Tokenized(listed, root, byTarget, shared) && Publishes(o, shared, disk)
    && forall x :: x in listed ==> Inputs.Canonical(x.canonical)
  }

  /** The reader's targets, made from its token map. */
  ghost predicate Materials(targets: seq<Target>, replacements: map<string, string>, href: string -> string) {
    Reads(targets, replacements) && forall t :: t in targets ==> t.href == href(t.path)
  }

  lemma RootPlace(root': Inputs.Dir, disk: Disk)
    ensures Place(Declared(Inputs.RootInput(), disk), root') == Some(root')
  {}

  lemma FilePlace(x: Inputs.Listed, root: Inputs.Dir, token: string, root': Inputs.Dir, disk: Disk)
    requires Inputs.Canonical(x.canonical)
    ensures Place(Declared(Inputs.SharedAs(x, root, token), disk), root') == Some(Relocated(x.canonical, root, root'))
  {
    Inputs.InputsRelocate(x.canonical, root, root');
  }

  lemma {:induction false} ReplacementsAgree(machine: Cache.Machine, inputs: seq<Cache.Input>, token: string, value: string)
    requires forall i :: i in inputs && i.token == token ==> i in machine.resolve && machine.resolve[i] == value
    requires exists i :: i in inputs && i.token == token
    ensures token in Cache.Replacements(machine, inputs) && Cache.Replacements(machine, inputs)[token] == value
  {
    var front, last := inputs[..|inputs| - 1], inputs[|inputs| - 1];
    assert inputs == front + [last];
    if last.token != token { ReplacementsAgree(machine, front, token, value); }
  }

  /** The root and every file have the places their tokens stand for. */
  ghost predicate PlacedAt(replacements: map<string, string>, byTarget: map<Inputs.Dir, string>,
                           listed: seq<Inputs.Listed>, root: Inputs.Dir, root': Inputs.Dir) {
    && root in byTarget && At(replacements, byTarget[root], root')
    && forall x :: x in listed ==>
         x.canonical in byTarget && At(replacements, byTarget[x.canonical], Relocated(x.canonical, root, root'))
  }

  ghost predicate At(replacements: map<string, string>, token: string, place: Inputs.Dir) {
    Token(token) in replacements && replacements[Token(token)] == Spell(place)
  }

  /** A token leads to the one place of its file. */
  lemma OnePlace(listed: seq<Inputs.Listed>, root: Inputs.Dir, byTarget: map<Inputs.Dir, string>,
                 shared: seq<Inputs.Shared>, o: Cache.Options, disk: Disk, root': Inputs.Dir,
                 i: Cache.Input, j: Cache.Input)
    requires Compiled(listed, root, byTarget, shared, o, disk) && i in o.inputs && j in o.inputs && i.token == j.token
    ensures Place(i, root').Some? && Place(i, root') == Place(j, root')
  {
    hide Declared, Place, Inputs.LogicalInput, Relocated;
    var e := SharedEntry(listed, root, byTarget, shared, o, disk, root', i);
    var f := SharedEntry(listed, root, byTarget, shared, o, disk, root', j);
    DeclaredToken(e.0, disk);
    DeclaredToken(f.0, disk);
    TokenIsInjective(e.0.token, f.0.token);
  }

  lemma DeclaredToken(e: Inputs.Shared, disk: Disk)
    ensures Declared(e, disk).token == Token(e.token)
  {}

  /** Every published input is the root, or some file under its token, at its place. */
  lemma SharedEntry(listed: seq<Inputs.Listed>, root: Inputs.Dir, byTarget: map<Inputs.Dir, string>,
                    shared: seq<Inputs.Shared>, o: Cache.Options, disk: Disk, root': Inputs.Dir, i: Cache.Input)
    returns (e: (Inputs.Shared, Option<Inputs.Dir>))
    requires Compiled(listed, root, byTarget, shared, o, disk) && i in o.inputs
    ensures e.0 in shared && i == Declared(e.0, disk)
    ensures e.1.None? ==> e.0.token == Inputs.ROOT_NAME && Place(i, root') == Some(root')
    ensures e.1.Some? ==>
      && e.1.value in byTarget && e.0.token == byTarget[e.1.value] != Inputs.ROOT_NAME
      && Place(i, root') == Some(Relocated(e.1.value, root, root'))
      && exists x :: x in listed && x.canonical == e.1.value
  {
    hide Declared, Place, Inputs.LogicalInput, Relocated;
    var s :| s in shared && i == Declared(s, disk);
    if s == Inputs.RootInput() {
      RootPlace(root', disk);
      e := (s, None);
    } else {
      var x :| x in listed && s == Inputs.SharedAs(x, root, byTarget[x.canonical]);
      FilePlace(x, root, byTarget[x.canonical], root', disk);
      e := (s, Some(x.canonical));
    }
  }

  /** In any worktree, the token map leads each token to its file's place there. */
  lemma TokenMapPlaces(s: Cache.Store, o: Cache.Options, before: Cache.Collation, machine: Cache.Machine,
                       listed: seq<Inputs.Listed>, root: Inputs.Dir, byTarget: map<Inputs.Dir, string>,
                       shared: seq<Inputs.Shared>, disk: Disk, root': Inputs.Dir)
    requires Compiled(listed, root, byTarget, shared, o, disk)
    requires Served(s, o, before, machine) && ResolvesAt(machine, o, root')
    ensures PlacedAt(TokenMap(o, before, machine), byTarget, listed, root, root')
  {
    assert Cache.Accepts(o);
    hide Compiled, Relocated, Served, ResolvesAt, At;
    RootLeads(s, o, before, machine, listed, root, byTarget, shared, disk, root');
    forall x | x in listed
      ensures x.canonical in byTarget && At(TokenMap(o, before, machine), byTarget[x.canonical], Relocated(x.canonical, root, root'))
    {
      FileLeads(s, o, before, machine, listed, root, byTarget, shared, disk, root', x);
    }
  }

  lemma RootLeads(s: Cache.Store, o: Cache.Options, before: Cache.Collation, machine: Cache.Machine,
                  listed: seq<Inputs.Listed>, root: Inputs.Dir, byTarget: map<Inputs.Dir, string>,
                  shared: seq<Inputs.Shared>, disk: Disk, root': Inputs.Dir)
    requires Compiled(listed, root, byTarget, shared, o, disk)
    requires Served(s, o, before, machine) && ResolvesAt(machine, o, root')
    ensures root in byTarget && At(TokenMap(o, before, machine), byTarget[root], root')
  {
    RootIsShared(listed, root, byTarget, shared, o, disk);
    assert Cache.Accepts(o);
    hide Declared, Place, Served, Compiled, ResolvesAt, Inputs.RootInput, TokenMap, Spell, Token;
    RootPlace(root', disk);
    RootToken(disk);
    TokenLeadsTo(s, o, before, machine, listed, root, byTarget, shared, disk, root', Declared(Inputs.RootInput(), disk));
  }

  lemma RootIsShared(listed: seq<Inputs.Listed>, root: Inputs.Dir, byTarget: map<Inputs.Dir, string>,
                     shared: seq<Inputs.Shared>, o: Cache.Options, disk: Disk)
    requires Compiled(listed, root, byTarget, shared, o, disk)
    ensures Declared(Inputs.RootInput(), disk) in o.inputs && root in byTarget && byTarget[root] == Inputs.ROOT_NAME
  {
    hide Declared, Inputs.RootInput, Inputs.Coherent;
  }

  lemma FileLeads(s: Cache.Store, o: Cache.Options, before: Cache.Collation, machine: Cache.Machine,
                  listed: seq<Inputs.Listed>, root: Inputs.Dir, byTarget: map<Inputs.Dir, string>,
                  shared: seq<Inputs.Shared>, disk: Disk, root': Inputs.Dir, x: Inputs.Listed)
    requires Compiled(listed, root, byTarget, shared, o, disk) && x in listed
    requires Served(s, o, before, machine) && ResolvesAt(machine, o, root')
    ensures x.canonical in byTarget
    ensures At(TokenMap(o, before, machine), byTarget[x.canonical], Relocated(x.canonical, root, root'))
  {
    FileIsShared(listed, root, byTarget, shared, o, disk, x);
    assert Cache.Accepts(o);
    hide Declared, Place, Served, Compiled, ResolvesAt, Inputs.SharedAs, TokenMap, Spell, Token, Relocated;
    var e := Inputs.SharedAs(x, root, byTarget[x.canonical]);
    FilePlace(x, root, byTarget[x.canonical], root', disk);
    FileToken(x, root, byTarget[x.canonical], disk);
    TokenLeadsTo(s, o, before, machine, listed, root, byTarget, shared, disk, root', Declared(e, disk));
  }

  lemma FileIsShared(listed: seq<Inputs.Listed>, root: Inputs.Dir, byTarget: map<Inputs.Dir, string>,
                     shared: seq<Inputs.Shared>, o: Cache.Options, disk: Disk, x: Inputs.Listed)
    requires Compiled(listed, root, byTarget, shared, o, disk) && x in listed
    ensures x.canonical in byTarget && Inputs.Canonical(x.canonical)
    ensures Declared(Inputs.SharedAs(x, root, byTarget[x.canonical]), disk) in o.inputs
  {
    hide Declared, Inputs.SharedAs, Inputs.Coherent;
  }

  lemma PublishedAt(o: Cache.Options, shared: seq<Inputs.Shared>, disk: Disk, e: Inputs.Shared)
    requires Publishes(o, shared, disk) && e in shared
    ensures Declared(e, disk) in o.inputs
  {}

  lemma RootToken(disk: Disk)
    ensures Declared(Inputs.RootInput(), disk).token == Token(Inputs.ROOT_NAME)
  {}

  lemma FileToken(x: Inputs.Listed, root: Inputs.Dir, token: string, disk: Disk)
    ensures Declared(Inputs.SharedAs(x, root, token), disk).token == Token(token)
  {}

  lemma TokenLeadsTo(s: Cache.Store, o: Cache.Options, before: Cache.Collation, machine: Cache.Machine,
                     listed: seq<Inputs.Listed>, root: Inputs.Dir, byTarget: map<Inputs.Dir, string>,
                     shared: seq<Inputs.Shared>, disk: Disk, root': Inputs.Dir, i: Cache.Input)
    requires Compiled(listed, root, byTarget, shared, o, disk)
    requires Served(s, o, before, machine) && ResolvesAt(machine, o, root') && i in o.inputs
    ensures var map' := TokenMap(o, before, machine);
            Place(i, root').Some? && i.token in map' && map'[i.token] == Spell(Place(i, root').value)
  {
    hide Place, Compiled, Cache.Serves, Cache.Replacements;
    var inputs := Cache.ManifestOf(o, before).build.inputs;
    Cache.ManifestLists(o, before);
    SortElements(o.inputs, Cache.ByLogicalPath(before));
    OnePlace(listed, root, byTarget, shared, o, disk, root', i, i);
    forall j | j in inputs && j.token == i.token
      ensures j in machine.resolve && machine.resolve[j] == Spell(Place(i, root').value)
    {
      OnePlace(listed, root, byTarget, shared, o, disk, root', i, j);
    }
    ReplacementsAgree(machine, inputs, i.token, Spell(Place(i, root').value));
  }

  lemma EverythingIsDeclared(listed: seq<Inputs.Listed>, root: Inputs.Dir, byTarget: map<Inputs.Dir, string>,
                             shared: seq<Inputs.Shared>, o: Cache.Options, disk: Disk, targets: seq<Target>, href: string -> string)
    requires Compiled(listed, root, byTarget, shared, o, disk) && Paths(targets, byTarget, href)
    ensures Declares(o, targets)
  {
    hide Declared, Publishes, Inputs.Coherent, Inputs.SharedAs, Inputs.RootInput, Spell;
    forall t | t in targets ensures exists input :: input in o.inputs && input.token == Token(t.name) {
      var p :| p in byTarget && t == TargetAt(byTarget, p, href);
      if p == root {
        PublishedAt(o, shared, disk, Inputs.RootInput());
        RootToken(disk);
      } else {
        assert Inputs.OfListed(p, listed);
        var x :| x in listed && (p == x.target || p == x.canonical);
        PublishedAt(o, shared, disk, Inputs.SharedAs(x, root, byTarget[x.canonical]));
        FileToken(x, root, byTarget[x.canonical], disk);
      }
    }
  }

  /** The step is for an alias of an input: a path that a link leads to the input's own. */
  ghost predicate OfAlias(x: Inputs.Listed, step: Step, byTarget: map<Inputs.Dir, string>, href: string -> string) {
    x.target != x.canonical && x.target in byTarget && step in UrlAndPath(TargetAt(byTarget, x.target, href))
  }

  /** Looking in the module for the build's paths in their order, an alias is found, or its URL. */
  ghost predicate AliasFound(code: string, output: Target, targets: seq<Target>, listed: seq<Inputs.Listed>,
                             byTarget: map<Inputs.Dir, string>, href: string -> string)
    requires Spelled(output, targets)
  {
    exists x, step :: x in listed && OfAlias(x, step, byTarget, href) && Found(code, output, targets, step)
  }

  /** An alias is spelled otherwise than its input, as a path and as a URL. */
  ghost predicate AliasesShow(listed: seq<Inputs.Listed>, href: string -> string) {
    forall x :: x in listed && x.target != x.canonical ==>
      Spell(x.target) != Spell(x.canonical) && href(Spell(x.target)) != href(Spell(x.canonical))
  }

  /** No alias is longer than its input, or none shorter, as a path or as a URL. */
  ghost predicate AliasesLean(listed: seq<Inputs.Listed>, href: string -> string, up: bool) {
    forall x :: x in listed && x.target != x.canonical ==>
      && Leans(|Spell(x.target)|, |Spell(x.canonical)|, up)
      && Leans(|href(Spell(x.target))|, |href(Spell(x.canonical))|, up)
  }

  lemma BookAt(targets: seq<Target>, replacements: map<string, string>, href: string -> string, output: Target, book: Book,
               token: string, place: Inputs.Dir)
    requires Materials(targets, replacements, href) && WritableBuild(output, targets, book) && At(replacements, token, place)
    ensures token in book && book[token] == Site(href(Spell(place)), Spell(place))
  {
    hide ValidName, Inert, DollarPlain, Token;
    var t :| t in targets && Token(t.name) == Token(token);
    TokenIsInjective(t.name, token);
    assert t in [output] + targets && Lists(t, book);
  }

  /** A path's URL is longer than the path with ":url" after it. */
  ghost predicate UrlsStretch(output: Target, byTarget: map<Inputs.Dir, string>, href: string -> string) {
    |output.path| + |URL| < |output.href| && forall p :: p in byTarget ==> |Spell(p)| + |URL| < |href(Spell(p))|
  }

  /** What the reader's spelling of a path found is: the path, or that of the input it is an alias of. */
  ghost predicate Spelling(step: Step, listed: seq<Inputs.Listed>, byTarget: map<Inputs.Dir, string>,
                           href: string -> string, book: Book) {
    || Value(book, step.tok) == step.value
    || exists x :: x in listed && Canonicalizes(x, step, byTarget, href, book)
  }

  ghost predicate Canonicalizes(x: Inputs.Listed, step: Step, byTarget: map<Inputs.Dir, string>, href: string -> string, book: Book) {
    && OfAlias(x, step, byTarget, href)
    && if step == UrlAndPath(TargetAt(byTarget, x.target, href))[0]
       then step.value == href(Spell(x.target)) && Value(book, step.tok) == href(Spell(x.canonical))
       else step.value == Spell(x.target) && Value(book, step.tok) == Spell(x.canonical)
  }

  lemma SiteValue(step: Step, t: Target, site: Site, book: Book)
    requires step in UrlAndPath(t) && t.name in book && book[t.name] == site
    ensures step == UrlAndPath(t)[0] ==> step.value == t.href && Value(book, step.tok) == site.href
    ensures step != UrlAndPath(t)[0] ==> step.value == t.path && Value(book, step.tok) == site.path
  {}

  lemma SpellingOfFound(code: string, listed: seq<Inputs.Listed>, root: Inputs.Dir, byTarget: map<Inputs.Dir, string>,
                        shared: seq<Inputs.Shared>, o: Cache.Options, disk: Disk, href: string -> string,
                        output: Target, targets: seq<Target>, targets': seq<Target>, replacements: map<string, string>, book: Book,
                        step: Step)
    requires Compiled(listed, root, byTarget, shared, o, disk) && Paths(targets, byTarget, href)
    requires PlacedAt(replacements, byTarget, listed, root, root)
    requires Materials(targets', replacements, href) && WritableBuild(output, targets', book)
    requires Spelled(output, targets) && Found(code, output, targets, step)
    ensures Spelling(step, listed, byTarget, href, book)
  {
    hide Compiled, PlacedAt, WritableBuild, Materials, Spell, Found, UrlAndPath, Value, Spelled;
    var t := FoundIsOfBuild(code, output, targets, step);
    if t in targets {
      var p :| p in byTarget && t == TargetAt(byTarget, p, href);
      var place := CanonicalPlace(listed, root, byTarget, shared, o, disk, replacements, p);
      BookAt(targets', replacements, href, output, book, byTarget[p], place);
      SiteValue(step, t, Site(href(Spell(place)), Spell(place)), book);
      if place != p {
        var x :| x in listed && x.target == p && x.canonical == place;
        assert Canonicalizes(x, step, byTarget, href, book);
      }
    } else {
      OutputIsListed(output, targets', book);
      SiteValue(step, output, Site(output.href, output.path), book);
    }
  }

  lemma AliasIsMisread(listed: seq<Inputs.Listed>, root: Inputs.Dir, byTarget: map<Inputs.Dir, string>,
                       shared: seq<Inputs.Shared>, o: Cache.Options, disk: Disk, href: string -> string,
                       output: Target, targets': seq<Target>, replacements: map<string, string>, book: Book,
                       x: Inputs.Listed, step: Step)
    requires Compiled(listed, root, byTarget, shared, o, disk) && PlacedAt(replacements, byTarget, listed, root, root)
    requires Materials(targets', replacements, href) && WritableBuild(output, targets', book)
    requires x in listed && OfAlias(x, step, byTarget, href) && AliasesShow(listed, href)
    ensures step.value != Value(book, step.tok)
  {
    hide WritableBuild, Materials, Spell, UrlAndPath, Value, At, Inputs.Coherent, Publishes, Inputs.SharedAs, Inputs.RootInput;
    RelocatedHome(x.canonical, root);
    BookAt(targets', replacements, href, output, book, byTarget[x.canonical], x.canonical);
    SiteValue(step, TargetAt(byTarget, x.target, href), Site(href(Spell(x.canonical)), Spell(x.canonical)), book);
  }

  lemma RelocatedHome(p: Inputs.Dir, root: Inputs.Dir)
    ensures Relocated(p, root, root) == p
  {
    if Inputs.Inside(root, p) { assert root + p[|root|..] == p; }
  }

  /** In its own worktree a module is misread exactly where it mentions an alias. */
  lemma MisreadIffAlias(code: string, listed: seq<Inputs.Listed>, root: Inputs.Dir, byTarget: map<Inputs.Dir, string>,
                        shared: seq<Inputs.Shared>, o: Cache.Options, disk: Disk, href: string -> string,
                        output: Target, targets: seq<Target>, targets': seq<Target>, replacements: map<string, string>, book: Book)
    requires Compiled(listed, root, byTarget, shared, o, disk) && Paths(targets, byTarget, href)
    requires PlacedAt(replacements, byTarget, listed, root, root)
    requires Materials(targets', replacements, href) && WritableBuild(output, targets', book) && Spelled(output, targets)
    ensures Misread(code, output, targets, book) ==> AliasFound(code, output, targets, listed, byTarget, href)
    ensures AliasesShow(listed, href) ==>
      (Misread(code, output, targets, book) <==> AliasFound(code, output, targets, listed, byTarget, href))
  {
    hide Compiled, Paths, PlacedAt, WritableBuild, Materials, Spelled, Found, OfAlias, AliasesShow, Value;
    if Misread(code, output, targets, book) {
      var step :| Found(code, output, targets, step) && step.value != Value(book, step.tok);
      SpellingOfFound(code, listed, root, byTarget, shared, o, disk, href, output, targets, targets', replacements, book, step);
      var x :| x in listed && Canonicalizes(x, step, byTarget, href, book);
      assert OfAlias(x, step, byTarget, href);
    }
    if AliasesShow(listed, href) && AliasFound(code, output, targets, listed, byTarget, href) {
      var x, step :| x in listed && OfAlias(x, step, byTarget, href) && Found(code, output, targets, step);
      AliasIsMisread(listed, root, byTarget, shared, o, disk, href, output, targets', replacements, book, x, step);
    }
  }

  lemma FoundStretches(code: string, listed: seq<Inputs.Listed>, root: Inputs.Dir, byTarget: map<Inputs.Dir, string>,
                       shared: seq<Inputs.Shared>, o: Cache.Options, disk: Disk, href: string -> string,
                       output: Target, targets: seq<Target>, targets': seq<Target>, replacements: map<string, string>, book: Book,
                       step: Step)
    requires Compiled(listed, root, byTarget, shared, o, disk) && Paths(targets, byTarget, href)
    requires PlacedAt(replacements, byTarget, listed, root, root)
    requires Materials(targets', replacements, href) && WritableBuild(output, targets', book)
    requires Spelled(output, targets) && Found(code, output, targets, step)
    requires AliasesLean(listed, href, true) && UrlsStretch(output, byTarget, href)
    ensures Stretches(step, book)
  {
    hide Compiled, PlacedAt, WritableBuild, Materials, Spell, Found, UrlAndPath, Spelled;
    var t := FoundIsOfBuild(code, output, targets, step);
    if t in targets {
      var p :| p in byTarget && t == TargetAt(byTarget, p, href);
      var place := CanonicalPlace(listed, root, byTarget, shared, o, disk, replacements, p);
      BookAt(targets', replacements, href, output, book, byTarget[p], place);
      SiteStretches(step, t, Site(href(Spell(place)), Spell(place)), book);
    } else {
      OutputIsListed(output, targets', book);
      SiteStretches(step, output, Site(output.href, output.path), book);
    }
  }

  lemma SiteStretches(step: Step, t: Target, site: Site, book: Book)
    requires step in UrlAndPath(t) && t.name in book && book[t.name] == site
    requires |t.path| <= |site.path| && |t.href| <= |site.href| && |t.path| + |URL| < |site.href|
    ensures Stretches(step, book)
  {}

  lemma FoundLeans(step: Step, listed: seq<Inputs.Listed>, byTarget: map<Inputs.Dir, string>, href: string -> string,
                   book: Book, up: bool)
    requires Spelling(step, listed, byTarget, href, book) && AliasesLean(listed, href, up)
    ensures Leans(|step.value|, |Value(book, step.tok)|, up)
  {
    hide Spell, Value, UrlAndPath;
    if Value(book, step.tok) != step.value {
      var x :| x in listed && Canonicalizes(x, step, byTarget, href, book);
      assert OfAlias(x, step, byTarget, href);
    }
  }

  lemma OutputIsListed(output: Target, targets: seq<Target>, book: Book)
    requires WritableBuild(output, targets, book)
    ensures Lists(output, book)
  {
    assert output in [output] + targets;
  }

  /** In its own worktree a token leads to the canonical path, which the path is unless it is an alias. */
  lemma CanonicalPlace(listed: seq<Inputs.Listed>, root: Inputs.Dir, byTarget: map<Inputs.Dir, string>,
                       shared: seq<Inputs.Shared>, o: Cache.Options, disk: Disk, replacements: map<string, string>,
                       p: Inputs.Dir) returns (place: Inputs.Dir)
    requires Compiled(listed, root, byTarget, shared, o, disk) && PlacedAt(replacements, byTarget, listed, root, root)
    requires p in byTarget
    ensures At(replacements, byTarget[p], place)
    ensures place in byTarget && (place == p || exists x :: x in listed && x.target == p && x.canonical == place)
  {
    hide Publishes, Inputs.SharedAs, Inputs.RootInput, At, Spell, Inputs.Valid;
    if p == root { return root; }
    assert Inputs.OfListed(p, listed);
    var x :| x in listed && (p == x.target || p == x.canonical);
    place := x.canonical;
    RelocatedHome(x.canonical, root);
  }

  /**
   * From the compiler's inputs on: read in the worktree it was compiled in, a module in which no
   * alias is found is byte for byte what was compiled.
   */
  lemma CompiledModuleReturns(s: Cache.Store, o: Cache.Options, before: Cache.Collation, machine: Cache.Machine,
                              listed: seq<Inputs.Listed>, root: Inputs.Dir, byTarget: map<Inputs.Dir, string>,
                              shared: seq<Inputs.Shared>, disk: Disk, href: string -> string,
                              a: Cache.Asset, code: string, output: Target, targets: seq<Target>,
                              targets': seq<Target>, book: Book)
    requires Compiled(listed, root, byTarget, shared, o, disk) && Paths(targets, byTarget, href)
    requires Served(s, o, before, machine) && ResolvesAt(machine, o, root)
    requires Materials(targets', TokenMap(o, before, machine), href) && WritableBuild(output, targets', book)
    requires Publishable(code, output, targets) && !AliasFound(code, output, targets, listed, byTarget, href)
    requires a in o.assets && a.content == Cache.Text(Store(code, output, targets))
    requires !Contains(code, MARKER)
    requires !Follow(code, output, targets, URL) && !Mixing(code, output, targets, output, targets')
    ensures var files, path := s.objects[Cache.ManifestOf(o, before).key].files, Cache.SafeRelativePath(a.path).value;
            && path in files && files[path].content.Text?
            && Read(files[path].content.text, output, targets') == Some(code)
  {
    assert Cache.Accepts(o) && Spelled(output, targets);
    hide Publishable, WritableBuild, Contains, Store, Read, Mixing, Follow, Misread, Compiled, Paths, AliasFound,
         ResolvesAt, PlacedAt, Served, Declares, Reads;
    TokenMapPlaces(s, o, before, machine, listed, root, byTarget, shared, disk, root);
    EverythingIsDeclared(listed, root, byTarget, shared, o, disk, targets, href);
    MisreadIffAlias(code, listed, root, byTarget, shared, o, disk, href, output, targets, targets',
                    TokenMap(o, before, machine), book);
    ModuleReturns(s, o, before, machine, a, code, output, targets, targets', book);
  }

  /**
   * Where aliases are all shorter than their inputs, or all longer, that is exact: a module comes back if and only
   * if the marker is not in it, no tokens mix, no path is found with ":url" after it, and no alias, as a path or as a URL.
   */
  lemma CompiledModuleReturnsIff(s: Cache.Store, o: Cache.Options, before: Cache.Collation, machine: Cache.Machine,
                                 listed: seq<Inputs.Listed>, root: Inputs.Dir, byTarget: map<Inputs.Dir, string>,
                                 shared: seq<Inputs.Shared>, disk: Disk, href: string -> string,
                                 a: Cache.Asset, code: string, output: Target, targets: seq<Target>,
                                 targets': seq<Target>, book: Book, up: bool)
    requires Compiled(listed, root, byTarget, shared, o, disk) && Paths(targets, byTarget, href)
    requires AliasesShow(listed, href) && AliasesLean(listed, href, up)
    requires Served(s, o, before, machine) && ResolvesAt(machine, o, root)
    requires Materials(targets', TokenMap(o, before, machine), href) && WritableBuild(output, targets', book)
    requires Publishable(code, output, targets)
    requires !Contains(code, MARKER) ==> TokenFree(Reading(code, output, targets, book), output, targets')
    requires a in o.assets && a.content == Cache.Text(Store(code, output, targets))
    requires Follow(code, output, targets, URL) ==> up && UrlsStretch(output, byTarget, href)
    ensures var files, path := s.objects[Cache.ManifestOf(o, before).key].files, Cache.SafeRelativePath(a.path).value;
            && path in files && files[path].content.Text?
            && (Read(files[path].content.text, output, targets') == Some(code)
                <==> && !Contains(code, MARKER) && !Mixing(code, output, targets, output, targets')
                     && !Follow(code, output, targets, URL) && !AliasFound(code, output, targets, listed, byTarget, href))
  {
    assert Cache.Accepts(o) && Spelled(output, targets);
    hide Publishable, WritableBuild, Contains, Store, Read, Mixing, Follow, Misread, Compiled, Paths, AliasFound,
         ResolvesAt, PlacedAt, Served, Declares, Reads, Reading, TokenFree, Found, Leans, Value, Spelling, AliasesShow, AliasesLean,
         UrlsStretch, Stretches;
    var replacements := TokenMap(o, before, machine);
    TokenMapPlaces(s, o, before, machine, listed, root, byTarget, shared, disk, root);
    EverythingIsDeclared(listed, root, byTarget, shared, o, disk, targets, href);
    MaterialsRead(targets', replacements, href);
    MisreadIffAlias(code, listed, root, byTarget, shared, o, disk, href, output, targets, targets', replacements, book);
    forall step | Found(code, output, targets, step) ensures Leans(|step.value|, |Value(book, step.tok)|, up) {
      SpellingOfFound(code, listed, root, byTarget, shared, o, disk, href, output, targets, targets', replacements, book, step);
      FoundLeans(step, listed, byTarget, href, book, up);
    }
    if Follow(code, output, targets, URL) {
      forall step | Found(code, output, targets, step) ensures Stretches(step, book) {
        FoundStretches(code, listed, root, byTarget, shared, o, disk, href, output, targets, targets', replacements, book, step);
      }
    }
    ModuleReturnsIff(s, o, before, machine, a, code, output, targets, targets', book, up);
  }

  /**
   * Read in another worktree, the module has the reader's paths in the place of the publisher's:
   * a file of the repository at the same place in that worktree, any other file where it was.
   */
  lemma CompiledModuleArrives(s: Cache.Store, o: Cache.Options, before: Cache.Collation, machine: Cache.Machine,
                              listed: seq<Inputs.Listed>, root: Inputs.Dir, byTarget: map<Inputs.Dir, string>,
                              shared: seq<Inputs.Shared>, disk: Disk, href: string -> string,
                              a: Cache.Asset, code: string, output: Target, targets: seq<Target>,
                              root': Inputs.Dir, output': Target, targets': seq<Target>, book': Book)
    requires Compiled(listed, root, byTarget, shared, o, disk) && Paths(targets, byTarget, href)
    requires Served(s, o, before, machine) && ResolvesAt(machine, o, root')
    requires Materials(targets', TokenMap(o, before, machine), href) && WritableBuild(output', targets', book')
    requires Publishable(code, output, targets) && output.name == output'.name
    requires a in o.assets && a.content == Cache.Text(Store(code, output, targets))
    requires TokenFree(Reading(code, output, targets, book'), output', targets')
    ensures var files, path := s.objects[Cache.ManifestOf(o, before).key].files, Cache.SafeRelativePath(a.path).value;
            && path in files && files[path].content.Text?
            && Read(files[path].content.text, output', targets')
               == if Mixing(code, output, targets, output', targets') then None else Checked(Reading(code, output, targets, book'))
    ensures forall x :: x in listed ==>
      var place := Spell(Relocated(x.canonical, root, root'));
      x.canonical in byTarget && byTarget[x.canonical] in book' && book'[byTarget[x.canonical]] == Site(href(place), place)
  {
    assert Cache.Accepts(o);
    hide Publishable, WritableBuild, Store, Read, Mixing, Reading, TokenFree, Checked, Compiled, Paths,
         ResolvesAt, Served, Declares, Reads, Spell, Relocated, Materials;
    TokenMapPlaces(s, o, before, machine, listed, root, byTarget, shared, disk, root');
    EverythingIsDeclared(listed, root, byTarget, shared, o, disk, targets, href);
    MaterialsRead(targets', TokenMap(o, before, machine), href);
    ModuleArrives(s, o, before, machine, a, code, output, targets, output', targets', book');
    forall x | x in listed
      ensures var place := Spell(Relocated(x.canonical, root, root'));
              x.canonical in byTarget && byTarget[x.canonical] in book' && book'[byTarget[x.canonical]] == Site(href(place), place)
    {
      BookAt(targets', TokenMap(o, before, machine), href, output', book', byTarget[x.canonical], Relocated(x.canonical, root, root'));
    }
  }

  lemma MaterialsRead(targets: seq<Target>, replacements: map<string, string>, href: string -> string)
    requires Materials(targets, replacements, href)
    ensures Reads(targets, replacements)
  {}
}
