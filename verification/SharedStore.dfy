// The content-addressed store of compiled extension sets: publishing a build,
// finding one again, and the most-recently-used index between them.
//
// A digest is a constructor over what it digests, which is to say that hashing
// is injective; a build's key digests everything its manifest says. The store a
// reader meets is arbitrary: any index, any manifest, any files.
module SharedStore {
  import opened Common
  import Inputs = LogicalInputs

  // -------------------------------------------------------------------------
  // Paths
  // -------------------------------------------------------------------------

  datatype Segment = Dot | DotDot | Name(name: string)

  /** A path as written; the empty string is the relative path without segments. */
  datatype RawPath = RawPath(absolute: bool, segments: seq<Segment>)

  type Path = seq<Segment>

  /** `path.normalize` of a relative path. */
  function Normal(segments: seq<Segment>): Path {
    if segments == [] then []
    else
      var front, last := Normal(segments[..|segments| - 1]), segments[|segments| - 1];
      if last == Dot then front
      else if last == DotDot && front != [] && front[|front| - 1].Name? then front[..|front| - 1]
      else front + [last]
  }

  function SafeRelativePath(p: RawPath): Option<Path> {
    if p.segments == [] || p.absolute then None
    else if Normal(p.segments) != [] && Normal(p.segments)[0] == DotDot then None
    else Some(Normal(p.segments))
  }

  function Spelled(p: Path): RawPath {
    RawPath(false, if p == [] then [Dot] else p)
  }

  // A normal path climbs first and then descends.
  lemma {:induction false} NormalShape(segments: seq<Segment>)
    ensures forall i :: 0 <= i < |Normal(segments)| ==> Normal(segments)[i] != Dot
    ensures forall i :: 0 < i < |Normal(segments)| && Normal(segments)[i] == DotDot ==> Normal(segments)[i - 1] == DotDot
  {
    if segments != [] { NormalShape(segments[..|segments| - 1]); }
  }

  lemma {:induction false} NamesOnly(p: Path, i: nat)
    requires i < |p| && p[0] != DotDot
    requires forall k :: 0 <= k < |p| ==> p[k] != Dot
    requires forall k :: 0 < k < |p| && p[k] == DotDot ==> p[k - 1] == DotDot
    ensures p[i].Name?
  {
    if i > 0 { NamesOnly(p, i - 1); }
  }

  lemma {:induction false} NamesAreNormal(p: Path)
    requires forall i :: 0 <= i < |p| ==> p[i].Name?
    ensures Normal(p) == p
  {
    if p != [] { NamesAreNormal(p[..|p| - 1]); }
  }

  /** A safe path never climbs, and normalizing it again changes nothing. */
  lemma SafePathsStayInside(p: RawPath)
    requires SafeRelativePath(p).Some?
    ensures forall i :: 0 <= i < |SafeRelativePath(p).value| ==> SafeRelativePath(p).value[i].Name?
    ensures SafeRelativePath(Spelled(SafeRelativePath(p).value)) == SafeRelativePath(p)
  {
    var n := SafeRelativePath(p).value;
    NormalShape(p.segments);
    forall i | 0 <= i < |n| ensures n[i].Name? { NamesOnly(n, i); }
    NamesAreNormal(n);
    assert [Dot][..0] == [];
  }

  // -------------------------------------------------------------------------
  // Builds
  // -------------------------------------------------------------------------

  /** A module's text, other bytes, or a manifest written by a publish. */
  datatype Content = Text(text: string) | Bytes(identity: nat) | ManifestJson(manifest: Manifest)

  /** A digest field: absent, a digest, or text that is no digest. */
  datatype DigestText = NoDigest | Sha256(of: Content) | BadDigest(text: string)

  datatype Source = NoSource | AbsoluteSource(path: Inputs.Dir) | RelativeSource(text: string)

  datatype Input = Input(logicalPath: Inputs.LogicalPath, sha256: DigestText, token: string, source: Source)

  datatype Artifact = Artifact(path: RawPath, sha256: DigestText, mode: Option<int>)

  datatype Lookup = Lookup(text: string, hex: bool)

  /** What a key digests. */
  datatype Build = Build(lookup: Lookup, entry: RawPath, inputs: seq<Input>, artifacts: seq<Artifact>)

  datatype Key = KeyOf(build: Build) | BadKey(text: string)

  datatype Manifest = Manifest(key: Key, build: Build)

  const MANIFEST_FILE: Path := [Name("manifest.json")]

  predicate ValidInput(input: Input) {
    !input.sha256.BadDigest? && !input.source.RelativeSource?
  }

  predicate ValidMode(mode: Option<int>) {
    mode.Some? ==> 0 <= mode.value <= 511   // 0o777
  }

  predicate ValidArtifact(a: Artifact) {
    a.sha256.Sha256? && ValidMode(a.mode) && SafeRelativePath(a.path).Some?
  }

  /** `parseManifest` accepts it. */
  predicate ValidManifest(m: Manifest) {
    && m.key.KeyOf? && m.build.lookup.hex && SafeRelativePath(m.build.entry).Some?
    && (forall input :: input in m.build.inputs ==> ValidInput(input))
    && (forall a :: a in m.build.artifacts ==> ValidArtifact(a))
  }

  /** `manifestKeyMatches`. */
  predicate SelfConsistent(m: Manifest) {
    m.key == KeyOf(m.build)
  }

  // -------------------------------------------------------------------------
  // The store
  // -------------------------------------------------------------------------

  /** `link`: the path itself is a symbolic link. `confined`: its real path lies inside the object. */
  datatype File = File(content: Content, link: bool, confined: bool)

  /** A file as a publish writes it. */
  function Written(content: Content): File {
    File(content, false, true)
  }

  datatype Object = Object(link: bool, files: map<Path, File>)

  datatype Store = Store(indexes: map<Lookup, seq<Key>>, objects: map<Key, Object>)

  function ReadIndex(s: Store, lookup: Lookup): seq<Key> {
    if lookup in s.indexes then s.indexes[lookup] else []
  }

  /** The keys `findSharedBuild` goes through. */
  function Listed(s: Store, lookup: Lookup): seq<Key> {
    if lookup.hex then ReadIndex(s, lookup) else []
  }

  function ReadManifest(o: Object): Option<Manifest> {
    if MANIFEST_FILE in o.files && o.files[MANIFEST_FILE].content.ManifestJson?
       && ValidManifest(o.files[MANIFEST_FILE].content.manifest)
    then Some(o.files[MANIFEST_FILE].content.manifest)
    else None
  }

  /** `artifactBytes` returns the bytes. */
  predicate ArtifactMatches(o: Object, a: Artifact) {
    var path := SafeRelativePath(a.path);
    && path.Some? && !o.link && path.value in o.files
    && !o.files[path.value].link && o.files[path.value].confined
    && Sha256(o.files[path.value].content) == a.sha256
  }

  /** The machine that asks: where inputs resolve, and what files hold. */
  datatype Machine = Machine(resolve: map<Input, string>, disk: map<string, Content>)

  predicate InputHolds(m: Machine, input: Input) {
    && input in m.resolve
    && (input.sha256 != NoDigest ==> m.resolve[input] in m.disk && Sha256(m.disk[m.resolve[input]]) == input.sha256)
  }

  /** A build the store may serve: self-consistent, for this lookup, with every artifact and input matching. */
  predicate Serves(s: Store, lookup: Lookup, key: Key, machine: Machine) {
    && key.KeyOf? && key in s.objects
    && ReadManifest(s.objects[key]).Some?
    && var m := ReadManifest(s.objects[key]).value;
    && m.key == key && m.build.lookup == lookup && SelfConsistent(m)
    && (forall a :: a in m.build.artifacts ==> ArtifactMatches(s.objects[key], a))
    && (forall input :: input in m.build.inputs ==> InputHolds(machine, input))
  }

  // -------------------------------------------------------------------------
  // Finding
  // -------------------------------------------------------------------------

  datatype Found = Found(key: Key, manifest: Manifest, replacements: map<string, string>)

  /** The token map a reader gets: later inputs win. */
  function Replacements(machine: Machine, inputs: seq<Input>): map<string, string> {
    if inputs == [] then map[]
    else
      var last := inputs[|inputs| - 1];
      var front := Replacements(machine, inputs[..|inputs| - 1]);
      if last in machine.resolve then front[last.token := machine.resolve[last]] else front
  }

  ghost predicate FirstAt(s: Store, lookup: Lookup, machine: Machine, keys: seq<Key>, i: nat, key: Key) {
    i < |keys| && keys[i] == key && forall j :: 0 <= j < i ==> !Serves(s, lookup, keys[j], machine)
  }

  /** `found` is the first key of the index that serves, or there is none. */
  ghost predicate FirstServing(s: Store, lookup: Lookup, machine: Machine, found: Option<Found>) {
    var keys := Listed(s, lookup);
    match found
    case None => forall key :: key in keys ==> !Serves(s, lookup, key, machine)
    case Some(f) =>
      && (exists i: nat :: FirstAt(s, lookup, machine, keys, i, f.key))
      && Serves(s, lookup, f.key, machine)
      && Some(f.manifest) == ReadManifest(s.objects[f.key])
      && f.replacements == Replacements(machine, f.manifest.build.inputs)
  }

  lemma FirstServingIsUnique(s: Store, lookup: Lookup, machine: Machine, a: Option<Found>, b: Option<Found>)
    requires FirstServing(s, lookup, machine, a) && FirstServing(s, lookup, machine, b)
    ensures a == b
  {
    hide Serves, Replacements, ReadManifest, Listed;
    FoundIsListed(s, lookup, machine, a);
    FoundIsListed(s, lookup, machine, b);
    var keys := Listed(s, lookup);
    if a.Some? && b.Some? {
      var i: nat :| FirstAt(s, lookup, machine, keys, i, a.value.key);
      var k: nat :| FirstAt(s, lookup, machine, keys, k, b.value.key);
      FirstIsFirst(s, lookup, machine, keys, i, a.value.key, k, b.value.key);
    }
  }

  lemma FoundIsListed(s: Store, lookup: Lookup, machine: Machine, found: Option<Found>)
    requires FirstServing(s, lookup, machine, found)
    ensures found.Some? ==> found.value.key in Listed(s, lookup)
  {
    hide Serves, Replacements, ReadManifest, Listed;
    if found.Some? {
      var keys := Listed(s, lookup);
      var i: nat :| FirstAt(s, lookup, machine, keys, i, found.value.key);
      assert FirstAt(s, lookup, machine, keys, i, found.value.key);
      assert keys[i] in keys;
    }
  }

  lemma FirstIsFirst(s: Store, lookup: Lookup, machine: Machine, keys: seq<Key>, i: nat, x: Key, k: nat, y: Key)
    requires FirstAt(s, lookup, machine, keys, i, x) && Serves(s, lookup, x, machine)
    requires FirstAt(s, lookup, machine, keys, k, y) && Serves(s, lookup, y, machine)
    ensures x == y
  {
    hide Serves;
  }

  method ArtifactsMatch(o: Object, artifacts: seq<Artifact>) returns (ok: bool)
    ensures ok <==> forall a :: a in artifacts ==> ArtifactMatches(o, a)
  {
    for i := 0 to |artifacts|
      invariant forall k :: 0 <= k < i ==> ArtifactMatches(o, artifacts[k])
    {
      if !ArtifactMatches(o, artifacts[i]) { return false; }
    }
    return true;
  }

  method ResolveInputs(machine: Machine, inputs: seq<Input>) returns (r: Option<map<string, string>>)
    ensures r.Some? <==> forall input :: input in inputs ==> InputHolds(machine, input)
    ensures r.Some? ==> r.value == Replacements(machine, inputs)
  {
    var replacements := map[];
    for i := 0 to |inputs|
      invariant forall k :: 0 <= k < i ==> InputHolds(machine, inputs[k])
      invariant replacements == Replacements(machine, inputs[..i])
    {
      var input := inputs[i];
      assert input in inputs;
      if input !in machine.resolve { return None; }
      var target := machine.resolve[input];
      if input.sha256 != NoDigest {
        if target !in machine.disk || Sha256(machine.disk[target]) != input.sha256 { return None; }
      }
      assert inputs[..i + 1][..i] == inputs[..i];
      replacements := replacements[input.token := target];
    }
    assert inputs[..|inputs|] == inputs;
    return Some(replacements);
  }

  lemma FirstIsFound(s: Store, lookup: Lookup, machine: Machine, i: nat, found: Found)
    requires lookup.hex && i < |ReadIndex(s, lookup)| && ReadIndex(s, lookup)[i] == found.key
    requires forall j :: 0 <= j < i ==> !Serves(s, lookup, ReadIndex(s, lookup)[j], machine)
    requires Serves(s, lookup, found.key, machine) && Some(found.manifest) == ReadManifest(s.objects[found.key])
    requires found.replacements == Replacements(machine, found.manifest.build.inputs)
    ensures FirstServing(s, lookup, machine, Some(found))
  {
    hide Serves, ReadManifest, Replacements, ReadIndex;
    assert FirstAt(s, lookup, machine, Listed(s, lookup), i, found.key);
  }

  method FindSharedBuild(s: Store, lookup: Lookup, machine: Machine) returns (found: Option<Found>)
    ensures FirstServing(s, lookup, machine, found)
  {
    if !lookup.hex { return None; }
    var keys := ReadIndex(s, lookup);
    for i := 0 to |keys|
      invariant forall j :: 0 <= j < i ==> !Serves(s, lookup, keys[j], machine)
    {
      var key := keys[i];
      if !key.KeyOf? || key !in s.objects { continue; }
      var stored := s.objects[key];
      var manifest := ReadManifest(stored);
      if manifest == None { continue; }
      var m := manifest.value;
      if m.key != key || m.build.lookup != lookup || !SelfConsistent(m) { continue; }
      var intact := ArtifactsMatch(stored, m.build.artifacts);
      if !intact { continue; }
      var replacements := ResolveInputs(machine, m.build.inputs);
      if replacements.Some? {
        found := Some(Found(key, m, replacements.value));
        FirstIsFound(s, lookup, machine, i, found.value);
        return;
      }
    }
    return None;
  }

  // -------------------------------------------------------------------------
  // Publishing
  // -------------------------------------------------------------------------

  datatype Asset = Asset(path: RawPath, content: Content, mode: Option<int>)

  datatype Options = Options(lookup: Lookup, entry: RawPath, inputs: seq<Input>, assets: seq<Asset>)

  /** The locale's order of paths and of input names; nothing below depends on which it is. */
  datatype Collation = Collation(
    paths: (string, string) -> bool,
    names: (Inputs.LogicalPath, Inputs.LogicalPath) -> bool)

  /** What `publishSharedBuild` checks before it writes: neither the entry nor the modes. */
  predicate Accepts(o: Options) {
    && o.lookup.hex
    && (forall input :: input in o.inputs ==> !input.source.RelativeSource?)
    && (forall a :: a in o.assets ==> SafeRelativePath(a.path).Some?)
  }

  function ByLogicalPath(before: Collation): (Input, Input) -> bool {
    (x: Input, y: Input) => before.names(x.logicalPath, y.logicalPath)
  }

  function SegmentText(x: Segment): string {
    match x
    case Dot => "."
    case DotDot => ".."
    case Name(name) => name
  }

  function PathText(p: Path): string {
    if p == [] then "" else PathText(p[..|p| - 1]) + "/" + SegmentText(p[|p| - 1])
  }

  function ByPath(before: Collation): (Artifact, Artifact) -> bool {
    (x: Artifact, y: Artifact) => before.paths(PathText(x.path.segments), PathText(y.path.segments))
  }

  function Described(a: Asset): Artifact
    requires SafeRelativePath(a.path).Some?
  {
    Artifact(Spelled(SafeRelativePath(a.path).value), Sha256(a.content), a.mode)
  }

  function ArtifactsOf(assets: seq<Asset>): seq<Artifact>
    requires forall a :: a in assets ==> SafeRelativePath(a.path).Some?
  {
    seq(|assets|, i requires 0 <= i < |assets| => Described(assets[i]))
  }

  function SortArtifacts(assets: seq<Asset>, before: Collation): seq<Artifact>
    requires forall a :: a in assets ==> SafeRelativePath(a.path).Some?
  {
    Sort(ArtifactsOf(assets), ByPath(before))
  }

  function ManifestOf(o: Options, before: Collation): Manifest
    requires Accepts(o)
  {
    var build := Build(o.lookup, o.entry, Sort(o.inputs, ByLogicalPath(before)), SortArtifacts(o.assets, before));
    Manifest(KeyOf(build), build)
  }

  /** `sharedObjectMatches`. */
  predicate ObjectMatches(o: Object, expected: Manifest) {
    && ReadManifest(o).Some? && ReadManifest(o).value.key == expected.key && SelfConsistent(ReadManifest(o).value)
    && forall a :: a in expected.build.artifacts ==> ArtifactMatches(o, a)
  }

  /** Writing the assets in order: one that normalizes to a path already written replaces it. */
  function WriteAssets(assets: seq<Asset>): map<Path, File>
    requires forall a :: a in assets ==> SafeRelativePath(a.path).Some?
  {
    if assets == [] then map[]
    else
      var last := assets[|assets| - 1];
      WriteAssets(assets[..|assets| - 1])[SafeRelativePath(last.path).value := Written(last.content)]
  }

  /** No file is asked to be a directory of another, the manifest's included. */
  predicate Disjoint(paths: set<Path>) {
    [] !in paths && forall p, q :: p in paths && q in paths && p != q ==> !(p <= q)
  }

  function BuiltObject(o: Options, before: Collation): Object
    requires Accepts(o)
  {
    Object(false, WriteAssets(o.assets)[MANIFEST_FILE := Written(ManifestJson(ManifestOf(o, before)))])
  }

  /** `writeIndex`: the key moves to the front. */
  function WriteIndex(s: Store, lookup: Lookup, key: Key): Store {
    s.(indexes := s.indexes[lookup := [key] + Without(ReadIndex(s, lookup), key)])
  }

  datatype Published = Done(store: Store, manifest: Manifest) | Threw(store: Store)

  function Publish(s: Store, o: Options, before: Collation): Published {
    if !Accepts(o) then Threw(s)
    else
      var m := ManifestOf(o, before);
      if m.key in s.objects && ObjectMatches(s.objects[m.key], m) then Done(WriteIndex(s, o.lookup, m.key), m)
      else
        var cleared := s.(objects := s.objects - {m.key});
        if !Disjoint(BuiltObject(o, before).files.Keys) then Threw(cleared)
        else Done(WriteIndex(cleared.(objects := cleared.objects[m.key := BuiltObject(o, before)]), o.lookup, m.key), m)
  }

  // -------------------------------------------------------------------------
  // What a publish leaves
  // -------------------------------------------------------------------------

  lemma SortArtifactsElements(assets: seq<Asset>, before: Collation)
    requires forall a :: a in assets ==> SafeRelativePath(a.path).Some?
    ensures forall y :: y in SortArtifacts(assets, before) <==> exists a :: a in assets && y == Described(a)
  {
    var artifacts := ArtifactsOf(assets);
    SortElements(artifacts, ByPath(before));
    forall a | a in assets ensures Described(a) in artifacts {
      var i :| 0 <= i < |assets| && assets[i] == a;
      assert artifacts[i] == Described(a);
    }
  }

  predicate SamePathSameContent(assets: seq<Asset>) {
    forall a, b :: a in assets && b in assets && SafeRelativePath(a.path) == SafeRelativePath(b.path) ==>
      a.content == b.content
  }

  lemma {:induction false} WrittenPaths(assets: seq<Asset>)
    requires forall a :: a in assets ==> SafeRelativePath(a.path).Some?
    ensures forall p :: p in WriteAssets(assets) ==> exists a :: a in assets && SafeRelativePath(a.path) == Some(p)
                                                                 && WriteAssets(assets)[p] == Written(a.content)
    ensures forall a :: a in assets ==> SafeRelativePath(a.path).value in WriteAssets(assets)
  {
    if assets != [] {
      var front, last := assets[..|assets| - 1], assets[|assets| - 1];
      WrittenPaths(front);
      assert assets == front + [last];
    }
  }

  /** What a publish must be given for the build to be found: the code checks none of it. */
  predicate Findable(o: Options) {
    && SafeRelativePath(o.entry).Some?
    && (forall input :: input in o.inputs ==> !input.sha256.BadDigest?)
    && (forall a :: a in o.assets ==> ValidMode(a.mode) && SafeRelativePath(a.path) != Some(MANIFEST_FILE))
    && SamePathSameContent(o.assets)
  }

  lemma ValidIff(o: Options, before: Collation)
    requires Accepts(o)
    ensures ValidManifest(ManifestOf(o, before))
       <==> SafeRelativePath(o.entry).Some? && (forall input :: input in o.inputs ==> !input.sha256.BadDigest?)
            && forall a :: a in o.assets ==> ValidMode(a.mode)
  {
    SortElements(o.inputs, ByLogicalPath(before));
    SortArtifactsElements(o.assets, before);
    forall a | a in o.assets ensures ValidArtifact(Described(a)) <==> ValidMode(a.mode) {
      SafePathsStayInside(a.path);
    }
    var m := ManifestOf(o, before);
    if ValidManifest(m) {
      forall a | a in o.assets ensures ValidMode(a.mode) {
        assert Described(a) in m.build.artifacts;
      }
    }
  }

  // A manifest that lists an artifact's digest is not that artifact's content.
  lemma ManifestIsNotItsArtifact(m: Manifest, a: Artifact)
    requires a in m.build.artifacts && a.sha256.Sha256?
    ensures a.sha256.of != ManifestJson(m)
  {
    var i :| 0 <= i < |m.build.artifacts| && m.build.artifacts[i] == a;
  }

  lemma KeptObjectServes(s: Store, o: Options, before: Collation)
    requires Accepts(o)
    requires var m := ManifestOf(o, before); m.key in s.objects && ObjectMatches(s.objects[m.key], m)
    ensures ReadManifest(s.objects[ManifestOf(o, before).key]) == Some(ManifestOf(o, before))
    ensures Findable(o)
  {
    var m := ManifestOf(o, before);
    var stored := s.objects[m.key];
    assert ReadManifest(stored) == Some(m);
    ValidIff(o, before);
    SortArtifactsElements(o.assets, before);
    forall a | a in o.assets
      ensures SafeRelativePath(a.path).value in stored.files
      ensures stored.files[SafeRelativePath(a.path).value].content == a.content
      ensures SafeRelativePath(a.path) != Some(MANIFEST_FILE)
    {
      SafePathsStayInside(a.path);
      assert Described(a) in m.build.artifacts && ArtifactMatches(stored, Described(a));
      ManifestIsNotItsArtifact(m, Described(a));
    }
  }

  /** Nothing written later has replaced the asset's content. */
  predicate Survives(assets: seq<Asset>, a: Asset)
    requires forall b :: b in assets ==> SafeRelativePath(b.path).Some?
  {
    var p := SafeRelativePath(a.path);
    p.Some? && p.value in WriteAssets(assets) && WriteAssets(assets)[p.value].content == a.content
  }

  lemma BuiltFileAt(o: Options, before: Collation, a: Asset)
    requires Accepts(o) && a in o.assets
    ensures var m, built := ManifestOf(o, before), BuiltObject(o, before);
            && Described(a) in m.build.artifacts
            && (ArtifactMatches(built, Described(a))
                <==> SafeRelativePath(a.path) != Some(MANIFEST_FILE) && Survives(o.assets, a))
  {
    var m := ManifestOf(o, before);
    WrittenPaths(o.assets);
    SortArtifactsElements(o.assets, before);
    SafePathsStayInside(a.path);
    ManifestIsNotItsArtifact(m, Described(a));
  }

  /** The object a publish builds is intact. */
  ghost predicate Intact(o: Object, m: Manifest) {
    ReadManifest(o) == Some(m) && forall a :: a in m.build.artifacts ==> ArtifactMatches(o, a)
  }

  lemma BuiltIsReadBack(o: Options, before: Collation)
    requires Accepts(o)
    ensures ReadManifest(BuiltObject(o, before)) == Some(ManifestOf(o, before)) <==> ValidManifest(ManifestOf(o, before))
  {
    hide ValidManifest;
  }

  lemma AgreeingContents(assets: seq<Asset>)
    requires forall a :: a in assets ==> SafeRelativePath(a.path).Some?
    ensures (forall a :: a in assets ==> Survives(assets, a)) <==> SamePathSameContent(assets)
  {
    WrittenPaths(assets);
  }

  lemma BuiltObjectServes(o: Options, before: Collation)
    requires Accepts(o)
    ensures Intact(BuiltObject(o, before), ManifestOf(o, before)) <==> Findable(o)
  {
    hide ValidManifest, ReadManifest, BuiltObject, ArtifactMatches, SafeRelativePath, ManifestOf, Survives;
    var m, built := ManifestOf(o, before), BuiltObject(o, before);
    BuiltIsReadBack(o, before);
    ValidIff(o, before);
    AgreeingContents(o.assets);
    SortArtifactsElements(o.assets, before);
    ManifestLists(o, before);
    forall a | a in o.assets
      ensures Described(a) in m.build.artifacts
      ensures ArtifactMatches(built, Described(a))
         <==> SafeRelativePath(a.path) != Some(MANIFEST_FILE) && Survives(o.assets, a)
    {
      BuiltFileAt(o, before, a);
    }
  }

  lemma ManifestLists(o: Options, before: Collation)
    requires Accepts(o)
    ensures ManifestOf(o, before).build.artifacts == SortArtifacts(o.assets, before)
    ensures ManifestOf(o, before).build.inputs == Sort(o.inputs, ByLogicalPath(before))
    ensures ManifestOf(o, before).build.lookup == o.lookup
    ensures SelfConsistent(ManifestOf(o, before))
  {}

  // -------------------------------------------------------------------------
  // Publish, then find
  // -------------------------------------------------------------------------

  lemma PublishedServes(s: Store, o: Options, before: Collation, machine: Machine)
    requires Publish(s, o, before).Done?
    ensures var p := Publish(s, o, before);
            (Serves(p.store, o.lookup, p.manifest.key, machine)
             <==> Findable(o) && forall input :: input in o.inputs ==> InputHolds(machine, input))
  {
    hide Findable, SortArtifacts, Sort, ArtifactMatches, InputHolds, ValidManifest, BuiltObject, ReadManifest;
    var m := ManifestOf(o, before);
    ManifestLists(o, before);
    SortElements(o.inputs, ByLogicalPath(before));
    if m.key in s.objects && ObjectMatches(s.objects[m.key], m) {
      KeptObjectServes(s, o, before);
    } else {
      BuiltObjectServes(o, before);
      BuiltIsSelf(o, before);
    }
  }

  // A built object that reads back at all reads back as the manifest that was written.
  lemma BuiltIsSelf(o: Options, before: Collation)
    requires Accepts(o)
    ensures ReadManifest(BuiltObject(o, before)).Some? ==> ReadManifest(BuiltObject(o, before)) == Some(ManifestOf(o, before))
  {}

  /** Whatever the store went through, a build found under a key has the very bytes published under it. */
  lemma FoundBytesWerePublished(s: Store, o: Options, before: Collation, machine: Machine, a: Asset)
    requires Accepts(o) && a in o.assets && Serves(s, o.lookup, ManifestOf(o, before).key, machine)
    ensures var files, path := s.objects[ManifestOf(o, before).key].files, SafeRelativePath(a.path).value;
            path in files && files[path].content == a.content
    ensures ReadManifest(s.objects[ManifestOf(o, before).key]) == Some(ManifestOf(o, before))
  {
    var m := ManifestOf(o, before);
    SortArtifactsElements(o.assets, before);
    SafePathsStayInside(a.path);
    assert Described(a) in m.build.artifacts && ArtifactMatches(s.objects[m.key], Described(a));
  }

  /** Right after a publish, find returns that build exactly when it is findable and its inputs hold. */
  lemma PublishThenFind(s: Store, o: Options, before: Collation, machine: Machine, found: Option<Found>)
    requires Publish(s, o, before).Done?
    requires FirstServing(Publish(s, o, before).store, o.lookup, machine, found)
    ensures var key := Publish(s, o, before).manifest.key;
            (found.Some? && found.value.key == key
             <==> Findable(o) && forall input :: input in o.inputs ==> InputHolds(machine, input))
  {
    hide Serves, Findable, InputHolds, Replacements, ReadManifest;
    var p := Publish(s, o, before);
    PublishedServes(s, o, before, machine);
    var keys := ReadIndex(p.store, o.lookup);
    assert keys[0] == p.manifest.key && o.lookup.hex;
    if Serves(p.store, o.lookup, keys[0], machine) {
      assert found.Some?;
      var i: nat :| FirstAt(p.store, o.lookup, machine, keys, i, found.value.key);
      FirstIsFirst(p.store, o.lookup, machine, keys, i, found.value.key, 0, keys[0]);
    }
  }

  /** Two assets at one place, with different contents. */
  function Colliding(): Options {
    var a, b := Asset(RawPath(false, [Name("a")]), Bytes(0), None), Asset(RawPath(false, [Dot, Name("a")]), Bytes(1), None);
    Options(Lookup("set", true), RawPath(false, [Name("a")]), [], [a, b])
  }

  lemma CollidingIsAccepted()
    ensures Accepts(Colliding()) && !Findable(Colliding())
    ensures WriteAssets(Colliding().assets).Keys == {[Name("a")]}
  {
    var assets := Colliding().assets;
    OneName("a");
    assert assets[0] in assets && assets[1] in assets;
    assert SafeRelativePath(assets[0].path) == SafeRelativePath(assets[1].path) == Some([Name("a")]);
    assert assets[..1] == [assets[0]] && [assets[0]][..0] == [];
    assert !SamePathSameContent(assets);
    assert WriteAssets([assets[0]]).Keys == {[Name("a")]};
  }

  /** Publishing them returns, and the build is then not found. */
  lemma CollidingArtifactsAreRefused(before: Collation, machine: Machine)
    ensures var p := Publish(Store(map[], map[]), Colliding(), before);
            p.Done? && FirstServing(p.store, Colliding().lookup, machine, None)
  {
    hide Sort, SortArtifacts, WriteAssets, Accepts, Findable, Serves;
    CollidingIsAccepted();
    var p := Publish(Store(map[], map[]), Colliding(), before);
    NoNesting(BuiltObject(Colliding(), before).files.Keys);
    PublishedServes(Store(map[], map[]), Colliding(), before, machine);
    assert ReadIndex(p.store, Colliding().lookup) == [p.manifest.key];
  }

  lemma NoNesting(paths: set<Path>)
    requires paths == {[Name("a")], MANIFEST_FILE}
    ensures Disjoint(paths)
  {}

  lemma OneName(name: string)
    ensures Normal([Name(name)]) == [Name(name)] && Normal([Dot, Name(name)]) == [Name(name)]
  {
    assert [Name(name)][..0] == [] && [Dot, Name(name)][..1] == [Dot] && [Dot][..0] == [];
  }

  /** The index stays duplicate-free and never forgets a key; the published one comes first, once. */
  lemma IndexNeverForgets(s: Store, o: Options, before: Collation)
    requires Publish(s, o, before).Done?
    ensures var p := Publish(s, o, before);
            var was, now := ReadIndex(s, o.lookup), ReadIndex(p.store, o.lookup);
            && now != [] && now[0] == p.manifest.key && p.manifest.key !in now[1..]
            && (forall k :: k in was ==> k in now)
            && (forall k :: k in now ==> k in was || k == p.manifest.key)
            && (NoDuplicates(was) ==> NoDuplicates(now))
  {
    var p := Publish(s, o, before);
    var was, key := ReadIndex(s, o.lookup), p.manifest.key;
    var rest := Without(was, key);
    assert ReadIndex(p.store, o.lookup) == [key] + rest;
    if NoDuplicates(was) { WithoutKeepsDistinct(was, key); }
  }

  /** A publish, even a failing one, never takes away a build the store could serve. */
  lemma PublishKeepsServing(s: Store, o: Options, before: Collation, lookup: Lookup, key: Key, machine: Machine)
    requires Serves(s, lookup, key, machine)
    ensures Serves(Publish(s, o, before).store, lookup, key, machine)
  {
    if Accepts(o) && key == ManifestOf(o, before).key {
      ManifestLists(o, before);
      assert ReadManifest(s.objects[key]).value.build == ManifestOf(o, before).build;
    }
  }

  ghost predicate SameObject(s: Store, t: Store, key: Key) {
    key in s.objects && key in t.objects && t.objects[key] == s.objects[key]
  }

  /** Publishing under one lookup key changes nothing that is found under another. */
  lemma OtherLookupsAreUntouched(s: Store, o: Options, before: Collation, lookup: Lookup, machine: Machine, found: Option<Found>)
    requires lookup != o.lookup && FirstServing(s, lookup, machine, found)
    ensures FirstServing(Publish(s, o, before).store, lookup, machine, found)
  {
    var t := Publish(s, o, before).store;
    assert ReadIndex(t, lookup) == ReadIndex(s, lookup);
    forall key ensures Serves(t, lookup, key, machine) <==> Serves(s, lookup, key, machine)
      ensures Serves(s, lookup, key, machine) ==> SameObject(s, t, key)
    {
      if Serves(s, lookup, key, machine) { PublishKeepsServing(s, o, before, lookup, key, machine); }
      OtherKeysAreUntouched(s, o, before, lookup, key, machine);
    }
    FirstServingTransfers(s, t, lookup, machine, found);
  }

  lemma OtherKeysAreUntouched(s: Store, o: Options, before: Collation, lookup: Lookup, key: Key, machine: Machine)
    requires lookup != o.lookup
    ensures Serves(Publish(s, o, before).store, lookup, key, machine) ==> Serves(s, lookup, key, machine)
    ensures Serves(s, lookup, key, machine) ==> SameObject(s, Publish(s, o, before).store, key)
  {
    if Accepts(o) { ManifestLists(o, before); }
  }

  lemma FirstServingTransfers(s: Store, t: Store, lookup: Lookup, machine: Machine, found: Option<Found>)
    requires Listed(t, lookup) == Listed(s, lookup) && FirstServing(s, lookup, machine, found)
    requires forall key :: Serves(t, lookup, key, machine) <==> Serves(s, lookup, key, machine)
    requires forall key :: Serves(s, lookup, key, machine) ==> SameObject(s, t, key)
    ensures FirstServing(t, lookup, machine, found)
  {
    hide Serves, Replacements, ReadManifest, Listed;
    var keys := Listed(s, lookup);
    if found.Some? {
      assert SameObject(s, t, found.value.key);
      var i: nat :| FirstAt(s, lookup, machine, keys, i, found.value.key);
      assert FirstAt(s, lookup, machine, keys, i, found.value.key);
      assert FirstAt(t, lookup, machine, keys, i, found.value.key) by {
        forall j | 0 <= j < i ensures !Serves(t, lookup, keys[j], machine) {
          assert !Serves(s, lookup, keys[j], machine);
        }
      }
    }
  }

  // -------------------------------------------------------------------------
  // Runs of publishes
  // -------------------------------------------------------------------------

  function PublishAll(s: Store, os: seq<Options>, before: Collation): Store {
    if os == [] then s else Publish(PublishAll(s, os[..|os| - 1], before), os[|os| - 1], before).store
  }

  /** Every publish of the run returned, under one lookup key, and its build is findable. */
  ghost predicate AllPublished(s: Store, os: seq<Options>, before: Collation, lookup: Lookup) {
    os == [] ||
    (var front, last := os[..|os| - 1], os[|os| - 1];
     && AllPublished(s, front, before, lookup)
     && last.lookup == lookup && Findable(last) && Publish(PublishAll(s, front, before), last, before).Done?)
  }

  lemma {:induction false} AllAccepted(s: Store, os: seq<Options>, before: Collation, lookup: Lookup)
    requires AllPublished(s, os, before, lookup)
    ensures forall n :: 0 <= n < |os| ==> Accepts(os[n])
  {
    hide Accepts, Findable, Publish;
    if os != [] {
      var front := os[..|os| - 1];
      PublishIndex(PublishAll(s, front, before), os[|os| - 1], before);
      AllAccepted(s, front, before, lookup);
      assert forall n :: 0 <= n < |front| ==> front[n] == os[n];
    }
  }

  predicate InputsHold(o: Options, machine: Machine) {
    forall input :: input in o.inputs ==> InputHolds(machine, input)
  }

  /** The key is listed, and every key listed before it belongs to a later publish. */
  ghost predicate OnlyLaterBefore(keys: seq<Key>, key: Key, later: set<Key>) {
    exists i :: 0 <= i < |keys| && keys[i] == key && forall j :: 0 <= j < i ==> keys[j] in later
  }

  lemma {:induction false} WithoutKeepsOrder(keys: seq<Key>, key: Key, gone: Key, later: set<Key>)
    requires OnlyLaterBefore(keys, key, later) && key != gone
    ensures OnlyLaterBefore(Without(keys, gone), key, later)
  {
    var i :| 0 <= i < |keys| && keys[i] == key && forall j :: 0 <= j < i ==> keys[j] in later;
    var n := |keys| - 1;
    var front := Without(keys[..n], gone);
    if i < n {
      assert keys[..n][i] == key && forall j :: 0 <= j < i ==> keys[..n][j] in later;
      WithoutKeepsOrder(keys[..n], key, gone, later);
      var k :| 0 <= k < |front| && front[k] == key && forall j :: 0 <= j < k ==> front[j] in later;
      assert Without(keys, gone)[k] == key;
    } else {
      forall j | 0 <= j < |front| ensures front[j] in later {
        assert front[j] in front;
      }
      assert Without(keys, gone)[|front|] == key;
    }
  }

  ghost function LaterKeys(os: seq<Options>, j: nat, before: Collation): set<Key> {
    set n | j < n < |os| && Accepts(os[n]) :: ManifestOf(os[n], before).key
  }

  lemma PublishIndex(s: Store, o: Options, before: Collation)
    requires Publish(s, o, before).Done?
    ensures Accepts(o) && ReadIndex(Publish(s, o, before).store, o.lookup)
         == [ManifestOf(o, before).key] + Without(ReadIndex(s, o.lookup), ManifestOf(o, before).key)
  {}

  lemma PrependLater(keys: seq<Key>, key: Key, first: Key, later: set<Key>)
    requires OnlyLaterBefore(keys, key, later) && first in later
    ensures OnlyLaterBefore([first] + keys, key, later)
  {
    var i :| 0 <= i < |keys| && keys[i] == key && forall j :: 0 <= j < i ==> keys[j] in later;
    var all := [first] + keys;
    assert all[i + 1] == key;
    forall j | 0 <= j < i + 1 ensures all[j] in later {
      if j > 0 { assert all[j] == keys[j - 1]; }
    }
  }

  lemma LaterKeysGrow(os: seq<Options>, j: nat, before: Collation)
    requires j < |os| - 1 && Accepts(os[|os| - 1])
    ensures LaterKeys(os[..|os| - 1], j, before) <= LaterKeys(os, j, before)
    ensures ManifestOf(os[|os| - 1], before).key in LaterKeys(os, j, before)
  {
    var front := os[..|os| - 1];
    assert forall n :: 0 <= n < |front| ==> front[n] == os[n];
  }

  /** After a publish of the key and others since, what precedes it in the index was published since. */
  lemma {:induction false} PublishedStaysAhead(s: Store, os: seq<Options>, before: Collation, lookup: Lookup, j: nat)
    requires j < |os| && AllPublished(s, os, before, lookup)
    requires forall n :: 0 <= n < |os| ==> Accepts(os[n])
    requires forall n :: j < n < |os| ==> ManifestOf(os[n], before).key != ManifestOf(os[j], before).key
    ensures OnlyLaterBefore(ReadIndex(PublishAll(s, os, before), lookup), ManifestOf(os[j], before).key, LaterKeys(os, j, before))
    decreases |os|
  {
    hide Publish, ReadIndex, LaterKeys, OnlyLaterBefore, ManifestOf, Accepts, Findable, Without;
    var n := |os| - 1;
    var front, last := os[..n], os[n];
    var t := PublishAll(s, front, before);
    PublishIndex(t, last, before);
    var key, was := ManifestOf(os[j], before).key, ReadIndex(t, lookup);
    if j < n {
      assert forall k :: 0 <= k < n ==> front[k] == os[k];
      PublishedStaysAhead(s, front, before, lookup, j);
      LaterKeysGrow(os, j, before);
      MoreLater(was, key, LaterKeys(front, j, before), LaterKeys(os, j, before));
      WithoutKeepsOrder(was, key, ManifestOf(last, before).key, LaterKeys(os, j, before));
      PrependLater(Without(was, ManifestOf(last, before).key), key, ManifestOf(last, before).key, LaterKeys(os, j, before));
    } else {
      HeadIsAhead(key, Without(was, key), LaterKeys(os, j, before));
    }
  }

  lemma HeadIsAhead(key: Key, rest: seq<Key>, later: set<Key>)
    ensures OnlyLaterBefore([key] + rest, key, later)
  {
    assert ([key] + rest)[0] == key;
  }

  lemma MoreLater(keys: seq<Key>, key: Key, some: set<Key>, more: set<Key>)
    requires OnlyLaterBefore(keys, key, some) && some <= more
    ensures OnlyLaterBefore(keys, key, more)
  {}

  lemma {:induction false} ServedSince(s: Store, os: seq<Options>, before: Collation, lookup: Lookup, j: nat, machine: Machine)
    requires j < |os| && AllPublished(s, os, before, lookup) && InputsHold(os[j], machine)
    ensures Accepts(os[j]) && Serves(PublishAll(s, os, before), lookup, ManifestOf(os[j], before).key, machine)
    decreases |os|
  {
    hide Publish, Serves, Findable;
    var n := |os| - 1;
    var t := PublishAll(s, os[..n], before);
    PublishIndex(t, os[n], before);
    if j < n {
      ServedSince(s, os[..n], before, lookup, j, machine);
      PublishKeepsServing(t, os[n], before, lookup, ManifestOf(os[j], before).key, machine);
    } else {
      PublishedManifest(t, os[n], before);
      PublishedServes(t, os[n], before, machine);
    }
  }

  lemma PublishedManifest(s: Store, o: Options, before: Collation)
    requires Publish(s, o, before).Done?
    ensures Accepts(o) && Publish(s, o, before).manifest == ManifestOf(o, before)
  {}

  /** A served build's inputs are the ones its key names. */
  lemma ServedInputsHold(s: Store, lookup: Lookup, o: Options, before: Collation, machine: Machine)
    requires Accepts(o) && Serves(s, lookup, ManifestOf(o, before).key, machine)
    ensures InputsHold(o, machine)
  {
    ManifestLists(o, before);
    SortElements(o.inputs, ByLogicalPath(before));
  }

  /** Over any run of publishes, find returns the latest build whose inputs hold on the machine. */
  lemma MostRecentBuildWins(s: Store, os: seq<Options>, before: Collation, lookup: Lookup, j: nat,
                            machine: Machine, found: Option<Found>)
    requires j < |os| && AllPublished(s, os, before, lookup) && InputsHold(os[j], machine)
    requires forall n :: j < n < |os| ==> !InputsHold(os[n], machine)
    requires FirstServing(PublishAll(s, os, before), lookup, machine, found)
    ensures Accepts(os[j]) && found.Some? && found.value.key == ManifestOf(os[j], before).key
  {
    hide Serves, Publish, Findable, Replacements, ReadManifest, ReadIndex, Accepts, ManifestOf, InputsHold;
    var t := PublishAll(s, os, before);
    AllAccepted(s, os, before, lookup);
    ServedSince(s, os, before, lookup, j, machine);
    var key := ManifestOf(os[j], before).key;
    forall n | j < n < |os| ensures !Serves(t, lookup, ManifestOf(os[n], before).key, machine) {
      if Serves(t, lookup, ManifestOf(os[n], before).key, machine) {
        ServedInputsHold(t, lookup, os[n], before, machine);
      }
    }
    PublishedStaysAhead(s, os, before, lookup, j);
    var keys, later := ReadIndex(t, lookup), LaterKeys(os, j, before);
    var i: nat :| i < |keys| && keys[i] == key && forall k :: 0 <= k < i ==> keys[k] in later;
    forall k | 0 <= k < i ensures !Serves(t, lookup, keys[k], machine) {
      assert keys[k] in later;
      var n :| j < n < |os| && Accepts(os[n]) && ManifestOf(os[n], before).key == keys[k];
    }
    AcceptedLookup(os[j]);
    assert FirstAt(t, lookup, machine, keys, i, key);
    assert keys[i] in keys;
    var at: nat :| FirstAt(t, lookup, machine, keys, at, found.value.key);
    FirstIsFirst(t, lookup, machine, keys, at, found.value.key, i, key);
  }

  lemma AcceptedLookup(o: Options)
    requires Accepts(o)
    ensures o.lookup.hex
  {}

  // -------------------------------------------------------------------------
  // The cache on disk
  // -------------------------------------------------------------------------

  class SharedBuildCache {
    var indexes: map<Lookup, seq<Key>>
    var objects: map<Key, Object>

    function Now(): Store
      reads this
    {
      Store(indexes, objects)
    }

    constructor (s: Store)
      ensures Now() == s
    {
      indexes, objects := s.indexes, s.objects;
    }

    method PromoteKey(lookup: Lookup, key: Key)
      modifies this
      ensures Now() == WriteIndex(old(Now()), lookup, key)
      ensures objects == old(objects) && forall other :: other != lookup ==> ReadIndex(Now(), other) == old(ReadIndex(Now(), other))
      ensures ReadIndex(Now(), lookup) != [] && ReadIndex(Now(), lookup)[0] == key && key !in ReadIndex(Now(), lookup)[1..]
      ensures Without(ReadIndex(Now(), lookup), key) == Without(old(ReadIndex(Now(), lookup)), key)
      ensures old(NoDuplicates(ReadIndex(Now(), lookup))) ==> NoDuplicates(ReadIndex(Now(), lookup))
    {
      ghost var was := ReadIndex(Now(), lookup);
      WithoutItself(was, key);
      if NoDuplicates(was) { WithoutKeepsDistinct(was, key); }
      var current := if lookup in indexes then indexes[lookup] else [];
      var keys := [key] + Without(current, key);
      indexes := indexes[lookup := keys];
    }

    method PublishSharedBuild(o: Options, before: Collation) returns (manifest: Option<Manifest>)
      modifies this
      ensures Now() == Publish(old(Now()), o, before).store
      ensures manifest == match Publish(old(Now()), o, before) case Done(_, m) => Some(m) case Threw(_) => None
    {
      hide ManifestOf, ObjectMatches, Disjoint, Without;
      if !Accepts(o) { return None; }
      var m := ManifestOf(o, before);
      if m.key in objects && !ObjectMatches(objects[m.key], m) {
        objects := objects - {m.key};
      }
      if m.key !in objects {
        var files: map<Path, File> := map[];
        for i := 0 to |o.assets|
          invariant files == WriteAssets(o.assets[..i])
        {
          assert o.assets[..i + 1][..i] == o.assets[..i];
          var relative := SafeRelativePath(o.assets[i].path);
          files := files[relative.value := Written(o.assets[i].content)];
        }
        assert o.assets[..|o.assets|] == o.assets;
        files := files[MANIFEST_FILE := Written(ManifestJson(m))];
        assert old(objects) - {m.key} == objects;
        if !Disjoint(files.Keys) { return None; }
        objects := objects[m.key := Object(false, files)];
      }
      PromoteKey(o.lookup, m.key);
      return Some(m);
    }
  }
}
