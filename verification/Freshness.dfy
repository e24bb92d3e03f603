// The freshness check of recorded build inputs and its memo.
//
// A file's digest stands for its content, which is to say that hashing is
// injective. `None` is a file whose stat answers but whose bytes cannot be read.
module Freshness {
  import opened Common

  type Path = string

  datatype Stat = Stat(size: nat, mtime: int)

  datatype File = File(stat: Stat, regular: bool, digest: Option<nat>)

  /** The file system at one moment. */
  type World = map<Path, File>

  datatype Fingerprint = Fingerprint(path: Path, stat: Stat, sha256: nat)

  /** What the memo key takes from one input: its record and its stat now. */
  datatype Row = Row(input: Fingerprint, now: Stat)

  type Memo = map<seq<Row>, bool>

  function FingerprintInput(w: World, path: Path): Option<Fingerprint> {
    if path in w && w[path].regular && w[path].digest.Some?
    then Some(Fingerprint(path, w[path].stat, w[path].digest.value))
    else None
  }

  predicate IsFile(w: World, path: Path) {
    path in w && w[path].regular
  }

  /** The authority: every recorded input still holds the bytes it was recorded with. */
  ghost predicate Unchanged(w: World, inputs: seq<Fingerprint>) {
    forall input :: input in inputs ==> IsFile(w, input.path) && w[input.path].digest == Some(input.sha256)
  }

  predicate AllFiles(w: World, inputs: seq<Fingerprint>) {
    forall input :: input in inputs ==> IsFile(w, input.path)
  }

  predicate Moved(w: World, input: Fingerprint) {
    IsFile(w, input.path) && w[input.path].stat != input.stat
  }

  predicate DigestMatches(w: World, input: Fingerprint) {
    input.path in w && w[input.path].digest == Some(input.sha256)
  }

  /** The check without its memo: digests are compared for the inputs whose stat moved. */
  predicate PlainCheck(w: World, inputs: seq<Fingerprint>) {
    AllFiles(w, inputs) && forall input :: input in inputs && Moved(w, input) ==> DigestMatches(w, input)
  }

  function Key(w: World, inputs: seq<Fingerprint>): seq<Row>
    requires AllFiles(w, inputs)
  {
    seq(|inputs|, i requires 0 <= i < |inputs| => Row(inputs[i], w[inputs[i].path].stat))
  }

  predicate AnyMoved(w: World, inputs: seq<Fingerprint>) {
    exists input :: input in inputs && Moved(w, input)
  }

  // -------------------------------------------------------------------------
  // The check with its memo
  // -------------------------------------------------------------------------

  function Answer(memo: Memo, w: World, inputs: seq<Fingerprint>): bool {
    if !AllFiles(w, inputs) then false
    else if !AnyMoved(w, inputs) then true
    else if Key(w, inputs) in memo then memo[Key(w, inputs)]
    else PlainCheck(w, inputs)
  }

  function Remember(memo: Memo, w: World, inputs: seq<Fingerprint>): Memo {
    if AllFiles(w, inputs) && AnyMoved(w, inputs) && Key(w, inputs) !in memo
    then memo[Key(w, inputs) := PlainCheck(w, inputs)]
    else memo
  }

  /** The process-wide verdicts of `inputsAreFresh`. */
  class FreshnessMemo {
    var verdicts: Memo

    constructor ()
      ensures verdicts == map[]
    {
      verdicts := map[];
    }

    method InputsAreFresh(w: World, inputs: seq<Fingerprint>) returns (upToDate: bool)
      modifies this
      ensures upToDate == Answer(old(verdicts), w, inputs)
      ensures verdicts == Remember(old(verdicts), w, inputs)
    {
      var moved: seq<Fingerprint> := [];
      var key: seq<Row> := [];
      for i := 0 to |inputs|
        invariant AllFiles(w, inputs[..i]) && key == Key(w, inputs[..i])
        invariant forall input :: input in moved <==> input in inputs[..i] && Moved(w, input)
      {
        var input := inputs[i];
        if input.path !in w || !w[input.path].regular {
          assert input in inputs && !IsFile(w, input.path);
          return false;
        }
        assert inputs[..i + 1] == inputs[..i] + [input];
        key := key + [Row(input, w[input.path].stat)];
        if w[input.path].stat != input.stat { moved := moved + [input]; }
      }
      assert inputs[..|inputs|] == inputs;
      if moved == [] { return true; }
      assert moved[0] in moved;
      if key in verdicts { return verdicts[key]; }
      upToDate := true;
      for i := 0 to |moved|
        invariant upToDate <==> forall k :: 0 <= k < i ==> DigestMatches(w, moved[k])
      {
        if !DigestMatches(w, moved[i]) {
          upToDate := false;
          break;
        }
      }
      assert upToDate <==> PlainCheck(w, inputs) by {
        assert forall input :: input in inputs && Moved(w, input) <==> input in moved;
      }
      verdicts := verdicts[key := upToDate];
    }

    method ResetInputFreshnessCache()
      modifies this
      ensures verdicts == map[]
    {
      verdicts := map[];
    }
  }

  // -------------------------------------------------------------------------
  // Transparency over every sequence of calls and file changes
  // -------------------------------------------------------------------------

  /** One call: the file system at its time, and the inputs asked about. */
  datatype Call = Call(world: World, inputs: seq<Fingerprint>)

  function MemoAfter(calls: seq<Call>): Memo {
    if calls == [] then map[]
    else
      var last := calls[|calls| - 1];
      Remember(MemoAfter(calls[..|calls| - 1]), last.world, last.inputs)
  }

  /** What the call after `calls` answers. */
  function AnswerAfter(calls: seq<Call>, next: Call): bool {
    Answer(MemoAfter(calls), next.world, next.inputs)
  }

  predicate SameStat(v: World, w: World, path: Path) {
    IsFile(v, path) && IsFile(w, path) && v[path].stat == w[path].stat
  }

  /** Between two moments no file's content, or readability, changed under an unchanged stat. */
  ghost predicate StatTells(v: World, w: World) {
    forall path :: SameStat(v, w, path) ==> v[path].digest == w[path].digest
  }

  lemma KeyAt(w: World, inputs: seq<Fingerprint>, i: nat)
    requires AllFiles(w, inputs) && i < |inputs|
    ensures Key(w, inputs)[i] == Row(inputs[i], w[inputs[i].path].stat)
  {}

  /** Equal keys mean the same records under the same stats. */
  lemma SameKey(v: World, a: seq<Fingerprint>, w: World, b: seq<Fingerprint>)
    requires AllFiles(v, a) && AllFiles(w, b) && Key(v, a) == Key(w, b)
    ensures a == b && forall input :: input in a ==> v[input.path].stat == w[input.path].stat
  {
    assert |Key(v, a)| == |a| && |Key(w, b)| == |b|;
    forall i | 0 <= i < |a| ensures a[i] == b[i] && v[a[i].path].stat == w[a[i].path].stat {
      KeyAt(v, a, i);
      KeyAt(w, b, i);
    }
  }

  lemma StatTellsTheVerdict(v: World, w: World, inputs: seq<Fingerprint>)
    requires AllFiles(v, inputs) && AllFiles(w, inputs) && StatTells(v, w)
    requires forall input :: input in inputs ==> v[input.path].stat == w[input.path].stat
    ensures PlainCheck(v, inputs) == PlainCheck(w, inputs)
  {}

  /** Every remembered verdict was reached by an earlier call, with that key, in that call's world. */
  lemma {:induction false} VerdictsWereReached(calls: seq<Call>, key: seq<Row>) returns (k: nat)
    requires key in MemoAfter(calls)
    ensures k < |calls| && AllFiles(calls[k].world, calls[k].inputs) && key == Key(calls[k].world, calls[k].inputs)
    ensures MemoAfter(calls)[key] == PlainCheck(calls[k].world, calls[k].inputs)
  {
    var front, last := calls[..|calls| - 1], calls[|calls| - 1];
    if key in MemoAfter(front) {
      k := VerdictsWereReached(front, key);
    } else {
      k := |calls| - 1;
    }
  }

  /** Where stats tell of every change, the memo never changes an answer. */
  lemma MemoIsTransparent(calls: seq<Call>, next: Call)
    requires forall call :: call in calls ==> StatTells(call.world, next.world)
    ensures AnswerAfter(calls, next) == PlainCheck(next.world, next.inputs)
  {
    var w, inputs, memo := next.world, next.inputs, MemoAfter(calls);
    if AllFiles(w, inputs) && AnyMoved(w, inputs) && Key(w, inputs) in memo {
      var k := VerdictsWereReached(calls, Key(w, inputs));
      SameKey(calls[k].world, calls[k].inputs, w, inputs);
      assert calls[k] in calls;
      StatTellsTheVerdict(calls[k].world, w, inputs);
    }
  }

  /** An input recorded at some moment from which stats tell of every change since. */
  ghost predicate RecordedHonestly(input: Fingerprint, w: World) {
    exists v :: FingerprintInput(v, input.path) == Some(input) && StatTells(v, w)
  }

  /** For honestly recorded inputs the cheap check agrees with the authority. */
  lemma PlainCheckIsTheTruth(w: World, inputs: seq<Fingerprint>)
    requires forall input :: input in inputs ==> RecordedHonestly(input, w)
    ensures PlainCheck(w, inputs) <==> Unchanged(w, inputs)
  {
    forall input | input in inputs && IsFile(w, input.path) && !Moved(w, input) ensures DigestMatches(w, input) {
      var v :| FingerprintInput(v, input.path) == Some(input) && StatTells(v, w);
      assert IsFile(v, input.path);
    }
  }

  /** Freshness: over any history the check says whether every recorded digest still matches. */
  lemma FreshMeansUnchanged(calls: seq<Call>, next: Call)
    requires forall call :: call in calls ==> StatTells(call.world, next.world)
    requires forall input :: input in next.inputs ==> RecordedHonestly(input, next.world)
    ensures AnswerAfter(calls, next) <==> Unchanged(next.world, next.inputs)
  {
    MemoIsTransparent(calls, next);
    PlainCheckIsTheTruth(next.world, next.inputs);
  }

  // -------------------------------------------------------------------------
  // Without it: when exactly the memo answers differently
  // -------------------------------------------------------------------------

  /** What the bytes themselves tell: two readings of a file under one stat agree, but a reading may fail. */
  ghost predicate ReadingsAgree(v: World, w: World) {
    forall path :: SameStat(v, w, path) && v[path].digest.Some? && w[path].digest.Some? ==> v[path].digest == w[path].digest
  }

  /** The same records were asked about under the same stats. */
  ghost predicate SameQuestion(a: Call, b: Call) {
    && AllFiles(a.world, a.inputs) && AllFiles(b.world, b.inputs)
    && Key(a.world, a.inputs) == Key(b.world, b.inputs)
  }

  ghost predicate FirstAsked(calls: seq<Call>, next: Call, k: nat) {
    k < |calls| && SameQuestion(calls[k], next) && forall j :: 0 <= j < k ==> !SameQuestion(calls[j], next)
  }

  /** Every input whose stat moved holds the bytes it was recorded with. */
  ghost predicate AllMatch(w: World, inputs: seq<Fingerprint>) {
    forall input :: input in inputs && Moved(w, input) ==> DigestMatches(w, input)
  }

  /** Some input whose stat moved cannot be read. */
  ghost predicate SomeUnreadable(w: World, inputs: seq<Fingerprint>) {
    exists input :: input in inputs && Moved(w, input) && w[input.path].digest.None?
  }

  /** At one of the two moments everything that moved matches, and at the other some of it cannot be read. */
  ghost predicate LostReading(v: World, w: World, inputs: seq<Fingerprint>) {
    (AllMatch(v, inputs) && SomeUnreadable(w, inputs)) || (AllMatch(w, inputs) && SomeUnreadable(v, inputs))
  }

  /** A remembered verdict is the one of the first call that asked the question. */
  lemma {:induction false} FirstVerdictIsKept(calls: seq<Call>, next: Call) returns (k: nat)
    requires AllFiles(next.world, next.inputs) && AnyMoved(next.world, next.inputs)
    ensures Key(next.world, next.inputs) in MemoAfter(calls) ==>
      FirstAsked(calls, next, k) && MemoAfter(calls)[Key(next.world, next.inputs)] == PlainCheck(calls[k].world, calls[k].inputs)
    ensures Key(next.world, next.inputs) !in MemoAfter(calls) ==> forall j :: 0 <= j < |calls| ==> !SameQuestion(calls[j], next)
  {
    k := 0;
    if calls != [] {
      hide PlainCheck, AnyMoved, Key;
      var n := |calls| - 1;
      var front, last := calls[..n], calls[n];
      k := FirstVerdictIsKept(front, next);
      assert forall j :: 0 <= j < n ==> front[j] == calls[j];
      if Key(next.world, next.inputs) !in MemoAfter(front) {
        k := n;
        if SameQuestion(last, next) { SameQuestionMoved(last, next); }
      }
    }
  }

  lemma SameQuestionMoved(call: Call, next: Call)
    requires SameQuestion(call, next) && AnyMoved(next.world, next.inputs)
    ensures AnyMoved(call.world, call.inputs)
  {
    SameKey(call.world, call.inputs, next.world, next.inputs);
    var input :| input in next.inputs && Moved(next.world, input);
    assert Moved(call.world, input);
  }

  lemma VerdictsDifferIff(v: World, w: World, inputs: seq<Fingerprint>)
    requires AllFiles(v, inputs) && AllFiles(w, inputs) && ReadingsAgree(v, w)
    requires forall input :: input in inputs ==> v[input.path].stat == w[input.path].stat
    ensures PlainCheck(v, inputs) != PlainCheck(w, inputs) <==> LostReading(v, w, inputs)
  {
    if AllMatch(v, inputs) && !AllMatch(w, inputs) { MismatchIsUnreadable(v, w, inputs); }
    if AllMatch(w, inputs) && !AllMatch(v, inputs) { MismatchIsUnreadable(w, v, inputs); }
  }

  lemma MismatchIsUnreadable(v: World, w: World, inputs: seq<Fingerprint>)
    requires AllFiles(v, inputs) && AllFiles(w, inputs) && (ReadingsAgree(v, w) || ReadingsAgree(w, v))
    requires forall input :: input in inputs ==> v[input.path].stat == w[input.path].stat
    requires AllMatch(v, inputs) && !AllMatch(w, inputs)
    ensures SomeUnreadable(w, inputs)
  {
    var input :| input in inputs && Moved(w, input) && !DigestMatches(w, input);
    assert SameStat(v, w, input.path) && SameStat(w, v, input.path);
    assert Moved(v, input) && DigestMatches(v, input);
  }

  /**
   * Over any history in which readings agree, the memo answers differently from the
   * memo-free check exactly when something moved and the question's first asking
   * and the present one differ in what could be read.
   */
  lemma MemoDiffersIff(calls: seq<Call>, next: Call)
    requires forall call :: call in calls ==> ReadingsAgree(call.world, next.world)
    ensures AnswerAfter(calls, next) != PlainCheck(next.world, next.inputs)
       <==> AnyMoved(next.world, next.inputs)
            && exists k: nat :: FirstAsked(calls, next, k) && LostReading(calls[k].world, next.world, next.inputs)
  {
    hide PlainCheck, LostReading, SomeUnreadable, AllMatch, ReadingsAgree;
    var w, inputs := next.world, next.inputs;
    if AllFiles(w, inputs) && AnyMoved(w, inputs) {
      var k := FirstVerdictIsKept(calls, next);
      if Key(w, inputs) in MemoAfter(calls) {
        assert calls[k] in calls;
        SameKey(calls[k].world, calls[k].inputs, w, inputs);
        VerdictsDifferIff(calls[k].world, w, inputs);
        forall j: nat | FirstAsked(calls, next, j) ensures j == k {}
      }
    } else if AllFiles(w, inputs) {
      NothingMoved(w, inputs);
    } else {
      MissingIsStale(w, inputs);
    }
  }

  lemma NothingMoved(w: World, inputs: seq<Fingerprint>)
    requires AllFiles(w, inputs) && !AnyMoved(w, inputs)
    ensures PlainCheck(w, inputs)
  {}

  lemma MissingIsStale(w: World, inputs: seq<Fingerprint>)
    requires !AllFiles(w, inputs)
    ensures !PlainCheck(w, inputs)
    ensures forall call :: !SameQuestion(call, Call(w, inputs))
  {}

  /** A moved file that becomes readable under the same stat keeps its old verdict. */
  lemma ReadabilityIsNotSeen(path: Path, recorded: Stat, now: Stat, sha256: nat)
    requires recorded != now
    ensures var input := Fingerprint(path, recorded, sha256);
            var v, w := map[path := File(now, true, None)], map[path := File(now, true, Some(sha256))];
            !AnswerAfter([Call(v, [input])], Call(w, [input])) && PlainCheck(w, [input]) && Unchanged(w, [input])
  {
    var input := Fingerprint(path, recorded, sha256);
    var v, w := map[path := File(now, true, None)], map[path := File(now, true, Some(sha256))];
    var calls, next := [Call(v, [input])], Call(w, [input]);
    assert input in [input] && Moved(v, input) && Moved(w, input) && DigestMatches(w, input);
    assert Key(v, [input]) == [Row(input, now)] == Key(w, [input]);
    assert FirstAsked(calls, next, 0) && LostReading(calls[0].world, w, [input]);
    MemoDiffersIff(calls, next);
  }
}
