// Path tokenization of a shared build and its inverse.
//
// A compiled module is stored with every output and input path replaced by a
// token, and read back with every token replaced by the path of the machine
// that reads it. Both directions are chains of JavaScript `replaceAll` calls on
// one string.
module PathTokens {
  import opened Common
  import opened PathPieces

  // -------------------------------------------------------------------------
  // Chains of replacements
  // -------------------------------------------------------------------------

  ghost predicate Describes(step: Step, book: Book) {
    && step.tok.Tok? && ValidName(step.tok.name) && step.tok.name in book
    && step.value == Value(book, step.tok)
  }

  /** What tokenization asks of the paths it replaces, and of the code they stand in. */
  ghost predicate Tokenizable(code: string, steps: seq<Step>) {
    forall step :: step in steps ==>
      step.tok.Tok? && ValidName(step.tok.name) && Inert(step.value) && !RunsOn(code, step.value, steps)
  }

  /** What materialization asks of the paths it inserts. */
  ghost predicate Insertable(steps: seq<Step>, book: Book) {
    forall step :: step in steps ==> Describes(step, book) && Inert(step.value) && DollarPlain(step.value)
  }

  function Tokenize(s: string, steps: seq<Step>): string
    requires forall step :: step in steps ==> step.value != ""
  {
    if steps == [] then s
    else
      var last := steps[|steps| - 1];
      ReplaceAll(Tokenize(s, steps[..|steps| - 1]), last.value, Text(last.tok))
  }

  function Materialize(s: string, steps: seq<Step>): string
    requires forall step :: step in steps ==> step.tok.Tok?
  {
    if steps == [] then s
    else
      var last := steps[|steps| - 1];
      ReplaceAll(Materialize(s, steps[..|steps| - 1]), Text(last.tok), last.value)
  }

  function SwapAll(ps: Pieces, steps: seq<Step>): Pieces
    requires forall step :: step in steps ==> step.value != ""
  {
    if steps == [] then ps
    else
      var last := steps[|steps| - 1];
      Swap(SwapAll(ps, steps[..|steps| - 1]), last.value, last.tok)
  }

  function FillAll(ps: Pieces, steps: seq<Step>): Pieces {
    if steps == [] then ps
    else
      var last := steps[|steps| - 1];
      Fill(FillAll(ps, steps[..|steps| - 1]), last.tok, last.value)
  }

  lemma TokenTextIsPlain(p: Piece)
    requires p.Tok? && ValidName(p.name)
    ensures DollarPlain(Text(p))
  {
    TokenChars(p);
    forall i | 0 <= i < |Text(p)| - 1 ensures Text(p)[i] != '$' {
      assert TokenChar(Text(p)[i]);
    }
  }

  lemma {:induction false} SwapTokens(ps: Pieces, value: string, tok: Piece)
    requires value != ""
    ensures forall p :: p in Swap(ps, value, tok) ==> p in ps || p == tok
    decreases |ps|
  {
    if ps == [] {
    } else if StartsWith(ps, value) {
      StartsWithRenders(ps, value);
      SwapTokens(ps[|value|..], value, tok);
    } else {
      SwapTokens(ps[1..], value, tok);
    }
  }

  /** Whatever is replaced, what is left spells the code. */
  lemma {:induction false} SwapsSpell(code: string, steps: seq<Step>)
    requires forall step :: step in steps ==> step.value != "" && step.tok.Tok?
    ensures Spells(SwapAll(Chars(code), steps), code, steps)
  {
    if steps == [] {
      CharsSpell(code, steps);
    } else {
      var front, last := steps[..|steps| - 1], steps[|steps| - 1];
      SwapsSpell(code, front);
      SpellsMore(SwapAll(Chars(code), front), code, front, steps);
      SwapKeepsSpelling(SwapAll(Chars(code), front), code, last, steps);
    }
  }

  lemma {:induction false} SpelledTokens(ps: Pieces, s: string, steps: seq<Step>)
    requires Spells(ps, s, steps)
    ensures forall p :: p in ps && p.Tok? ==> exists step :: step in steps && step.tok == p
  {
    if ps != [] && ps[0].Ch? {
      SpelledTokens(ps[1..], s[1..], steps);
    } else if ps != [] {
      var step :| step in steps && Opens(step, ps[0], s) && Spells(ps[1..], s[|step.value|..], steps);
      SpelledTokens(ps[1..], s[|step.value|..], steps);
    }
  }

  lemma SpelledNames(ps: Pieces, code: string, steps: seq<Step>)
    requires Tokenizable(code, steps) && Spells(ps, code, steps)
    ensures NamesValid(ps)
  {
    hide Inert, RunsOn, ValidName, Spells;
    SpelledTokens(ps, code, steps);
  }

  /** Tokenizing the text is tokenizing its pieces. */
  lemma {:induction false} TokenizeSwaps(code: string, steps: seq<Step>, all: seq<Step>)
    requires Tokenizable(code, all) && forall step :: step in steps ==> step in all
    ensures Tokenize(code, steps) == Render(SwapAll(Chars(code), steps))
  {
    hide RunsOn, Spells, ReplaceAll, Replace, ValidName, NeverMeets, NamesValid;
    if steps == [] {
      RenderChars(code);
    } else {
      var front, last := steps[..|steps| - 1], steps[|steps| - 1];
      TokenizeSwaps(code, front, all);
      var ps := SwapAll(Chars(code), front);
      SwapsSpell(code, front);
      SpellsMore(ps, code, front, all);
      SpelledNames(ps, code, all);
      assert last in steps;
      SpelledNeverMeets(ps, code, last.value, all);
      SwapText(ps, last.value, last.tok);
      TokenTextIsPlain(last.tok);
      ReplaceAllIsReplace(Render(ps), last.value, Text(last.tok));
    }
  }

  ghost predicate Covers(steps: seq<Step>, p: Piece) {
    exists step :: step in steps && step.tok == p
  }

  /** Every URL token is replaced before the plain token it begins with. */
  ghost predicate UrlsFirst(steps: seq<Step>) {
    steps == [] ||
    (var last := steps[|steps| - 1];
     && UrlsFirst(steps[..|steps| - 1])
     && (last.tok.Tok? ==> Covers(steps, Tok(last.tok.name, Href))))
  }

  lemma CoversLast(steps: seq<Step>, p: Piece)
    requires steps != []
    ensures Covers(steps, p) <==> Covers(steps[..|steps| - 1], p) || p == steps[|steps| - 1].tok
  {
    var front, last := steps[..|steps| - 1], steps[|steps| - 1];
    assert steps == front + [last];
    assert last in steps;
  }

  lemma UrlGoesFirst(steps: seq<Step>)
    requires steps != [] && UrlsFirst(steps) && steps[|steps| - 1].tok.Tok? && steps[|steps| - 1].tok.form == Plain
    ensures Covers(steps[..|steps| - 1], Tok(steps[|steps| - 1].tok.name, Href))
  {
    hide Covers;
    CoversLast(steps, Tok(steps[|steps| - 1].tok.name, Href));
  }

  // -------------------------------------------------------------------------
  // Storing a module and reading it back
  // -------------------------------------------------------------------------

  /** One path of a build: its token's name, its file URL and the path itself. */
  datatype Target = Target(name: string, href: string, path: string)

  function UrlAndPath(t: Target): seq<Step> {
    [Step(t.href, Tok(t.name, Href)), Step(t.path, Tok(t.name, Plain))]
  }

  // On POSIX the import specifier of a path is the path, so its replacement comes twice.
  function StepsFor(t: Target, specifier: bool): seq<Step> {
    UrlAndPath(t) + if specifier then [Step(t.path, Tok(t.name, Plain))] else []
  }

  function TargetSteps(targets: seq<Target>, specifier: bool): seq<Step> {
    if targets == [] then []
    else TargetSteps(targets[..|targets| - 1], specifier) + StepsFor(targets[|targets| - 1], specifier)
  }

  function Longer(weight: Target -> nat): (Target, Target) -> bool {
    (x: Target, y: Target) => weight(x) > weight(y)
  }

  /** The stable `sort` by descending length. */
  function LongestFirst(targets: seq<Target>, weight: Target -> nat): seq<Target> {
    Sort(targets, Longer(weight))
  }

  function PathLength(t: Target): nat { |t.path| }

  function TokenLength(t: Target): nat { |Token(t.name)| }

  function StoreSteps(output: Target, targets: seq<Target>): seq<Step> {
    UrlAndPath(output) + TargetSteps(LongestFirst(targets, PathLength), true)
  }

  function ReadSteps(output: Target, targets: seq<Target>): seq<Step> {
    UrlAndPath(output) + TargetSteps(LongestFirst(targets, TokenLength), false)
  }

  ghost predicate Lists(t: Target, book: Book) {
    ValidName(t.name) && t.name in book && book[t.name] == Site(t.href, t.path)
  }

  /** The build's targets, each token standing for one site of the book. */
  ghost predicate Build(output: Target, targets: seq<Target>, book: Book) {
    forall t :: t in [output] + targets ==> Lists(t, book)
  }

  predicate Spelled(output: Target, targets: seq<Target>) {
    forall t :: t in [output] + targets ==> t.href != "" && t.path != ""
  }

  /** A module whose build's paths are replaced whole, wherever they occur in it. */
  ghost predicate Publishable(code: string, output: Target, targets: seq<Target>) {
    && Spelled(output, targets)
    && forall t :: t in [output] + targets ==>
      && ValidName(t.name) && Inert(t.href) && Inert(t.path)
      && !RunsOn(code, t.href, StoreSteps(output, targets)) && !RunsOn(code, t.path, StoreSteps(output, targets))
  }

  /** A build whose paths can be put back. */
  ghost predicate WritableBuild(output: Target, targets: seq<Target>, book: Book) {
    && Build(output, targets, book)
    && forall t :: t in [output] + targets ==>
         Inert(t.href) && Inert(t.path) && DollarPlain(t.href) && DollarPlain(t.path)
  }

  lemma {:induction false} TargetStepElements(targets: seq<Target>, specifier: bool)
    ensures forall s :: s in TargetSteps(targets, specifier) <==> exists t :: t in targets && s in UrlAndPath(t)
  {
    if targets != [] {
      var front, last := targets[..|targets| - 1], targets[|targets| - 1];
      TargetStepElements(front, specifier);
      assert targets == front + [last];
      assert forall s :: s in StepsFor(last, specifier) <==> s in UrlAndPath(last);
    }
  }

  lemma StoreStepElements(output: Target, targets: seq<Target>)
    ensures forall s :: s in StoreSteps(output, targets) <==> exists t :: t in [output] + targets && s in UrlAndPath(t)
  {
    hide UrlAndPath;
    SortElements(targets, Longer(PathLength));
    TargetStepElements(LongestFirst(targets, PathLength), true);
    assert output in [output] + targets;
  }

  lemma ReadStepElements(output: Target, targets: seq<Target>)
    ensures forall s :: s in ReadSteps(output, targets) <==> exists t :: t in [output] + targets && s in UrlAndPath(t)
  {
    hide UrlAndPath;
    SortElements(targets, Longer(TokenLength));
    TargetStepElements(LongestFirst(targets, TokenLength), false);
    assert output in [output] + targets;
  }

  lemma StoreIsTokenizable(code: string, output: Target, targets: seq<Target>)
    requires Publishable(code, output, targets)
    ensures Tokenizable(code, StoreSteps(output, targets)) && Spelled(output, targets)
  {
    hide RunsOn, StoreSteps, ValidName;
    StoreStepElements(output, targets);
    var steps := StoreSteps(output, targets);
    forall step | step in steps
      ensures step.tok.Tok? && ValidName(step.tok.name) && Inert(step.value) && !RunsOn(code, step.value, steps)
    {
      var t :| t in [output] + targets && step in UrlAndPath(t);
    }
  }

  lemma ReadIsInsertable(output: Target, targets: seq<Target>, book: Book)
    requires WritableBuild(output, targets, book)
    ensures Insertable(ReadSteps(output, targets), book)
  {
    hide Inert, DollarPlain, ReadSteps, ValidName;
    ReadStepElements(output, targets);
    forall step | step in ReadSteps(output, targets)
      ensures Describes(step, book) && Inert(step.value) && DollarPlain(step.value)
    {
      var t :| t in [output] + targets && step in UrlAndPath(t);
      assert Lists(t, book);
    }
  }

  lemma UrlsFirstAppend(steps: seq<Step>, t: Target)
    requires UrlsFirst(steps)
    ensures UrlsFirst(steps + UrlAndPath(t))
  {
    var url, path := UrlAndPath(t)[0], UrlAndPath(t)[1];
    var one := steps + [url];
    assert one[..|one| - 1] == steps && url in one;
    var two := one + [path];
    assert two[..|two| - 1] == one && url in two;
    assert two == steps + UrlAndPath(t);
  }

  lemma {:induction false} ReadsUrlsFirst(output: Target, targets: seq<Target>)
    ensures UrlsFirst(UrlAndPath(output) + TargetSteps(targets, false))
  {
    if targets == [] {
      UrlsFirstAppend([], output);
      assert [] + UrlAndPath(output) == UrlAndPath(output) + TargetSteps(targets, false);
    } else {
      var front, last := targets[..|targets| - 1], targets[|targets| - 1];
      ReadsUrlsFirst(output, front);
      UrlsFirstAppend(UrlAndPath(output) + TargetSteps(front, false), last);
      assert UrlAndPath(output) + TargetSteps(front, false) + UrlAndPath(last)
          == UrlAndPath(output) + TargetSteps(targets, false);
    }
  }

  lemma StoreStepsSpelled(output: Target, targets: seq<Target>)
    requires Spelled(output, targets)
    ensures forall step :: step in StoreSteps(output, targets) ==> step.value != ""
  {
    StoreStepElements(output, targets);
  }

  lemma ReadStepsAreTokens(output: Target, targets: seq<Target>)
    ensures forall step :: step in ReadSteps(output, targets) ==> step.tok.Tok?
  {
    ReadStepElements(output, targets);
  }

  /** The text kept in the shared store. */
  function Store(code: string, output: Target, targets: seq<Target>): string
    requires Spelled(output, targets)
  {
    StoreStepsSpelled(output, targets);
    Tokenize(code, StoreSteps(output, targets))
  }

  /** What a reader returns once its replacements are done: nothing, if the marker is left. */
  function Checked(source: string): Option<string> {
    if Contains(source, MARKER) then None else Some(source)
  }

  /** The text read back, unless some token is left over. */
  function Read(text: string, output: Target, targets: seq<Target>): Option<string> {
    ReadStepsAreTokens(output, targets);
    Checked(Materialize(text, ReadSteps(output, targets)))
  }

  /** The stored text with every token kept whole. */
  ghost function StoredPieces(code: string, output: Target, targets: seq<Target>): Pieces
    requires Spelled(output, targets)
  {
    StoreStepsSpelled(output, targets);
    SwapAll(Chars(code), StoreSteps(output, targets))
  }

  /** The tokens that appear are tokens of the build. */
  ghost predicate Names(ps: Pieces, output: Target, targets: seq<Target>) {
    forall p :: p in ps && p.Tok? ==> exists t :: t in [output] + targets && t.name == p.name
  }

  /** Every name the stored text can hold is one the reader resolves. */
  ghost predicate Resolves(output: Target, targets: seq<Target>, output': Target, targets': seq<Target>) {
    forall t :: t in [output] + targets ==> exists t' :: t' in [output'] + targets' && t'.name == t.name
  }

  lemma StoredTokens(code: string, output: Target, targets: seq<Target>)
    requires Publishable(code, output, targets)
    ensures Spelled(output, targets) && Store(code, output, targets) == Render(StoredPieces(code, output, targets))
    ensures Spells(StoredPieces(code, output, targets), code, StoreSteps(output, targets))
    ensures NamesValid(StoredPieces(code, output, targets))
    ensures Names(StoredPieces(code, output, targets), output, targets)
  {
    hide Publishable, Render, Tokenize, SwapAll, StoreSteps, NamesValid, Names, RunsOn, Spells, ValidName, Inert;
    var steps := StoreSteps(output, targets);
    StoreIsTokenizable(code, output, targets);
    StoreStepsSpelled(output, targets);
    TokenizeSwaps(code, steps, steps);
    SwapsSpell(code, steps);
    SpelledNames(StoredPieces(code, output, targets), code, steps);
    SpelledTokens(StoredPieces(code, output, targets), code, steps);
    NamesOfSteps(StoredPieces(code, output, targets), output, targets);
  }

  lemma NamesOfSteps(ps: Pieces, output: Target, targets: seq<Target>)
    requires forall p :: p in ps && p.Tok? ==> exists step :: step in StoreSteps(output, targets) && step.tok == p
    ensures Names(ps, output, targets)
  {
    hide StoreSteps, UrlAndPath;
    StoreStepElements(output, targets);
    forall p | p in ps && p.Tok? ensures exists t :: t in [output] + targets && t.name == p.name {
      var step :| step in StoreSteps(output, targets) && step.tok == p;
      var t :| t in [output] + targets && step in UrlAndPath(t);
      StepName(step, t);
    }
  }

  lemma StepName(step: Step, t: Target)
    requires step in UrlAndPath(t)
    ensures step.tok.Tok? && step.tok.name == t.name
  {}

  lemma {:induction false} TokenFreeRenders(ps: Pieces, book: Book)
    requires forall p :: p in ps ==> p.Ch?
    ensures Render(ps) == Expand(ps, book)
  {
    if ps != [] {
      assert ps[0] in ps;
      TokenFreeRenders(ps[1..], book);
    }
  }

  lemma ReaderCovers(output: Target, targets: seq<Target>, t: Target, form: Form)
    requires t in [output] + targets
    ensures Covers(ReadSteps(output, targets), Tok(t.name, form))
  {
    ReadStepElements(output, targets);
    var step := if form == Href then UrlAndPath(t)[0] else UrlAndPath(t)[1];
    assert step in UrlAndPath(t);
    assert step in ReadSteps(output, targets) && step.tok == Tok(t.name, form);
  }

  /** No plain token runs into a token that the reader replaces. */
  ghost predicate SeparatedFrom(ps: Pieces, output: Target, targets: seq<Target>) {
    forall t :: t in [output] + targets ==> Separated(ps, t.name)
  }

  /** In the text, no token of the reader begins. */
  ghost predicate TokenFree(s: string, output: Target, targets: seq<Target>) {
    forall t :: t in [output] + targets ==> !Contains(s, MARKER + t.name)
  }

  lemma MarkerFreeIsTokenFree(s: string, output: Target, targets: seq<Target>)
    requires !Contains(s, MARKER)
    ensures TokenFree(s, output, targets)
  {
    forall t | t in [output] + targets ensures !Contains(s, MARKER + t.name) {
      assert MARKER <= MARKER + t.name;
    }
  }

  // -------------------------------------------------------------------------
  // What follows a path in the code
  // -------------------------------------------------------------------------

  /** Where the path first occurs, or -1. */
  function Find(s: string, v: string): (i: int)
    requires v != ""
    ensures i == -1 || (0 <= i && i + |v| <= |s| && v <= s[i..])
  {
    if |s| < |v| then -1
    else if v <= s then 0
    else
      var i := Find(s[1..], v);
      assert i >= 0 ==> s[1..][i..] == s[i + 1..];
      if i < 0 then -1 else i + 1
  }

  /**
   * Looking in the code for the paths in the order of the steps, each from left to
   * right beside what was found before, a path proper (not a URL) is found with `t` after it.
   */
  ghost predicate Spoiled(s: string, steps: seq<Step>, t: string)
    requires forall step :: step in steps ==> step.value != ""
    decreases |steps|, |s|
  {
    if steps == [] then false
    else
      var first, i := steps[0], Find(s, steps[0].value);
      if i < 0 then Spoiled(s, steps[1..], t)
      else
        var after := s[i + |first.value|..];
        || Spoiled(s[..i], steps[1..], t)
        || (first.tok.Tok? && first.tok.form == Plain && t <= after)
        || Spoiled(after, steps, t)
  }

  lemma {:induction false} CharsStart(s: string, t: string)
    ensures StartsWith(Chars(s), t) <==> t <= s
  {
    if t != "" && s != "" {
      CharsStart(s[1..], t[1..]);
    }
  }

  lemma {:induction false} StartsBeforeToken(a: Pieces, tok: Piece, b: Pieces, t: string)
    requires tok.Tok?
    ensures StartsWith(a + ([tok] + b), t) <==> StartsWith(a, t)
  {
    if a != [] && t != "" {
      assert (a + ([tok] + b))[1..] == a[1..] + ([tok] + b);
      StartsBeforeToken(a[1..], tok, b, t[1..]);
    }
  }

  lemma {:induction false} NoTokensNever(s: string, t: string)
    ensures Never(Chars(s), t)
  {
    if s != "" { NoTokensNever(s[1..], t); }
  }

  lemma {:induction false} NeverAcross(a: Pieces, tok: Piece, b: Pieces, t: string)
    requires tok.Tok?
    ensures Never(a + ([tok] + b), t) <==> Never(a, t) && !(tok.form == Plain && StartsWith(b, t)) && Never(b, t)
  {
    var all := a + ([tok] + b);
    if a == [] {
      assert all == [tok] + b && all[1..] == b;
    } else {
      assert all[1..] == a[1..] + ([tok] + b);
      NeverAcross(a[1..], tok, b, t);
      StartsBeforeToken(a[1..], tok, b, t);
    }
  }

  lemma FindNext(s: string, v: string)
    requires v != "" && s != "" && !(v <= s)
    ensures Find(s, v) == if Find(s[1..], v) < 0 then -1 else Find(s[1..], v) + 1
  {}

  lemma SwapNext(s: string, v: string, tok: Piece)
    requires v != "" && s != "" && !(v <= s)
    ensures Swap(Chars(s), v, tok) == [Ch(s[0])] + Swap(Chars(s[1..]), v, tok)
  {
    CharsStart(s, v);
  }

  lemma SwapHere(s: string, v: string, tok: Piece)
    requires v != "" && v <= s
    ensures Swap(Chars(s), v, tok) == [tok] + Swap(Chars(s[|v|..]), v, tok)
  {
    CharsStart(s, v);
    CharsDrop(s, |v|);
  }

  /** The characters before an occurrence, its token, and what becomes of the rest. */
  function AroundToken(s: string, i: nat, v: string, tok: Piece): Pieces
    requires v != "" && i + |v| <= |s|
  {
    Chars(s[..i]) + ([tok] + Swap(Chars(s[i + |v|..]), v, tok))
  }

  lemma AroundNext(s: string, i: nat, v: string, tok: Piece)
    requires v != "" && 0 < i && i + |v| <= |s|
    ensures AroundToken(s, i, v, tok) == [Ch(s[0])] + AroundToken(s[1..], i - 1, v, tok)
  {
    hide Swap;
    assert s[..i][1..] == s[1..][..i - 1] && s[1..][i - 1 + |v|..] == s[i + |v|..];
    Associative([Ch(s[0])], Chars(s[1..][..i - 1]), [tok] + Swap(Chars(s[i + |v|..]), v, tok));
  }

  lemma AroundHere(s: string, v: string, tok: Piece)
    requires v != "" && v <= s
    ensures AroundToken(s, 0, v, tok) == Swap(Chars(s), v, tok)
  {
    SwapHere(s, v, tok);
    assert Chars(s[..0]) == [];
  }

  /** One replacement, up to the first occurrence and after it. */
  lemma {:induction false} SwapSplit(s: string, v: string, tok: Piece)
    requires v != ""
    ensures Find(s, v) < 0 ==> Swap(Chars(s), v, tok) == Chars(s)
    ensures Find(s, v) >= 0 ==> Swap(Chars(s), v, tok) == AroundToken(s, Find(s, v), v, tok)
  {
    hide Swap, AroundToken;
    if v <= s {
      AroundHere(s, v, tok);
    } else if s == "" {
      SwapNothing(v, tok);
    } else {
      SwapSplit(s[1..], v, tok);
      FindNext(s, v);
      SwapNext(s, v, tok);
      var i := Find(s, v);
      if i > 0 { AroundNext(s, i, v, tok); }
    }
  }

  lemma SwapNothing(v: string, tok: Piece)
    requires v != ""
    ensures Swap(Chars(""), v, tok) == []
  {}

  lemma {:induction false} CharsLength(s: string)
    ensures |Chars(s)| == |s|
  {
    if s != "" { CharsLength(s[1..]); }
  }

  lemma {:induction false} CharsDrop(s: string, n: nat)
    requires n <= |s|
    ensures |Chars(s)| == |s| && Chars(s)[n..] == Chars(s[n..])
  {
    CharsLength(s);
    if n > 0 {
      CharsDrop(s[1..], n - 1);
      assert s[1..][n - 1..] == s[n..] && Chars(s)[n..] == Chars(s[1..])[n - 1..];
    } else {
      assert s[0..] == s && Chars(s)[0..] == Chars(s);
    }
  }

  lemma SwapUnfolds(ps: Pieces, v: string, tok: Piece)
    requires v != "" && ps != [] && (StartsWith(ps, v) ==> |v| <= |ps|)
    ensures StartsWith(ps, v) ==> Swap(ps, v, tok) == [tok] + Swap(ps[|v|..], v, tok)
    ensures !StartsWith(ps, v) ==> Swap(ps, v, tok) == [ps[0]] + Swap(ps[1..], v, tok)
  {}

  lemma SwapUnfoldsAcross(a: Pieces, tok: Piece, b: Pieces, v: string, made: Piece) returns (n: nat, head: Piece)
    requires v != "" && tok.Tok? && a != []
    ensures 0 < n <= |a| && Swap(a, v, made) == [head] + Swap(a[n..], v, made)
    ensures Swap(a + ([tok] + b), v, made) == [head] + Swap(a[n..] + ([tok] + b), v, made)
  {
    var all := a + ([tok] + b);
    StartsBeforeToken(a, tok, b, v);
    if StartsWith(a, v) { StartsWithRenders(a, v); }
    hide StartsWith;
    n, head := if StartsWith(a, v) then |v| else 1, if StartsWith(a, v) then made else a[0];
    DropFromFirst(a, [tok] + b, n);
    SwapUnfolds(a, v, made);
    SwapUnfolds(all, v, made);
  }

  /** A replacement acts on both sides of a token on its own. */
  lemma {:induction false} SwapAcross(a: Pieces, tok: Piece, b: Pieces, v: string, made: Piece)
    requires v != "" && tok.Tok?
    ensures Swap(a + ([tok] + b), v, made) == Swap(a, v, made) + ([tok] + Swap(b, v, made))
    decreases |a|
  {
    if a == [] {
      SwapAfterToken(tok, b, v, made);
      assert a + ([tok] + b) == [tok] + b;
    } else {
      hide Swap;
      var n, head := SwapUnfoldsAcross(a, tok, b, v, made);
      SwapAcross(a[n..], tok, b, v, made);
      Associative([head], Swap(a[n..], v, made), [tok] + Swap(b, v, made));
    }
  }

  lemma SwapAfterToken(tok: Piece, b: Pieces, v: string, made: Piece)
    requires v != "" && tok.Tok?
    ensures Swap([tok] + b, v, made) == [tok] + Swap(b, v, made) && Swap([], v, made) == []
  {
    assert ([tok] + b)[1..] == b;
  }

  lemma {:induction false} SwapAllAcross(a: Pieces, tok: Piece, b: Pieces, steps: seq<Step>)
    requires tok.Tok? && forall step :: step in steps ==> step.value != ""
    ensures SwapAll(a + ([tok] + b), steps) == SwapAll(a, steps) + ([tok] + SwapAll(b, steps))
  {
    hide Swap;
    if steps != [] {
      var front, last := steps[..|steps| - 1], steps[|steps| - 1];
      SwapAllAcross(a, tok, b, front);
      SwapAcross(SwapAll(a, front), tok, SwapAll(b, front), last.value, last.tok);
    }
  }

  lemma {:induction false} SwapAllFirst(ps: Pieces, steps: seq<Step>)
    requires steps != [] && forall step :: step in steps ==> step.value != ""
    ensures SwapAll(ps, steps) == SwapAll(Swap(ps, steps[0].value, steps[0].tok), steps[1..])
  {
    hide Swap;
    var n := |steps| - 1;
    if n == 0 {
      assert steps[..0] == [] && steps[1..] == [];
    } else {
      assert steps[..n][1..] == steps[1..][..n - 1];
      SwapAllFirst(ps, steps[..n]);
    }
  }

  lemma {:induction false} SwapKeepsStart(ps: Pieces, v: string, tok: Piece, t: string)
    requires Inert(v) && tok.Tok? && forall i :: 0 <= i < |t| ==> TokenChar(t[i])
    ensures StartsWith(Swap(ps, v, tok), t) <==> StartsWith(ps, t)
  {
    if t != "" && ps != [] {
      assert TokenChar(t[0]);
      if !StartsWith(ps, v) {
        assert Swap(ps, v, tok)[1..] == Swap(ps[1..], v, tok);
        SwapKeepsStart(ps[1..], v, tok, t[1..]);
      } else {
        StartsWithRenders(ps, v);
      }
    }
  }

  lemma {:induction false} SwapAllKeepsStart(ps: Pieces, steps: seq<Step>, t: string)
    requires forall step :: step in steps ==> step.value != "" && Inert(step.value) && step.tok.Tok?
    requires forall i :: 0 <= i < |t| ==> TokenChar(t[i])
    ensures StartsWith(SwapAll(ps, steps), t) <==> StartsWith(ps, t)
  {
    hide Swap, Inert, TokenChar, StartsWith;
    if steps != [] {
      var front, last := steps[..|steps| - 1], steps[|steps| - 1];
      assert last in steps;
      SwapAllKeepsStart(ps, front, t);
      SwapKeepsStart(SwapAll(ps, front), last.value, last.tok, t);
    }
  }

  /** In storage a token is followed by the text exactly when its path is in the code. */
  lemma {:induction false} SpoiledIffFollowed(s: string, steps: seq<Step>, t: string)
    requires forall step :: step in steps ==> step.value != "" && Inert(step.value) && step.tok.Tok?
    requires forall i :: 0 <= i < |t| ==> TokenChar(t[i])
    ensures Spoiled(s, steps, t) <==> !Never(SwapAll(Chars(s), steps), t)
    decreases |steps|, |s|
  {
    hide Swap, Never, TokenChar, Find, Chars, Inert;
    if steps == [] {
      NoTokensNever(s, t);
    } else {
      var first, rest := steps[0], steps[1..];
      var i := Find(s, first.value);
      assert first in steps && forall step :: step in rest ==> step in steps;
      SwapAllFirst(Chars(s), steps);
      SwapSplit(s, first.value, first.tok);
      if i < 0 {
        SpoiledIffFollowed(s, rest, t);
      } else {
        var after := s[i + |first.value|..];
        SpoiledIffFollowed(s[..i], rest, t);
        SpoiledIffFollowed(after, steps, t);
        SwapAllAcross(Chars(s[..i]), first.tok, Swap(Chars(after), first.value, first.tok), rest);
        SwapAllFirst(Chars(after), steps);
        NeverAcross(SwapAll(Chars(s[..i]), rest), first.tok, SwapAll(Chars(after), steps), t);
        SwapAllKeepsStart(Chars(after), steps, t);
        CharsStart(after, t);
      }
    }
  }

  /** A path that is found with the text after it occurs with the text after it. */
  lemma {:induction false} SpoiledByPath(s: string, steps: seq<Step>, t: string) returns (step: Step)
    requires (forall step :: step in steps ==> step.value != "") && Spoiled(s, steps, t)
    ensures step in steps && step.tok.Tok? && step.tok.form == Plain && Contains(s, step.value + t)
    decreases |steps|, |s|
  {
    hide Contains, Find;
    var first, i := steps[0], Find(s, steps[0].value);
    if i < 0 {
      step := SpoiledByPath(s, steps[1..], t);
    } else {
      var after := s[i + |first.value|..];
      if Spoiled(s[..i], steps[1..], t) {
        step := SpoiledByPath(s[..i], steps[1..], t);
        ContainsFront(s, i, step.value + t);
      } else if Spoiled(after, steps, t) {
        step := SpoiledByPath(after, steps, t);
        ContainsTail(s, i + |first.value|, step.value + t);
      } else {
        step := first;
        ContainsBoth(s, i, first.value, t);
      }
    }
  }

  lemma ContainsBoth(s: string, i: nat, v: string, t: string)
    requires i + |v| <= |s| && v <= s[i..] && t <= s[i + |v|..]
    ensures Contains(s, v + t)
  {
    assert s[i..][|v|..] == s[i + |v|..];
    ContainsHere(s[i..], v + t);
    ContainsTail(s, i, v + t);
  }

  lemma ContainsFront(s: string, k: nat, sub: string)
    requires k <= |s| && Contains(s[..k], sub)
    ensures Contains(s, sub)
  {
    var i :| 0 <= i <= k && sub <= s[..k][i..];
    assert s[..k][i..] <= s[i..];
  }

  /** Some path of the build is found in the code with the text after it. */
  ghost predicate Follow(code: string, output: Target, targets: seq<Target>, t: string)
    requires Spelled(output, targets)
  {
    StoreStepsSpelled(output, targets);
    Spoiled(code, StoreSteps(output, targets), t)
  }

  lemma FollowIsNever(code: string, output: Target, targets: seq<Target>, t: string)
    requires Publishable(code, output, targets)
    requires forall i :: 0 <= i < |t| ==> TokenChar(t[i])
    ensures Follow(code, output, targets, t) <==> !Never(StoredPieces(code, output, targets), t)
  {
    hide StoreSteps, RunsOn, TokenChar, Never;
    StoreIsTokenizable(code, output, targets);
    SpoiledIffFollowed(code, StoreSteps(output, targets), t);
  }

  /** What is found in the code is there. */
  lemma FollowedPath(code: string, output: Target, targets: seq<Target>, t: string)
    requires Spelled(output, targets) && Follow(code, output, targets, t)
    ensures exists target :: target in [output] + targets && Contains(code, target.path + t)
  {
    hide Contains, StoreSteps;
    StoreStepsSpelled(output, targets);
    StoreStepElements(output, targets);
    var step := SpoiledByPath(code, StoreSteps(output, targets), t);
    var target :| target in [output] + targets && step in UrlAndPath(target);
    assert step.value == target.path;
  }

  /** No path of the publisher is found in the code with the rest of a reader's token after it. */
  ghost predicate Unmixed(code: string, output: Target, targets: seq<Target>, output': Target, targets': seq<Target>)
    requires Spelled(output, targets)
  {
    forall t :: t in [output'] + targets' ==>
      !Follow(code, output, targets, CORE + t.name) && !Follow(code, output, targets, HALF + t.name)
  }

  lemma UnmixedIsSeparated(code: string, output: Target, targets: seq<Target>, output': Target, targets': seq<Target>)
    requires Publishable(code, output, targets)
    requires Unmixed(code, output, targets, output', targets') && forall t :: t in [output'] + targets' ==> ValidName(t.name)
    ensures SeparatedFrom(StoredPieces(code, output, targets), output', targets')
  {
    assert Spelled(output, targets);
    hide Never, StoredPieces, Follow, Publishable, ValidName, TokenChar;
    forall t | t in [output'] + targets' ensures Separated(StoredPieces(code, output, targets), t.name) {
      RestIsTokenChars(t.name);
      FollowIsNever(code, output, targets, CORE + t.name);
      FollowIsNever(code, output, targets, HALF + t.name);
    }
  }

  lemma WritableNames(output: Target, targets: seq<Target>, book: Book)
    requires WritableBuild(output, targets, book)
    ensures forall t :: t in [output] + targets ==> ValidName(t.name)
  {
    hide Inert, DollarPlain;
    forall t | t in [output] + targets ensures ValidName(t.name) { assert Lists(t, book); }
  }

  lemma RereadSeparated(ps: Pieces, output: Target, targets: seq<Target>)
    requires SeparatedFrom(ps, output, targets)
    ensures SeparatedFrom(Reread(ps), output, targets)
  {
    hide Reread, Never;
    forall t | t in [output] + targets ensures Separated(Reread(ps), t.name) {
      assert Separated(ps, t.name);
      RereadNever(ps, CORE + t.name);
      RereadNever(ps, HALF + t.name);
    }
  }

  // -------------------------------------------------------------------------
  // Paths that run into tokens
  // -------------------------------------------------------------------------

  lemma SafeMeetsNothing(ps: Pieces, value: string)
    requires TokenSafe(value)
    ensures value <= Render(ps) <==> StartsWith(ps, value)
  {
    hide StartsWith;
    OccurrencesAreWhole(ps, value);
  }

  lemma NoMarkerAt(value: string, j: nat)
    requires j <= |value| && !Contains(value, MARKER)
    ensures !(MARKER <= value[j..])
  {}

  lemma ClashIsCut(value: string, j: nat) returns (ps: Pieces)
    requires 0 < j < |value| && Clashes(value, j) && !Contains(value, MARKER)
    ensures NamesValid(ps) && value <= Render(ps) && !StartsWith(ps, value)
  {
    hide StartsWith, Render;
    var tok := Tok("0", Plain);
    ps := Chars(value[..j]) + [tok];
    NoMarkerAt(value, j);
    RunIntoToken(value, j, tok);
    CharsHoldNoTokens(value[..j]);
  }

  /** Which marker-free paths can be replaced beside tokens: those no tail of which begins a marker. */
  lemma WholeOccurrencesIffTokenSafe(value: string)
    requires Inert(value) && !Contains(value, MARKER)
    ensures TokenSafe(value)
       <==> forall ps :: NamesValid(ps) ==> (value <= Render(ps) <==> StartsWith(ps, value))
  {
    hide StartsWith, Render, NamesValid, Contains;
    if TokenSafe(value) {
      forall ps ensures value <= Render(ps) <==> StartsWith(ps, value) { SafeMeetsNothing(ps, value); }
    } else {
      var j :| 0 < j < |value| && Clashes(value, j);
      var ps := ClashIsCut(value, j);
    }
  }

  lemma {:induction false} RunIntoToken(value: string, j: nat, tok: Piece)
    requires j < |value| && value[j..] <= MARKER && tok.Tok?
    ensures value <= Render(Chars(value[..j]) + [tok]) && !StartsWith(Chars(value[..j]) + [tok], value)
  {
    if j == 0 {
      assert Chars(value[..j]) + [tok] == [tok] && value[0..] == value;
    } else {
      RunIntoToken(value[1..], j - 1, tok);
      assert value[1..][..j - 1] == value[..j][1..] && value[1..][j - 1..] == value[j..];
      assert (Chars(value[..j]) + [tok])[1..] == Chars(value[..j][1..]) + [tok];
    }
  }

  // -------------------------------------------------------------------------
  // What the stored text no longer holds
  // -------------------------------------------------------------------------

  lemma {:induction false} SwapStart(ps: Pieces, value: string, tok: Piece, s: string)
    requires value != "" && tok.Tok? && StartsWith(Swap(ps, value, tok), s)
    ensures StartsWith(ps, s)
  {
    if s != "" && !StartsWith(ps, value) {
      assert Swap(ps, value, tok)[1..] == Swap(ps[1..], value, tok);
      SwapStart(ps[1..], value, tok, s[1..]);
    } else if s != "" {
      StartsWithRenders(ps, value);
    }
  }

  lemma {:induction false} SwapKeepsAbsent(ps: Pieces, value: string, tok: Piece, s: string)
    requires value != "" && tok.Tok? && s != "" && (Nowhere(ps, s) || s == value)
    ensures Nowhere(Swap(ps, value, tok), s)
    decreases |ps|
  {
    var qs := Swap(ps, value, tok);
    if ps == [] {
    } else if StartsWith(ps, value) {
      StartsWithRenders(ps, value);
      if s != value { NowhereTail(ps, s, |value|); }
      SwapKeepsAbsent(ps[|value|..], value, tok, s);
      assert qs[1..] == Swap(ps[|value|..], value, tok);
    } else {
      SwapKeepsAbsent(ps[1..], value, tok, s);
      assert qs[1..] == Swap(ps[1..], value, tok);
      if StartsWith(qs, s) { SwapStart(ps, value, tok, s); }
    }
  }

  lemma {:induction false} SwapsKeepAbsent(ps: Pieces, steps: seq<Step>, s: string)
    requires forall step :: step in steps ==> step.value != "" && step.tok.Tok?
    requires s != "" && (Nowhere(ps, s) || exists step :: step in steps && step.value == s)
    ensures Nowhere(SwapAll(ps, steps), s)
  {
    if steps != [] {
      var front, last := steps[..|steps| - 1], steps[|steps| - 1];
      assert steps == front + [last];
      if last.value != s { SwapsKeepAbsent(ps, front, s); }
      SwapKeepsAbsent(SwapAll(ps, front), last.value, last.tok, s);
    }
  }

  lemma {:induction false} RenderedOccurrence(ps: Pieces, value: string, i: nat)
    requires Inert(value) && NamesValid(ps) && NeverMeets(ps, value)
    requires i <= |Render(ps)| && value <= Render(ps)[i..]
    ensures !Nowhere(ps, value)
  {
    var t := Render(ps)[i..];
    if ps != [] {
      var a, rest := Text(ps[0]), Render(ps[1..]);
      if i >= |a| {
        assert t == rest[i - |a|..];
        RenderedOccurrence(ps[1..], value, i - |a|);
      } else {
        assert t[0] == a[i];
        if ps[0].Tok? { TokenChars(ps[0]); }
        assert t == Render(ps);
        OccurrencesAreWhole(ps, value);
      }
    }
  }

  /** Portability: no path of the machine that stored a module is left in its text. */
  lemma NoPathSurvives(code: string, output: Target, targets: seq<Target>, t: Target)
    requires Publishable(code, output, targets) && t in [output] + targets
    ensures !Contains(Store(code, output, targets), t.path) && !Contains(Store(code, output, targets), t.href)
  {
    hide Render, StoreSteps, SwapAll, Nowhere, RunsOn, Spells, ValidName, Inert, NeverMeets, Publishable;
    StoredTokens(code, output, targets);
    StoreIsTokenizable(code, output, targets);
    StoreStepElements(output, targets);
    var ps, steps := StoredPieces(code, output, targets), StoreSteps(output, targets);
    forall step, i | step in UrlAndPath(t) && 0 <= i <= |Render(ps)| ensures !(step.value <= Render(ps)[i..]) {
      assert step in steps;
      SwapsKeepAbsent(Chars(code), steps, step.value);
      SpelledNeverMeets(ps, code, step.value, steps);
      if step.value <= Render(ps)[i..] { RenderedOccurrence(ps, step.value, i); }
    }
    assert UrlAndPath(t)[0] in UrlAndPath(t) && UrlAndPath(t)[1] in UrlAndPath(t);
  }

  /** The token stands where the text around it continues another path. */
  ghost predicate ContextAt(ps: Pieces, u: string, tok: Piece, w: string) {
    && ps != []
    && if u == "" then ps[0] == tok && StartsWith(ps[1..], w)
       else ps[0] == Ch(u[0]) && ContextAt(ps[1..], u[1..], tok, w)
  }

  ghost predicate InContext(ps: Pieces, u: string, tok: Piece, w: string) {
    ps != [] && (ContextAt(ps, u, tok, w) || InContext(ps[1..], u, tok, w))
  }

  lemma {:induction false} StartsWithBoth(ps: Pieces, s: string, t: string)
    requires StartsWith(ps, s) && |s| <= |ps| && StartsWith(ps[|s|..], t)
    ensures StartsWith(ps, s + t)
  {
    if s == "" {
      assert s + t == t && ps[0..] == ps;
    } else {
      assert ps[1..][|s[1..]|..] == ps[|s|..] && (s + t)[1..] == s[1..] + t;
      StartsWithBoth(ps[1..], s[1..], t);
    }
  }

  lemma {:induction false} ContextBack(ps: Pieces, step: Step, u: string, tok: Piece, w: string)
    requires step.value != "" && step.tok.Tok? && tok.Tok?
    requires ContextAt(Swap(ps, step.value, step.tok), u, tok, w)
    ensures ContextAt(ps, u, tok, w) || (step.tok == tok && StartsWith(ps, u + (step.value + w)))
  {
    var value := step.value;
    var qs := Swap(ps, value, step.tok);
    if u == "" {
      ContextBackHere(ps, step, tok, w);
    } else {
      if StartsWith(ps, value) { StartsWithRenders(ps, value); }
      assert qs[1..] == Swap(ps[1..], value, step.tok);
      ContextBack(ps[1..], step, u[1..], tok, w);
      assert (u + (value + w))[1..] == u[1..] + (value + w);
    }
  }

  lemma ContextBackHere(ps: Pieces, step: Step, tok: Piece, w: string)
    requires step.value != "" && step.tok.Tok? && tok.Tok?
    requires ContextAt(Swap(ps, step.value, step.tok), "", tok, w)
    ensures ContextAt(ps, "", tok, w) || (step.tok == tok && StartsWith(ps, "" + (step.value + w)))
  {
    var value := step.value;
    var qs := Swap(ps, value, step.tok);
    if StartsWith(ps, value) {
      StartsWithRenders(ps, value);
      assert qs[1..] == Swap(ps[|value|..], value, step.tok);
      SwapStart(ps[|value|..], value, step.tok, w);
      StartsWithBoth(ps, value, w);
      assert "" + (value + w) == value + w;
    } else {
      assert qs[1..] == Swap(ps[1..], value, step.tok);
      SwapStart(ps[1..], value, step.tok, w);
    }
  }

  lemma {:induction false} SwapMakesNoContext(ps: Pieces, step: Step, u: string, b: Step, w: string)
    requires step.value != "" && step.tok.Tok? && b.tok.Tok? && (step.tok == b.tok ==> step.value == b.value)
    requires Nowhere(ps, u + (b.value + w)) && !InContext(ps, u, b.tok, w)
    ensures !InContext(Swap(ps, step.value, step.tok), u, b.tok, w)
    decreases |ps|
  {
    var qs := Swap(ps, step.value, step.tok);
    if ps != [] {
      var n := if StartsWith(ps, step.value) then |step.value| else 1;
      if StartsWith(ps, step.value) { StartsWithRenders(ps, step.value); }
      assert qs[1..] == Swap(ps[n..], step.value, step.tok);
      NowhereTail(ps, u + (b.value + w), n);
      NoContextTail(ps, u, b.tok, w, n);
      SwapMakesNoContext(ps[n..], step, u, b, w);
      if ContextAt(qs, u, b.tok, w) { ContextBack(ps, step, u, b.tok, w); }
    }
  }

  lemma {:induction false} NoContextTail(ps: Pieces, u: string, tok: Piece, w: string, n: nat)
    requires !InContext(ps, u, tok, w) && n <= |ps|
    ensures !InContext(ps[n..], u, tok, w)
  {
    if n == 0 {
      assert ps[0..] == ps;
    } else {
      NoContextTail(ps[1..], u, tok, w, n - 1);
      assert ps[1..][n - 1..] == ps[n..];
    }
  }

  lemma {:induction false} ContextHoldsToken(ps: Pieces, u: string, tok: Piece, w: string)
    requires ContextAt(ps, u, tok, w)
    ensures tok in ps
  {
    if u != "" { ContextHoldsToken(ps[1..], u[1..], tok, w); }
  }

  lemma {:induction false} AbsentTokenHasNoContext(ps: Pieces, u: string, tok: Piece, w: string)
    requires tok !in ps
    ensures !InContext(ps, u, tok, w)
  {
    if ps != [] {
      AbsentTokenHasNoContext(ps[1..], u, tok, w);
      if ContextAt(ps, u, tok, w) { ContextHoldsToken(ps, u, tok, w); }
    }
  }

  /** A path replaced earlier is never left half-replaced by a token of a path it contains. */
  lemma {:induction false} ContainingPathWins(ps: Pieces, done: seq<Step>, back: seq<Step>, b: Step,
                                              u: string, w: string)
    requires forall step :: step in done + back ==> step.value != "" && step.tok.Tok?
    requires b.tok.Tok? && b.value != "" && exists a :: a in done && a.value == u + (b.value + w)
    requires b.tok !in SwapAll(ps, done)
    requires forall step :: step in back && step.tok == b.tok ==> step.value == b.value
    ensures !InContext(SwapAll(ps, done + back), u, b.tok, w)
  {
    hide Swap, InContext, Nowhere;
    if back == [] {
      assert done + back == done;
      AbsentTokenHasNoContext(SwapAll(ps, done), u, b.tok, w);
    } else {
      var last, rest := back[|back| - 1], back[..|back| - 1];
      var steps := done + rest;
      assert done + back == steps + [last];
      assert (done + back)[..|done + back| - 1] == steps && last in back;
      assert forall step :: step in steps ==> step in done + back;
      ContainingPathWins(ps, done, rest, b, u, w);
      var a :| a in done && a.value == u + (b.value + w);
      assert a in steps;
      SwapsKeepAbsent(ps, steps, a.value);
      SwapMakesNoContext(SwapAll(ps, steps), last, u, b, w);
    }
  }

  ghost predicate Descending(ts: seq<Target>, weight: Target -> nat) {
    forall i, j :: 0 <= i < j < |ts| ==> weight(ts[i]) >= weight(ts[j])
  }

  lemma LongestComeFirst(targets: seq<Target>, weight: Target -> nat)
    ensures Descending(LongestFirst(targets, weight), weight)
  {
    var before, sorted := Longer(weight), LongestFirst(targets, weight);
    SortOrders(targets, before);
    forall i, j | 0 <= i < j < |sorted| ensures weight(sorted[i]) >= weight(sorted[j]) {
      assert !before(sorted[j], sorted[i]);
    }
  }

  lemma {:induction false} TargetStepsAppend(a: seq<Target>, b: seq<Target>, specifier: bool)
    ensures TargetSteps(a + b, specifier) == TargetSteps(a, specifier) + TargetSteps(b, specifier)
  {
    if b == [] {
      assert a + b == a;
    } else {
      var front := b[..|b| - 1];
      assert (a + b)[..|a + b| - 1] == a + front;
      TargetStepsAppend(a, front, specifier);
      Associative(TargetSteps(a, specifier), TargetSteps(front, specifier), StepsFor(b[|b| - 1], specifier));
    }
  }

  /** Every target of that name has that path. */
  ghost predicate OnePath(k: Target, targets: seq<Target>) {
    forall t :: t in targets && t.name == k.name ==> t.path == k.path
  }

  lemma LongestPathWinsAt(code: string, output: Target, first: seq<Target>, later: seq<Target>,
                          m: Target, k: Target, u: string, w: string)
    requires forall step :: step in UrlAndPath(output) + TargetSteps(first + later, true) ==> step.value != "" && step.tok.Tok?
    requires OnePath(k, later) && k.path != "" && k.name != output.name && m.path == u + (k.path + w)
    requires (m == output || m in first) && forall t :: t in first ==> t.name != k.name
    ensures !InContext(SwapAll(Chars(code), UrlAndPath(output) + TargetSteps(first + later, true)),
                       u, Tok(k.name, Plain), w)
  {
    hide SwapAll, InContext, TargetSteps;
    TargetStepsAppend(first, later, true);
    var done, back := UrlAndPath(output) + TargetSteps(first, true), TargetSteps(later, true);
    assert UrlAndPath(output) + TargetSteps(first + later, true) == done + back;
    var b := Step(k.path, Tok(k.name, Plain));
    DoneHoldsPath(output, first, m);
    NotYetIntroduced(code, output, first, b.tok, done);
    TargetStepElements(later, true);
    forall step | step in back && step.tok == b.tok ensures step.value == b.value {
      var t :| t in later && step in UrlAndPath(t);
    }
    ContainingPathWins(Chars(code), done, back, b, u, w);
  }

  // Up to a target with a longer path, the sorted list does not hold the shorter one's name.
  lemma LongerComeWithout(sorted: seq<Target>, n: nat, k: Target)
    requires Descending(sorted, PathLength) && n <= |sorted| && OnePath(k, sorted)
    requires n > 0 ==> |sorted[n - 1].path| > |k.path|
    ensures forall t :: t in sorted[..n] ==> t.name != k.name
  {
    forall i | 0 <= i < n ensures sorted[i].name != k.name {
      assert sorted[i] in sorted;
      if i < n - 1 { assert PathLength(sorted[i]) >= PathLength(sorted[n - 1]); }
    }
  }

  lemma FindLonger(output: Target, sorted: seq<Target>, m: Target, k: Target) returns (n: nat)
    requires Descending(sorted, PathLength) && m in [output] + sorted && |m.path| > |k.path| && OnePath(k, sorted)
    ensures n <= |sorted| && (m == output || m in sorted[..n]) && OnePath(k, sorted[n..])
    ensures forall t :: t in sorted[..n] ==> t.name != k.name
  {
    n := 0;
    if m != output {
      var i :| 0 <= i < |sorted| && sorted[i] == m;
      n := i + 1;
      assert sorted[..n][i] == m;
    }
    LongerComeWithout(sorted, n, k);
  }

  lemma StoreStepsAreTokens(output: Target, targets: seq<Target>)
    ensures forall step :: step in StoreSteps(output, targets) ==> step.tok.Tok?
  {
    StoreStepElements(output, targets);
  }

  /** Nested paths: a path's token never stands inside an occurrence of a longer path around it. */
  lemma LongestPathWins(code: string, output: Target, targets: seq<Target>, m: Target, k: Target, u: string, w: string)
    requires Spelled(output, targets) && m in [output] + targets && k in targets
    requires k.name != output.name && OnePath(k, targets)
    requires m.path == u + (k.path + w) && m.path != k.path
    ensures !InContext(StoredPieces(code, output, targets), u, Tok(k.name, Plain), w)
  {
    hide SwapAll, InContext, LongestFirst, TargetSteps, UrlAndPath, Descending, OnePath;
    var sorted := LongestFirst(targets, PathLength);
    LongestComeFirst(targets, PathLength);
    SortIsPermutation(targets);
    StoreStepsSpelled(output, targets);
    StoreStepsAreTokens(output, targets);
    assert k in [output] + targets && k.path != "";
    OnePathSorted(k, targets);
    var n := FindLonger(output, sorted, m, k);
    assert sorted == sorted[..n] + sorted[n..];
    LongestPathWinsAt(code, output, sorted[..n], sorted[n..], m, k, u, w);
  }

  lemma OnePathSorted(k: Target, targets: seq<Target>)
    requires OnePath(k, targets)
    ensures OnePath(k, LongestFirst(targets, PathLength))
  {
    SortIsPermutation(targets);
  }

  lemma SortIsPermutation(targets: seq<Target>)
    ensures forall t :: t in LongestFirst(targets, PathLength) <==> t in targets
  {
    SortElements(targets, Longer(PathLength));
  }

  lemma DoneHoldsPath(output: Target, first: seq<Target>, m: Target)
    requires m == output || m in first
    ensures exists a :: a in UrlAndPath(output) + TargetSteps(first, true) && a.value == m.path
  {
    TargetStepElements(first, true);
    var a := UrlAndPath(m)[1];
    assert a in UrlAndPath(m);
    assert a in UrlAndPath(output) + TargetSteps(first, true);
  }

  lemma NotYetIntroduced(code: string, output: Target, first: seq<Target>, tok: Piece, done: seq<Step>)
    requires done == UrlAndPath(output) + TargetSteps(first, true)
    requires forall step :: step in done ==> step.value != "" && step.tok.Tok?
    requires tok.Tok? && tok.name != output.name && forall t :: t in first ==> t.name != tok.name
    ensures tok !in SwapAll(Chars(code), done)
  {
    hide SwapAll, TargetSteps, Spells;
    SwapsSpell(code, done);
    SpelledTokens(SwapAll(Chars(code), done), code, done);
    TargetStepElements(first, true);
  }

  // -------------------------------------------------------------------------
  // The two loops
  // -------------------------------------------------------------------------

  /** The three replacements the loop body makes for one target. */
  function TokenizeTarget(s: string, t: Target): string
    requires t.href != "" && t.path != ""
  {
    var s1 := ReplaceAll(s, t.href, Token(t.name) + URL);
    var s2 := ReplaceAll(s1, t.path, Token(t.name));
    ReplaceAll(s2, t.path, Token(t.name))
  }

  lemma TokenizeAppend(s: string, steps: seq<Step>, step: Step)
    requires (forall other :: other in steps ==> other.value != "") && step.value != ""
    ensures forall other :: other in steps + [step] ==> other.value != ""
    ensures Tokenize(s, steps + [step]) == ReplaceAll(Tokenize(s, steps), step.value, Text(step.tok))
  {
    hide ReplaceAll, Text;
    assert (steps + [step])[..|steps + [step]| - 1] == steps;
  }

  lemma TokenizePair(s: string, steps: seq<Step>, t: Target)
    requires (forall step :: step in steps ==> step.value != "") && t.href != "" && t.path != ""
    ensures forall step :: step in steps + UrlAndPath(t) ==> step.value != ""
    ensures Tokenize(s, steps + UrlAndPath(t))
         == ReplaceAll(ReplaceAll(Tokenize(s, steps), t.href, Token(t.name) + URL), t.path, Token(t.name))
  {
    hide ReplaceAll, Tokenize;
    var url, path := UrlAndPath(t)[0], UrlAndPath(t)[1];
    TokenizeAppend(s, steps, url);
    TokenizeAppend(s, steps + [url], path);
    assert steps + [url] + [path] == steps + UrlAndPath(t);
  }

  lemma TokenizeTriple(s: string, steps: seq<Step>, t: Target)
    requires (forall step :: step in steps ==> step.value != "") && t.href != "" && t.path != ""
    ensures forall step :: step in steps + StepsFor(t, true) ==> step.value != ""
    ensures Tokenize(s, steps + StepsFor(t, true)) == TokenizeTarget(Tokenize(s, steps), t)
  {
    hide ReplaceAll, Tokenize, UrlAndPath;
    TokenizePair(s, steps, t);
    var specifier := Step(t.path, Tok(t.name, Plain));
    TokenizeAppend(s, steps + UrlAndPath(t), specifier);
    assert steps + UrlAndPath(t) + [specifier] == steps + StepsFor(t, true);
  }

  lemma StepsUpTo(output: Target, replacements: seq<Target>, n: nat, specifier: bool)
    requires n < |replacements|
    ensures UrlAndPath(output) + TargetSteps(replacements[..n + 1], specifier)
         == UrlAndPath(output) + TargetSteps(replacements[..n], specifier) + StepsFor(replacements[n], specifier)
  {
    assert replacements[..n + 1][..n] == replacements[..n];
  }

  /** The chain of replacements `tokenizedArtifactContents` runs over one module. */
  method TokenizeArtifact(code: string, output: Target, targets: seq<Target>) returns (source: string)
    requires Spelled(output, targets)
    ensures source == Store(code, output, targets)
  {
    hide ReplaceAll, TokenizeTarget, UrlAndPath;
    var replacements := LongestFirst(targets, PathLength);
    SortElements(targets, Longer(PathLength));
    assert output in [output] + targets;
    source := ReplaceAll(code, output.href, Token(output.name) + URL);
    source := ReplaceAll(source, output.path, Token(output.name));
    ghost var steps := [] + UrlAndPath(output);
    TokenizePair(code, [], output);
    assert steps == UrlAndPath(output) + TargetSteps(replacements[..0], true);
    for n := 0 to |replacements|
      invariant steps == UrlAndPath(output) + TargetSteps(replacements[..n], true)
      invariant forall step :: step in steps ==> step.value != ""
      invariant source == Tokenize(code, steps)
    {
      var t := replacements[n];
      assert t in targets && t in [output] + targets;
      source := TokenizeTarget(source, t);
      TokenizeTriple(code, steps, t);
      StepsUpTo(output, replacements, n, true);
      steps := steps + StepsFor(t, true);
    }
    assert replacements[..|replacements|] == replacements;
  }

  lemma MaterializePair(s: string, steps: seq<Step>, t: Target)
    requires forall step :: step in steps ==> step.tok.Tok?
    ensures forall step :: step in steps + UrlAndPath(t) ==> step.tok.Tok?
    ensures Materialize(s, steps + UrlAndPath(t))
         == ReplaceAll(ReplaceAll(Materialize(s, steps), Token(t.name) + URL, t.href), Token(t.name), t.path)
  {
    hide ReplaceAll;
    var url, path := UrlAndPath(t)[0], UrlAndPath(t)[1];
    MaterializeAppend(s, steps, url);
    MaterializeAppend(s, steps + [url], path);
    assert steps + [url] + [path] == steps + UrlAndPath(t);
  }

  lemma MaterializeAppend(s: string, steps: seq<Step>, step: Step)
    requires (forall other :: other in steps ==> other.tok.Tok?) && step.tok.Tok?
    ensures forall other :: other in steps + [step] ==> other.tok.Tok?
    ensures Materialize(s, steps + [step]) == ReplaceAll(Materialize(s, steps), Text(step.tok), step.value)
  {
    hide ReplaceAll;
    assert (steps + [step])[..|steps + [step]| - 1] == steps;
  }

  /** The chain of replacements `materializeSharedBuild` runs over one module, and its check. */
  method MaterializeArtifact(text: string, output: Target, targets: seq<Target>) returns (r: Option<string>)
    ensures r == Read(text, output, targets)
  {
    hide ReplaceAll, UrlAndPath, Contains, Checked;
    var replacements := LongestFirst(targets, TokenLength);
    var source := ReplaceAll(text, Token(output.name) + URL, output.href);
    source := ReplaceAll(source, Token(output.name), output.path);
    ghost var steps := [] + UrlAndPath(output);
    MaterializePair(text, [], output);
    assert steps == UrlAndPath(output) + TargetSteps(replacements[..0], false);
    for n := 0 to |replacements|
      invariant steps == UrlAndPath(output) + TargetSteps(replacements[..n], false)
      invariant forall step :: step in steps ==> step.tok.Tok?
      invariant source == Materialize(text, steps)
    {
      var t := replacements[n];
      source := ReplaceAll(source, Token(t.name) + URL, t.href);
      source := ReplaceAll(source, Token(t.name), t.path);
      MaterializePair(text, steps, t);
      StepsUpTo(output, replacements, n, false);
      steps := steps + UrlAndPath(t);
    }
    assert replacements[..|replacements|] == replacements;
    r := Checked(source);
  }
}
