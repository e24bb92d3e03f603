// Tokens that share underscores in storage. A plain token's last two underscores
// may begin another one; where the reader replaces that one first, the plain token
// is cut short, its marker stays, and the module is refused. With this the reading
// of a module of any build is known exactly.
module PathMixtures {
  import opened Common
  import opened PathPieces
  import opened PathTokens
  import opened PathReadings
  import opened PathRoundTrips

  // -------------------------------------------------------------------------
  // One replacement beside tokens that are cut short
  // -------------------------------------------------------------------------

  /** The text goes on as the rest of the token, after one or both of its first underscores. */
  predicate GoesOn(text: string, tok: Piece)
    requires tok.Tok?
  {
    CORE + Ending(tok) <= text || HALF + Ending(tok) <= text
  }

  /** A plain token here runs into the given one, whose text is found in it and what follows. */
  predicate Mixes(ps: Pieces, tail: string, tok: Piece)
    requires tok.Tok? && ps != []
  {
    ps[0].Tok? && ps[0].form == Plain && ps[0] != tok && GoesOn(Render(ps[1..]) + tail, tok)
  }

  predicate Mixed(ps: Pieces, tail: string, tok: Piece)
    requires tok.Tok?
  {
    ps != [] && (Mixes(ps, tail, tok) || Mixed(ps[1..], tail, tok))
  }

  /** A token cut short, with a path after it. */
  ghost predicate Cut(tail: string) {
    exists name, u: nat, after :: CutAs(tail, name, u, after)
  }

  ghost predicate CutAs(tail: string, name: string, u: nat, after: string) {
    u <= 1 && ValidName(name) && after != "" && !TokenChar(after[0]) && tail == Short(name, u) + after
  }

  lemma CutIsWall(tail: string)
    requires Cut(tail)
    ensures Wall(tail) && tail[0] == '_' && Contains(tail, MARKER)
  {
    var name, u: nat, after :| CutAs(tail, name, u, after);
    ShortBegins(name, u, after);
  }

  lemma ShortBegins(name: string, u: nat, after: string)
    requires u <= 1
    ensures var tail := Short(name, u) + after; Wall(tail) && tail[0] == '_' && Contains(tail, MARKER)
  {
    hide Contains;
    var tail := Short(name, u) + after;
    assert MARKER <= Short(name, u) <= tail;
    assert tail[0] == MARKER[0] && tail[1] == MARKER[1] && tail[2] == MARKER[2];
    ContainsHere(tail, MARKER);
  }

  lemma CutStays(tail: string, tok: Piece, value: string)
    requires Cut(tail) && tok.Tok? && ValidName(tok.name) && DollarPlain(value)
    ensures Cut(Replace(tail, Text(tok), value))
  {
    hide ValidName, TokenChar, DollarPlain;
    var name, u: nat, after :| CutAs(tail, name, u, after);
    var more := ShortStays(name, u, after, tok, value);
    ReplaceAllIsReplace(tail, Text(tok), value);
    assert CutAs(Replace(tail, Text(tok), value), name, u, more);
  }

  /** Nothing, or a token cut short. */
  ghost predicate Tail(tail: string) {
    tail == "" || Cut(tail)
  }

  lemma RunBeforeTail(q: Pieces, tail: string, name: string)
    requires q != [] && ValidName(name) && Tail(tail) && StartsWith(q + Chars(tail), MARKER + name)
    ensures StartsWith(q, MARKER + name)
  {
    hide ValidName, StartsWith, Cut;
    if tail == "" {
      assert q + Chars(tail) == q;
    } else {
      CutIsWall(tail);
      MarkerStopsAtWall(q, tail, name);
    }
  }

  lemma UrlBeforeTail(q: Pieces, tail: string)
    requires Tail(tail) && StartsWith(q + Chars(tail), URL)
    ensures StartsWith(q, URL)
  {
    hide StartsWith, Cut;
    if tail == "" {
      assert q + Chars(tail) == q;
    } else if !StartsWith(q, URL) {
      CutIsWall(tail);
      StartsAcross(q, Chars(tail), URL);
      CharsStart(tail, URL[|q|..]);
    }
  }

  lemma RenderBeforeTail(q: Pieces, tail: string)
    ensures Render(q + Chars(tail)) == Render(q) + tail
  {
    RenderAppend(q, Chars(tail));
    RenderChars(tail);
  }

  lemma UnmixedIsFree(ps: Pieces, tail: string, tok: Piece)
    requires ps != [] && ps[0].Tok? && tok.Tok? && ps[0] != tok && !Mixes(ps, tail, tok)
    ensures Free(ps + Chars(tail), tok)
  {
    hide Render, Ending, Chars;
    DropFromFirst(ps, Chars(tail), 1);
    RenderBeforeTail(ps[1..], tail);
  }

  // What a reader may replace now.
  ghost predicate Ready(ps: Pieces, tok: Piece) {
    && tok.Tok? && ValidName(tok.name) && NamesValid(ps) && Unambiguous(ps) && Nowhere(ps, MARKER + tok.name)
    && (tok.form == Plain ==> Tok(tok.name, Href) !in ps)
  }

  lemma ReadyTail(ps: Pieces, tok: Piece)
    requires ps != [] && Ready(ps, tok)
    ensures Ready(ps[1..], tok)
  {
    hide StartsWith, ValidName;
  }

  lemma HeadUnhit(ps: Pieces, tail: string, tok: Piece)
    requires ps != [] && Ready(ps, tok) && Tail(tail) && ps[0] != tok && !Mixes(ps, tail, tok)
    ensures Unhit(ps + Chars(tail), tok)
  {
    hide Unhit, Mixes, StartsWith, Cut, Free, ValidName;
    var all := ps + Chars(tail);
    assert ps[0] in ps && all[0] == ps[0];
    if ps[0].Ch? {
      if StartsWith(all, MARKER + tok.name) { RunBeforeTail(ps, tail, tok.name); }
      CharUnhit(all, tok);
    } else {
      UnmixedIsFree(ps, tail, tok);
      DropFromFirst(ps, Chars(tail), 1);
      if Follows(all, URL) { UrlBeforeTail(ps[1..], tail); }
      TokenUnhit(all, tok);
    }
  }

  /** Without mixtures a replacement acts on whole tokens. */
  lemma {:induction false} WholeHits(ps: Pieces, tail: string, tok: Piece)
    requires Ready(ps, tok) && Tail(tail) && !Mixed(ps, tail, tok)
    ensures NoHits(ps, Chars(tail), tok)
  {
    hide Unhit, Ready, Tail, Mixes;
    if ps != [] {
      ReadyTail(ps, tok);
      WholeHits(ps[1..], tail, tok);
      if ps[0] != tok { HeadUnhit(ps, tail, tok); }
    }
  }

  lemma WholeStep(ps: Pieces, tail: string, tok: Piece, value: string)
    requires Ready(ps, tok) && Tail(tail) && !Mixed(ps, tail, tok)
    ensures Replace(Render(ps) + tail, Text(tok), value) == Render(Fill(ps, tok, value)) + Replace(tail, Text(tok), value)
  {
    hide Ready, Tail, Mixed, NoHits, Replace, Fill, Render, Text;
    assert tok.Tok? by { TokenIsReady(ps, tok); }
    WholeHits(ps, tail, tok);
    FillBefore(ps, Chars(tail), tok, value);
    RenderBeforeTail(ps, tail);
    RenderChars(tail);
  }

  lemma TokenIsReady(ps: Pieces, tok: Piece)
    requires Ready(ps, tok)
    ensures tok.Tok?
  {}

  /** The first mixture, and what stands before it. */
  lemma {:induction false} FirstMixture(ps: Pieces, tail: string, tok: Piece) returns (a: Pieces, b: Pieces)
    requires Ready(ps, tok) && Tail(tail) && Mixed(ps, tail, tok)
    ensures ps == a + b && b != [] && Mixes(b, tail, tok) && NoHits(a, b + Chars(tail), tok)
  {
    assert tok.Tok? by { TokenIsReady(ps, tok); }
    hide Ready, Tail, Mixes, NoHits, Chars;
    if Mixes(ps, tail, tok) {
      a, b := [], ps;
      NothingHit(b + Chars(tail), tok);
    } else {
      ReadyTail(ps, tok);
      a, b := FirstMixture(ps[1..], tail, tok);
      MixtureFurther(ps, tail, tok, a, b);
      a := [ps[0]] + a;
    }
  }

  lemma NothingHit(c: Pieces, tok: Piece)
    requires tok.Tok?
    ensures NoHits([], c, tok)
  {}

  lemma MixtureFurther(ps: Pieces, tail: string, tok: Piece, a: Pieces, b: Pieces)
    requires Ready(ps, tok) && Tail(tail) && ps != [] && tok.Tok? && !Mixes(ps, tail, tok)
    requires ps[1..] == a + b && NoHits(a, b + Chars(tail), tok)
    ensures ps == [ps[0]] + a + b && NoHits([ps[0]] + a, b + Chars(tail), tok)
  {
    hide Ready, Tail, Mixes, NoHits, Chars, Unhit;
    assert ps == [ps[0]] + ps[1..];
    Associative([ps[0]], a, b);
    Associative(a, b, Chars(tail));
    Associative([ps[0]], a + b, Chars(tail));
    OneMoreUnhit(ps[0], a, b + Chars(tail), tok);
    if ps[0] != tok { HeadUnhit(ps, tail, tok); }
  }

  lemma OneMoreUnhit(p: Piece, a: Pieces, c: Pieces, tok: Piece)
    requires tok.Tok? && NoHits(a, c, tok)
    ensures p == tok || Unhit([p] + (a + c), tok) ==> NoHits([p] + a, c, tok)
  {
    hide Unhit;
    assert ([p] + a)[1..] == a && ([p] + a)[0] == p;
    Associative([p], a, c);
  }

  lemma MixtureIsMerged(b: Pieces, tail: string, tok: Piece) returns (u: nat, rest: string)
    requires tok.Tok? && b != [] && Mixes(b, tail, tok)
    ensures u <= 1 && Render(b) + tail == Merged(b[0].name, u, tok, rest)
  {
    hide Ending;
    MarkerTails();
    var text := Render(b[1..]) + tail;
    u := if CORE + Ending(tok) <= text then 0 else 1;
    var t := MARKER[2 - u..] + Ending(tok);
    assert t <= text;
    rest := text[|t|..];
    assert text == t + rest;
    Associative(Token(b[0].name), Render(b[1..]), tail);
  }

  /** At a mixture the token before is cut short. */
  lemma MixedStep(ps: Pieces, tail: string, tok: Piece, value: string) returns (a: Pieces, b: Pieces, left: string)
    requires Ready(ps, tok) && Tail(tail) && Mixed(ps, tail, tok) && Inert(value)
    ensures ps == a + b && Cut(left)
    ensures Replace(Render(ps) + tail, Text(tok), value) == Render(Fill(a, tok, value)) + left
  {
    hide Ready, Tail, Mixed, NoHits, Replace, Fill, Render, Text, Mixes, Merged, ValidName, TokenChar;
    assert tok.Tok? by { TokenIsReady(ps, tok); }
    a, b := FirstMixture(ps, tail, tok);
    FillBefore(a, b + Chars(tail), tok, value);
    Associative(a, b, Chars(tail));
    RenderBeforeTail(ps, tail);
    RenderBeforeTail(b, tail);
    var u, rest := MixtureIsMerged(b, tail, tok);
    MixtureNames(ps, tail, a, b, tok);
    MergedReplaced(b[0].name, u, tok, rest, value);
    var after := value + Replace(rest, Text(tok), value);
    left := Short(b[0].name, u) + after;
    assert CutAs(left, b[0].name, u, after);
  }

  lemma MixtureNames(ps: Pieces, tail: string, a: Pieces, b: Pieces, tok: Piece)
    requires Ready(ps, tok) && ps == a + b && b != [] && Mixes(b, tail, tok)
    ensures tok.Tok? && b[0].Tok? && ValidName(b[0].name) && ValidName(tok.name) && (b[0].name == tok.name ==> tok.form == Href)
  {
    hide ValidName, GoesOn;
    assert b[0] in ps;
  }

  // -------------------------------------------------------------------------
  // A chain of replacements
  // -------------------------------------------------------------------------

  /** Pieces between two replacements: no token of the reader begins in them, and those done are gone. */
  ghost predicate Standing(ps: Pieces, done: seq<Step>, all: seq<Step>, book: Book) {
    && NamesValid(ps) && Unambiguous(ps)
    && (forall step :: step in all ==> step.tok.Tok? && !Contains(Expand(ps, book), MARKER + step.tok.name))
    && (forall p :: p in ps && p.Tok? ==> !Covers(done, p))
  }

  lemma ReadyHere(ps: Pieces, done: seq<Step>, step: Step, all: seq<Step>, book: Book)
    requires Standing(ps, done, all, book) && step in all && Describes(step, book) && UrlsFirst(done + [step])
    ensures Ready(ps, step.tok)
  {
    hide Covers, Contains, ValidName, Unambiguous;
    var run := MARKER + step.tok.name;
    if !Nowhere(ps, run) { RunExpands(ps, run, book); }
    var more := done + [step];
    assert more[..|more| - 1] == done;
    if step.tok.form == Plain { UrlGoesFirst(more); }
  }

  lemma StandingFill(ps: Pieces, done: seq<Step>, step: Step, all: seq<Step>, book: Book)
    requires Standing(ps, done, all, book) && Describes(step, book) && Inert(step.value)
    ensures Standing(Fill(ps, step.tok, step.value), done + [step], all, book)
  {
    hide Covers, Contains, ValidName, Expand, Fill, Inert, TokenChar, Never, Value;
    var qs := Fill(ps, step.tok, step.value);
    UrlIsTokenChars();
    FillPreservesExpansion(ps, step.tok, book);
    FillNever(ps, step.tok, step.value, URL);
    FillTokens(ps, step.tok, step.value);
    forall p | p in qs && p.Tok? ensures !Covers(done + [step], p) {
      CoversLast(done + [step], p);
      assert (done + [step])[..|done|] == done;
    }
  }

  lemma {:induction false} NeverPrefix(a: Pieces, b: Pieces, t: string)
    requires Never(a + b, t)
    ensures Never(a, t)
  {
    if a != [] {
      DropFromFirst(a, b, 1);
      NeverPrefix(a[1..], b, t);
      if StartsWith(a[1..], t) { StartsBefore(a[1..], b, t); }
    }
  }

  lemma {:induction false} StartsBefore(a: Pieces, b: Pieces, t: string)
    requires StartsWith(a, t)
    ensures StartsWith(a + b, t)
  {
    if t != "" {
      DropFromFirst(a, b, 1);
      StartsBefore(a[1..], b, t[1..]);
    }
  }

  lemma StandingPrefix(a: Pieces, b: Pieces, done: seq<Step>, all: seq<Step>, book: Book)
    requires Standing(a + b, done, all, book)
    ensures Standing(a, done, all, book)
  {
    hide Covers, Contains, ValidName, Expand, Never;
    NeverPrefix(a, b, URL);
    ExpandAppend(a, b, book);
    var e, s := Expand(a, book), Expand(a + b, book);
    assert s[..|e|] == e;
    forall step | step in all ensures step.tok.Tok? && !Contains(e, MARKER + step.tok.name) {
      if Contains(e, MARKER + step.tok.name) { ContainsFront(s, |e|, MARKER + step.tok.name); }
    }
  }

  /** Some token was cut short. */
  ghost predicate Broken(text: string, done: seq<Step>, all: seq<Step>, book: Book) {
    exists ps, tail :: BrokenAs(text, ps, tail, done, all, book)
  }

  ghost predicate BrokenAs(text: string, ps: Pieces, tail: string, done: seq<Step>, all: seq<Step>, book: Book) {
    Cut(tail) && Standing(ps, done, all, book) && text == Render(ps) + tail
  }

  // One more replacement, of pieces with nothing or a token cut short after them.
  lemma NextBreaks(ps: Pieces, tail: string, done: seq<Step>, step: Step, all: seq<Step>, book: Book)
    requires Standing(ps, done, all, book) && Tail(tail) && step in all && UrlsFirst(done + [step])
    requires Describes(step, book) && Inert(step.value) && DollarPlain(step.value)
    requires Cut(tail) || Mixed(ps, tail, step.tok)
    ensures Broken(Replace(Render(ps) + tail, Text(step.tok), step.value), done + [step], all, book)
  {
    hide Standing, Cut, Replace, Render, Text, Fill, Inert, DollarPlain, Ready, UrlsFirst, Mixed;
    ReadyHere(ps, done, step, all, book);
    if Mixed(ps, tail, step.tok) {
      var a, b, left := MixedStep(ps, tail, step.tok, step.value);
      StandingPrefix(a, b, done, all, book);
      StandingFill(a, done, step, all, book);
      assert BrokenAs(Render(Fill(a, step.tok, step.value)) + left, Fill(a, step.tok, step.value), left, done + [step], all, book);
    } else {
      WholeStep(ps, tail, step.tok, step.value);
      CutStays(tail, step.tok, step.value);
      StandingFill(ps, done, step, all, book);
      var rest := Replace(tail, Text(step.tok), step.value);
      assert BrokenAs(Render(Fill(ps, step.tok, step.value)) + rest, Fill(ps, step.tok, step.value), rest, done + [step], all, book);
    }
  }

  /** At some replacement, a plain token that is not yet replaced runs into the token that is. */
  ghost predicate MixedOver(ps: Pieces, steps: seq<Step>)
    requires forall step :: step in steps ==> step.tok.Tok?
  {
    steps != [] &&
    (var front, last := steps[..|steps| - 1], steps[|steps| - 1];
     MixedOver(ps, front) || Mixed(FillAll(ps, front), "", last.tok))
  }

  lemma MaterializeLast(s: string, steps: seq<Step>)
    requires steps != [] && forall step :: step in steps ==> step.tok.Tok? && DollarPlain(step.value)
    ensures var last := steps[|steps| - 1];
            Materialize(s, steps) == Replace(Materialize(s, steps[..|steps| - 1]), Text(last.tok), last.value)
  {
    hide Replace, DollarPlain;
    var last := steps[|steps| - 1];
    ReplaceAllIsReplace(Materialize(s, steps[..|steps| - 1]), Text(last.tok), last.value);
  }

  lemma WholeNext(ps: Pieces, done: seq<Step>, step: Step, all: seq<Step>, book: Book)
    requires Standing(ps, done, all, book) && step in all && UrlsFirst(done + [step])
    requires Describes(step, book) && Inert(step.value) && !Mixed(ps, "", step.tok)
    ensures Replace(Render(ps), Text(step.tok), step.value) == Render(Fill(ps, step.tok, step.value))
    ensures Standing(Fill(ps, step.tok, step.value), done + [step], all, book)
  {
    hide Standing, Replace, Render, Fill, Inert, Ready, UrlsFirst, Mixed;
    ReadyHere(ps, done, step, all, book);
    WholeStep(ps, "", step.tok, step.value);
    ShortIsUnchanged("", Text(step.tok), step.value);
    StandingFill(ps, done, step, all, book);
    assert Render(ps) + "" == Render(ps) && Render(Fill(ps, step.tok, step.value)) + "" == Render(Fill(ps, step.tok, step.value));
  }

  /** The chain acts on whole tokens, or cuts one short. */
  lemma {:induction false} ChainBreaksOrFills(ps: Pieces, steps: seq<Step>, all: seq<Step>, book: Book)
    requires Insertable(all, book) && UrlsFirst(steps) && forall step :: step in steps ==> step in all
    requires Standing(ps, [], all, book)
    ensures forall step :: step in steps ==> step.tok.Tok?
    ensures if MixedOver(ps, steps) then Broken(Materialize(Render(ps), steps), steps, all, book)
            else Materialize(Render(ps), steps) == Render(FillAll(ps, steps)) && Standing(FillAll(ps, steps), steps, all, book)
  {
    hide Standing, Broken, Replace, Render, Text, Fill, Inert, DollarPlain, Mixed, Materialize, ValidName, Value;
    if steps == [] {
      NothingMaterialized(Render(ps));
    } else {
      var front, last := steps[..|steps| - 1], steps[|steps| - 1];
      assert steps == front + [last] && last in steps;
      ChainBreaksOrFills(ps, front, all, book);
      MaterializeLast(Render(ps), steps);
      NextOfChain(ps, Materialize(Render(ps), front), front, last, all, book);
    }
  }

  lemma NothingMaterialized(s: string)
    ensures Materialize(s, []) == s
  {}

  lemma NextOfChain(ps: Pieces, text: string, front: seq<Step>, last: Step, all: seq<Step>, book: Book)
    requires (forall step :: step in front + [last] ==> step.tok.Tok?) && UrlsFirst(front + [last]) && last in all
    requires Describes(last, book) && Inert(last.value) && DollarPlain(last.value)
    requires if MixedOver(ps, front) then Broken(text, front, all, book)
             else text == Render(FillAll(ps, front)) && Standing(FillAll(ps, front), front, all, book)
    ensures var text' := Replace(text, Text(last.tok), last.value);
            if MixedOver(ps, front + [last]) then Broken(text', front + [last], all, book)
            else text' == Render(FillAll(ps, front + [last])) && Standing(FillAll(ps, front + [last]), front + [last], all, book)
  {
    hide Standing, Replace, Render, Text, Fill, Inert, DollarPlain, Mixed, UrlsFirst, ValidName, Value, Cut;
    var steps := front + [last];
    assert steps[..|steps| - 1] == front;
    if MixedOver(ps, front) {
      var qs, tail :| BrokenAs(text, qs, tail, front, all, book);
      NextBreaks(qs, tail, front, last, all, book);
    } else if Mixed(FillAll(ps, front), "", last.tok) {
      assert text == text + "";
      NextBreaks(FillAll(ps, front), "", front, last, all, book);
    } else {
      WholeNext(FillAll(ps, front), front, last, all, book);
    }
  }

  lemma BrokenHoldsMarker(text: string, done: seq<Step>, all: seq<Step>, book: Book)
    requires Broken(text, done, all, book)
    ensures Contains(text, MARKER)
  {
    hide Standing, Contains;
    var ps, tail :| BrokenAs(text, ps, tail, done, all, book);
    CutIsWall(tail);
    ContainsAfter(Render(ps), tail, MARKER);
  }

  lemma StandsAtFirst(ps: Pieces, output: Target, targets: seq<Target>, book: Book)
    requires NamesValid(ps) && Unambiguous(ps) && TokenFree(Expand(ps, book), output, targets)
    ensures Standing(ps, [], ReadSteps(output, targets), book)
  {
    hide Unambiguous, Contains, Expand, ReadSteps, UrlAndPath;
    ReadStepElements(output, targets);
    var s := Expand(ps, book);
    forall step | step in ReadSteps(output, targets) ensures step.tok.Tok? && !Contains(s, MARKER + step.tok.name) {
      var t :| t in [output] + targets && step in UrlAndPath(t);
      StepName(step, t);
    }
  }

  /** What a reader makes of any pieces: nothing where tokens mix, their expansion otherwise. */
  lemma ReadsExactly(ps: Pieces, output: Target, targets: seq<Target>, book: Book)
    requires WritableBuild(output, targets, book)
    requires NamesValid(ps) && Unambiguous(ps) && TokenFree(Expand(ps, book), output, targets) && Names(ps, output, targets)
    ensures forall step :: step in ReadSteps(output, targets) ==> step.tok.Tok?
    ensures Read(Render(ps), output, targets)
         == if MixedOver(ps, ReadSteps(output, targets)) then None else Checked(Expand(ps, book))
  {
    var steps := ReadSteps(output, targets);
    ReadStepsAreTokens(output, targets);
    hide Unambiguous, TokenFree, Contains, Render, WritableBuild, TargetSteps, Covers, Standing, Broken, MixedOver, Mixed,
         ReadSteps, Materialize, FillAll;
    StandsAtFirst(ps, output, targets, book);
    ReadIsInsertable(output, targets, book);
    ReadStepsUrlsFirst(output, targets);
    ChainBreaksOrFills(ps, steps, steps, book);
    if MixedOver(ps, steps) {
      BrokenHoldsMarker(Materialize(Render(ps), steps), steps, steps, book);
    } else {
      FilledIsExpanded(ps, output, targets, book);
    }
  }

  lemma ReadStepsUrlsFirst(output: Target, targets: seq<Target>)
    ensures UrlsFirst(ReadSteps(output, targets))
  {
    ReadsUrlsFirst(output, LongestFirst(targets, TokenLength));
  }

  lemma {:induction false} FillAllExpands(ps: Pieces, steps: seq<Step>, book: Book)
    requires forall step :: step in steps ==> Describes(step, book)
    ensures Expand(FillAll(ps, steps), book) == Expand(ps, book)
    ensures forall p: Piece :: p in FillAll(ps, steps) && p.Tok? ==> p in ps
  {
    hide Fill, Expand, Value, ValidName;
    if steps != [] {
      var front, last := steps[..|steps| - 1], steps[|steps| - 1];
      assert last in steps;
      FillAllExpands(ps, front, book);
      FillPreservesExpansion(FillAll(ps, front), last.tok, book);
      FillTokens(FillAll(ps, front), last.tok, last.value);
    }
  }

  // Once all of the reader's tokens are replaced, what is left is the expansion.
  lemma FilledIsExpanded(ps: Pieces, output: Target, targets: seq<Target>, book: Book)
    requires WritableBuild(output, targets, book) && Names(ps, output, targets)
    requires Standing(FillAll(ps, ReadSteps(output, targets)), ReadSteps(output, targets), ReadSteps(output, targets), book)
    ensures Render(FillAll(ps, ReadSteps(output, targets))) == Expand(ps, book)
  {
    hide Contains, Expand, Render, TargetSteps, Covers, Inert, DollarPlain, ReadSteps, ValidName, WritableBuild;
    var steps := ReadSteps(output, targets);
    var rest := FillAll(ps, steps);
    ReadIsInsertable(output, targets, book);
    FillAllExpands(ps, steps, book);
    forall p | p in rest ensures p.Ch? {
      if p.Tok? {
        var t :| t in [output] + targets && t.name == p.name;
        ReaderCovers(output, targets, t, p.form);
      }
    }
    TokenFreeRenders(rest, book);
  }

  // -------------------------------------------------------------------------
  // Mixtures before anything is replaced
  // -------------------------------------------------------------------------

  /** After the text comes a token that is not replaced yet; `next` is what comes after the pieces. */
  ghost predicate ThenToken(c: Pieces, t: string, next: Option<Piece>, done: seq<Step>) {
    && StartsWith(c, t) && |t| <= |c|
    && if |t| < |c| then c[|t|].Tok? && !Covers(done, c[|t|]) else next.Some? && !Covers(done, next.value)
  }

  /** What is left of a token, after `x`: in full, or up to underscores that another token begins with. */
  ghost predicate RestWith(c: Pieces, x: string, next: Option<Piece>, done: seq<Step>, tok: Piece)
    requires tok.Tok?
  {
    || StartsWith(c, x + Ending(tok))
    || (tok.form == Plain && (ThenToken(c, x + tok.name, next, done) || ThenToken(c, x + tok.name + "_", next, done)))
  }

  ghost predicate RestAfter(c: Pieces, next: Option<Piece>, done: seq<Step>, tok: Piece)
    requires tok.Tok?
  {
    RestWith(c, CORE, next, done, tok) || RestWith(c, HALF, next, done, tok)
  }

  ghost predicate MixesAs(ps: Pieces, next: Option<Piece>, done: seq<Step>, tok: Piece)
    requires tok.Tok? && ps != []
  {
    ps[0].Tok? && ps[0].form == Plain && ps[0] != tok && !Covers(done, ps[0]) && RestAfter(ps[1..], next, done, tok)
  }

  ghost predicate MixedAs(ps: Pieces, next: Option<Piece>, done: seq<Step>, tok: Piece)
    requires tok.Tok?
  {
    ps != [] && (MixesAs(ps, next, done, tok) || MixedAs(ps[1..], next, done, tok))
  }

  lemma {:induction false} FillAppend(a: Pieces, b: Pieces, tok: Piece, value: string)
    ensures Fill(a + b, tok, value) == Fill(a, tok, value) + Fill(b, tok, value)
  {
    if a == [] {
      assert a + b == b;
    } else {
      var head := if a[0] == tok then Chars(value) else [a[0]];
      FillFirst(a, tok, value);
      FillFirst(a + b, tok, value);
      DropFromFirst(a, b, 1);
      hide Fill;
      FillAppend(a[1..], b, tok, value);
      Associative(head, Fill(a[1..], tok, value), Fill(b, tok, value));
    }
  }

  lemma FillFirst(a: Pieces, tok: Piece, value: string)
    requires a != []
    ensures Fill(a, tok, value) == (if a[0] == tok then Chars(value) else [a[0]]) + Fill(a[1..], tok, value)
  {}

  lemma {:induction false} FillAllAppend(a: Pieces, b: Pieces, steps: seq<Step>)
    ensures FillAll(a + b, steps) == FillAll(a, steps) + FillAll(b, steps)
  {
    hide Fill;
    if steps != [] {
      var front, last := steps[..|steps| - 1], steps[|steps| - 1];
      FillAllAppend(a, b, front);
      FillAppend(FillAll(a, front), FillAll(b, front), last.tok, last.value);
    }
  }

  lemma {:induction false} FillKeepsChars(s: string, tok: Piece, value: string)
    requires tok.Tok?
    ensures Fill(Chars(s), tok, value) == Chars(s)
  {
    if s != "" { FillKeepsChars(s[1..], tok, value); }
  }

  lemma {:induction false} FillAllKeepsChars(s: string, steps: seq<Step>)
    requires forall step :: step in steps ==> step.tok.Tok?
    ensures FillAll(Chars(s), steps) == Chars(s)
  {
    if steps != [] {
      FillAllKeepsChars(s, steps[..|steps| - 1]);
      FillKeepsChars(s, steps[|steps| - 1].tok, steps[|steps| - 1].value);
    }
  }

  /** A token is kept until its own replacement, which puts in some path. */
  lemma {:induction false} FillAllOfToken(p: Piece, steps: seq<Step>) returns (value: string)
    requires p.Tok? && forall step :: step in steps ==> step.tok.Tok? && Inert(step.value)
    ensures if Covers(steps, p) then Inert(value) && FillAll([p], steps) == Chars(value) else FillAll([p], steps) == [p]
  {
    hide Inert;
    value := "";
    if steps != [] {
      var front, last := steps[..|steps| - 1], steps[|steps| - 1];
      assert last in steps;
      value := FillAllOfToken(p, front);
      CoversLast(steps, p);
      if Covers(front, p) {
        FillKeepsChars(value, last.tok, last.value);
      } else {
        if last.tok == p { value := last.value; }
        FillSingle(p, last.tok, last.value);
      }
    }
  }

  lemma FillSingle(p: Piece, tok: Piece, value: string)
    ensures Fill([p], tok, value) == if p == tok then Chars(value) else [p]
  {}

  lemma {:induction false} StartsSplit(c: Pieces, t: string)
    requires StartsWith(c, t)
    ensures |t| <= |c| && c == Chars(t) + c[|t|..]
  {
    if t != "" {
      StartsSplit(c[1..], t[1..]);
      assert c[1..][|t[1..]|..] == c[|t|..];
    }
  }

  /** What stands first, once filled. */
  lemma FillAllHead(c: Pieces, steps: seq<Step>) returns (value: string)
    requires c != [] && forall step :: step in steps ==> step.tok.Tok? && Inert(step.value)
    ensures c[0].Ch? ==> Render(FillAll(c, steps)) == [c[0].c] + Render(FillAll(c[1..], steps))
    ensures c[0].Tok? && !Covers(steps, c[0]) ==> Render(FillAll(c, steps)) == Text(c[0]) + Render(FillAll(c[1..], steps))
    ensures c[0].Tok? && Covers(steps, c[0]) ==>
      Inert(value) && Render(FillAll(c, steps)) == value + Render(FillAll(c[1..], steps))
  {
    hide Inert, Covers, FillAll, Text;
    value := "";
    assert c == [c[0]] + c[1..];
    FillAllAppend([c[0]], c[1..], steps);
    if c[0].Ch? {
      var s := [c[0].c];
      assert Chars(s) == [c[0]];
      FillAllKeepsChars(s, steps);
      RenderAppend(Chars(s), FillAll(c[1..], steps));
      RenderChars(s);
    } else {
      value := FillAllOfToken(c[0], steps);
      RenderAppend(FillAll([c[0]], steps), FillAll(c[1..], steps));
      RenderChars(value);
      RenderSingle(c[0]);
    }
  }

  lemma RenderSingle(p: Piece)
    ensures Render([p]) == Text(p)
  {
    assert Render([]) == "";
  }

  lemma FillAllAfter(c: Pieces, t: string, steps: seq<Step>)
    requires StartsWith(c, t) && forall step :: step in steps ==> step.tok.Tok?
    ensures |t| <= |c| && Render(FillAll(c, steps)) == t + Render(FillAll(c[|t|..], steps))
  {
    hide FillAll;
    StartsSplit(c, t);
    FillAllAppend(Chars(t), c[|t|..], steps);
    FillAllKeepsChars(t, steps);
    RenderAppend(Chars(t), FillAll(c[|t|..], steps));
    RenderChars(t);
  }

  lemma {:induction false} FillAllStart(c: Pieces, steps: seq<Step>, t: string)
    requires forall step :: step in steps ==> step.tok.Tok? && Inert(step.value)
    requires (forall i :: 0 <= i < |t| ==> TokenChar(t[i])) && StartsWith(FillAll(c, steps), t)
    ensures StartsWith(c, t)
  {
    hide Fill, Inert, TokenChar, StartsWith;
    if steps != [] {
      var front, last := steps[..|steps| - 1], steps[|steps| - 1];
      assert last in steps;
      FillStart(FillAll(c, front), last.tok, last.value, t);
      FillAllStart(c, front, t);
    }
  }

  // The last underscores of a token, and ":url" if it is a URL token.
  lemma UnderscoresAhead(d: Pieces, done: seq<Step>, end: string)
    requires forall step :: step in done ==> step.tok.Tok? && Inert(step.value)
    requires end == "" || end == URL
    ensures "__" + end <= Render(FillAll(d, done)) <==>
      StartsWith(d, "__" + end) || (end == "" && (ThenToken(d, "", None, done) || ThenToken(d, "_", None, done)))
  {
    hide Inert, FillAll, Render, Text, Covers, StartsWith;
    if d == [] {
      NothingAhead(done, end);
    } else {
      var value := FillAllHead(d, done);
      UnderscoreHead(d, done, end, value);
    }
  }

  lemma NothingAhead(done: seq<Step>, end: string)
    ensures !("__" + end <= Render(FillAll([], done))) && !StartsWith([], "__" + end)
    ensures !ThenToken([], "", None, done) && !ThenToken([], "_", None, done)
  {
    NothingFilled(done);
  }

  lemma {:induction false} NothingFilled(done: seq<Step>)
    ensures FillAll([], done) == []
  {
    if done != [] { NothingFilled(done[..|done| - 1]); }
  }

  lemma StartsNow(d: Pieces, c: char, t: string)
    ensures StartsWith(d, [c] + t) <==> d != [] && d[0] == Ch(c) && StartsWith(d[1..], t)
  {
    assert ([c] + t)[1..] == t;
  }

  // A covered token has become a path; an uncovered one begins with two underscores and a letter.
  lemma TokenText(p: Piece, rest: string)
    requires p.Tok?
    ensures var t := Text(p) + rest; |t| > 2 && t[0] == '_' && t[1] == '_' && t[2] != ':'
  {
    var t := Text(p) + rest;
    assert t[0] == MARKER[0] && t[1] == MARKER[1] && t[2] == MARKER[2];
  }

  lemma UnderscoreHead(d: Pieces, done: seq<Step>, end: string, value: string)
    requires d != [] && (forall step :: step in done ==> step.tok.Tok? && Inert(step.value)) && (end == "" || end == URL)
    requires d[0].Ch? ==> Render(FillAll(d, done)) == [d[0].c] + Render(FillAll(d[1..], done))
    requires d[0].Tok? && !Covers(done, d[0]) ==> Render(FillAll(d, done)) == Text(d[0]) + Render(FillAll(d[1..], done))
    requires d[0].Tok? && Covers(done, d[0]) ==> Inert(value) && Render(FillAll(d, done)) == value + Render(FillAll(d[1..], done))
    ensures "__" + end <= Render(FillAll(d, done)) <==>
      StartsWith(d, "__" + end) || (end == "" && (ThenToken(d, "", None, done) || ThenToken(d, "_", None, done)))
  {
    var text := Render(FillAll(d, done));
    assert "__" + end == "_" + ("_" + end);
    StartsNow(d, '_', "_" + end);
    StartsNow(d, '_', "");
    assert "_" + "" == "_";
    hide FillAll, Render, Text, Covers, StartsWith;
    StartsWithNothing(d);
    if d[0].Ch? {
      UnderscoreNext(d[1..], done, end);
      StartsWithNothing(d[1..]);
      assert "__" + end <= text <==> d[0].c == '_' && "_" + end <= Render(FillAll(d[1..], done));
    } else if Covers(done, d[0]) {
      assert TokenChar('_');
      assert text[0] == value[0];
    } else {
      TokenText(d[0], Render(FillAll(d[1..], done)));
    }
  }

  lemma StartsWithNothing(d: Pieces)
    ensures StartsWith(d, "")
  {}

  lemma UnderscoreNext(d: Pieces, done: seq<Step>, end: string)
    requires (forall step :: step in done ==> step.tok.Tok? && Inert(step.value)) && (end == "" || end == URL)
    ensures "_" + end <= Render(FillAll(d, done)) <==>
      StartsWith(d, "_" + end) || (end == "" && d != [] && d[0].Tok? && !Covers(done, d[0]))
  {
    assert TokenChar('_');
    StartsNow(d, '_', end);
    if d == [] {
      NothingFilled(done);
    } else {
      var value := FillAllHead(d, done);
      var text := Render(FillAll(d, done));
      if d[0].Ch? {
        UrlAheadFilled(d[1..], done, end);
        hide FillAll, Render, Covers, StartsWith;
        assert "_" + end <= text <==> d[0].c == '_' && end <= Render(FillAll(d[1..], done));
      } else if !Covers(done, d[0]) {
        TokenText(d[0], Render(FillAll(d[1..], done)));
        hide FillAll, Render, Covers, StartsWith;
      } else {
        hide FillAll, Render, Covers, StartsWith;
        assert text[0] == value[0];
      }
    }
  }

  lemma UrlAheadFilled(d: Pieces, done: seq<Step>, end: string)
    requires (forall step :: step in done ==> step.tok.Tok? && Inert(step.value)) && (end == "" || end == URL)
    ensures end <= Render(FillAll(d, done)) <==> StartsWith(d, end)
  {
    if end == URL {
      hide FillAll, StartsWith, Inert;
      UrlIsTokenChars();
      if URL <= Render(FillAll(d, done)) {
        UrlIsCharacters(FillAll(d, done));
        FillAllStart(d, done, URL);
      }
      if StartsWith(d, URL) { FillAllAfter(d, URL, done); }
    }
  }

  lemma {:induction false} StartsWithRest(c: Pieces, s: string, t: string)
    requires StartsWith(c, s + t)
    ensures |s| <= |c| && StartsWith(c[|s|..], t)
  {
    if s == "" {
      assert s + t == t && c[0..] == c;
    } else {
      assert (s + t)[1..] == s[1..] + t;
      StartsWithRest(c[1..], s[1..], t);
      assert c[1..][|s[1..]|..] == c[|s|..];
    }
  }

  lemma StartsInTurn(c: Pieces, s: string, t: string)
    requires StartsWith(c, s)
    ensures |s| <= |c| && (StartsWith(c, s + t) <==> StartsWith(c[|s|..], t))
  {
    StartsWithRenders(c, s);
    if StartsWith(c, s + t) { StartsWithRest(c, s, t); }
    if StartsWith(c[|s|..], t) { StartsWithBoth(c, s, t); }
  }

  lemma ThenInTurn(c: Pieces, s: string, t: string, next: Option<Piece>, done: seq<Step>)
    requires StartsWith(c, s)
    ensures |s| <= |c| && (ThenToken(c, s + t, next, done) <==> ThenToken(c[|s|..], t, next, done))
  {
    hide StartsWith, Covers;
    StartsInTurn(c, s, t);
    if |s + t| < |c| { assert c[|s + t|] == c[|s|..][|t|]; }
  }

  /** The rest of a token ahead, in what is filled, is there before. */
  lemma RestIsThere(c: Pieces, u: nat, done: seq<Step>, tok: Piece)
    requires u <= 1 && tok.Tok? && ValidName(tok.name) && forall step :: step in done ==> step.tok.Tok? && Inert(step.value)
    ensures MARKER[2 - u..] + Ending(tok) <= Render(FillAll(c, done)) <==> RestWith(c, MARKER[2 - u..], None, done, tok)
  {
    var x, end := MARKER[2 - u..], if tok.form == Href then URL else "";
    var t, text := x + tok.name, Render(FillAll(c, done));
    assert x + Ending(tok) == t + ("__" + end);
    assert x + tok.name == x + tok.name + "";
    hide FillAll, Render, StartsWith, Inert, ValidName, TokenChar, Ending, Covers, ThenToken;
    if t <= text {
      RestAhead(FillAll(c, done), t, u, tok.name, "");
      NameIsTokenChars(u, tok.name);
      FillAllStart(c, done, t);
    }
    if StartsWith(c, t) {
      FillAllAfter(c, t, done);
      UnderscoresAhead(c[|t|..], done, end);
      StartsInTurn(c, t, "__" + end);
      ThenInTurn(c, t, "", None, done);
      ThenInTurn(c, t, "_", None, done);
      PrefixInTurn(text, t, "__" + end, Render(FillAll(c[|t|..], done)));
    } else {
      NotAtAll(c, t, "__" + end, done);
      assert t <= t + ("__" + end);
    }
  }

  predicate OfTokenChars(t: string) {
    forall i :: 0 <= i < |t| ==> TokenChar(t[i])
  }

  lemma NameIsTokenChars(u: nat, name: string)
    requires u <= 1 && ValidName(name)
    ensures OfTokenChars(MARKER[2 - u..] + name)
  {
    MarkerTails();
    RestIsTokenChars(name);
  }

  lemma PrefixInTurn(text: string, t: string, end: string, rest: string)
    requires text == t + rest
    ensures t + end <= text <==> end <= rest
  {
    if t + end <= text {
      assert text[..|t + end|] == t + end && rest[..|end|] == text[|t|..|t + end|] == end;
    }
  }

  lemma NotAtAll(c: Pieces, t: string, end: string, done: seq<Step>)
    requires !StartsWith(c, t)
    ensures !StartsWith(c, t + end) && !ThenToken(c, t, None, done) && !ThenToken(c, t + "_", None, done)
  {
    hide StartsWith;
    if StartsWith(c, t + end) { StartsWithPrefix(c, t, end); }
    if StartsWith(c, t + "_") { StartsWithPrefix(c, t, "_"); }
  }

  lemma {:induction false} MixedPastChars(s: string, ps: Pieces, tok: Piece)
    requires tok.Tok?
    ensures Mixed(Chars(s) + ps, "", tok) <==> Mixed(ps, "", tok)
  {
    hide GoesOn;
    if s == "" {
      assert Chars(s) + ps == ps;
    } else {
      DropFromFirst(Chars(s), ps, 1);
      MixedPastChars(s[1..], ps, tok);
    }
  }

  lemma MixesHere(p: Piece, ps: Pieces, done: seq<Step>, tok: Piece)
    requires p.Tok? && !Covers(done, p) && tok.Tok? && ValidName(tok.name)
    requires forall step :: step in done ==> step.tok.Tok? && Inert(step.value)
    ensures Mixes([p] + FillAll(ps, done), "", tok) <==> MixesAs([p] + ps, None, done, tok)
  {
    hide FillAll, Render, Inert, ValidName, Covers, Ending, RestWith;
    MarkerTails();
    RestIsThere(ps, 0, done, tok);
    RestIsThere(ps, 1, done, tok);
    assert ([p] + ps)[1..] == ps && ([p] + FillAll(ps, done))[1..] == FillAll(ps, done);
    assert Render(FillAll(ps, done)) + "" == Render(FillAll(ps, done));
  }

  /** Whether tokens mix at a replacement can be told before any is made. */
  lemma {:induction false} MixedIsThere(ps: Pieces, done: seq<Step>, tok: Piece)
    requires tok.Tok? && ValidName(tok.name) && forall step :: step in done ==> step.tok.Tok? && Inert(step.value)
    ensures Mixed(FillAll(ps, done), "", tok) <==> MixedAs(ps, None, done, tok)
  {
    hide FillAll, Inert, ValidName, Covers, Mixes, RestAfter;
    if ps == [] {
      NothingFilled(done);
    } else {
      var p, rest := ps[0], ps[1..];
      assert ps == [p] + rest;
      FillAllAppend([p], rest, done);
      MixedIsThere(rest, done, tok);
      if p.Ch? {
        assert Chars([p.c]) == [p];
        FillAllKeepsChars([p.c], done);
        MixedPastChars([p.c], FillAll(rest, done), tok);
      } else {
        var value := FillAllOfToken(p, done);
        if Covers(done, p) {
          MixedPastChars(value, FillAll(rest, done), tok);
        } else {
          MixesHere(p, rest, done, tok);
          assert ([p] + FillAll(rest, done))[1..] == FillAll(rest, done);
        }
      }
    }
  }

  // -------------------------------------------------------------------------
  // Mixtures in the code
  // -------------------------------------------------------------------------

  /** The token that stands for the path found at that place of the code, none before it; `next` comes after the code. */
  function TokenAt(s: string, steps: seq<Step>, i: nat, next: Option<Piece>): Option<Piece>
    requires i <= |s| && forall step :: step in steps ==> step.value != ""
    decreases |steps|
  {
    if i == |s| then next
    else if steps == [] then None
    else
      var first, k := steps[0], Find(s, steps[0].value);
      if k < 0 then TokenAt(s, steps[1..], i, next)
      else if i < k then TokenAt(s[..k], steps[1..], i, None)
      else if i == k then Some(AsRead(first, s[k + |first.value|..]))
      else None
  }

  /** After the text comes a path whose token is not replaced yet. */
  ghost predicate ThenPath(s: string, steps: seq<Step>, t: string, next: Option<Piece>, done: seq<Step>)
    requires forall step :: step in steps ==> step.value != ""
  {
    t <= s && TokenAt(s, steps, |t|, next).Some? && !Covers(done, TokenAt(s, steps, |t|, next).value)
  }

  /** The code goes on with the rest of the token, in full, or up to underscores that a path's token will bring. */
  ghost predicate RestIn(s: string, steps: seq<Step>, x: string, next: Option<Piece>, done: seq<Step>, tok: Piece)
    requires tok.Tok? && forall step :: step in steps ==> step.value != ""
  {
    || x + Ending(tok) <= s
    || (tok.form == Plain
        && (ThenPath(s, steps, x + tok.name, next, done) || ThenPath(s, steps, x + tok.name + "_", next, done)))
  }

  /**
   * Looking in the code for the paths in their order, one is found whose token is not replaced before the
   * given one, and after it the rest of that one, without one or both of its first underscores.
   */
  ghost predicate MixedIn(s: string, steps: seq<Step>, next: Option<Piece>, done: seq<Step>, tok: Piece)
    requires tok.Tok? && forall step :: step in steps ==> step.value != ""
    decreases |steps|, |s|
  {
    steps != [] &&
    (var first, i := steps[0], Find(s, steps[0].value);
     if i < 0 then MixedIn(s, steps[1..], next, done, tok)
     else
       var after := s[i + |first.value|..];
       var p, later := AsRead(first, after), after[Taken(first, after)..];
       || MixedIn(s[..i], steps[1..], Some(p), done, tok)
       || (p.Tok? && p.form == Plain && p != tok && !Covers(done, p)
           && (RestIn(later, steps, CORE, next, done, tok) || RestIn(later, steps, HALF, next, done, tok)))
       || MixedIn(later, steps, next, done, tok))
  }

  /** Where a run of token characters ends in the code, it ends in the pieces. */
  lemma {:induction false} RunEnds(s: string, steps: seq<Step>, t: string, next: Option<Piece>)
    requires forall step :: step in steps ==> step.value != "" && Inert(step.value) && step.tok.Tok?
    requires t <= s && forall i :: 0 <= i < |t| ==> TokenChar(t[i])
    ensures var c := Reread(SwapAll(Chars(s), steps));
            && StartsWith(c, t) && |t| <= |c| && (|t| == |c| <==> |t| == |s|)
            && (|t| < |c| ==> TokenAt(s, steps, |t|, next) == if c[|t|].Tok? then Some(c[|t|]) else None)
    decreases |steps|
  {
    hide Inert, TokenChar, Reread, SwapAll, Taken, StartsWith, Find, AsRead;
    var c := Reread(SwapAll(Chars(s), steps));
    if steps == [] {
      NoTokensReread(s, map[]);
      CharsStart(s, t);
      CharsLength(s);
      if |t| < |s| { CharAt(s, |t|); }
    } else {
      RereadInParts(s, steps);
      var first, i := steps[0], Find(s, steps[0].value);
      if i < 0 {
        RunEnds(s, steps[1..], t, next);
      } else {
        RunBeforePath(s, t, i, first.value);
        var after := s[i + |first.value|..];
        var p, b := AsRead(first, after), Reread(SwapAll(Chars(after[Taken(first, after)..]), steps));
        var a := Reread(SwapAll(Chars(s[..i]), steps[1..]));
        RunEnds(s[..i], steps[1..], t, None);
        StartsBefore(a, [p] + b, t);
        AsReadIsToken(first, after);
        assert c == a + ([p] + b);
        assert c[|t|] == if |t| < |a| then a[|t|] else p;
      }
    }
  }

  lemma AsReadIsToken(step: Step, after: string)
    requires step.tok.Tok?
    ensures AsRead(step, after).Tok?
  {}

  lemma {:induction false} CharAt(s: string, i: nat)
    requires i < |s|
    ensures i < |Chars(s)| && Chars(s)[i] == Ch(s[i])
  {
    if i > 0 { CharAt(s[1..], i - 1); }
  }

  lemma RunBeforePath(s: string, t: string, i: nat, v: string)
    requires t <= s && (forall k :: 0 <= k < |t| ==> TokenChar(t[k])) && Inert(v) && i + |v| <= |s| && v <= s[i..]
    ensures |t| <= i && t <= s[..i]
  {
    if i < |t| { RunMeets(s, t, i, v); }
  }

  lemma RunMeets(s: string, t: string, i: nat, v: string)
    requires t <= s && i < |t| && v != "" && v <= s[i..]
    ensures t[i] == v[0]
  {
    assert t[i] == s[i] == s[i..][0];
  }

  lemma StartsInCode(s: string, steps: seq<Step>, t: string)
    requires forall step :: step in steps ==> step.value != "" && Inert(step.value) && step.tok.Tok?
    requires forall i :: 0 <= i < |t| ==> TokenChar(t[i])
    ensures StartsWith(Reread(SwapAll(Chars(s), steps)), t) <==> t <= s
  {
    hide Inert, TokenChar, Reread, SwapAll, StartsWith;
    if t <= s { RunEnds(s, steps, t, None); }
    if StartsWith(Reread(SwapAll(Chars(s), steps)), t) {
      RereadStart(SwapAll(Chars(s), steps), t);
      SwapAllKeepsStart(Chars(s), steps, t);
      CharsStart(s, t);
    }
  }

  lemma ThenInCode(s: string, steps: seq<Step>, t: string, next: Option<Piece>, done: seq<Step>)
    requires forall step :: step in steps ==> step.value != "" && Inert(step.value) && step.tok.Tok?
    requires forall i :: 0 <= i < |t| ==> TokenChar(t[i])
    ensures ThenToken(Reread(SwapAll(Chars(s), steps)), t, next, done) <==> ThenPath(s, steps, t, next, done)
  {
    hide Inert, TokenChar, Reread, SwapAll, StartsWith, Covers, Find;
    StartsInCode(s, steps, t);
    if t <= s { RunEnds(s, steps, t, next); }
  }

  lemma TokenEndChars(u: nat, tok: Piece)
    requires u <= 1 && tok.Tok? && ValidName(tok.name)
    ensures OfTokenChars(MARKER[2 - u..] + Ending(tok)) && OfTokenChars(MARKER[2 - u..] + tok.name + "_")
  {
    TokenChars(tok);
    EndingIsRest(tok);
    DropFromFirst(MARKER, Ending(tok), 2 - u);
    var t, x := Text(tok), MARKER[2 - u..];
    forall i | 0 <= i < |x + Ending(tok)| ensures TokenChar((x + Ending(tok))[i]) {
      assert (x + Ending(tok))[i] == t[2 - u..][i] == t[i + 2 - u];
    }
    assert x + Ending(tok) == (x + tok.name + "_") + Ending(tok)[|tok.name| + 1..];
    forall i | 0 <= i < |x + tok.name + "_"| ensures TokenChar((x + tok.name + "_")[i]) {
      assert (x + tok.name + "_")[i] == (x + Ending(tok))[i];
    }
  }

  lemma RestInCode(s: string, steps: seq<Step>, u: nat, next: Option<Piece>, done: seq<Step>, tok: Piece)
    requires forall step :: step in steps ==> step.value != "" && Inert(step.value) && step.tok.Tok?
    requires u <= 1 && tok.Tok? && ValidName(tok.name)
    ensures RestWith(Reread(SwapAll(Chars(s), steps)), MARKER[2 - u..], next, done, tok)
       <==> RestIn(s, steps, MARKER[2 - u..], next, done, tok)
  {
    hide Inert, TokenChar, Reread, SwapAll, StartsWith, Covers, ThenToken, ThenPath, ValidName;
    var x := MARKER[2 - u..];
    TokenEndChars(u, tok);
    NameIsTokenChars(u, tok.name);
    StartsInCode(s, steps, x + Ending(tok));
    ThenInCode(s, steps, x + tok.name, next, done);
    ThenInCode(s, steps, x + tok.name + "_", next, done);
  }

  lemma {:induction false} ThenAcross(a: Pieces, p: Piece, b: Pieces, t: string, next: Option<Piece>, done: seq<Step>)
    requires p.Tok?
    ensures ThenToken(a + ([p] + b), t, next, done) <==> ThenToken(a, t, Some(p), done)
  {
    hide Covers;
    StartsBeforeToken(a, p, b, t);
    if StartsWith(a, t) {
      StartsWithRenders(a, t);
      assert (a + ([p] + b))[|t|] == if |t| < |a| then a[|t|] else p;
    }
  }

  lemma RestAcross(a: Pieces, p: Piece, b: Pieces, next: Option<Piece>, done: seq<Step>, tok: Piece)
    requires p.Tok? && tok.Tok?
    ensures RestAfter(a + ([p] + b), next, done, tok) <==> RestAfter(a, Some(p), done, tok)
  {
    hide StartsWith, ThenToken, Ending;
    forall x ensures RestWith(a + ([p] + b), x, next, done, tok) <==> RestWith(a, x, Some(p), done, tok) {
      StartsBeforeToken(a, p, b, x + Ending(tok));
      ThenAcross(a, p, b, x + tok.name, next, done);
      ThenAcross(a, p, b, x + tok.name + "_", next, done);
    }
  }

  lemma {:induction false} MixedAcross(a: Pieces, p: Piece, b: Pieces, next: Option<Piece>, done: seq<Step>, tok: Piece)
    requires p.Tok? && tok.Tok?
    ensures MixedAs(a + ([p] + b), next, done, tok)
       <==> MixedAs(a, Some(p), done, tok) || MixesAs([p] + b, next, done, tok) || MixedAs(b, next, done, tok)
  {
    hide RestAfter, Covers;
    if a == [] {
      assert a + ([p] + b) == [p] + b && ([p] + b)[1..] == b;
    } else {
      DropFromFirst(a, [p] + b, 1);
      MixedAcross(a[1..], p, b, next, done, tok);
      RestAcross(a[1..], p, b, next, done, tok);
    }
  }

  /** What a reader sees mixes exactly where the code says so. */
  lemma {:induction false} MixedInCode(s: string, steps: seq<Step>, next: Option<Piece>, done: seq<Step>, tok: Piece)
    requires forall step :: step in steps ==> step.value != "" && Inert(step.value) && step.tok.Tok?
    requires tok.Tok? && ValidName(tok.name)
    ensures MixedIn(s, steps, next, done, tok) <==> MixedAs(Reread(SwapAll(Chars(s), steps)), next, done, tok)
    decreases |steps|, |s|
  {
    hide Inert, Reread, SwapAll, Taken, Find, AsRead, Covers, RestIn, RestWith, ValidName;
    if steps == [] {
      NoTokensReread(s, map[]);
      CharsAreUnmixed(s, next, done, tok);
    } else {
      RereadInParts(s, steps);
      var first, i := steps[0], Find(s, steps[0].value);
      if i < 0 {
        MixedInCode(s, steps[1..], next, done, tok);
      } else {
        var after := s[i + |first.value|..];
        var p, later := AsRead(first, after), after[Taken(first, after)..];
        var b := Reread(SwapAll(Chars(later), steps));
        AsReadIsToken(first, after);
        MixedInCode(s[..i], steps[1..], Some(p), done, tok);
        MixedInCode(later, steps, next, done, tok);
        MarkerTails();
        RestInCode(later, steps, 0, next, done, tok);
        RestInCode(later, steps, 1, next, done, tok);
        assert ([p] + b)[1..] == b;
        MixedAcross(Reread(SwapAll(Chars(s[..i]), steps[1..])), p, b, next, done, tok);
      }
    }
  }

  lemma {:induction false} CharsAreUnmixed(s: string, next: Option<Piece>, done: seq<Step>, tok: Piece)
    requires tok.Tok?
    ensures !MixedAs(Chars(s), next, done, tok)
  {
    hide RestAfter;
    if s != "" { CharsAreUnmixed(s[1..], next, done, tok); }
  }

  // -------------------------------------------------------------------------
  // What a reader makes of a module, exactly
  // -------------------------------------------------------------------------

  /**
   * At some replacement of the reader, the token of a path of the module is not replaced yet and runs
   * into the token that is.
   */
  ghost predicate Mixing(code: string, output: Target, targets: seq<Target>, output': Target, targets': seq<Target>)
    requires Spelled(output, targets)
  {
    StoreStepsSpelled(output, targets);
    ReadStepsAreTokens(output', targets');
    var steps := ReadSteps(output', targets');
    exists j :: 0 <= j < |steps| && MixedIn(code, StoreSteps(output, targets), None, steps[..j], steps[j].tok)
  }

  ghost predicate MixedAt(ps: Pieces, steps: seq<Step>, j: nat)
    requires j < |steps| && forall step :: step in steps ==> step.tok.Tok?
  {
    Mixed(FillAll(ps, steps[..j]), "", steps[j].tok)
  }

  lemma {:induction false} MixedOverAt(ps: Pieces, steps: seq<Step>)
    requires forall step :: step in steps ==> step.tok.Tok?
    ensures MixedOver(ps, steps) <==> exists j :: 0 <= j < |steps| && MixedAt(ps, steps, j)
  {
    hide Mixed, FillAll;
    if steps != [] {
      var n := |steps| - 1;
      MixedOverAt(ps, steps[..n]);
      forall j | 0 <= j < n ensures MixedAt(ps, steps[..n], j) <==> MixedAt(ps, steps, j) {
        assert steps[..n][..j] == steps[..j];
      }
      if MixedOver(ps, steps[..n]) {
        var j :| 0 <= j < n && MixedAt(ps, steps[..n], j);
        assert MixedAt(ps, steps, j);
      } else if Mixed(FillAll(ps, steps[..n]), "", steps[n].tok) {
        assert MixedAt(ps, steps, n);
      }
    }
  }

  lemma MixingAt(code: string, output: Target, targets: seq<Target>, steps: seq<Step>, book: Book, j: nat)
    requires Publishable(code, output, targets) && Insertable(steps, book) && j < |steps|
    ensures Spelled(output, targets) && (forall step :: step in StoreSteps(output, targets) ==> step.value != "")
    ensures steps[j].tok.Tok? && forall step :: step in steps ==> step.tok.Tok?
    ensures MixedIn(code, StoreSteps(output, targets), None, steps[..j], steps[j].tok)
       <==> MixedAt(Reread(StoredPieces(code, output, targets)), steps, j)
  {
    hide Mixed, FillAll, MixedIn, MixedAs, StoreSteps, RunsOn, Reread, SwapAll, Inert, DollarPlain, ValidName, Value;
    StoreIsTokenizable(code, output, targets);
    StoreStepsSpelled(output, targets);
    assert steps[j] in steps;
    forall step | step in steps[..j] ensures step.tok.Tok? && Inert(step.value) { assert step in steps; }
    MixedIsThere(Reread(StoredPieces(code, output, targets)), steps[..j], steps[j].tok);
    MixedInCode(code, StoreSteps(output, targets), None, steps[..j], steps[j].tok);
  }

  lemma MixingIsOver(code: string, output: Target, targets: seq<Target>, output': Target, targets': seq<Target>, book': Book)
    requires Publishable(code, output, targets) && WritableBuild(output', targets', book')
    ensures Spelled(output, targets) && forall step :: step in ReadSteps(output', targets') ==> step.tok.Tok?
    ensures Mixing(code, output, targets, output', targets')
       <==> MixedOver(Reread(StoredPieces(code, output, targets)), ReadSteps(output', targets'))
  {
    var steps := ReadSteps(output', targets');
    ReadIsInsertable(output', targets', book');
    ReadStepsAreTokens(output', targets');
    hide Publishable, WritableBuild, Mixed, MixedIn, StoreSteps, Reread, StoredPieces, ReadSteps, MixedAt, Insertable, MixedOver;
    SpelledWhenPublishable(code, output, targets);
    StoreStepsSpelled(output, targets);
    MixedOverAt(Reread(StoredPieces(code, output, targets)), steps);
    forall j | 0 <= j < |steps|
      ensures MixedIn(code, StoreSteps(output, targets), None, steps[..j], steps[j].tok)
         <==> MixedAt(Reread(StoredPieces(code, output, targets)), steps, j)
    {
      MixingAt(code, output, targets, steps, book', j);
    }
  }

  lemma SpelledWhenPublishable(code: string, output: Target, targets: seq<Target>)
    requires Publishable(code, output, targets)
    ensures Spelled(output, targets)
  {}

  /**
   * A stored module read on any machine is its source with that machine's paths; it is refused
   * exactly if tokens mix or the marker is in what it reads as.
   */
  lemma {:induction false} Relocates(code: string, output: Target, targets: seq<Target>,
                                     output': Target, targets': seq<Target>, book': Book)
    requires Publishable(code, output, targets)
    requires WritableBuild(output', targets', book') && Resolves(output, targets, output', targets')
    requires TokenFree(Reading(code, output, targets, book'), output', targets')
    ensures Read(Store(code, output, targets), output', targets')
         == if Mixing(code, output, targets, output', targets') then None else Checked(Reading(code, output, targets, book'))
  {
    hide WritableBuild, Contains, StoredPieces, Store, Render, Publishable, Spells, Unambiguous, Reread, Reading, TokenFree, Checked,
         MixedOver, Mixing, ReadSteps;
    StoredTokens(code, output, targets);
    var ps := StoredPieces(code, output, targets);
    ReadingIsReread(code, output, targets, book');
    RereadRenders(ps);
    RereadIsUnambiguous(ps);
    RereadNames(ps);
    MixingIsOver(code, output, targets, output', targets', book');
    ReadsExactly(Reread(ps), output', targets', book');
  }

  lemma {:induction false} SeparatedIsUnmixed(ps: Pieces, next: Option<Piece>, done: seq<Step>, tok: Piece)
    requires tok.Tok? && Separated(ps, tok.name)
    ensures !MixedAs(ps, next, done, tok)
  {
    hide StartsWith, Covers;
    if ps != [] {
      SeparatedIsUnmixed(ps[1..], next, done, tok);
      if MixesAs(ps, next, done, tok) {
        RestBegins(ps[1..], CORE, next, done, tok);
        RestBegins(ps[1..], HALF, next, done, tok);
      }
    }
  }

  lemma RestBegins(c: Pieces, x: string, next: Option<Piece>, done: seq<Step>, tok: Piece)
    requires tok.Tok?
    ensures RestWith(c, x, next, done, tok) ==> StartsWith(c, x + tok.name)
  {
    hide StartsWith, Covers;
    var end := "__" + if tok.form == Href then URL else "";
    assert x + Ending(tok) == x + tok.name + end;
    if StartsWith(c, x + tok.name + end) { StartsWithPrefix(c, x + tok.name, end); }
    if StartsWith(c, x + tok.name + "_") { StartsWithPrefix(c, x + tok.name, "_"); }
  }

  lemma ReaderNames(output: Target, targets: seq<Target>, step: Step) returns (t: Target)
    requires step in ReadSteps(output, targets)
    ensures t in [output] + targets && step.tok.Tok? && step.tok.name == t.name
  {
    hide ReadSteps, UrlAndPath;
    ReadStepElements(output, targets);
    t :| t in [output] + targets && step in UrlAndPath(t);
    StepName(step, t);
  }

  /** Where no path is found with the beginning of the rest of a reader's token after it, nothing mixes. */
  lemma UnmixedNeverMixes(code: string, output: Target, targets: seq<Target>, output': Target, targets': seq<Target>, book': Book)
    requires Publishable(code, output, targets) && WritableBuild(output', targets', book')
    ensures Spelled(output, targets)
    ensures Unmixed(code, output, targets, output', targets') ==> !Mixing(code, output, targets, output', targets')
  {
    SpelledWhenPublishable(code, output, targets);
    ReadIsInsertable(output', targets', book');
    ReadStepsAreTokens(output', targets');
    StoreStepsSpelled(output, targets);
    hide WritableBuild, Publishable, Unmixed, SeparatedFrom, Reread, StoredPieces, Separated, MixedIn, StoreSteps, ReadSteps,
         MixedAs, Mixed, FillAll, Insertable;
    var ps, steps := StoredPieces(code, output, targets), ReadSteps(output', targets');
    if Unmixed(code, output, targets, output', targets') {
      WritableNames(output', targets', book');
      UnmixedIsSeparated(code, output, targets, output', targets');
      RereadSeparated(ps, output', targets');
      forall j | 0 <= j < |steps| ensures !MixedIn(code, StoreSteps(output, targets), None, steps[..j], steps[j].tok) {
        UnmixedAt(code, output, targets, output', targets', book', j);
      }
    }
  }

  lemma UnmixedAt(code: string, output: Target, targets: seq<Target>, output': Target, targets': seq<Target>, book': Book, j: nat)
    requires Publishable(code, output, targets) && Insertable(ReadSteps(output', targets'), book')
    requires SeparatedFrom(Reread(StoredPieces(code, output, targets)), output', targets') && j < |ReadSteps(output', targets')|
    ensures Spelled(output, targets) && (forall step :: step in StoreSteps(output, targets) ==> step.value != "")
    ensures var steps := ReadSteps(output', targets');
            steps[j].tok.Tok? && !MixedIn(code, StoreSteps(output, targets), None, steps[..j], steps[j].tok)
  {
    hide Separated, MixedIn, StoreSteps, MixedAs, Mixed, FillAll, RunsOn, Reread, SwapAll, ReadSteps, Inert, DollarPlain, ValidName, Value;
    var steps := ReadSteps(output', targets');
    assert steps[j] in steps;
    var t := ReaderNames(output', targets', steps[j]);
    StoreIsTokenizable(code, output, targets);
    StoreStepsSpelled(output, targets);
    MixedInCode(code, StoreSteps(output, targets), None, steps[..j], steps[j].tok);
    SeparatedIsUnmixed(Reread(StoredPieces(code, output, targets)), None, steps[..j], steps[j].tok);
  }

  // -------------------------------------------------------------------------
  // The round trip
  // -------------------------------------------------------------------------

  /** Storing a module and reading it back with the paths that are found in it gives the module. */
  lemma {:induction false} RoundTrip(code: string, output: Target, targets: seq<Target>,
                                     output': Target, targets': seq<Target>, book: Book)
    requires Publishable(code, output, targets)
    requires WritableBuild(output', targets', book) && Resolves(output, targets, output', targets')
    requires !Misread(code, output, targets, book)
    requires !Contains(code, MARKER) && !Follow(code, output, targets, URL)
    requires !Mixing(code, output, targets, output', targets')
    ensures Read(Store(code, output, targets), output', targets') == Some(code)
  {
    assert Spelled(output, targets);
    hide WritableBuild, Contains, Store, Rewritten, Publishable, Mixing, StoreSteps, Spoiled, Misread, MisreadBy, TokenFree;
    MisreadBySteps(code, output, targets, book);
    NothingMisread(code, StoreSteps(output, targets), book);
    MarkerFreeIsTokenFree(code, output', targets');
    Relocates(code, output, targets, output', targets', book);
  }

  lemma {:induction false} RoundTripUnlessMisread(code: string, output: Target, targets: seq<Target>,
                                                  output': Target, targets': seq<Target>, book: Book, up: bool)
    requires Publishable(code, output, targets)
    requires WritableBuild(output', targets', book) && Resolves(output, targets, output', targets')
    requires !Contains(code, MARKER) ==> TokenFree(Reading(code, output, targets, book), output', targets')
    requires !Follow(code, output, targets, URL)
    requires forall step :: Found(code, output, targets, step) ==> Leans(|step.value|, |Value(book, step.tok)|, up)
    ensures Read(Store(code, output, targets), output', targets') == Some(code)
       <==> !Contains(code, MARKER) && !Mixing(code, output, targets, output', targets') && !Misread(code, output, targets, book)
  {
    assert Spelled(output, targets);
    hide WritableBuild, Contains, Store, Rewritten, Publishable, Mixing, StoreSteps, Spoiled, Misread, MisreadBy, TokenFree,
         Value, Finds;
    MisreadBySteps(code, output, targets, book);
    var steps := StoreSteps(output, targets);
    forall step | Finds(code, steps, step) ensures Leans(|step.value|, |Value(book, step.tok)|, up) {
      assert Found(code, output, targets, step);
    }
    SameIffNothingMisread(code, steps, book, up);
    if !Contains(code, MARKER) { Relocates(code, output, targets, output', targets', book); }
  }

  // Where a path is found with ":url" after it, and the spellings lengthen the text, the trip fails.
  lemma FollowedIsLost(code: string, output: Target, targets: seq<Target>,
                       output': Target, targets': seq<Target>, book: Book)
    requires Publishable(code, output, targets)
    requires WritableBuild(output', targets', book) && Resolves(output, targets, output', targets')
    requires !Contains(code, MARKER) ==> TokenFree(Reading(code, output, targets, book), output', targets')
    requires Follow(code, output, targets, URL)
    requires forall step :: Found(code, output, targets, step) ==> Stretches(step, book)
    ensures Read(Store(code, output, targets), output', targets') != Some(code)
  {
    assert Spelled(output, targets);
    hide WritableBuild, Contains, Store, Rewritten, Publishable, Mixing, StoreSteps, Spoiled, TokenFree, Stretches, Finds, RunsOn;
    var steps := StoreSteps(output, targets);
    StoreIsTokenizable(code, output, targets);
    forall step | Finds(code, steps, step) ensures Stretches(step, book) {
      assert Found(code, output, targets, step);
    }
    RewrittenGrows(code, steps, book);
    if !Contains(code, MARKER) { Relocates(code, output, targets, output', targets', book); }
  }

  /**
   * Where the reader's spellings lean one way, and any URL they put in for a path lengthens the text, the trip
   * fails exactly when the marker is in the module, tokens mix, a path is found with ":url" after it, or one is misread.
   */
  lemma {:induction false} RoundTripIff(code: string, output: Target, targets: seq<Target>,
                                        output': Target, targets': seq<Target>, book: Book, up: bool)
    requires Publishable(code, output, targets)
    requires WritableBuild(output', targets', book) && Resolves(output, targets, output', targets')
    requires !Contains(code, MARKER) ==> TokenFree(Reading(code, output, targets, book), output', targets')
    requires forall step :: Found(code, output, targets, step) ==> Leans(|step.value|, |Value(book, step.tok)|, up)
    requires Follow(code, output, targets, URL) ==>
               forall step :: Found(code, output, targets, step) ==> Stretches(step, book)
    ensures Read(Store(code, output, targets), output', targets') == Some(code)
       <==> && !Contains(code, MARKER) && !Mixing(code, output, targets, output', targets')
            && !Follow(code, output, targets, URL) && !Misread(code, output, targets, book)
  {
    assert Spelled(output, targets);
    hide WritableBuild, Contains, Store, Publishable, Mixing, Follow, Misread, TokenFree, Value, Found, Stretches, Leans, Reading;
    if Follow(code, output, targets, URL) {
      FollowedIsLost(code, output, targets, output', targets', book);
    } else {
      RoundTripUnlessMisread(code, output, targets, output', targets', book, up);
    }
  }
}
