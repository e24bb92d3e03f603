// What a stored module reads as: on any machine its source with that machine's
// paths, and on its own machine itself, unless a path is misread.
module PathReadings {
  import opened Common
  import opened PathPieces
  import opened PathTokens

  // -------------------------------------------------------------------------
  // What a reader makes of the code
  // -------------------------------------------------------------------------

  /** How much of the text after a path is taken for the end of its URL token. */
  function Taken(step: Step, after: string): (n: nat)
    ensures n <= |after|
  {
    if step.tok.Tok? && step.tok.form == Plain && URL <= after then |URL| else 0
  }

  /** The token of a path that is found, as a reader sees it. */
  function AsRead(step: Step, after: string): Piece {
    if Taken(step, after) > 0 then Tok(step.tok.name, Href) else step.tok
  }

  /**
   * The code with every path that is found, in the order of the steps and beside what was found before,
   * in the book's spelling for its token; a path with ":url" after it, in the spelling as a URL.
   */
  function Rewritten(s: string, steps: seq<Step>, book: Book): string
    requires forall step :: step in steps ==> step.value != ""
    decreases |steps|, |s|
  {
    if steps == [] then s
    else
      var first, i := steps[0], Find(s, steps[0].value);
      if i < 0 then Rewritten(s, steps[1..], book)
      else
        var after := s[i + |first.value|..];
        Rewritten(s[..i], steps[1..], book)
        + (Value(book, AsRead(first, after)) + Rewritten(after[Taken(first, after)..], steps, book))
  }

  lemma {:induction false} RereadAcross(a: Pieces, tok: Piece, b: Pieces)
    requires tok.Tok?
    ensures Reread(a + ([tok] + b)) == Reread(a) + Reread([tok] + b)
    decreases |a|
  {
    var all := a + ([tok] + b);
    if a == [] {
      assert all == [tok] + b;
    } else {
      DropFromFirst(a, [tok] + b, 1);
      StartsBeforeToken(a[1..], tok, b, URL);
      if Follows(a, URL) {
        StartsWithRenders(a[1..], URL);
        DropFromFirst(a, [tok] + b, 5);
        RereadAcross(a[5..], tok, b);
      } else {
        RereadAcross(a[1..], tok, b);
      }
    }
  }

  lemma RereadAtToken(tok: Piece, b: Pieces)
    requires tok.Tok?
    ensures tok.form == Plain && StartsWith(b, URL) ==> |b| >= 4 && Reread([tok] + b) == [Tok(tok.name, Href)] + Reread(b[4..])
    ensures !(tok.form == Plain && StartsWith(b, URL)) ==> Reread([tok] + b) == [tok] + Reread(b)
  {
    var all := [tok] + b;
    assert all[1..] == b;
    if StartsWith(b, URL) {
      StartsWithRenders(b, URL);
      assert all[5..] == b[4..];
    }
  }

  lemma SwapPastChar(c: char, ps: Pieces, v: string, tok: Piece)
    requires Inert(v) && TokenChar(c)
    ensures Swap([Ch(c)] + ps, v, tok) == [Ch(c)] + Swap(ps, v, tok)
  {
    assert ([Ch(c)] + ps)[1..] == ps;
  }

  lemma {:induction false} SwapKeepsChars(t: string, ps: Pieces, v: string, tok: Piece)
    requires Inert(v) && forall i :: 0 <= i < |t| ==> TokenChar(t[i])
    ensures Swap(Chars(t) + ps, v, tok) == Chars(t) + Swap(ps, v, tok)
  {
    if t == "" {
      assert Chars(t) + ps == ps;
    } else {
      hide Swap, TokenChar, Inert;
      Associative([Ch(t[0])], Chars(t[1..]), ps);
      SwapPastChar(t[0], Chars(t[1..]) + ps, v, tok);
      SwapKeepsChars(t[1..], ps, v, tok);
      Associative([Ch(t[0])], Chars(t[1..]), Swap(ps, v, tok));
    }
  }

  lemma {:induction false} SwapAllKeepsChars(t: string, ps: Pieces, steps: seq<Step>)
    requires forall step :: step in steps ==> step.value != "" && Inert(step.value)
    requires forall i :: 0 <= i < |t| ==> TokenChar(t[i])
    ensures SwapAll(Chars(t) + ps, steps) == Chars(t) + SwapAll(ps, steps)
  {
    hide Swap, Inert, TokenChar, Chars;
    if steps != [] {
      var front, last := steps[..|steps| - 1], steps[|steps| - 1];
      assert last in steps;
      SwapAllKeepsChars(t, ps, front);
      SwapKeepsChars(t, SwapAll(ps, front), last.value, last.tok);
    }
  }

  lemma {:induction false} CharsAppend(s: string, t: string)
    ensures Chars(s + t) == Chars(s) + Chars(t)
  {
    if s == "" {
      assert s + t == t;
    } else {
      assert (s + t)[1..] == s[1..] + t;
      CharsAppend(s[1..], t);
    }
  }

  lemma UrlIsTokenChars()
    ensures forall i :: 0 <= i < |URL| ==> TokenChar(URL[i])
  {}

  // After ":url", the pieces are those of the rest of the code.
  lemma UrlIsKept(after: string, steps: seq<Step>)
    requires forall step :: step in steps ==> step.value != "" && Inert(step.value) && step.tok.Tok?
    ensures StartsWith(SwapAll(Chars(after), steps), URL) <==> URL <= after
    ensures URL <= after ==> |SwapAll(Chars(after), steps)| >= 4
                             && SwapAll(Chars(after), steps)[4..] == SwapAll(Chars(after[4..]), steps)
  {
    hide Swap, SwapAll, Inert, StartsWith;
    UrlIsTokenChars();
    SwapAllKeepsStart(Chars(after), steps, URL);
    CharsStart(after, URL);
    if URL <= after {
      assert after == URL + after[4..];
      CharsAppend(URL, after[4..]);
      SwapAllKeepsChars(URL, Chars(after[4..]), steps);
      CharsLength(URL);
    }
  }

  lemma ExpandToken(tok: Piece, ps: Pieces, book: Book)
    ensures Expand([tok] + ps, book) == Value(book, tok) + Expand(ps, book)
  {
    assert ([tok] + ps)[1..] == ps;
  }

  lemma RereadHit(first: Step, after: string, steps: seq<Step>)
    requires forall step :: step in steps ==> step.value != "" && Inert(step.value) && step.tok.Tok?
    requires first.tok.Tok?
    ensures Reread([first.tok] + SwapAll(Chars(after), steps))
         == [AsRead(first, after)] + Reread(SwapAll(Chars(after[Taken(first, after)..]), steps))
  {
    hide SwapAll, Inert, Reread, StartsWith;
    UrlIsKept(after, steps);
    RereadAtToken(first.tok, SwapAll(Chars(after), steps));
    if Taken(first, after) == 0 { assert after[0..] == after; }
  }

  /** What a reader sees of the code: what comes before a path found first, its token, and what comes after. */
  lemma RereadInParts(s: string, steps: seq<Step>)
    requires steps != [] && forall step :: step in steps ==> step.value != "" && Inert(step.value) && step.tok.Tok?
    ensures Find(s, steps[0].value) < 0 ==> Reread(SwapAll(Chars(s), steps)) == Reread(SwapAll(Chars(s), steps[1..]))
    ensures Find(s, steps[0].value) >= 0 ==>
      var first, i := steps[0], Find(s, steps[0].value);
      var after := s[i + |first.value|..];
      var later := after[Taken(first, after)..];
      Reread(SwapAll(Chars(s), steps))
        == Reread(SwapAll(Chars(s[..i]), steps[1..])) + ([AsRead(first, after)] + Reread(SwapAll(Chars(later), steps)))
  {
    hide Swap, Find, Chars, Inert, Reread, AsRead, Taken;
    var first, rest := steps[0], steps[1..];
    var i := Find(s, first.value);
    assert first in steps && forall step :: step in rest ==> step in steps;
    SwapAllFirst(Chars(s), steps);
    SwapSplit(s, first.value, first.tok);
    if i >= 0 {
      var after := s[i + |first.value|..];
      SwapAllAcross(Chars(s[..i]), first.tok, Swap(Chars(after), first.value, first.tok), rest);
      SwapAllFirst(Chars(after), steps);
      RereadAcross(SwapAll(Chars(s[..i]), rest), first.tok, SwapAll(Chars(after), steps));
      RereadHit(first, after, steps);
    }
  }

  /** The stored pieces, as a reader sees them and in its spellings, are the code rewritten. */
  lemma {:induction false} RereadIsRewritten(s: string, steps: seq<Step>, book: Book)
    requires forall step :: step in steps ==> step.value != "" && Inert(step.value) && step.tok.Tok?
    ensures Expand(Reread(SwapAll(Chars(s), steps)), book) == Rewritten(s, steps, book)
    decreases |steps|, |s|
  {
    hide Find, Chars, Inert, Reread, Expand, SwapAll, Taken, Value;
    if steps == [] {
      NoTokensReread(s, book);
    } else {
      RereadInParts(s, steps);
      var first, i := steps[0], Find(s, steps[0].value);
      if i < 0 {
        RereadIsRewritten(s, steps[1..], book);
      } else {
        var after := s[i + |first.value|..];
        var later := after[Taken(first, after)..];
        var b := Reread(SwapAll(Chars(later), steps));
        RereadIsRewritten(s[..i], steps[1..], book);
        RereadIsRewritten(later, steps, book);
        ExpandAppend(Reread(SwapAll(Chars(s[..i]), steps[1..])), [AsRead(first, after)] + b, book);
        ExpandToken(AsRead(first, after), b, book);
      }
    }
  }

  lemma NoTokensReread(s: string, book: Book)
    ensures Reread(Chars(s)) == Chars(s) == SwapAll(Chars(s), []) && Expand(Chars(s), book) == s
  {
    hide Reread;
    NoTokensNever(s, URL);
    RereadIsUnambiguous(Chars(s));
    ExpandChars(s, book);
  }

  /** The module as it reads with the book's spellings of the build's paths. */
  ghost function Reading(code: string, output: Target, targets: seq<Target>, book: Book): string
    requires Spelled(output, targets)
  {
    StoreStepsSpelled(output, targets);
    Rewritten(code, StoreSteps(output, targets), book)
  }

  lemma ReadingIsReread(code: string, output: Target, targets: seq<Target>, book: Book)
    requires Publishable(code, output, targets)
    ensures Expand(Reread(StoredPieces(code, output, targets)), book) == Reading(code, output, targets, book)
  {
    hide StoreSteps, RunsOn, Rewritten, Reread, Expand, SwapAll;
    StoreIsTokenizable(code, output, targets);
    RereadIsRewritten(code, StoreSteps(output, targets), book);
  }

  // -------------------------------------------------------------------------
  // When the code reads as it is
  // -------------------------------------------------------------------------

  /** Looking in the code for the paths in the order of the steps, as before, that of the step is found. */
  predicate Finds(s: string, steps: seq<Step>, step: Step)
    requires forall other :: other in steps ==> other.value != ""
    decreases |steps|, |s|
  {
    if steps == [] then false
    else
      var first, i := steps[0], Find(s, steps[0].value);
      if i < 0 then Finds(s, steps[1..], step)
      else
        || Finds(s[..i], steps[1..], step)
        || step == first
        || Finds(s[i + |first.value|..], steps, step)
  }

  lemma {:induction false} FindsOneStep(s: string, steps: seq<Step>, step: Step)
    requires (forall other :: other in steps ==> other.value != "") && Finds(s, steps, step)
    ensures step in steps
    decreases |steps|, |s|
  {
    hide Find;
    var first, i := steps[0], Find(s, steps[0].value);
    if i < 0 {
      FindsOneStep(s, steps[1..], step);
    } else if Finds(s[..i], steps[1..], step) {
      FindsOneStep(s[..i], steps[1..], step);
    } else if step != first {
      FindsOneStep(s[i + |first.value|..], steps, step);
    }
  }

  /** A path is found that is not the book's spelling for its token. */
  ghost predicate MisreadBy(s: string, steps: seq<Step>, book: Book)
    requires forall other :: other in steps ==> other.value != ""
  {
    exists step :: Finds(s, steps, step) && step.value != Value(book, step.tok)
  }

  lemma MisreadInParts(s: string, steps: seq<Step>, book: Book)
    requires steps != [] && forall other :: other in steps ==> other.value != ""
    ensures var first, i := steps[0], Find(s, steps[0].value);
            MisreadBy(s, steps, book) <==>
              if i < 0 then MisreadBy(s, steps[1..], book)
              else MisreadBy(s[..i], steps[1..], book) || first.value != Value(book, first.tok)
                   || MisreadBy(s[i + |first.value|..], steps, book)
  {
    hide Find, Value;
    var first, i := steps[0], Find(s, steps[0].value);
    if i >= 0 && first.value != Value(book, first.tok) { assert Finds(s, steps, first); }
    if i < 0 && MisreadBy(s, steps[1..], book) {
      var step :| Finds(s, steps[1..], step) && step.value != Value(book, step.tok);
      assert Finds(s, steps, step);
    } else if i >= 0 && MisreadBy(s[..i], steps[1..], book) {
      var step :| Finds(s[..i], steps[1..], step) && step.value != Value(book, step.tok);
      assert Finds(s, steps, step);
    } else if i >= 0 && MisreadBy(s[i + |first.value|..], steps, book) {
      var step :| Finds(s[i + |first.value|..], steps, step) && step.value != Value(book, step.tok);
      assert Finds(s, steps, step);
    }
  }

  lemma FoundApart(s: string, i: nat, v: string)
    requires i + |v| <= |s| && v <= s[i..]
    ensures s == s[..i] + (v + s[i + |v|..])
  {
    assert s[i..] == v + s[i..][|v|..] && s[i..][|v|..] == s[i + |v|..];
  }

  // Where no path has ":url" after it, the path found is answered with the book's spelling.
  lemma RewrittenInParts(s: string, steps: seq<Step>, book: Book)
    requires steps != [] && (forall step :: step in steps ==> step.value != "") && !Spoiled(s, steps, URL)
    ensures var first, i := steps[0], Find(s, steps[0].value);
            if i < 0 then !Spoiled(s, steps[1..], URL) && Rewritten(s, steps, book) == Rewritten(s, steps[1..], book)
            else
              var before, after := s[..i], s[i + |first.value|..];
              && !Spoiled(before, steps[1..], URL) && !Spoiled(after, steps, URL)
              && s == before + (first.value + after)
              && Rewritten(s, steps, book)
                 == Rewritten(before, steps[1..], book) + (Value(book, first.tok) + Rewritten(after, steps, book))
  {
    hide Find, Value, Spoiled, Rewritten, Taken;
    var first, i := steps[0], Find(s, steps[0].value);
    SpoiledInParts(s, steps, URL);
    RewrittenUnfolds(s, steps, book);
    if i >= 0 {
      var after := s[i + |first.value|..];
      FoundApart(s, i, first.value);
      NothingTaken(first, after);
      assert after[0..] == after;
    }
  }

  lemma SpoiledInParts(s: string, steps: seq<Step>, t: string)
    requires steps != [] && (forall step :: step in steps ==> step.value != "") && !Spoiled(s, steps, t)
    ensures var first, i := steps[0], Find(s, steps[0].value);
            if i < 0 then !Spoiled(s, steps[1..], t)
            else && !Spoiled(s[..i], steps[1..], t) && !Spoiled(s[i + |first.value|..], steps, t)
                 && !(first.tok.Tok? && first.tok.form == Plain && t <= s[i + |first.value|..])
  {
    hide Find;
  }

  lemma RewrittenUnfolds(s: string, steps: seq<Step>, book: Book)
    requires steps != [] && forall step :: step in steps ==> step.value != ""
    ensures Find(s, steps[0].value) < 0 ==> Rewritten(s, steps, book) == Rewritten(s, steps[1..], book)
    ensures Find(s, steps[0].value) >= 0 ==>
      var first, i := steps[0], Find(s, steps[0].value);
      var after := s[i + |first.value|..];
      Rewritten(s, steps, book)
        == Rewritten(s[..i], steps[1..], book)
           + (Value(book, AsRead(first, after)) + Rewritten(after[Taken(first, after)..], steps, book))
  {
    hide Find, Value, AsRead, Taken;
  }

  lemma NothingTaken(step: Step, after: string)
    requires !(step.tok.Tok? && step.tok.form == Plain && URL <= after)
    ensures Taken(step, after) == 0 && AsRead(step, after) == step.tok
  {}

  /** Where every path found is the book's spelling, and none has ":url" after it, the code reads as it is. */
  lemma {:induction false} NothingMisread(s: string, steps: seq<Step>, book: Book)
    requires forall step :: step in steps ==> step.value != ""
    requires !Spoiled(s, steps, URL) && !MisreadBy(s, steps, book)
    ensures Rewritten(s, steps, book) == s
    decreases |steps|, |s|
  {
    hide Find, Value, Spoiled, MisreadBy;
    if steps != [] {
      RewrittenInParts(s, steps, book);
      MisreadInParts(s, steps, book);
      var first, i := steps[0], Find(s, steps[0].value);
      if i < 0 {
        NothingMisread(s, steps[1..], book);
      } else {
        NothingMisread(s[..i], steps[1..], book);
        NothingMisread(s[i + |first.value|..], steps, book);
      }
    }
  }

  predicate Leans(m: nat, n: nat, up: bool) {
    if up then m <= n else n <= m
  }

  /** The spellings of the paths that are found are none shorter, or none longer, than the paths. */
  ghost predicate OneWay(s: string, steps: seq<Step>, book: Book, up: bool)
    requires forall other :: other in steps ==> other.value != ""
  {
    forall step :: Finds(s, steps, step) ==> Leans(|step.value|, |Value(book, step.tok)|, up)
  }

  lemma OneWayInParts(s: string, steps: seq<Step>, book: Book, up: bool)
    requires steps != [] && (forall other :: other in steps ==> other.value != "") && OneWay(s, steps, book, up)
    ensures var first, i := steps[0], Find(s, steps[0].value);
            if i < 0 then OneWay(s, steps[1..], book, up)
            else OneWay(s[..i], steps[1..], book, up) && Leans(|first.value|, |Value(book, first.tok)|, up)
                 && OneWay(s[i + |first.value|..], steps, book, up)
  {
    hide Find, Value, Leans;
    var first, i := steps[0], Find(s, steps[0].value);
    if i >= 0 {
      assert Finds(s, steps, first);
      forall step | Finds(s[..i], steps[1..], step) ensures Leans(|step.value|, |Value(book, step.tok)|, up) {
        assert Finds(s, steps, step);
      }
      forall step | Finds(s[i + |first.value|..], steps, step) ensures Leans(|step.value|, |Value(book, step.tok)|, up) {
        assert Finds(s, steps, step);
      }
    } else {
      forall step | Finds(s, steps[1..], step) ensures Leans(|step.value|, |Value(book, step.tok)|, up) {
        assert Finds(s, steps, step);
      }
    }
  }

  lemma EqualInParts(a: string, b: string, c: string, a': string, b': string, c': string, up: bool)
    requires Leans(|a|, |a'|, up) && Leans(|b|, |b'|, up) && Leans(|c|, |c'|, up)
    ensures Leans(|a + (b + c)|, |a' + (b' + c')|, up)
    ensures a + (b + c) == a' + (b' + c') <==> a == a' && b == b' && c == c'
  {
    var l, r := a + (b + c), a' + (b' + c');
    if l == r {
      assert |a| == |a'| && |b| == |b'| && |c| == |c'|;
      assert a == l[..|a|] == r[..|a|] == a';
      assert l[|a|..] == b + c && r[|a|..] == b' + c';
      assert b == (b + c)[..|b|] && b' == (b' + c')[..|b|];
      assert c == (b + c)[|b|..] && c' == (b' + c')[|b|..];
    }
  }

  /** Where the spellings lean one way, the code reads as it is exactly if nothing is misread. */
  lemma {:induction false} SameIffNothingMisread(s: string, steps: seq<Step>, book: Book, up: bool)
    requires forall step :: step in steps ==> step.value != ""
    requires !Spoiled(s, steps, URL) && OneWay(s, steps, book, up)
    ensures Leans(|s|, |Rewritten(s, steps, book)|, up)
    ensures Rewritten(s, steps, book) == s <==> !MisreadBy(s, steps, book)
    decreases |steps|, |s|
  {
    hide Find, Value, Spoiled, MisreadBy, OneWay, Finds;
    if steps == [] {
      NothingFound(s, book);
    } else {
      RewrittenInParts(s, steps, book);
      MisreadInParts(s, steps, book);
      OneWayInParts(s, steps, book, up);
      var first, i := steps[0], Find(s, steps[0].value);
      if i < 0 {
        SameIffNothingMisread(s, steps[1..], book, up);
      } else {
        var before, after := s[..i], s[i + |first.value|..];
        SameIffNothingMisread(before, steps[1..], book, up);
        SameIffNothingMisread(after, steps, book, up);
        EqualInParts(before, first.value, after, Rewritten(before, steps[1..], book), Value(book, first.tok),
                     Rewritten(after, steps, book), up);
      }
    }
  }

  lemma NothingFound(s: string, book: Book)
    ensures !MisreadBy(s, [], book)
  {}

  lemma {:induction false} NothingRewritten(steps: seq<Step>, book: Book)
    requires forall step :: step in steps ==> step.value != ""
    ensures Rewritten("", steps, book) == ""
  {
    if steps != [] { NothingRewritten(steps[1..], book); }
  }

  // A path that is found at the very end.
  lemma RewrittenAtEnd(s: string, steps: seq<Step>, book: Book)
    requires steps != [] && (forall step :: step in steps ==> step.value != "")
    requires Find(s, steps[0].value) >= 0 && Find(s, steps[0].value) + |steps[0].value| == |s|
    ensures Rewritten(s, steps, book)
         == Rewritten(s[..Find(s, steps[0].value)], steps[1..], book) + Value(book, steps[0].tok)
    ensures Finds(s, steps, steps[0])
  {
    hide Find, Value;
    var first, i := steps[0], Find(s, steps[0].value);
    var after := s[i + |first.value|..];
    assert after == "" && after[Taken(first, after)..] == "" && !(URL <= after);
    NothingRewritten(steps, book);
    assert Value(book, AsRead(first, after)) + "" == Value(book, first.tok);
  }

  /** Spellings that lean both ways can make up for each other: two paths are misread, and the text is the same. */
  lemma LeaningBothWaysCanCancel()
    ensures var steps := [Step("/b/c", Tok("1", Plain)), Step("/a", Tok("0", Plain))];
            var book := map["0" := Site("", "/a/b"), "1" := Site("", "/c")];
            MisreadBy("/a/b/c", steps, book) && Rewritten("/a/b/c", steps, book) == "/a/b/c"
  {
    hide Find, Rewritten, Finds;
    var s, steps := "/a/b/c", [Step("/b/c", Tok("1", Plain)), Step("/a", Tok("0", Plain))];
    var book := map["0" := Site("", "/a/b"), "1" := Site("", "/c")];
    FindInside();
    RewrittenAtEnd(s, steps, book);
    assert s[..2] == "/a" && "/a"[..0] == "" && steps[1..] == [steps[1]];
    RewrittenAtEnd("/a", steps[1..], book);
    NothingRewritten(steps[1..][1..], book);
  }

  lemma FindInside()
    ensures Find("/a/b/c", "/b/c") == 2 && Find("/a", "/a") == 0
  {
    assert "/a/b/c"[1..] == "a/b/c" && "a/b/c"[1..] == "/b/c";
    assert "/a/b/c"[1] == 'a' && "a/b/c"[0] == 'a' && "/b/c"[1] == 'b';
  }

  /** The module's paths that are found, read by their steps. */
  ghost predicate Found(code: string, output: Target, targets: seq<Target>, step: Step)
    requires Spelled(output, targets)
  {
    StoreStepsSpelled(output, targets);
    Finds(code, StoreSteps(output, targets), step)
  }

  lemma FoundIsOfBuild(code: string, output: Target, targets: seq<Target>, step: Step) returns (t: Target)
    requires Spelled(output, targets) && Found(code, output, targets, step)
    ensures t in [output] + targets && step in UrlAndPath(t)
  {
    hide StoreSteps, UrlAndPath, Finds;
    StoreStepsSpelled(output, targets);
    FindsOneStep(code, StoreSteps(output, targets), step);
    StoreStepElements(output, targets);
    t :| t in [output] + targets && step in UrlAndPath(t);
  }

  /** Of some path of the build that is found in the module, the reader has another spelling. */
  ghost predicate Misread(code: string, output: Target, targets: seq<Target>, book: Book)
    requires Spelled(output, targets)
  {
    exists step :: Found(code, output, targets, step) && step.value != Value(book, step.tok)
  }

  lemma MisreadBySteps(code: string, output: Target, targets: seq<Target>, book: Book)
    requires Spelled(output, targets)
    ensures forall step :: step in StoreSteps(output, targets) ==> step.value != ""
    ensures Misread(code, output, targets, book) <==> MisreadBy(code, StoreSteps(output, targets), book)
  {
    hide Value, StoreSteps, Finds;
    StoreStepsSpelled(output, targets);
    if Misread(code, output, targets, book) {
      var step :| Found(code, output, targets, step) && step.value != Value(book, step.tok);
      assert Finds(code, StoreSteps(output, targets), step);
    }
    if MisreadBy(code, StoreSteps(output, targets), book) {
      var step :| Finds(code, StoreSteps(output, targets), step) && step.value != Value(book, step.tok);
      assert Found(code, output, targets, step);
    }
  }

  /** The reader's spelling is no shorter than the path, and its URL longer than the path with ":url" after it. */
  predicate Stretches(step: Step, book: Book) {
    && |step.value| <= |Value(book, step.tok)|
    && (step.tok.Tok? && step.tok.form == Plain ==> |step.value| + |URL| < |Value(book, Tok(step.tok.name, Href))|)
  }

  ghost predicate Lengthens(s: string, steps: seq<Step>, book: Book)
    requires forall other :: other in steps ==> other.value != ""
  {
    forall step :: Finds(s, steps, step) ==> Stretches(step, book)
  }

  lemma {:induction false} FindPast(s: string, n: nat, v: string)
    requires Inert(v) && n <= |s| && forall i :: 0 <= i < n ==> TokenChar(s[i])
    ensures Find(s, v) == if Find(s[n..], v) < 0 then -1 else Find(s[n..], v) + n
  {
    if n == 0 {
      assert s[0..] == s;
    } else {
      FindPast(s[1..], n - 1, v);
      assert s[1..][n - 1..] == s[n..] && TokenChar(s[0]);
      FindNext(s, v);
    }
  }

  lemma {:induction false} FoundPastUrl(s: string, steps: seq<Step>, step: Step)
    requires forall other :: other in steps ==> other.value != "" && Inert(other.value)
    requires URL <= s && Finds(s[|URL|..], steps, step)
    ensures Finds(s, steps, step)
    decreases |steps|
  {
    hide Find, Inert, TokenChar;
    var n, v, t := |URL|, steps[0].value, s[|URL|..];
    UrlIsTokenChars();
    assert forall i :: 0 <= i < n ==> s[i] == URL[i];
    FindPast(s, n, v);
    var i := Find(t, v);
    if i < 0 {
      FoundPastUrl(s, steps[1..], step);
    } else {
      assert s[..i + n][n..] == t[..i] && t[i + |v|..] == s[i + n + |v|..];
      if Finds(t[..i], steps[1..], step) { FoundPastUrl(s[..i + n], steps[1..], step); }
    }
  }

  lemma LengthensInParts(s: string, steps: seq<Step>, book: Book)
    requires steps != [] && (forall step :: step in steps ==> step.value != "" && Inert(step.value))
    requires Lengthens(s, steps, book)
    ensures var first, i := steps[0], Find(s, steps[0].value);
            if i < 0 then Lengthens(s, steps[1..], book)
            else
              var after := s[i + |first.value|..];
              && Lengthens(s[..i], steps[1..], book) && Stretches(first, book)
              && Lengthens(after[Taken(first, after)..], steps, book)
  {
    hide Find, Stretches, Inert;
    var first, i := steps[0], Find(s, steps[0].value);
    if i >= 0 {
      var after := s[i + |first.value|..];
      assert Finds(s, steps, first);
      forall step | Finds(s[..i], steps[1..], step) ensures Stretches(step, book) { assert Finds(s, steps, step); }
      forall step | Finds(after[Taken(first, after)..], steps, step) ensures Stretches(step, book) {
        if Taken(first, after) > 0 { FoundPastUrl(after, steps, step); } else { assert after[0..] == after; }
        assert Finds(s, steps, step);
      }
    } else {
      forall step | Finds(s, steps[1..], step) ensures Stretches(step, book) { assert Finds(s, steps, step); }
    }
  }

  lemma ReadingGrows(step: Step, after: string, book: Book)
    requires Stretches(step, book)
    ensures |Value(book, AsRead(step, after))| >= |step.value| + Taken(step, after)
    ensures Taken(step, after) > 0 ==> |Value(book, AsRead(step, after))| > |step.value| + Taken(step, after)
  {}

  /** A path found with ":url" after it makes the text longer. */
  lemma {:induction false} RewrittenGrows(s: string, steps: seq<Step>, book: Book)
    requires (forall step :: step in steps ==> step.value != "" && Inert(step.value)) && Lengthens(s, steps, book)
    ensures |Rewritten(s, steps, book)| >= |s|
    ensures Spoiled(s, steps, URL) ==> |Rewritten(s, steps, book)| > |s|
    decreases |steps|, |s|
  {
    hide Find, Stretches, Value, Inert, Lengthens, Finds;
    if steps != [] {
      LengthensInParts(s, steps, book);
      var first, i := steps[0], Find(s, steps[0].value);
      if i < 0 {
        RewrittenGrows(s, steps[1..], book);
      } else {
        var after := s[i + |first.value|..];
        RewrittenGrows(s[..i], steps[1..], book);
        RewrittenGrows(after[Taken(first, after)..], steps, book);
        ReadingGrows(first, after, book);
        assert after[0..] == after;
      }
    }
  }
}
