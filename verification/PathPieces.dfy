// Texts with tokens in them, and single `replaceAll` calls on them.
//
// The text of a module is seen as a sequence of pieces, characters and whole
// tokens. Replacing a path by its token, or a token by its path, acts on whole
// pieces only.
module PathPieces {
  import opened Common

  const MARKER := "__DOOMPI_PATH_"
  const CORE := "DOOMPI_PATH_"     // the marker without its underscores, and with one of them
  const HALF := "_DOOMPI_PATH_"
  const URL := ":url"

  // -------------------------------------------------------------------------
  // String.prototype.replaceAll with a string pattern
  // -------------------------------------------------------------------------

  /** GetSubstitution: the `$` patterns of a replacement that has no captures. */
  function Substitute(rep: string, before: string, matched: string, after: string): string {
    if rep == "" then ""
    else if |rep| == 1 || rep[0] != '$' then [rep[0]] + Substitute(rep[1..], before, matched, after)
    else
      var rest := Substitute(rep[2..], before, matched, after);
      match rep[1]
      case '$' => "$" + rest
      case '&' => matched + rest
      case '`' => before + rest
      case '\'' => after + rest
      case _ => "$" + Substitute(rep[1..], before, matched, after)
  }

  function ReplaceFrom(s: string, i: nat, pat: string, rep: string): string
    requires pat != "" && i <= |s|
    decreases |s| - i
  {
    if |s| - i < |pat| then s[i..]
    else if s[i..i + |pat|] == pat then
      Substitute(rep, s[..i], pat, s[i + |pat|..]) + ReplaceFrom(s, i + |pat|, pat, rep)
    else [s[i]] + ReplaceFrom(s, i + 1, pat, rep)
  }

  function ReplaceAll(s: string, pat: string, rep: string): string
    requires pat != ""
  {
    ReplaceFrom(s, 0, pat, rep)
  }

  predicate DollarEscape(c: char) {
    c == '$' || c == '&' || c == '`' || c == '\''
  }

  /** No `$` that a replacement string would give a meaning to. */
  predicate DollarPlain(s: string) {
    forall i :: 0 <= i < |s| - 1 && s[i] == '$' ==> !DollarEscape(s[i + 1])
  }

  predicate Contains(s: string, sub: string) {
    exists i :: 0 <= i <= |s| && sub <= s[i..]
  }

  lemma {:induction false} PlainSubstitute(rep: string, before: string, matched: string, after: string)
    requires DollarPlain(rep)
    ensures Substitute(rep, before, matched, after) == rep
  {
    if rep != "" {
      PlainSubstitute(rep[1..], before, matched, after);
    }
  }

  lemma {:induction false} EscapesShow(rep: string, matched: string) returns (shown: bool)
    ensures shown ==> Contains(Substitute(rep, "", matched, ""), matched)
    ensures !shown ==> |Substitute(rep, "", matched, "")| <= |rep|
    ensures !shown && !DollarPlain(rep) ==> |Substitute(rep, "", matched, "")| < |rep|
  {
    var r := Substitute(rep, "", matched, "");
    if |rep| >= 2 && rep[0] == '$' && DollarEscape(rep[1]) {
      shown := EscapesShow(rep[2..], matched);
      if rep[1] == '&' {
        shown := true;
        assert matched <= r[0..];
      } else if shown {
        ContainsAfter(if rep[1] == '$' then "$" else "", Substitute(rep[2..], "", matched, ""), matched);
      }
    } else if rep != "" {
      shown := EscapesShow(rep[1..], matched);
      if shown { ContainsAfter([rep[0]], Substitute(rep[1..], "", matched, ""), matched); }
      if !DollarPlain(rep) {
        var i :| 0 <= i < |rep| - 1 && rep[i] == '$' && DollarEscape(rep[i + 1]);
        assert i > 0 && rep[1..][i - 1] == '$' && rep[1..][i] == rep[i + 1];
      }
    } else {
      shown := false;
    }
  }

  lemma ContainsAfter(a: string, b: string, sub: string)
    requires Contains(b, sub)
    ensures Contains(a + b, sub)
  {
    var i :| 0 <= i <= |b| && sub <= b[i..];
    assert (a + b)[|a| + i..] == b[i..];
  }

  /** A token comes back as its path exactly when the path holds no `$` escape. */
  lemma TokenReadsBackIffDollarPlain(token: string, path: string)
    requires token != "" && !Contains(path, token)
    ensures ReplaceAll(token, token, path) == path <==> DollarPlain(path)
  {
    assert token[0..|token|] == token && token[..0] == "" && token[|token|..] == "";
    assert ReplaceAll(token, token, path) == Substitute(path, "", token, "") + ReplaceFrom(token, |token|, token, path);
    assert ReplaceAll(token, token, path) == Substitute(path, "", token, "");
    if DollarPlain(path) {
      PlainSubstitute(path, "", token, "");
    } else {
      var shown := EscapesShow(path, token);
    }
  }

  /** What `replaceAll` comes to when the replacement is plain. */
  function Replace(s: string, pat: string, rep: string): string
    requires pat != ""
  {
    if |s| < |pat| then s
    else if pat <= s then rep + Replace(s[|pat|..], pat, rep)
    else [s[0]] + Replace(s[1..], pat, rep)
  }

  lemma {:induction false} ReplaceFromIsReplace(s: string, i: nat, pat: string, rep: string)
    requires pat != "" && i <= |s| && DollarPlain(rep)
    ensures ReplaceFrom(s, i, pat, rep) == Replace(s[i..], pat, rep)
    decreases |s| - i
  {
    var t := s[i..];
    assert |t| >= |pat| ==> t[..|pat|] == s[i..i + |pat|];
    if |t| >= |pat| && s[i..i + |pat|] == pat {
      PlainSubstitute(rep, s[..i], pat, s[i + |pat|..]);
      ReplaceFromIsReplace(s, i + |pat|, pat, rep);
      assert t[|pat|..] == s[i + |pat|..];
    } else if |t| >= |pat| {
      ReplaceFromIsReplace(s, i + 1, pat, rep);
      assert t[1..] == s[i + 1..];
    }
  }

  lemma ReplaceAllIsReplace(s: string, pat: string, rep: string)
    requires pat != "" && DollarPlain(rep)
    ensures ReplaceAll(s, pat, rep) == Replace(s, pat, rep)
  {
    ReplaceFromIsReplace(s, 0, pat, rep);
    assert s[0..] == s;
  }

  lemma {:induction false} SkipUnmatched(a: string, b: string, pat: string, rep: string)
    requires pat != "" && forall i :: 0 <= i < |a| ==> !(pat <= a[i..] + b)
    ensures Replace(a + b, pat, rep) == a + Replace(b, pat, rep)
  {
    if a == "" {
      assert a + b == b;
    } else {
      assert !(pat <= a[0..] + b) && a[0..] == a;
      assert (a + b)[1..] == a[1..] + b;
      forall i | 0 <= i < |a[1..]| ensures !(pat <= a[1..][i..] + b) {
        assert a[1..][i..] == a[i + 1..];
      }
      SkipUnmatched(a[1..], b, pat, rep);
      if |a + b| < |pat| { ShortIsUnchanged(b, pat, rep); }
      assert [(a + b)[0]] + (a[1..] + Replace(b, pat, rep)) == a + Replace(b, pat, rep);
    }
  }

  lemma ShortIsUnchanged(s: string, pat: string, rep: string)
    requires pat != "" && |s| < |pat|
    ensures Replace(s, pat, rep) == s
  {}

  // -------------------------------------------------------------------------
  // Pieces
  // -------------------------------------------------------------------------

  datatype Form = Href | Plain

  datatype Piece = Ch(c: char) | Tok(name: string, form: Form)

  type Pieces = seq<Piece>

  predicate NameChar(c: char) {
    '0' <= c <= '9' || 'A' <= c <= 'Z'
  }

  /** The part of a token between the marker and the closing underscores. */
  predicate ValidName(name: string) {
    name != "" && forall i :: 0 <= i < |name| ==> NameChar(name[i])
  }

  predicate TokenChar(c: char) {
    NameChar(c) || c == '_' || c in URL
  }

  function Token(name: string): string {
    MARKER + name + "__"
  }

  function Text(p: Piece): (t: string)
    ensures p.Ch? ==> t == [p.c]
    ensures p.Tok? ==> MARKER <= t
  {
    match p
    case Ch(c) => [c]
    case Tok(name, Plain) => Token(name)
    case Tok(name, Href) => Token(name) + URL
  }

  function Render(ps: Pieces): string {
    if ps == [] then "" else Text(ps[0]) + Render(ps[1..])
  }

  function Chars(s: string): Pieces {
    if s == "" then [] else [Ch(s[0])] + Chars(s[1..])
  }

  predicate StartsWith(ps: Pieces, s: string) {
    s == "" || (ps != [] && ps[0] == Ch(s[0]) && StartsWith(ps[1..], s[1..]))
  }

  lemma {:induction false} RenderChars(s: string)
    ensures Render(Chars(s)) == s
  {
    if s != "" { RenderChars(s[1..]); }
  }

  lemma {:induction false} StartsWithRenders(ps: Pieces, s: string)
    requires StartsWith(ps, s)
    ensures |s| <= |ps| && Render(ps) == s + Render(ps[|s|..])
  {
    if s != "" {
      StartsWithRenders(ps[1..], s[1..]);
      var head, tail, after := [s[0]], s[1..], Render(ps[|s|..]);
      assert ps[1..][|tail|..] == ps[|s|..];
      Associative(head, tail, after);
    } else {
      assert ps[0..] == ps;
    }
  }

  // A prefix of the rendered text is made of characters up to the first token it meets.
  lemma {:induction false} PrefixMeetsToken(ps: Pieces, s: string) returns (j: nat)
    requires s <= Render(ps)
    ensures j <= |s| && j <= |ps| && StartsWith(ps, s[..j])
    ensures j == |s| ==> StartsWith(ps, s)
    ensures j < |s| ==> j < |ps| && ps[j].Tok? && s[j..] <= Render(ps[j..])
  {
    if s == "" || ps == [] || ps[0].Tok? {
      j := 0;
      assert s[0..] == s && ps[0..] == ps;
    } else {
      assert Render(ps)[1..] == Render(ps[1..]);
      j := PrefixMeetsToken(ps[1..], s[1..]);
      assert s[..j + 1][1..] == s[1..][..j] && s[1..][j..] == s[j + 1..] && ps[1..][j..] == ps[j + 1..];
      j := j + 1;
    }
  }

  // -------------------------------------------------------------------------
  // One replacement of a path by its token
  // -------------------------------------------------------------------------

  ghost predicate NamesValid(ps: Pieces) {
    forall p :: p in ps && p.Tok? ==> ValidName(p.name)
  }

  /** The path's tail is neither the start of a marker nor the start of a token. */
  ghost predicate Clashes(value: string, j: nat)
    requires j <= |value|
  {
    value[j..] <= MARKER || MARKER <= value[j..]
  }

  /** A text that cannot begin inside a token, nor complete what one is waiting for. */
  predicate Inert(value: string) {
    value != "" && !TokenChar(value[0])
  }

  /** Occurrences of the path can neither begin inside a token nor run into one. */
  ghost predicate TokenSafe(value: string) {
    && Inert(value)
    && (forall j :: 0 < j < |value| ==> !Clashes(value, j))
  }

  /** The same replacement on pieces: a run of characters becomes one token. */
  function Swap(ps: Pieces, value: string, tok: Piece): Pieces
    requires value != ""
  {
    if ps == [] then []
    else if StartsWith(ps, value) then
      if |value| <= |ps| then [tok] + Swap(ps[|value|..], value, tok) else []
    else [ps[0]] + Swap(ps[1..], value, tok)
  }

  lemma TokenChars(p: Piece)
    requires p.Tok? && ValidName(p.name)
    ensures forall i :: 0 <= i < |Text(p)| ==> TokenChar(Text(p)[i])
  {
    var t := Token(p.name);
    forall i | 0 <= i < |t| ensures TokenChar(t[i]) {
      if i < |MARKER| {
        assert t[i] == MARKER[i];
      } else if i < |MARKER| + |p.name| {
        assert t[i] == p.name[i - |MARKER|];
      }
    }
  }

  // Text that cannot begin or run into a token is made of characters wherever it occurs.
  lemma CharactersOnly(ps: Pieces, s: string)
    requires s <= Render(ps)
    requires forall j :: 0 < j < |s| ==> !Clashes(s, j)
    requires s == "" || !Clashes(s, 0) || (ps != [] && ps[0].Ch?)
    ensures StartsWith(ps, s)
  {
    var j := PrefixMeetsToken(ps, s);
    if j < |s| {
      assert MARKER <= Render(ps[j..]);
      assert Clashes(s, j);
    }
  }

  /** An occurrence of the path would begin here and run into a token. */
  ghost predicate MeetsToken(ps: Pieces, value: string) {
    exists j :: 0 < j < |value| && j < |ps| && Clashes(value, j) && StartsWith(ps, value[..j]) && ps[j].Tok?
  }

  ghost predicate NeverMeets(ps: Pieces, value: string) {
    ps == [] || (!MeetsToken(ps, value) && NeverMeets(ps[1..], value))
  }

  lemma {:induction false} NeverMeetsTail(ps: Pieces, value: string, u: nat)
    requires NeverMeets(ps, value) && u <= |ps|
    ensures NeverMeets(ps[u..], value)
  {
    if u == 0 {
      assert ps[0..] == ps;
    } else {
      NeverMeetsTail(ps[1..], value, u - 1);
      assert ps[1..][u - 1..] == ps[u..];
    }
  }

  lemma OccurrencesAreWhole(ps: Pieces, value: string)
    requires Inert(value) && !MeetsToken(ps, value)
    ensures value <= Render(ps) <==> StartsWith(ps, value)
  {
    if StartsWith(ps, value) {
      StartsWithRenders(ps, value);
    }
    if value <= Render(ps) {
      var j := PrefixMeetsToken(ps, value);
      if j < |value| { TokenBegins(ps, value, j); }
    }
  }

  lemma TokenBegins(ps: Pieces, value: string, j: nat)
    requires Inert(value) && j < |value| && j < |ps| && StartsWith(ps, value[..j])
    requires ps[j].Tok? && value[j..] <= Render(ps[j..])
    ensures MeetsToken(ps, value)
  {
    assert MARKER <= Render(ps[j..]) && MARKER[0] == '_';
    assert value[j..][0] == value[j] == '_';
    assert Clashes(value, j);
  }

  lemma {:induction false} SwapText(ps: Pieces, value: string, tok: Piece)
    requires Inert(value) && NamesValid(ps) && NeverMeets(ps, value)
    ensures Replace(Render(ps), value, Text(tok)) == Render(Swap(ps, value, tok))
    decreases |ps|
  {
    hide MeetsToken;
    var s, t := Render(ps), Text(tok);
    if ps == [] {
      return;
    }
    OccurrencesAreWhole(ps, value);
    if StartsWith(ps, value) {
      StartsWithRenders(ps, value);
      NeverMeetsTail(ps, value, |value|);
      assert s[|value|..] == Render(ps[|value|..]);
      SwapText(ps[|value|..], value, tok);
    } else {
      var a, b := Text(ps[0]), Render(ps[1..]);
      SwapText(ps[1..], value, tok);
      forall i | 0 <= i < |a| ensures !(value <= a[i..] + b) {
        if ps[0].Tok? {
          TokenChars(ps[0]);
          assert (a[i..] + b)[0] == a[i];
        } else {
          assert a[i..] == a;
        }
      }
      SkipUnmatched(a, b, value, t);
    }
  }

  // -------------------------------------------------------------------------
  // The code that pieces spell
  // -------------------------------------------------------------------------

  /** One `replaceAll` of a chain: a path against the token that stands for it. */
  datatype Step = Step(value: string, tok: Piece)

  predicate Opens(step: Step, p: Piece, s: string) {
    step.tok == p && step.value <= s
  }

  /** The text comes from the pieces when each token is written out as a path it was made from. */
  ghost predicate Spells(ps: Pieces, s: string, steps: seq<Step>) {
    if ps == [] then s == ""
    else if ps[0].Ch? then s != "" && s[0] == ps[0].c && Spells(ps[1..], s[1..], steps)
    else exists step :: step in steps && Opens(step, ps[0], s) && Spells(ps[1..], s[|step.value|..], steps)
  }

  lemma {:induction false} CharsSpell(s: string, steps: seq<Step>)
    ensures Spells(Chars(s), s, steps)
  {
    if s != "" { CharsSpell(s[1..], steps); }
  }

  lemma {:induction false} SpellsMore(ps: Pieces, s: string, steps: seq<Step>, more: seq<Step>)
    requires Spells(ps, s, steps) && forall step :: step in steps ==> step in more
    ensures Spells(ps, s, more)
  {
    if ps != [] && ps[0].Ch? {
      SpellsMore(ps[1..], s[1..], steps, more);
    } else if ps != [] {
      var step :| step in steps && Opens(step, ps[0], s) && Spells(ps[1..], s[|step.value|..], steps);
      SpellsMore(ps[1..], s[|step.value|..], steps, more);
    }
  }

  lemma {:induction false} SpellsStart(ps: Pieces, s: string, t: string, steps: seq<Step>)
    requires Spells(ps, s, steps) && StartsWith(ps, t)
    ensures |t| <= |ps| && t <= s && Spells(ps[|t|..], s[|t|..], steps)
  {
    if t != "" {
      SpellsStart(ps[1..], s[1..], t[1..], steps);
      assert ps[1..][|t| - 1..] == ps[|t|..] && s[1..][|t| - 1..] == s[|t|..];
    } else {
      assert ps[0..] == ps && s[0..] == s;
    }
  }

  /** Every replacement of a path by its token keeps what is spelled. */
  lemma {:induction false} SwapKeepsSpelling(ps: Pieces, s: string, step: Step, steps: seq<Step>)
    requires Spells(ps, s, steps) && step in steps && step.value != "" && step.tok.Tok?
    ensures Spells(Swap(ps, step.value, step.tok), s, steps)
    decreases |ps|
  {
    var qs := Swap(ps, step.value, step.tok);
    if ps == [] {
    } else if StartsWith(ps, step.value) {
      SpellsStart(ps, s, step.value, steps);
      SwapKeepsSpelling(ps[|step.value|..], s[|step.value|..], step, steps);
      assert qs[1..] == Swap(ps[|step.value|..], step.value, step.tok) && Opens(step, qs[0], s);
    } else if ps[0].Ch? {
      SwapKeepsSpelling(ps[1..], s[1..], step, steps);
      assert qs[1..] == Swap(ps[1..], step.value, step.tok);
    } else {
      var made :| made in steps && Opens(made, ps[0], s) && Spells(ps[1..], s[|made.value|..], steps);
      SwapKeepsSpelling(ps[1..], s[|made.value|..], step, steps);
      assert qs[1..] == Swap(ps[1..], step.value, step.tok) && Opens(made, qs[0], s);
    }
  }

  lemma ContainsHere(s: string, sub: string)
    requires sub <= s
    ensures Contains(s, sub)
  {
    assert s[0..] == s;
  }

  lemma ContainsTail(s: string, k: nat, sub: string)
    requires k <= |s| && Contains(s[k..], sub)
    ensures Contains(s, sub)
  {
    assert s == s[..k] + s[k..];
    ContainsAfter(s[..k], s[k..], sub);
  }

  /** In the text, the first part of the path is followed by the value of some step. */
  ghost predicate RunsOn(s: string, value: string, steps: seq<Step>) {
    exists j, step :: 0 < j < |value| && Clashes(value, j) && step in steps && Contains(s, value[..j] + step.value)
  }

  lemma MeetsInTheText(ps: Pieces, s: string, value: string, steps: seq<Step>)
    requires Spells(ps, s, steps) && MeetsToken(ps, value)
    ensures RunsOn(s, value, steps)
  {
    hide Clashes;
    var j :| 0 < j < |value| && j < |ps| && Clashes(value, j) && StartsWith(ps, value[..j]) && ps[j].Tok?;
    SpellsStart(ps, s, value[..j], steps);
    assert ps[j..][0] == ps[j];
    var step :| step in steps && Opens(step, ps[j], s[j..]);
    assert value[..j] + step.value <= s[0..];
    assert Contains(s, value[..j] + step.value);
  }

  lemma RunsOnTail(s: string, k: nat, value: string, steps: seq<Step>)
    requires k <= |s| && RunsOn(s[k..], value, steps)
    ensures RunsOn(s, value, steps)
  {
    var j, step :| 0 < j < |value| && Clashes(value, j) && step in steps && Contains(s[k..], value[..j] + step.value);
    ContainsTail(s, k, value[..j] + step.value);
  }

  lemma {:induction false} SpelledNeverMeets(ps: Pieces, s: string, value: string, steps: seq<Step>)
    requires Spells(ps, s, steps) && !RunsOn(s, value, steps)
    ensures NeverMeets(ps, value)
  {
    hide RunsOn, MeetsToken;
    if ps != [] {
      if MeetsToken(ps, value) { MeetsInTheText(ps, s, value, steps); }
      var k := 1;
      if ps[0].Tok? {
        var step :| step in steps && Opens(step, ps[0], s) && Spells(ps[1..], s[|step.value|..], steps);
        k := |step.value|;
      }
      if RunsOn(s[k..], value, steps) { RunsOnTail(s, k, value, steps); }
      SpelledNeverMeets(ps[1..], s[k..], value, steps);
    }
  }

  // -------------------------------------------------------------------------
  // What the pieces stand for
  // -------------------------------------------------------------------------

  /** A path in its two spellings. */
  datatype Site = Site(href: string, path: string)

  type Book = map<string, Site>

  function Value(book: Book, p: Piece): string {
    match p
    case Ch(c) => [c]
    case Tok(name, form) =>
      if name !in book then Text(p) else if form == Href then book[name].href else book[name].path
  }

  function Expand(ps: Pieces, book: Book): string {
    if ps == [] then "" else Value(book, ps[0]) + Expand(ps[1..], book)
  }

  lemma {:induction false} StartsWithExpands(ps: Pieces, s: string, book: Book)
    requires StartsWith(ps, s)
    ensures |s| <= |ps| && Expand(ps, book) == s + Expand(ps[|s|..], book)
  {
    if s != "" {
      StartsWithExpands(ps[1..], s[1..], book);
      assert ps[1..][|s| - 1..] == ps[|s|..];
      OneMoreChar(ps, s, Expand(ps[|s|..], book), book);
    } else {
      assert ps[0..] == ps;
    }
  }

  lemma OneMoreChar(ps: Pieces, s: string, after: string, book: Book)
    requires s != "" && ps != [] && ps[0] == Ch(s[0]) && Expand(ps[1..], book) == s[1..] + after
    ensures Expand(ps, book) == s + after
  {
    Associative([s[0]], s[1..], after);
    assert [s[0]] + s[1..] == s;
  }

  lemma {:induction false} ExpandChars(s: string, book: Book)
    ensures Expand(Chars(s), book) == s
  {
    if s != "" { ExpandChars(s[1..], book); }
  }

  /** Of every path that occurs in the text, the book's spelling for its token is that path. */
  ghost predicate Honest(s: string, steps: seq<Step>, book: Book) {
    forall step :: step in steps && Contains(s, step.value) ==> step.value == Value(book, step.tok)
  }

  lemma HonestTail(s: string, k: nat, steps: seq<Step>, book: Book)
    requires Honest(s, steps, book) && k <= |s|
    ensures Honest(s[k..], steps, book)
  {
    forall step | step in steps && Contains(s[k..], step.value) ensures step.value == Value(book, step.tok) {
      ContainsTail(s, k, step.value);
    }
  }

  lemma HonestHere(s: string, step: Step, steps: seq<Step>, book: Book)
    requires Honest(s, steps, book) && step in steps && step.value <= s
    ensures Value(book, step.tok) == s[..|step.value|]
  {
    ContainsHere(s, step.value);
  }

  /** Where the book is honest about the text, the expansion is what is spelled. */
  lemma {:induction false} SpelledExpands(ps: Pieces, s: string, steps: seq<Step>, book: Book)
    requires Spells(ps, s, steps) && Honest(s, steps, book)
    ensures Expand(ps, book) == s
  {
    hide Honest, Value;
    if ps != [] {
      var k := 1;
      if ps[0].Tok? {
        var step :| step in steps && Opens(step, ps[0], s) && Spells(ps[1..], s[|step.value|..], steps);
        HonestHere(s, step, steps, book);
        k := |step.value|;
      } else {
        CharValue(ps[0], book);
      }
      assert s == s[..k] + s[k..];
      HonestTail(s, k, steps, book);
      SpelledExpands(ps[1..], s[k..], steps, book);
    }
  }

  lemma CharValue(p: Piece, book: Book)
    requires p.Ch?
    ensures Value(book, p) == [p.c]
  {}

  // -------------------------------------------------------------------------
  // What follows a token
  // -------------------------------------------------------------------------

  predicate Follows(ps: Pieces, s: string) {
    ps != [] && ps[0].Tok? && ps[0].form == Plain && StartsWith(ps[1..], s)
  }

  /** No plain token is followed by the text. */
  predicate Never(ps: Pieces, s: string) {
    ps == [] || (!Follows(ps, s) && Never(ps[1..], s))
  }

  /** No plain token is followed by the text that would turn it into a URL token. */
  predicate Unambiguous(ps: Pieces) {
    Never(ps, URL)
  }

  /** No plain token is followed by the rest of a token of that name, which its underscores would begin. */
  predicate Separated(ps: Pieces, name: string) {
    Never(ps, CORE + name) && Never(ps, HALF + name)
  }

  /** The pieces a reader of the rendered text sees. */
  function Reread(ps: Pieces): Pieces {
    if ps == [] then []
    else if Follows(ps, URL) && |ps| >= 5 then [Tok(ps[0].name, Href)] + Reread(ps[5..])
    else [ps[0]] + Reread(ps[1..])
  }

  lemma {:induction false} RereadRenders(ps: Pieces)
    ensures Render(Reread(ps)) == Render(ps)
    decreases |ps|
  {
    if ps != [] && Follows(ps, URL) {
      StartsWithRenders(ps[1..], URL);
      assert ps[1..][4..] == ps[5..];
      RereadRenders(ps[5..]);
      Associative(Token(ps[0].name), URL, Render(ps[5..]));
    } else if ps != [] {
      RereadRenders(ps[1..]);
    }
  }

  lemma {:induction false} RereadStart(ps: Pieces, s: string)
    requires StartsWith(Reread(ps), s)
    ensures StartsWith(ps, s)
    decreases |s|
  {
    if s != "" {
      if Follows(ps, URL) { StartsWithRenders(ps[1..], URL); }
      assert Reread(ps)[1..] == Reread(ps[1..]);
      RereadStart(ps[1..], s[1..]);
    }
  }

  lemma {:induction false} RereadIsUnambiguous(ps: Pieces)
    ensures Unambiguous(Reread(ps))
    ensures Unambiguous(ps) ==> Reread(ps) == ps
    decreases |ps|
  {
    if ps != [] && Follows(ps, URL) {
      StartsWithRenders(ps[1..], URL);
      RereadIsUnambiguous(ps[5..]);
      assert Reread(ps)[1..] == Reread(ps[5..]);
    } else if ps != [] {
      RereadIsUnambiguous(ps[1..]);
      assert Reread(ps)[1..] == Reread(ps[1..]);
      if StartsWith(Reread(ps[1..]), URL) { RereadStart(ps[1..], URL); }
    }
  }

  lemma {:induction false} RereadNever(ps: Pieces, s: string)
    requires Never(ps, s)
    ensures Never(Reread(ps), s)
    decreases |ps|
  {
    if ps != [] && Follows(ps, URL) {
      StartsWithRenders(ps[1..], URL);
      NeverTail(ps, s, 5);
      RereadNever(ps[5..], s);
      assert Reread(ps)[1..] == Reread(ps[5..]);
    } else if ps != [] {
      RereadNever(ps[1..], s);
      assert Reread(ps)[1..] == Reread(ps[1..]);
      if StartsWith(Reread(ps[1..]), s) { RereadStart(ps[1..], s); }
    }
  }

  lemma {:induction false} NeverTail(ps: Pieces, s: string, u: nat)
    requires Never(ps, s) && u <= |ps|
    ensures Never(ps[u..], s)
  {
    if u == 0 {
      assert ps[0..] == ps;
    } else {
      NeverTail(ps[1..], s, u - 1);
      assert ps[1..][u - 1..] == ps[u..];
    }
  }

  lemma {:induction false} RereadNames(ps: Pieces)
    ensures forall p :: p in Reread(ps) && p.Tok? ==> exists q :: q in ps && q.Tok? && q.name == p.name
    decreases |ps|
  {
    if ps != [] {
      var n := if Follows(ps, URL) && |ps| >= 5 then 5 else 1;
      RereadNames(ps[n..]);
      forall p | p in Reread(ps) && p.Tok? ensures exists q :: q in ps && q.Tok? && q.name == p.name {
        if p in Reread(ps[n..]) {
          var q :| q in ps[n..] && q.Tok? && q.name == p.name;
          assert q in ps;
        } else {
          assert ps[0] in ps;
        }
      }
    }
  }

  // -------------------------------------------------------------------------
  // One replacement of a token by its path
  // -------------------------------------------------------------------------

  /** No run of characters spells the text. */
  ghost predicate Nowhere(ps: Pieces, s: string) {
    ps == [] || (!StartsWith(ps, s) && Nowhere(ps[1..], s))
  }

  lemma {:induction false} RunExpands(ps: Pieces, run: string, book: Book)
    requires !Nowhere(ps, run)
    ensures Contains(Expand(ps, book), run)
  {
    var s, value := Expand(ps, book), Value(book, ps[0]);
    if StartsWith(ps, run) {
      StartsWithExpands(ps, run, book);
      assert run <= s[0..];
    } else {
      RunExpands(ps[1..], run, book);
      ContainsAfter(value, Expand(ps[1..], book), run);
    }
  }

  /** The same replacement on pieces: one token becomes a run of characters. */
  function Fill(ps: Pieces, tok: Piece, value: string): Pieces {
    if ps == [] then []
    else (if ps[0] == tok then Chars(value) else [ps[0]]) + Fill(ps[1..], tok, value)
  }

  lemma MarkerDoubles(k: nat)
    requires 0 < k < |MARKER| - 1
    ensures MARKER[k] != '_' || MARKER[k + 1] != '_'
  {}

  /** The rest of a token whose first underscores, all but `u` of them, are another token's last. */
  predicate TokenRest(s: string, u: nat, name: string, end: string) {
    u <= 2 && ValidName(name) && (end == "" || end == "__" + URL) && s == MARKER[2 - u..] + name + end
  }

  lemma RestHasOneMarker(s: string, u: nat, name: string, end: string, j: nat)
    requires TokenRest(s, u, name, end) && j < |s| && (u == 2 ==> j > 0)
    ensures s[j] != '_' || (j + 1 < |s| && s[j + 1] != '_') || (j + 2 < |s| && s[j + 2] == ':')
  {
    var m, k := MARKER[2 - u..], 2 - u + j;
    if j + 1 < |m| {
      assert s[j] == m[j] == MARKER[k] && s[j + 1] == m[j + 1] == MARKER[k + 1];
      MarkerDoubles(k);
    } else if j < |m| {
      assert s[j + 1] == name[0];
    } else if j < |m| + |name| {
      assert s[j] == name[j - |m|];
    } else {
      assert s[j] == end[j - |m| - |name|];
    }
  }

  lemma DoublesClash(s: string, j: nat)
    requires j < |s| && Clashes(s, j)
    ensures s[j] == '_' && (j + 1 < |s| ==> s[j + 1] == '_') && (j + 2 < |s| ==> s[j + 2] != ':')
  {
    assert s[j..][0] == s[j] && MARKER[0] == MARKER[1] == '_' && MARKER[2] != ':';
    assert j + 1 < |s| ==> s[j..][1] == s[j + 1];
    assert j + 2 < |s| ==> s[j..][2] == s[j + 2];
  }

  // The rest of a token ahead is spelled by characters.
  lemma RestAhead(ps: Pieces, s: string, u: nat, name: string, end: string)
    requires TokenRest(s, u, name, end) && s <= Render(ps)
    requires u == 2 ==> ps != [] && ps[0].Ch?
    ensures StartsWith(ps, s)
  {
    hide StartsWith, Render;
    forall j | 0 <= j < |s| && (u == 2 ==> j > 0) ensures !Clashes(s, j) {
      hide Clashes;
      RestHasOneMarker(s, u, name, end, j);
      if Clashes(s, j) { DoublesClash(s, j); }
    }
    CharactersOnly(ps, s);
  }

  lemma {:induction false} StartsWithPrefix(ps: Pieces, s: string, t: string)
    requires StartsWith(ps, s + t)
    ensures StartsWith(ps, s)
  {
    if s != "" {
      assert (s + t)[1..] == s[1..] + t;
      StartsWithPrefix(ps[1..], s[1..], t);
    }
  }

  lemma MarkerTails()
    ensures MARKER[0..] == MARKER && MARKER[1..] == HALF && MARKER[2..] == CORE
  {}

  lemma {:induction false} NowhereTail(ps: Pieces, s: string, u: nat)
    requires Nowhere(ps, s) && u <= |ps|
    ensures Nowhere(ps[u..], s)
  {
    if u == 0 {
      assert ps[0..] == ps;
    } else {
      NowhereTail(ps[1..], s, u - 1);
      assert ps[1..][u - 1..] == ps[u..];
    }
  }

  // Names hold no underscore, so no token's text is a prefix of another name's.
  lemma TokensArePrefixFree(p: Piece, q: Piece, t: string)
    requires p.Tok? && q.Tok? && ValidName(p.name) && ValidName(q.name)
    requires Text(p) <= t && Text(q) <= t && |p.name| <= |q.name|
    ensures p.name == q.name
  {
    var a, b, m := p.name, q.name, |MARKER|;
    TokenCharAt(p, m + |a|);
    assert t[m + |a|] == Text(p)[m + |a|] == '_';
    if |a| < |b| {
      TokenCharAt(q, m + |a|);
    }
    forall k | 0 <= k < |a| ensures a[k] == b[k] {
      TokenCharAt(p, m + k);
      TokenCharAt(q, m + k);
      assert t[m + k] == Text(p)[m + k] == Text(q)[m + k];
    }
  }

  /** Where a token's text matches at the start of a token, it is that token. */
  lemma MatchesAtToken(ps: Pieces, tok: Piece)
    requires ps != [] && ps[0].Tok? && tok.Tok? && ValidName(ps[0].name) && ValidName(tok.name)
    requires Text(tok) <= Render(ps)
    ensures tok.name == ps[0].name
    ensures tok.form == Href && ps[0].form == Plain ==> Follows(ps, URL)
  {
    var p, t := ps[0], Render(ps);
    if |p.name| <= |tok.name| {
      TokensArePrefixFree(p, tok, t);
    } else {
      TokensArePrefixFree(tok, p, t);
    }
    if tok.form == Href && p.form == Plain {
      var n := |Token(p.name)|;
      assert t[n..] == Render(ps[1..]) && Text(tok)[n..] == URL;
      UrlIsCharacters(ps[1..]);
    }
  }

  lemma UrlIsCharacters(ps: Pieces)
    requires URL <= Render(ps)
    ensures StartsWith(ps, URL)
  {
    forall j | 0 <= j < |URL| ensures !Clashes(URL, j) {
      assert URL[j..][0] == URL[j] && MARKER[0] == '_';
    }
    CharactersOnly(ps, URL);
  }

  lemma TokenCharAt(p: Piece, k: nat)
    requires p.Tok? && k < |Text(p)|
    ensures |Text(p)| == |MARKER| + |p.name| + 2 + (if p.form == Href then |URL| else 0)
    ensures k < |MARKER| ==> Text(p)[k] == MARKER[k]
    ensures |MARKER| <= k < |MARKER| + |p.name| ==> Text(p)[k] == p.name[k - |MARKER|]
    ensures |MARKER| + |p.name| <= k < |MARKER| + |p.name| + 2 ==> Text(p)[k] == '_'
    ensures k == |MARKER| + |p.name| + 2 ==> Text(p)[k] == ':'
    ensures k > |MARKER| + |p.name| + 2 ==> Text(p)[k] != '_'
    ensures k >= |MARKER| + |p.name| + 2 ==> p.form == Href
  {}

  /** A token's text without its marker. */
  function Ending(tok: Piece): string
    requires tok.Tok?
  {
    tok.name + "__" + if tok.form == Href then URL else ""
  }

  lemma EndingIsRest(tok: Piece)
    requires tok.Tok?
    ensures Text(tok) == MARKER + Ending(tok)
  {}

  /** Another token does not go on, after this one's underscores, as the given one. */
  ghost predicate Free(ps: Pieces, tok: Piece)
    requires tok.Tok? && ps != []
  {
    ps[0].Tok? && ps[0].form == Plain ==>
      !(CORE + Ending(tok) <= Render(ps[1..])) && !(HALF + Ending(tok) <= Render(ps[1..]))
  }

  /** A marker that begins past a token's first character begins with its last underscores. */
  lemma OverlapIsShort(p: Piece, s: string, rest: string, i: nat)
    requires p.Tok? && ValidName(p.name) && MARKER <= s && 0 < i < |Text(p)| && s <= Text(p)[i..] + rest
    ensures p.form == Plain && |Text(p)| - i <= 2
  {
    hide Text;
    var a, t := Text(p), Text(p)[i..] + rest;
    assert t[0] == s[0] == MARKER[0] == '_' && t[1] == s[1] == MARKER[1] == '_' && t[2] == s[2] == MARKER[2] == 'D';
    assert t[0] == a[i];
    TokenCharAt(p, i);
    if i + 1 < |a| {
      assert t[1] == a[i + 1];
      TokenCharAt(p, i + 1);
      MarkerUnderscores(p, i);
    }
    if i + 2 < |a| {
      assert t[2] == a[i + 2];
      TokenCharAt(p, i + 2);
    }
  }

  /** A token whose text begins past another one's first character goes on after that one's underscores. */
  lemma OverlapGoesOn(ps: Pieces, tok: Piece, i: nat)
    requires ps != [] && ps[0].Tok? && ValidName(ps[0].name) && tok.Tok?
    requires 0 < i < |Text(ps[0])| && Text(tok) <= Text(ps[0])[i..] + Render(ps[1..])
    ensures !Free(ps, tok)
  {
    hide Render, ValidName, Text, Ending;
    var a, s, rest := Text(ps[0]), Text(tok), Render(ps[1..]);
    EndingIsRest(tok);
    OverlapIsShort(ps[0], s, rest, i);
    MarkerTails();
    RestOfPrefix(s, a, rest, i);
    DropFromFirst(MARKER, Ending(tok), |a| - i);
  }

  lemma RestOfPrefix(s: string, a: string, rest: string, i: nat)
    requires i <= |a| && |a| - i <= |s| && s <= a[i..] + rest
    ensures s[|a| - i..] <= rest
  {
    assert (a[i..] + rest)[|a| - i..] == rest;
  }

  lemma DropFromFirst<T>(a: seq<T>, b: seq<T>, k: nat)
    requires k <= |a|
    ensures (a + b)[k..] == a[k..] + b
  {}

  lemma MarkerUnderscores(p: Piece, i: nat)
    requires p.Tok? && ValidName(p.name) && 0 < i && i + 1 < |Text(p)|
    requires Text(p)[i] == Text(p)[i + 1] == '_'
    ensures i >= |MARKER| + |p.name|
  {
    TokenCharAt(p, i);
    TokenCharAt(p, i + 1);
  }

  /** No occurrence of the token's text begins in the first piece. */
  ghost predicate Unhit(ps: Pieces, tok: Piece)
    requires ps != []
  {
    forall i :: 0 <= i < |Text(ps[0])| ==> !(Text(tok) <= Text(ps[0])[i..] + Render(ps[1..]))
  }

  lemma CharUnhit(ps: Pieces, tok: Piece)
    requires ps != [] && ps[0].Ch? && tok.Tok? && ValidName(tok.name) && !StartsWith(ps, MARKER + tok.name)
    ensures Unhit(ps, tok)
  {
    hide StartsWith;
    var a, b := Text(ps[0]), Render(ps[1..]);
    assert a[0..] + b == Render(ps);
    if Text(tok) <= Render(ps) {
      EndingIsRest(tok);
      assert MARKER + tok.name <= Text(tok) && MARKER + tok.name == MARKER[0..] + tok.name + "";
      RestAhead(ps, MARKER + tok.name, 2, tok.name, "");
    }
  }

  lemma TokenAtHead(ps: Pieces, tok: Piece)
    requires ps != [] && ps[0].Tok? && ValidName(ps[0].name) && tok.Tok? && ValidName(tok.name)
    requires Text(tok) <= Text(ps[0])[0..] + Render(ps[1..])
    ensures tok.name == ps[0].name && (tok.form == Href && ps[0].form == Plain ==> Follows(ps, URL))
  {
    assert Text(ps[0])[0..] + Render(ps[1..]) == Render(ps);
    MatchesAtToken(ps, tok);
  }

  lemma TokenUnhit(ps: Pieces, tok: Piece)
    requires ps != [] && ps[0].Tok? && ValidName(ps[0].name) && tok.Tok? && ValidName(tok.name) && ps[0] != tok
    requires Free(ps, tok) && !Follows(ps, URL) && (ps[0].name == tok.name ==> tok.form == Href)
    ensures Unhit(ps, tok)
  {
    hide Free, Text;
    var a, b := Text(ps[0]), Render(ps[1..]);
    forall i | 0 <= i < |a| ensures !(Text(tok) <= a[i..] + b) {
      if Text(tok) <= a[i..] + b {
        if i > 0 { OverlapGoesOn(ps, tok, i); } else { TokenAtHead(ps, tok); }
      }
    }
  }

  lemma {:induction false} RenderAppend(a: Pieces, b: Pieces)
    ensures Render(a + b) == Render(a) + Render(b)
  {
    if a == [] {
      assert a + b == b;
    } else {
      assert (a + b)[1..] == a[1..] + b;
      RenderAppend(a[1..], b);
      Associative(Text(a[0]), Render(a[1..]), Render(b));
    }
  }

  lemma MatchedHead(a: string, b: string, rep: string)
    requires a != ""
    ensures Replace(a + b, a, rep) == rep + Replace(b, a, rep)
  {
    assert (a + b)[|a|..] == b;
  }

  /** Before the rest, the token's text occurs where the token stands and nowhere else. */
  ghost predicate NoHits(a: Pieces, b: Pieces, tok: Piece) {
    a == [] || ((a[0] == tok || Unhit(a + b, tok)) && NoHits(a[1..], b, tok))
  }

  lemma {:induction false} FillBefore(a: Pieces, b: Pieces, tok: Piece, value: string)
    requires tok.Tok? && NoHits(a, b, tok)
    ensures Replace(Render(a + b), Text(tok), value)
         == Render(Fill(a, tok, value)) + Replace(Render(b), Text(tok), value)
  {
    if a == [] {
      assert a + b == b;
    } else {
      var filled := FillHead(a, b, tok, value);
      hide Replace, Render, Fill, Text;
      FillBefore(a[1..], b, tok, value);
      Associative(filled, Render(Fill(a[1..], tok, value)), Replace(Render(b), Text(tok), value));
    }
  }

  lemma FillHead(a: Pieces, b: Pieces, tok: Piece, value: string) returns (filled: string)
    requires tok.Tok? && a != [] && NoHits(a, b, tok)
    ensures Replace(Render(a + b), Text(tok), value) == filled + Replace(Render(a[1..] + b), Text(tok), value)
    ensures Render(Fill(a, tok, value)) == filled + Render(Fill(a[1..], tok, value))
  {
    hide Replace, Unhit;
    DropFromFirst(a, b, 1);
    if a[0] == tok {
      filled := value;
      MatchedHead(Text(a[0]), Render(a[1..] + b), value);
      RenderChars(value);
      RenderAppend(Chars(value), Fill(a[1..], tok, value));
    } else {
      filled := Text(a[0]);
      UnhitIsSkipped(a + b, tok, value);
      RenderAppend([a[0]], Fill(a[1..], tok, value));
      assert Render([a[0]]) == Text(a[0]) + Render([]) == Text(a[0]);
    }
  }

  lemma UnhitIsSkipped(ps: Pieces, tok: Piece, value: string)
    requires tok.Tok? && ps != [] && Unhit(ps, tok)
    ensures Replace(Render(ps), Text(tok), value) == Text(ps[0]) + Replace(Render(ps[1..]), Text(tok), value)
  {
    SkipUnmatched(Text(ps[0]), Render(ps[1..]), Text(tok), value);
  }

  lemma {:induction false} ExpandAppend(a: Pieces, b: Pieces, book: Book)
    ensures Expand(a + b, book) == Expand(a, book) + Expand(b, book)
  {
    if a == [] {
      assert a + b == b;
    } else {
      assert (a + b)[1..] == a[1..] + b;
      ExpandAppend(a[1..], b, book);
      Associative(Value(book, a[0]), Expand(a[1..], book), Expand(b, book));
    }
  }

  /** Every replacement of a token by its path preserves the expansion. */
  lemma {:induction false} FillPreservesExpansion(ps: Pieces, tok: Piece, book: Book)
    ensures Expand(Fill(ps, tok, Value(book, tok)), book) == Expand(ps, book)
  {
    if ps != [] {
      FillPreservesExpansion(ps[1..], tok, book);
      var head, tail := if ps[0] == tok then Chars(Value(book, tok)) else [ps[0]], Fill(ps[1..], tok, Value(book, tok));
      ExpandAppend(head, tail, book);
      ExpandChars(Value(book, tok), book);
      assert Expand([ps[0]], book) == Value(book, ps[0]);
    }
  }

  lemma {:induction false} FillStart(ps: Pieces, tok: Piece, value: string, s: string)
    requires Inert(value) && (forall i :: 0 <= i < |s| ==> TokenChar(s[i]))
    requires StartsWith(Fill(ps, tok, value), s)
    ensures StartsWith(ps, s)
  {
    if s != "" && ps != [] {
      assert TokenChar(s[0]);
      if ps[0] != tok {
        assert Fill(ps, tok, value)[1..] == Fill(ps[1..], tok, value);
        FillStart(ps[1..], tok, value, s[1..]);
      }
    }
  }

  lemma {:induction false} CharsNever(s: string, ps: Pieces, t: string)
    requires Never(ps, t)
    ensures Never(Chars(s) + ps, t)
  {
    if s == "" {
      assert Chars(s) + ps == ps;
    } else {
      CharsNever(s[1..], ps, t);
      var all := Chars(s) + ps;
      assert all[0] == Ch(s[0]) && all[1..] == Chars(s[1..]) + ps;
    }
  }

  lemma {:induction false} FillNever(ps: Pieces, tok: Piece, value: string, t: string)
    requires Never(ps, t) && Inert(value) && forall i :: 0 <= i < |t| ==> TokenChar(t[i])
    ensures Never(Fill(ps, tok, value), t)
  {
    if ps != [] {
      FillNever(ps[1..], tok, value, t);
      var tail := Fill(ps[1..], tok, value);
      if ps[0] == tok {
        CharsNever(value, tail, t);
      } else {
        assert ([ps[0]] + tail)[1..] == tail;
        if StartsWith(tail, t) { FillStart(ps[1..], tok, value, t); }
      }
    }
  }

  lemma RestIsTokenChars(name: string)
    requires ValidName(name)
    ensures forall i :: 0 <= i < |CORE + name| ==> TokenChar((CORE + name)[i])
    ensures forall i :: 0 <= i < |HALF + name| ==> TokenChar((HALF + name)[i])
  {
    forall i | 0 <= i < |HALF + name| ensures TokenChar((HALF + name)[i]) {
      if i >= |HALF| { assert (HALF + name)[i] == name[i - |HALF|]; } else { assert (HALF + name)[i] == HALF[i]; }
    }
    forall i | 0 <= i < |CORE + name| ensures TokenChar((CORE + name)[i]) {
      assert (CORE + name)[i] == (HALF + name)[i + 1];
    }
  }

  lemma {:induction false} CharsHoldNoTokens(s: string)
    ensures forall p :: p in Chars(s) ==> p.Ch?
  {
    if s != "" { CharsHoldNoTokens(s[1..]); }
  }

  lemma {:induction false} FillTokens(ps: Pieces, tok: Piece, value: string)
    requires tok.Tok?
    ensures forall p: Piece :: p.Tok? ==> (p in Fill(ps, tok, value) <==> p in ps && p != tok)
  {
    if ps != [] {
      FillTokens(ps[1..], tok, value);
      CharsHoldNoTokens(value);
      assert ps == [ps[0]] + ps[1..];
    }
  }
}
