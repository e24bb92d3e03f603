// Exactly which modules of a build whose only path is its output come back, and modules
// of builds with one or two more paths that show how modules get lost.
module PathRoundTrips {
  import opened Common
  import opened PathPieces
  import opened PathTokens
  import opened PathReadings

  // -------------------------------------------------------------------------
  // A build with one path
  // -------------------------------------------------------------------------

  /** The rest of the output's URL token. */
  function UrlRest(name: string): string {
    name + "__" + URL
  }

  /** The module of a build whose only path is its output; a path and its URL begin differently. */
  ghost predicate Lone(code: string, o: Target) {
    && Publishable(code, o, [])
    && DollarPlain(o.href) && DollarPlain(o.path) && o.href[0] != o.path[0]
  }

  ghost function Only(o: Target): Book {
    map[o.name := Site(o.href, o.path)]
  }

  lemma LoneSteps(o: Target)
    ensures StoreSteps(o, []) == UrlAndPath(o) == ReadSteps(o, [])
  {}

  lemma LoneRead(text: string, o: Target)
    ensures var source := ReplaceAll(ReplaceAll(text, Token(o.name) + URL, o.href), Token(o.name), o.path);
            Read(text, o, []) == Checked(source)
  {
    hide ReplaceAll;
    LoneSteps(o);
    MaterializePair(text, [], o);
    assert [] + UrlAndPath(o) == UrlAndPath(o);
  }

  /** The tokens of pieces are the output's. */
  ghost predicate OnlyOf(ps: Pieces, o: Target) {
    forall p :: p in ps && p.Tok? ==> p.name == o.name
  }

  lemma LoneStored(code: string, o: Target)
    requires Lone(code, o)
    ensures Spelled(o, []) && Store(code, o, []) == Render(StoredPieces(code, o, []))
    ensures Expand(StoredPieces(code, o, []), Only(o)) == code
    ensures NamesValid(StoredPieces(code, o, [])) && OnlyOf(StoredPieces(code, o, []), o)
  {
    hide Render, Expand, Spells, RunsOn, Store, StoredPieces, NamesValid;
    StoredTokens(code, o, []);
    LoneSteps(o);
    SpelledExpands(StoredPieces(code, o, []), code, StoreSteps(o, []), Only(o));
  }

  /** A plain token is followed here by what makes it, or its last underscores, part of a URL token. */
  predicate BadHead(ps: Pieces, name: string) {
    Follows(ps, URL) || Follows(ps, CORE + UrlRest(name)) || Follows(ps, HALF + UrlRest(name))
  }

  ghost predicate GoodBefore(a: Pieces, b: Pieces, name: string) {
    a == [] || (!BadHead(a + b, name) && GoodBefore(a[1..], b, name))
  }

  predicate AllGood(ps: Pieces, name: string) {
    Never(ps, URL) && Never(ps, CORE + UrlRest(name)) && Never(ps, HALF + UrlRest(name))
  }

  /** Up to the first bad head, everything is good. */
  lemma {:induction false} FirstBad(ps: Pieces, name: string) returns (a: Pieces, b: Pieces)
    ensures ps == a + b && GoodBefore(a, b, name)
    ensures if AllGood(ps, name) then b == [] else b != [] && BadHead(b, name)
  {
    hide Follows;
    if ps == [] || BadHead(ps, name) {
      a, b := [], ps;
    } else {
      a, b := FirstBad(ps[1..], name);
      a := [ps[0]] + a;
      assert ps == a + b && a[1..] + b == ps[1..];
    }
  }

  lemma UrlRestAhead(ps: Pieces, o: Target)
    requires ps != [] && ps[0] == Tok(o.name, Plain) && ValidName(o.name) && !BadHead(ps, o.name)
    ensures Free(ps, Tok(o.name, Href))
  {
    hide Render, StartsWith;
    MarkerTails();
    var rest, core, half := Render(ps[1..]), CORE + UrlRest(o.name), HALF + UrlRest(o.name);
    assert Ending(Tok(o.name, Href)) == UrlRest(o.name);
    assert core == MARKER[2..] + o.name + ("__" + URL) && half == MARKER[1..] + o.name + ("__" + URL);
    if core <= rest { RestAhead(ps[1..], core, 0, o.name, "__" + URL); }
    if half <= rest { RestAhead(ps[1..], half, 1, o.name, "__" + URL); }
  }

  lemma GoodHeadUnhit(ps: Pieces, o: Target)
    requires ps != [] && ValidName(o.name) && NamesValid(ps) && OnlyOf(ps, o)
    requires Nowhere(ps, MARKER) && !BadHead(ps, o.name)
    ensures ps[0] == Tok(o.name, Href) || Unhit(ps, Tok(o.name, Href))
  {
    hide Unhit, StartsWith, Free;
    assert ps[0] in ps;
    if ps[0].Ch? {
      if StartsWith(ps, MARKER + o.name) { StartsWithPrefix(ps, MARKER, o.name); }
      CharUnhit(ps, Tok(o.name, Href));
    } else if ps[0].form == Plain {
      UrlRestAhead(ps, o);
      TokenUnhit(ps, Tok(o.name, Href));
    }
  }

  /** The first replacement acts on whole tokens up to the first bad head. */
  lemma {:induction false} UrlsAreWhole(a: Pieces, b: Pieces, o: Target)
    requires ValidName(o.name) && NamesValid(a + b) && OnlyOf(a + b, o) && Nowhere(a + b, MARKER) && GoodBefore(a, b, o.name)
    ensures NoHits(a, b, Tok(o.name, Href))
  {
    hide Unhit, BadHead, ValidName;
    if a != [] {
      DropFromFirst(a, b, 1);
      assert forall p :: p in (a + b)[1..] ==> p in a + b;
      UrlsAreWhole(a[1..], b, o);
      GoodHeadUnhit(a + b, o);
    }
  }

  lemma {:induction false} StartsAcross(q: Pieces, r: Pieces, s: string)
    requires StartsWith(q + r, s) && !StartsWith(q, s)
    ensures |q| < |s| && StartsWith(r, s[|q|..])
  {
    if q == [] {
      assert q + r == r && s[0..] == s;
    } else {
      DropFromFirst(q, r, 1);
      StartsAcross(q[1..], r, s[1..]);
      assert s[1..][|q| - 1..] == s[|q|..];
    }
  }

  /** What follows does not go on a marker: it begins with a character no token has, or with two underscores. */
  predicate Wall(text: string) {
    text != "" && (!TokenChar(text[0]) || (|text| >= 3 && text[0] == '_' && text[1] == '_' && text[2] != ':'))
  }

  lemma MarkerStopsAtWall(q: Pieces, text: string, name: string)
    requires ValidName(name) && q != [] && Wall(text) && StartsWith(q + Chars(text), MARKER + name)
    ensures StartsWith(q, MARKER + name)
  {
    hide StartsWith;
    var s := MARKER + name;
    if !StartsWith(q, s) {
      StartsAcross(q, Chars(text), s);
      CharsStart(text, s[|q|..]);
      WallIsNoMarker(text, name, |q|);
    }
  }

  lemma WallIsNoMarker(text: string, name: string, j: nat)
    requires ValidName(name) && Wall(text) && 0 < j < |MARKER + name|
    ensures !((MARKER + name)[j..] <= text)
  {
    var s, t := MARKER + name, (MARKER + name)[j..];
    assert s == MARKER[0..] + name + "";
    RestHasOneMarker(s, 2, name, "", j);
    TokenChars(Tok(name, Plain));
    assert s <= Text(Tok(name, Plain)) && TokenChar(s[j]);
    assert t[0] == s[j] && (j + 1 < |s| ==> t[1] == s[j + 1]) && (j + 2 < |s| ==> t[2] == s[j + 2]);
  }

  /** The second replacement acts on whole tokens before a wall. */
  lemma {:induction false} PathsAreWhole(a: Pieces, text: string, o: Target)
    requires ValidName(o.name) && Nowhere(a, MARKER) && (text == "" || Wall(text))
    requires forall p :: p in a && p.Tok? ==> p == Tok(o.name, Plain)
    ensures NoHits(a, Chars(text), Tok(o.name, Plain))
  {
    hide Unhit, StartsWith, Wall, ValidName;
    if a != [] {
      PathsAreWhole(a[1..], text, o);
      assert a[0] in a && (a + Chars(text))[0] == a[0];
      if a[0].Ch? {
        var s := MARKER + o.name;
        if StartsWith(a + Chars(text), s) {
          if text == "" { assert a + Chars(text) == a; } else { MarkerStopsAtWall(a, text, o.name); }
          StartsWithPrefix(a, MARKER, o.name);
        }
        CharUnhit(a + Chars(text), Tok(o.name, Plain));
      }
    }
  }

  // -------------------------------------------------------------------------
  // Good modules come back, and bad ones do not
  // -------------------------------------------------------------------------

  /** Filling in the URLs, and then the paths, of pieces before a wall. */
  lemma LoneFills(a: Pieces, text: string, o: Target)
    requires ValidName(o.name) && Inert(o.href) && Inert(o.path) && OnlyOf(a, o)
    requires !Contains(Expand(a, Only(o)), MARKER) && (text == "" || Wall(text))
    ensures Replace(Render(Fill(a, Tok(o.name, Href), o.href)) + text, Token(o.name), o.path)
         == Expand(a, Only(o)) + Replace(text, Token(o.name), o.path)
  {
    hide Wall, Contains, ValidName, Fill, Expand, Render, Replace, NoHits;
    var book, url, plain := Only(o), Tok(o.name, Href), Tok(o.name, Plain);
    var qs := Fill(a, url, o.href);
    FillPreservesExpansion(a, url, book);
    FillTokens(a, url, o.href);
    if !Nowhere(qs, MARKER) { RunExpands(qs, MARKER, book); }
    PathsAreWhole(qs, text, o);
    FillBefore(qs, Chars(text), plain, o.path);
    RenderAppend(qs, Chars(text));
    RenderChars(text);
    FillPreservesExpansion(qs, plain, book);
    FillTokens(qs, plain, o.path);
    TokenFreeRenders(Fill(qs, plain, o.path), book);
  }

  lemma GoodModuleReturns(code: string, o: Target)
    requires Lone(code, o) && !Contains(code, MARKER)
    requires AllGood(StoredPieces(code, o, []), o.name)
    ensures Read(Store(code, o, []), o, []) == Some(code)
  {
    hide Contains, Render, Expand, StoredPieces, Store, Replace, ReplaceAll, RunsOn, NamesValid, AllGood, NoHits;
    var ps, url := StoredPieces(code, o, []), Tok(o.name, Href);
    LoneStored(code, o);
    var a, b := FirstBad(ps, o.name);
    assert a + b == a == ps;
    if !Nowhere(ps, MARKER) { RunExpands(ps, MARKER, Only(o)); }
    UrlsAreWhole(a, b, o);
    FillBefore(a, b, url, o.href);
    ShortIsUnchanged("", Text(url), o.href);
    ShortIsUnchanged("", Token(o.name), o.path);
    LoneFills(ps, "", o);
    RenderChars("");
    assert Chars("") == [] && Render(Fill(a, url, o.href)) + "" == Render(Fill(a, url, o.href)) && code + "" == code;
    ReplaceAllIsReplace(Render(ps), Text(url), o.href);
    ReplaceAllIsReplace(Render(Fill(a, url, o.href)), Token(o.name), o.path);
    LoneRead(Store(code, o, []), o);
  }

  /** A token's text and, after it, the rest of another one that its last underscores, all but `u` of them, begin. */
  function Merged(name: string, u: nat, tok: Piece, rest: string): string
    requires u <= 1 && tok.Tok?
  {
    Token(name) + (MARKER[2 - u..] + Ending(tok) + rest)
  }

  /** A token's text without those underscores. */
  function Short(name: string, u: nat): string
    requires u <= 1
  {
    MARKER + name + if u == 0 then "" else "_"
  }

  lemma MergedCut(name: string, u: nat, tok: Piece, rest: string)
    requires u <= 1 && tok.Tok?
    ensures Merged(name, u, tok, rest) == Short(name, u) + (Text(tok) + rest)
  {
    hide Ending, Text;
    var x, m, after := Short(name, u), MARKER[2 - u..], Ending(tok) + rest;
    var dropped := MARKER[..2 - u];
    assert Token(name) == x + dropped;
    Associative(m, Ending(tok), rest);
    assert Merged(name, u, tok, rest) == x + dropped + (m + after);
    Associative(x, dropped, m + after);
    Associative(dropped, m, after);
    assert dropped + m == MARKER;
    EndingIsRest(tok);
    Associative(MARKER, Ending(tok), rest);
  }

  lemma MergedUnmatched(name: string, u: nat, tok: Piece, rest: string, i: nat)
    requires u <= 1 && tok.Tok? && ValidName(name) && ValidName(tok.name) && i < |Short(name, u)|
    requires name == tok.name ==> tok.form == Href
    ensures !(Text(tok) <= Short(name, u)[i..] + (Text(tok) + rest))
  {
    assert Text(Tok(name, Plain)) == Token(name) && |Short(name, u)| <= |Token(name)|;
    hide ValidName, Text, Ending;
    var x, h := Short(name, u), Text(tok);
    var after := MARKER[2 - u..] + Ending(tok) + rest;
    MergedCut(name, u, tok, rest);
    EndingIsRest(tok);
    DropFromAny(x, h + rest, i);
    DropFromAny(Token(name), after, i);
    if h <= x[i..] + (h + rest) {
      if i > 0 {
        OverlapIsShort(Tok(name, Plain), h, after, i);
      } else if name != tok.name {
        SameStart(name, tok, after);
      }
      MergedMismatch(name, u, tok, rest, i);
    }
  }

  lemma SameStart(name: string, tok: Piece, after: string)
    requires tok.Tok? && ValidName(name) && ValidName(tok.name) && Text(tok) <= Token(name)[0..] + after
    ensures name == tok.name
  {
    var p, t := Tok(name, Plain), Token(name)[0..] + after;
    assert Token(name)[0..] == Token(name) <= t;
    if |name| <= |tok.name| { TokensArePrefixFree(p, tok, t); } else { TokensArePrefixFree(tok, p, t); }
  }

  lemma DropFromAny(a: string, b: string, i: nat)
    requires i <= |a|
    ensures (a + b)[i..] == a[i..] + b
  {}

  lemma MergedMismatch(name: string, u: nat, tok: Piece, rest: string, i: nat)
    requires u <= 1 && tok.Tok? && i < |Short(name, u)|
    requires (i == 0 && name == tok.name && tok.form == Href) || i >= |MARKER + name|
    ensures !(Text(tok) <= Short(name, u)[i..] + (Text(tok) + rest))
  {
    var m, h := |MARKER + name|, Text(tok);
    var t := Short(name, u)[i..] + (h + rest);
    assert h[2] == MARKER[2] == 'D' && h[1] == MARKER[1] == '_';
    if i == 0 {
      assert h[m + 2] == ':' && t[m + 2] == (h + rest)[2 - u];
    } else {
      assert t[2] == (h + rest)[1];
    }
  }

  /** Where the first replacement goes wrong, it puts the URL in the place of the path, or after a token cut short. */
  predicate Wrong(x: string, name: string) {
    x == "" || x == MARKER + name || x == MARKER + name + "_"
  }

  lemma MergedReplaced(name: string, u: nat, tok: Piece, rest: string, value: string)
    requires u <= 1 && tok.Tok? && ValidName(name) && ValidName(tok.name) && (name == tok.name ==> tok.form == Href)
    ensures Replace(Merged(name, u, tok, rest), Text(tok), value)
         == Short(name, u) + (value + Replace(rest, Text(tok), value))
  {
    hide Replace, ValidName, Merged, Text, Short;
    forall i | 0 <= i < |Short(name, u)| ensures !(Text(tok) <= Short(name, u)[i..] + (Text(tok) + rest)) {
      MergedUnmatched(name, u, tok, rest, i);
    }
    MergedCut(name, u, tok, rest);
    SkipUnmatched(Short(name, u), Text(tok) + rest, Text(tok), value);
    MatchedHead(Text(tok), rest, value);
  }

  lemma UrlHeadReplaced(b: Pieces, o: Target) returns (y: string)
    requires b != [] && b[0] == Tok(o.name, Plain) && Follows(b, URL)
    ensures Replace(Render(b), Token(o.name) + URL, o.href) == o.href + y
  {
    hide Replace, StartsWith;
    var h := Token(o.name) + URL;
    StartsWithRenders(b[1..], URL);
    var rest := Render(b[1..][|URL|..]);
    Associative(Token(o.name), URL, rest);
    MatchedHead(h, rest, o.href);
    y := Replace(rest, h, o.href);
  }

  lemma MergedIsText(name: string, u: nat, tok: Piece, rest: string)
    requires u <= 1 && tok.Tok?
    ensures Merged(name, u, tok, rest) == Token(name) + (MARKER[2 - u..] + Ending(tok) + rest)
  {}

  lemma BadHeadReplaced(b: Pieces, o: Target) returns (x: string, y: string)
    requires b != [] && b[0] == Tok(o.name, Plain) && BadHead(b, o.name) && ValidName(o.name)
    ensures Wrong(x, o.name) && Replace(Render(b), Token(o.name) + URL, o.href) == x + (o.href + y)
  {
    hide Replace, StartsWith, ValidName;
    if Follows(b, URL) {
      x := "";
      y := UrlHeadReplaced(b, o);
      assert x + (o.href + y) == o.href + y;
    } else {
      MarkerTails();
      var u := if Follows(b, CORE + UrlRest(o.name)) then 0 else 1;
      var t := MARKER[2 - u..] + UrlRest(o.name);
      hide Follows, Merged;
      StartsWithRenders(b[1..], t);
      var rest, url := Render(b[1..][|t|..]), Tok(o.name, Href);
      assert Ending(url) == UrlRest(o.name) && Text(url) == Token(o.name) + URL;
      MergedIsText(o.name, u, url, rest);
      MergedReplaced(o.name, u, url, rest, o.href);
      x, y := Short(o.name, u), Replace(rest, Text(url), o.href);
    }
  }

  /** From there on the second replacement changes the first character no more. */
  lemma WrongStays(x: string, y: string, o: Target)
    requires ValidName(o.name) && Inert(o.href) && Wrong(x, o.name)
    ensures Wall(x + (o.href + y))
    ensures var q := Replace(x + (o.href + y), Token(o.name), o.path);
            q != "" && q[0] == if x == "" then o.href[0] else '_'
  {
    var s, t := x + (o.href + y), Token(o.name);
    assert t[0] == t[1] == '_' && t[2] == 'D' && s[|x|] == o.href[0];
    if x == "" {
      assert !(t <= s);
    } else {
      assert s[0] == '_' && s[1] == '_' && s[2] == 'D';
      assert |x| < |t| && t[|x|] == '_';
      assert !(t <= s);
    }
  }

  lemma DiffersAfter(e: string, a: string, b: string)
    requires a != "" && b != "" && a[0] != b[0]
    ensures e + a != e + b
  {
    assert (e + a)[|e|] == a[0] && (e + b)[|e|] == b[0];
  }

  lemma BadModuleDiffers(code: string, o: Target)
    requires Lone(code, o) && !Contains(code, MARKER)
    requires !AllGood(StoredPieces(code, o, []), o.name)
    ensures Read(Store(code, o, []), o, []) != Some(code)
  {
    hide Contains, Render, Expand, StoredPieces, Store, Replace, ReplaceAll, RunsOn, NamesValid, AllGood, NoHits,
         Wall, Wrong, BadHead, Fill;
    var ps, url := StoredPieces(code, o, []), Tok(o.name, Href);
    LoneStored(code, o);
    var a, b := FirstBad(ps, o.name);
    var e := Expand(a, Only(o));
    BadHeadIsPlain(b, o, ps);
    if !Nowhere(ps, MARKER) { RunExpands(ps, MARKER, Only(o)); }
    UrlsAreWhole(a, b, o);
    FillBefore(a, b, url, o.href);
    var x, y := BadHeadReplaced(b, o);
    WrongStays(x, y, o);
    ExpandAppend(a, b, Only(o));
    PathFirst(b, o);
    assert code[..|e|] == e;
    if Contains(e, MARKER) { ContainsFront(code, |e|, MARKER); }
    LoneFills(a, x + (o.href + y), o);
    ReplaceAllIsReplace(Render(ps), Text(url), o.href);
    ReplaceAllIsReplace(Render(Fill(a, url, o.href)) + (x + (o.href + y)), Token(o.name), o.path);
    LoneRead(Store(code, o, []), o);
    DiffersAfter(e, Replace(x + (o.href + y), Token(o.name), o.path), Expand(b, Only(o)));
  }

  lemma BadHeadIsPlain(b: Pieces, o: Target, ps: Pieces)
    requires b != [] && BadHead(b, o.name) && OnlyOf(ps, o) && forall p :: p in b ==> p in ps
    ensures b[0] == Tok(o.name, Plain)
  {
    assert b[0] in b;
  }

  lemma PathFirst(b: Pieces, o: Target)
    requires b != [] && b[0] == Tok(o.name, Plain) && o.path != ""
    ensures Expand(b, Only(o)) != "" && Expand(b, Only(o))[0] == o.path[0]
  {}

  lemma UrlRestIsTokenChars(name: string)
    requires ValidName(name)
    ensures forall i :: 0 <= i < |CORE + UrlRest(name)| ==> TokenChar((CORE + UrlRest(name))[i])
    ensures forall i :: 0 <= i < |HALF + UrlRest(name)| ==> TokenChar((HALF + UrlRest(name))[i])
  {
    var tok := Tok(name, Href);
    TokenChars(tok);
    EndingIsRest(tok);
    MarkerTails();
    DropFromFirst(MARKER, Ending(tok), 1);
    DropFromFirst(MARKER, Ending(tok), 2);
    assert Ending(tok) == UrlRest(name);
    hide Text, Ending, UrlRest, TokenChar;
    var h := Text(tok);
    forall i | 0 <= i < |h[1..]| ensures TokenChar(h[1..][i]) { assert h[1..][i] == h[i + 1]; }
    forall i | 0 <= i < |h[2..]| ensures TokenChar(h[2..][i]) { assert h[2..][i] == h[i + 2]; }
  }

  /**
   * A module of a build with one path comes back exactly when the marker is not in it,
   * and the path is nowhere found with ":url" after it, nor with the rest of a URL token
   * that the underscores of its own token would begin.
   */
  lemma LoneRoundTripIff(code: string, o: Target)
    requires Lone(code, o)
    ensures Read(Store(code, o, []), o, []) == Some(code)
       <==> && !Contains(code, MARKER) && !Follow(code, o, [], URL)
            && !Follow(code, o, [], CORE + UrlRest(o.name)) && !Follow(code, o, [], HALF + UrlRest(o.name))
  {
    hide Contains, Follow, StoredPieces, Store, Never, Lone;
    LoneIsPublishable(code, o);
    UrlIsTokenChars();
    UrlRestIsTokenChars(o.name);
    FollowIsNever(code, o, [], URL);
    FollowIsNever(code, o, [], CORE + UrlRest(o.name));
    FollowIsNever(code, o, [], HALF + UrlRest(o.name));
    if !Contains(code, MARKER) {
      if AllGood(StoredPieces(code, o, []), o.name) { GoodModuleReturns(code, o); } else { BadModuleDiffers(code, o); }
    }
  }

  lemma LoneIsPublishable(code: string, o: Target)
    requires Lone(code, o)
    ensures Publishable(code, o, []) && ValidName(o.name) && Inert(o.href) && Inert(o.path)
  {
    hide RunsOn;
    assert o in [o] + [];
  }

  // -------------------------------------------------------------------------
  // On the text alone
  // -------------------------------------------------------------------------

  /** No two occurrences of the path overlap. */
  predicate Borderless(path: string) {
    forall k :: 0 < k < |path| ==> !(path[k..] <= path)
  }

  lemma FindFirst(s: string, v: string, k: nat)
    requires v != "" && k <= |s| && v <= s[k..]
    ensures 0 <= Find(s, v) <= k
  {
    if k == 0 {
      assert s[0..] == s;
    } else if !(v <= s) {
      assert s[1..][k - 1..] == s[k..];
      FindFirst(s[1..], v, k - 1);
    }
  }

  lemma OverlapIsBorder(s: string, v: string, i: nat, k: nat)
    requires i < k < i + |v| && k <= |s| && v <= s[i..] && v <= s[k..]
    ensures v[k - i..] <= v
  {
    var d := k - i;
    assert v[d..] == s[i..][d..|v|] == s[k..][..|v| - d] == v[..|v| - d];
  }

  lemma NoOverlap(s: string, v: string, i: nat, k: nat)
    requires Borderless(v) && i < k <= |s| && v <= s[i..] && v <= s[k..]
    ensures i + |v| <= k
  {
    if k < i + |v| { OverlapIsBorder(s, v, i, k); }
  }

  lemma SpoiledOne(s: string, step: Step, t: string)
    requires step.value != "" && step.tok.Tok? && step.tok.form == Plain && Find(s, step.value) >= 0
    ensures var after := s[Find(s, step.value) + |step.value|..];
            Spoiled(s, [step], t) <==> t <= after || Spoiled(after, [step], t)
  {
    hide Find;
    assert [step][1..] == [];
  }

  /** A path that does not overlap itself is found with the text after it wherever it occurs with it. */
  lemma {:induction false} OccurrenceIsFound(s: string, step: Step, t: string, k: nat)
    requires step.value != "" && step.tok.Tok? && step.tok.form == Plain && Borderless(step.value)
    requires k <= |s| && step.value + t <= s[k..]
    ensures Spoiled(s, [step], t)
    decreases |s|
  {
    hide Borderless, Find, Spoiled;
    var v := step.value;
    assert v <= v + t;
    FindFirst(s, v, k);
    var i := Find(s, v);
    var after := s[i + |v|..];
    SpoiledOne(s, step, t);
    if i == k {
      assert (v + t)[|v|..] == t && s[k..][|v|..] == after;
    } else {
      NoOverlap(s, v, i, k);
      assert after[k - i - |v|..] == s[k..];
      OccurrenceIsFound(after, step, t, k - i - |v|);
    }
  }

  lemma FoundIsThere(s: string, v: string)
    requires v != "" && Find(s, v) >= 0
    ensures Contains(s, v)
  {
    var i := Find(s, v);
    assert v <= s[i..];
  }

  /** In code without the URL, being found is being there. */
  lemma FollowIsContains(code: string, o: Target, t: string)
    requires Lone(code, o) && !Contains(code, o.href) && Borderless(o.path)
    ensures Spelled(o, []) && (Follow(code, o, [], t) <==> Contains(code, o.path + t))
  {
    hide Contains, Borderless, Lone, Find;
    LoneIsPublishable(code, o);
    LoneSteps(o);
    if Find(code, o.href) >= 0 { FoundIsThere(code, o.href); }
    var steps := UrlAndPath(o);
    assert steps[1..] == [steps[1]];
    if Contains(code, o.path + t) {
      var k := Occurrence(code, o.path + t);
      OccurrenceIsFound(code, steps[1], t, k);
    }
    if Follow(code, o, [], t) { FollowedPath(code, o, [], t); }
  }

  lemma Occurrence(s: string, sub: string) returns (k: nat)
    requires Contains(s, sub)
    ensures k <= |s| && sub <= s[k..]
  {
    k :| k <= |s| && sub <= s[k..];
  }

  /** In code without the URL, the condition is on the text alone. */
  lemma LoneTextIff(code: string, o: Target)
    requires Lone(code, o) && !Contains(code, o.href) && Borderless(o.path)
    ensures Spelled(o, [])
    ensures Read(Store(code, o, []), o, []) == Some(code)
       <==> && !Contains(code, MARKER) && !Contains(code, o.path + URL)
            && !Contains(code, o.path + (CORE + UrlRest(o.name))) && !Contains(code, o.path + (HALF + UrlRest(o.name)))
  {
    hide Contains, Borderless, Lone, Follow, Store;
    LoneRoundTripIff(code, o);
    FollowIsContains(code, o, URL);
    FollowIsContains(code, o, CORE + UrlRest(o.name));
    FollowIsContains(code, o, HALF + UrlRest(o.name));
  }

  // -------------------------------------------------------------------------
  // Modules that get lost
  // -------------------------------------------------------------------------

  lemma CharOfMatch(s: string, pat: string, i: nat, c: char)
    requires i <= |s| && pat <= s[i..] && c in pat
    ensures c in s
  {
    var k :| 0 <= k < |pat| && pat[k] == c;
    assert s[i..][k] == s[i + k];
  }

  lemma {:induction false} AbsentChar(s: string, pat: string, rep: string, c: char)
    requires c in pat && c !in s
    ensures Replace(s, pat, rep) == s && !Contains(s, pat)
  {
    forall i | 0 <= i <= |s| ensures !(pat <= s[i..]) {
      if pat <= s[i..] { CharOfMatch(s, pat, i, c); }
    }
    assert s[0..] == s;
    if |s| >= |pat| { AbsentChar(s[1..], pat, rep, c); }
  }

  lemma {:induction false} AbsentIsUnchanged(s: string, pat: string, rep: string)
    requires pat != "" && !Contains(s, pat)
    ensures Replace(s, pat, rep) == s
  {
    assert s[0..] == s;
    if |s| >= |pat| {
      if Contains(s[1..], pat) { ContainsTail(s, 1, pat); }
      AbsentIsUnchanged(s[1..], pat, rep);
    }
  }

  lemma AbsentEverywhere(s: string, pat: string, rep: string)
    requires pat != "" && !Contains(s, pat) && DollarPlain(rep)
    ensures ReplaceAll(s, pat, rep) == s
  {
    ReplaceAllIsReplace(s, pat, rep);
    AbsentIsUnchanged(s, pat, rep);
  }

  lemma AbsentFromTokens(s: string, pat: string, rep: string)
    requires Inert(pat) && DollarPlain(rep) && forall i :: 0 <= i < |s| ==> TokenChar(s[i])
    ensures ReplaceAll(s, pat, rep) == s && Replace(s, pat, rep) == s
  {
    ReplaceAllIsReplace(s, pat, rep);
    AbsentChar(s, pat, rep, pat[0]);
  }

  /** A build with one input beside its output. */
  ghost predicate Pair(o: Target, k: Target) {
    && Spelled(o, [k]) && ValidName(o.name) && ValidName(k.name) && o.name != k.name
    && Inert(o.path) && Inert(k.path)
    && DollarPlain(o.href) && DollarPlain(o.path) && DollarPlain(k.href) && DollarPlain(k.path)
  }

  lemma StoreOne(code: string, o: Target, k: Target)
    requires Spelled(o, [k])
    ensures o.href != "" && o.path != "" && k.href != "" && k.path != ""
    ensures Store(code, o, [k])
         == TokenizeTarget(ReplaceAll(ReplaceAll(code, o.href, Token(o.name) + URL), o.path, Token(o.name)), k)
  {
    hide ReplaceAll, TokenizeTarget, TargetSteps, LongestFirst;
    assert o in [o] + [k] && k in [o] + [k];
    TokenizePair(code, [], o);
    var steps := [] + UrlAndPath(o);
    TokenizeTriple(code, steps, k);
    OneTarget(k, true);
    assert StoreSteps(o, [k]) == steps + StepsFor(k, true);
  }

  lemma OneTarget(k: Target, specifier: bool)
    ensures TargetSteps([k], specifier) == StepsFor(k, specifier)
    ensures LongestFirst([k], PathLength) == [k] == LongestFirst([k], TokenLength)
  {
    assert [k][..0] == [];
    SortOne(k, Longer(PathLength));
    SortOne(k, Longer(TokenLength));
  }

  lemma SortOne<T>(x: T, before: (T, T) -> bool)
    ensures Sort([x], before) == [x]
  {
    assert [x][..0] == [];
  }

  lemma ReadOne(text: string, o: Target, k: Target)
    ensures var half := ReplaceAll(ReplaceAll(text, Token(o.name) + URL, o.href), Token(o.name), o.path);
            var source := ReplaceAll(ReplaceAll(half, Token(k.name) + URL, k.href), Token(k.name), k.path);
            Read(text, o, [k]) == Checked(source)
  {
    hide ReplaceAll, Contains;
    MaterializePair(text, [], o);
    var steps := [] + UrlAndPath(o);
    MaterializePair(text, steps, k);
    OneTarget(k, false);
    assert ReadSteps(o, [k]) == steps + UrlAndPath(k);
  }

  lemma TokenTexts(name: string)
    requires ValidName(name)
    ensures DollarPlain(Token(name)) && DollarPlain(Token(name) + URL)
    ensures forall i :: 0 <= i < |Token(name)| ==> TokenChar(Token(name)[i]) && Token(name)[i] != ':'
  {
    TokenTextIsPlain(Tok(name, Plain));
    TokenTextIsPlain(Tok(name, Href));
    TokenChars(Tok(name, Plain));
    forall i | 0 <= i < |Token(name)| ensures Token(name)[i] != ':' { TokenCharAt(Tok(name, Plain), i); }
  }

  lemma NoTokenInShort(name: string, u: nat, after: string, tok: Piece, i: nat)
    requires u <= 1 && ValidName(name) && after != "" && !TokenChar(after[0])
    requires tok.Tok? && ValidName(tok.name) && i < |Short(name, u)|
    ensures !(Text(tok) <= Short(name, u)[i..] + after)
  {
    assert TokenChar('_');
    hide ValidName, TokenChar;
    var s, m, pat := Short(name, u), MARKER + name, Text(tok);
    var t := s[i..] + after;
    assert pat[0] == MARKER[0] == '_' && pat[1] == MARKER[1] == '_';
    if i == 0 {
      NotThisToken(name, u, after, tok);
    } else if i < |m| {
      assert m == MARKER[0..] + name + "";
      RestHasOneMarker(m, 2, name, "", i);
      assert t[0] == m[i] && (i + 1 < |m| ==> t[1] == m[i + 1]);
      NoColonIn(name, i);
    } else {
      assert t[1] == after[0];
    }
  }

  lemma NotThisToken(name: string, u: nat, after: string, tok: Piece)
    requires u <= 1 && ValidName(name) && after != "" && !TokenChar(after[0]) && tok.Tok? && ValidName(tok.name)
    ensures !(Text(tok) <= Short(name, u)[0..] + after)
  {
    var s, m, n := Short(name, u), |MARKER|, |tok.name|;
    var t := s[0..] + after;
    if n < |name| {
      TokenCharAt(tok, m + n);
      assert t[m + n] == s[m + n] == name[n];
    } else {
      TokenChars(tok);
      TokenCharAt(tok, |s|);
      assert t[|s|] == after[0] && TokenChar(Text(tok)[|s|]);
    }
  }

  lemma NoColonIn(name: string, i: nat)
    requires ValidName(name)
    ensures i + 2 < |MARKER + name| ==> (MARKER + name)[i + 2] != ':'
    ensures i + 1 == |MARKER + name| ==> (MARKER + name)[i] != '_'
  {
    if i + 2 < |MARKER + name| { TokenCharAt(Tok(name, Plain), i + 2); }
    if i + 1 == |MARKER + name| { assert (MARKER + name)[i] == name[|name| - 1]; }
  }

  /** A token cut short is found no more, and no token in it. */
  lemma ShortStays(name: string, u: nat, after: string, tok: Piece, value: string) returns (more: string)
    requires u <= 1 && ValidName(name) && after != "" && !TokenChar(after[0])
    requires tok.Tok? && ValidName(tok.name) && DollarPlain(value)
    ensures ReplaceAll(Short(name, u) + after, Text(tok), value) == Short(name, u) + more
    ensures more != "" && more[0] == after[0]
  {
    hide ValidName;
    forall i | 0 <= i < |Short(name, u)| ensures !(Text(tok) <= Short(name, u)[i..] + after) {
      NoTokenInShort(name, u, after, tok, i);
    }
    ReplaceAllIsReplace(Short(name, u) + after, Text(tok), value);
    SkipUnmatched(Short(name, u), after, Text(tok), value);
    more := Replace(after, Text(tok), value);
    assert Text(tok)[0] == MARKER[0] == '_';
  }

  lemma StoreLone(code: string, o: Target)
    requires Spelled(o, [])
    ensures o.href != "" && o.path != ""
    ensures Store(code, o, []) == ReplaceAll(ReplaceAll(code, o.href, Token(o.name) + URL), o.path, Token(o.name))
  {
    hide ReplaceAll;
    assert o in [o] + [];
    TokenizePair(code, [], o);
    LoneSteps(o);
    assert [] + UrlAndPath(o) == UrlAndPath(o);
  }

  lemma NoMarkerNoToken(s: string, name: string)
    requires !Contains(s, MARKER)
    ensures !Contains(s, Token(name))
  {
    assert MARKER <= Token(name);
  }

  /** A path followed by ":url", and nothing else, comes back as the file URL. */
  lemma UrlAfterPathIsLost(o: Target)
    requires Spelled(o, []) && ValidName(o.name) && Inert(o.path) && DollarPlain(o.href) && DollarPlain(o.path)
    requires !Contains(o.path + URL, o.href) && !Contains(o.href, MARKER)
    ensures Read(Store(o.path + URL, o, []), o, []) == Some(o.href) && o.href != o.path + URL
  {
    hide ReplaceAll, Replace, Contains, Read, Store, DollarPlain, ValidName;
    var code, url := o.path + URL, Token(o.name) + URL;
    TokenTexts(o.name);
    UrlIsTokenChars();
    StoreLone(code, o);
    AbsentEverywhere(code, o.href, url);
    MatchedHead(o.path, URL, Token(o.name));
    ReplaceAllIsReplace(code, o.path, Token(o.name));
    AbsentFromTokens(URL, o.path, Token(o.name));
    MatchedHead(url, "", o.href);
    ReplaceAllIsReplace(url, url, o.href);
    ShortIsUnchanged("", url, o.href);
    assert url + "" == url && o.href + "" == o.href;
    NoMarkerNoToken(o.href, o.name);
    AbsentEverywhere(o.href, Token(o.name), o.path);
    LoneRead(url, o);
    if o.href == code { ContainsHere(code, code); }
  }

  /** Where the output's token shares underscores with the end of the input's, the output is read out of the input's. */
  lemma MergedIsLost(o: Target, k: Target, u: nat)
    requires Pair(o, k) && u <= 1
    ensures Read(Merged(k.name, u, Tok(o.name, Plain), ""), o, [k]) == None
  {
    hide ReplaceAll, Replace, Contains, Read, Merged, Short, Inert, ValidName, DollarPlain, Token;
    var text := Merged(k.name, u, Tok(o.name, Plain), "");
    MergedHasNoUrl(k.name, o, u);
    MergedReplaced(k.name, u, Tok(o.name, Plain), "", o.path);
    ReplaceAllIsReplace(text, Token(o.name), o.path);
    ShortIsUnchanged("", Token(o.name), o.path);
    assert o.path + "" == o.path;
    PathsAreInert(o, k);
    var more := ShortStays(k.name, u, o.path, Tok(k.name, Href), k.href);
    var last := ShortStays(k.name, u, more, Tok(k.name, Plain), k.path);
    ReadOne(text, o, k);
    ShortHoldsMarker(k.name, u, last);
  }

  lemma PathsAreInert(o: Target, k: Target)
    requires Pair(o, k)
    ensures o.path != "" && !TokenChar(o.path[0]) && DollarPlain(k.href) && DollarPlain(k.path)
  {}

  lemma ShortHoldsMarker(name: string, u: nat, rest: string)
    requires u <= 1
    ensures Contains(Short(name, u) + rest, MARKER)
  {
    ContainsHere(Short(name, u) + rest, MARKER);
  }

  lemma MergedHasNoUrl(name: string, o: Target, u: nat)
    requires u <= 1 && ValidName(name) && ValidName(o.name) && DollarPlain(o.href)
    ensures var text := Merged(name, u, Tok(o.name, Plain), ""); ReplaceAll(text, Token(o.name) + URL, o.href) == text
  {
    var text, tok := Merged(name, u, Tok(o.name, Plain), ""), Tok(o.name, Plain);
    MergedCut(name, u, tok, "");
    TokenTexts(name);
    TokenTexts(o.name);
    assert Short(name, u) == Token(name)[..|Short(name, u)|];
    assert ':' !in Short(name, u) + (Text(tok) + "");
    assert (Token(o.name) + URL)[|Token(o.name)|] == ':';
    AbsentChar(text, Token(o.name) + URL, o.href, ':');
    AbsentEverywhere(text, Token(o.name) + URL, o.href);
  }

  /**
   * An input's path followed by the rest of the output's token: stored, the input's token runs into
   * the output's, which is read first.
   */
  lemma TokenAfterPathIsLost(o: Target, k: Target)
    requires Pair(o, k)
    requires var code := k.path + (CORE + o.name + "__");
             !Contains(code, o.href) && !Contains(code, o.path) && !Contains(code, k.href)
    ensures Read(Store(k.path + (CORE + o.name + "__"), o, [k]), o, [k]) == None
  {
    hide ReplaceAll, Replace, Contains, Read, Store, DollarPlain, TokenChar, ValidName;
    var rest := CORE + o.name + "__";
    var code := k.path + rest;
    TokenTexts(o.name);
    TokenTexts(k.name);
    StoreOne(code, o, k);
    AbsentEverywhere(code, o.href, Token(o.name) + URL);
    AbsentEverywhere(code, o.path, Token(o.name));
    AbsentEverywhere(code, k.href, Token(k.name) + URL);
    MatchedHead(k.path, rest, Token(k.name));
    ReplaceAllIsReplace(code, k.path, Token(k.name));
    RestOfToken(o.name);
    AbsentFromTokens(rest, k.path, Token(k.name));
    AbsentFromTokens(Token(k.name) + rest, k.path, Token(k.name));
    MarkerTails();
    assert rest == MARKER[2..] + Ending(Tok(o.name, Plain)) + "";
    MergedIsLost(o, k, 0);
  }

  lemma RestOfToken(name: string)
    requires ValidName(name)
    ensures forall i :: 0 <= i < |CORE + name + "__"| ==> TokenChar((CORE + name + "__")[i])
    ensures forall i :: 0 <= i < |HALF + name + "__"| ==> TokenChar((HALF + name + "__")[i])
    ensures Token(name) == "_" + (HALF + name + "__")
  {
    TokenTexts(name);
    var t := Token(name);
    assert t[2..] == CORE + name + "__" && t[1..] == HALF + name + "__";
    forall i | 0 <= i < |t[1..]| ensures TokenChar(t[1..][i]) { assert t[1..][i] == t[i + 1]; }
    forall i | 0 <= i < |t[2..]| ensures TokenChar(t[2..][i]) { assert t[2..][i] == t[i + 2]; }
  }

  /** A path ending in an underscore, whose front comes before the output's path, is matched across the output's token. */
  lemma MarkerTailIsLost(o: Target, k: Target, front: string)
    requires Pair(o, k) && k.path == front + "_" && front != ""
    requires !Contains(front + o.path, o.href) && !Contains(front + Token(o.name), k.href)
    requires forall i :: 0 <= i < |front| ==> !(o.path <= front[i..] + (o.path + ""))
    ensures Read(Store(front + o.path, o, [k]), o, [k]) == None
  {
    hide ReplaceAll, Replace, Contains, Read, Store, DollarPlain, TokenChar, ValidName;
    var rest, code, text := HALF + o.name + "__", front + o.path, front + Token(o.name);
    TokenTexts(o.name);
    TokenTexts(k.name);
    RestOfToken(o.name);
    StoreOne(code, o, k);
    AbsentEverywhere(code, o.href, Token(o.name) + URL);
    assert code == front + (o.path + "");
    SkipUnmatched(front, o.path + "", o.path, Token(o.name));
    MatchedHead(o.path, "", Token(o.name));
    ShortIsUnchanged("", o.path, Token(o.name));
    ReplaceAllIsReplace(code, o.path, Token(o.name));
    assert front + (Token(o.name) + "") == text;
    AbsentEverywhere(text, k.href, Token(k.name) + URL);
    Associative(front, "_", rest);
    MatchedHead(k.path, rest, Token(k.name));
    ReplaceAllIsReplace(text, k.path, Token(k.name));
    AbsentFromTokens(rest, k.path, Token(k.name));
    AbsentFromTokens(Token(k.name) + rest, k.path, Token(k.name));
    MarkerTails();
    assert rest == MARKER[1..] + Ending(Tok(o.name, Plain)) + "";
    MergedIsLost(o, k, 1);
  }

  lemma NoDollar(s: string)
    requires '$' !in s
    ensures DollarPlain(s)
  {}

  lemma OutputAtO()
    ensures var o := Target("OUTPUT", "file:///o", "/o");
            ValidName(o.name) && Inert(o.href) && Inert(o.path) && DollarPlain(o.href) && DollarPlain(o.path)
  {
    NoDollar("file:///o");
    NoDollar("/o");
  }

  /** One such module: `/o:url`. */
  lemma UrlAfterPathInstance()
    ensures var o := Target("OUTPUT", "file:///o", "/o");
            Spelled(o, []) && Read(Store("/o" + URL, o, []), o, []) == Some("file:///o")
  {
    var o := Target("OUTPUT", "file:///o", "/o");
    OutputAtO();
    AbsentChar("/o" + URL, "file:///o", "", 'f');
    AbsentChar("file:///o", MARKER, "", '_');
    assert Spelled(o, []);
    hide Store, Read, Contains, DollarPlain, Inert, ValidName;
    UrlAfterPathIsLost(o);
  }

  lemma InputAtA()
    ensures var k := Target("0", "file:///a", "/a");
            ValidName(k.name) && Inert(k.href) && Inert(k.path) && DollarPlain(k.href) && DollarPlain(k.path)
  {
    NoDollar("file:///a");
    NoDollar("/a");
  }

  lemma AbsentFromMixed(rest: string, pat: string, c: char)
    requires (forall i :: 0 <= i < |rest| ==> TokenChar(rest[i])) && c in pat && !TokenChar(c) && c != '/' && c != 'a'
    ensures !Contains("/a" + rest, pat)
  {
    hide TokenChar;
    assert forall i :: 0 <= i < |"/a" + rest| ==> ("/a" + rest)[i] != c;
    AbsentChar("/a" + rest, pat, "", c);
  }

  /** One such module: `/aDOOMPI_PATH_OUTPUT__`. */
  lemma TokenAfterPathInstance()
    ensures var o, k := Target("OUTPUT", "file:///o", "/o"), Target("0", "file:///a", "/a");
            Spelled(o, [k]) && Read(Store("/a" + (CORE + "OUTPUT" + "__"), o, [k]), o, [k]) == None
  {
    var o, k := Target("OUTPUT", "file:///o", "/o"), Target("0", "file:///a", "/a");
    assert Spelled(o, [k]) && 'f' in o.href && 'o' in o.path && 'f' in k.href;
    assert !TokenChar('f') && !TokenChar('o');
    hide Store, Read, Contains, DollarPlain, Inert, ValidName, TokenChar;
    OutputAtO();
    InputAtA();
    var rest := CORE + o.name + "__";
    RestOfToken(o.name);
    AbsentFromMixed(rest, o.href, 'f');
    AbsentFromMixed(rest, o.path, 'o');
    AbsentFromMixed(rest, k.href, 'f');
    TokenAfterPathIsLost(o, k);
  }

  lemma InputAtX()
    ensures var k := Target("0", "file:///x_", "/x_");
            ValidName(k.name) && Inert(k.href) && Inert(k.path) && DollarPlain(k.href) && DollarPlain(k.path)
  {
    NoDollar("file:///x_");
    NoDollar("/x_");
  }

  lemma OutputAtA()
    ensures var o := Target("OUTPUT", "file:///a", "/a");
            ValidName(o.name) && Inert(o.href) && Inert(o.path) && DollarPlain(o.href) && DollarPlain(o.path)
  {
    NoDollar("file:///a");
    NoDollar("/a");
  }

  lemma AbsentAfterX(rest: string, pat: string)
    requires (forall i :: 0 <= i < |rest| ==> rest[i] != 'f') && 'f' in pat
    ensures !Contains("/x" + rest, pat)
  {
    assert forall i :: 0 <= i < |"/x" + rest| ==> ("/x" + rest)[i] != 'f';
    AbsentChar("/x" + rest, pat, "", 'f');
  }

  lemma OnlyAfterX()
    ensures forall i :: 0 <= i < |"/x"| ==> !("/a" <= "/x"[i..] + ("/a" + ""))
  {
    forall i | 0 <= i < |"/x"| ensures !("/a" <= "/x"[i..] + ("/a" + "")) {
      var t := "/x"[i..] + ("/a" + "");
      assert i == 0 ==> t[1] == 'x';
      assert i == 1 ==> t[0] == 'x';
    }
  }

  /** One such module: `/x/a`. */
  lemma MarkerTailInstance()
    ensures var o, k := Target("OUTPUT", "file:///a", "/a"), Target("0", "file:///x_", "/x_");
            Spelled(o, [k]) && Read(Store("/x" + "/a", o, [k]), o, [k]) == None
  {
    var o, k := Target("OUTPUT", "file:///a", "/a"), Target("0", "file:///x_", "/x_");
    assert Spelled(o, [k]) && 'f' in o.href && 'f' in k.href && !TokenChar('f');
    assert "/x" + "_" == "/x_";
    OnlyAfterX();
    hide Store, Read, Contains, DollarPlain, Inert, ValidName, TokenChar;
    OutputAtA();
    InputAtX();
    TokenTexts(o.name);
    AbsentAfterX("/a", o.href);
    AbsentAfterX(Token(o.name), k.href);
    MarkerTailIsLost(o, k, "/x");
  }

  lemma ShortIsKept(s: string, pat: string, rep: string)
    requires |s| < |pat|
    ensures ReplaceAll(s, pat, rep) == s
  {
    assert s[0..] == s;
  }

  lemma WholeIsReplaced(s: string, rep: string)
    requires s != ""
    ensures ReplaceAll(s, s, rep) == Substitute(rep, "", s, "")
  {
    assert s[0..|s|] == s && s[..0] == "" && s[|s|..] == "";
    assert ReplaceFrom(s, |s|, s, rep) == "";
  }

  lemma DoubledDollar(token: string)
    ensures Substitute("/a$$b", "", token, "") == "/a$b"
  {
    var s := "/a$$b";
    assert s[1..] == "a$$b" && s[1..][1..] == "$$b" && s[1..][1..][2..] == "b" && s[1..][1..][2..][1..] == "";
    assert Substitute("b", "", token, "") == "b";
    assert Substitute("$$b", "", token, "") == "$" + "b";
    assert Substitute("a$$b", "", token, "") == "a" + ("$" + "b");
  }

  lemma DollarPathStored()
    ensures var o := Target("OUTPUT", "file:///a$$b", "/a$$b");
            Spelled(o, []) && Store("/a$$b", o, []) == Token("OUTPUT")
  {
    var o := Target("OUTPUT", "file:///a$$b", "/a$$b");
    assert Spelled(o, []) && ValidName(o.name);
    hide Store, ReplaceAll, Replace, ValidName, DollarPlain;
    TokenTexts(o.name);
    StoreLone(o.path, o);
    ShortIsKept(o.path, o.href, Token(o.name) + URL);
    WholeIsReplaced(o.path, Token(o.name));
    PlainSubstitute(Token(o.name), "", o.path, "");
  }

  /** A path with two dollars, which a replacement string takes for one. */
  lemma DollarPathIsLost()
    ensures var o := Target("OUTPUT", "file:///a$$b", "/a$$b");
            Spelled(o, []) && Read(Store("/a$$b", o, []), o, []) == Some("/a$b")
  {
    hide Store, Read, ReplaceAll, Substitute, Contains;
    var o := Target("OUTPUT", "file:///a$$b", "/a$$b");
    DollarPathStored();
    var text := Token(o.name);
    LoneRead(text, o);
    ShortIsKept(text, text + URL, o.href);
    WholeIsReplaced(text, o.path);
    DoubledDollar(text);
    AbsentChar("/a$b", MARKER, "", '_');
  }

  // -------------------------------------------------------------------------
  // An input under two paths
  // -------------------------------------------------------------------------

  lemma StoreTwo(code: string, o: Target, k: Target, l: Target)
    requires Spelled(o, [k, l]) && |k.path| == |l.path|
    ensures o.href != "" && o.path != "" && k.href != "" && k.path != "" && l.href != "" && l.path != ""
    ensures var first := ReplaceAll(ReplaceAll(code, o.href, Token(o.name) + URL), o.path, Token(o.name));
            Store(code, o, [k, l]) == TokenizeTarget(TokenizeTarget(first, k), l)
  {
    assert o in [o] + [k, l] && k in [o] + [k, l] && l in [o] + [k, l];
    assert o.href != "" && o.path != "" && k.href != "" && k.path != "" && l.href != "" && l.path != "";
    hide ReplaceAll, TokenizeTarget, StoreSteps, UrlAndPath, StepsFor, Tokenize, Spelled, Token;
    TokenizePair(code, [], o);
    NothingTokenized(code);
    var steps := [] + UrlAndPath(o);
    TokenizeTriple(code, steps, k);
    TokenizeTriple(code, steps + StepsFor(k, true), l);
    StepsOfTwo(o, k, l);
  }

  lemma NothingTokenized(code: string)
    ensures Tokenize(code, []) == code
  {}

  lemma StepsOfTwo(o: Target, k: Target, l: Target)
    requires |k.path| == |l.path|
    ensures StoreSteps(o, [k, l]) == [] + UrlAndPath(o) + StepsFor(k, true) + StepsFor(l, true)
  {
    hide TargetSteps, LongestFirst, StepsFor, UrlAndPath;
    TwoTargets(k, l);
    Associative(UrlAndPath(o), StepsFor(k, true), StepsFor(l, true));
    assert [] + UrlAndPath(o) == UrlAndPath(o);
  }

  lemma TwoTargets(k: Target, l: Target)
    requires |k.path| == |l.path|
    ensures LongestFirst([k, l], PathLength) == [k, l]
    ensures TargetSteps([k, l], true) == StepsFor(k, true) + StepsFor(l, true)
  {
    hide StepsFor;
    OneTarget(k, true);
    var before := Longer(PathLength);
    assert [k, l][..1] == [k] && PathLength(k) == PathLength(l);
    assert !before(l, k);
    assert Sort([k, l], before) == Insert(Sort([k], before), l, before);
  }

  lemma PathBecomesToken(t: Target)
    requires ValidName(t.name) && Inert(t.path) && |t.href| > |t.path|
    ensures TokenizeTarget(t.path, t) == Token(t.name)
  {
    assert t.path != "";
    hide ReplaceAll, Replace, ValidName, Inert, TokenChar, DollarPlain;
    TokenTexts(t.name);
    ShortIsKept(t.path, t.href, Token(t.name) + URL);
    WholeIsReplaced(t.path, Token(t.name));
    PlainSubstitute(Token(t.name), "", t.path, "");
    AbsentFromTokens(Token(t.name), t.path, Token(t.name));
  }

  lemma TokenStays(name: string, t: Target)
    requires ValidName(name) && ValidName(t.name) && Inert(t.href) && Inert(t.path)
    ensures TokenizeTarget(Token(name), t) == Token(name)
  {
    hide ReplaceAll, Replace, ValidName, TokenChar, DollarPlain;
    TokenTexts(name);
    TokenTexts(t.name);
    AbsentFromTokens(Token(name), t.href, Token(t.name) + URL);
    AbsentFromTokens(Token(name), t.path, Token(t.name));
  }

  lemma LinkAndInput()
    ensures var l, f := Target("0", "file:///l", "/l"), Target("0", "file:///f", "/f");
            ValidName("0") && Inert(l.path) && Inert(f.path) && Inert(f.href)
  {}

  lemma AliasStored()
    ensures var o, l, f := Target("OUTPUT", "file:///o", "/o"), Target("0", "file:///l", "/l"), Target("0", "file:///f", "/f");
            Spelled(o, [l, f]) && Store("/l", o, [l, f]) == Token("0")
  {
    hide Store, ReplaceAll, Replace, ValidName, DollarPlain, Inert, TokenChar, TokenizeTarget;
    var o, l, f := Target("OUTPUT", "file:///o", "/o"), Target("0", "file:///l", "/l"), Target("0", "file:///f", "/f");
    OutputAtO();
    LinkAndInput();
    TokenTexts(o.name);
    StoreTwo("/l", o, l, f);
    ShortIsKept("/l", o.href, Token(o.name) + URL);
    AbsentChar("/l", o.path, Token(o.name), 'o');
    AbsentEverywhere("/l", o.path, Token(o.name));
    PathBecomesToken(l);
    TokenStays("0", f);
  }

  /** A link to an input shares the input's token, so its path comes back as the input's. */
  lemma AliasIsLost()
    ensures var o, l, f := Target("OUTPUT", "file:///o", "/o"), Target("0", "file:///l", "/l"), Target("0", "file:///f", "/f");
            Spelled(o, [l, f]) && Read(Store("/l", o, [l, f]), o, [f]) == Some("/f")
  {
    hide Store, Read, ReplaceAll, Contains, DollarPlain;
    var o, f := Target("OUTPUT", "file:///o", "/o"), Target("0", "file:///f", "/f");
    AliasStored();
    var text := Token(f.name);
    assert |Token(o.name)| > |text|;
    ReadOne(text, o, f);
    ShortIsKept(text, Token(o.name) + URL, o.href);
    ShortIsKept(text, Token(o.name), o.path);
    ShortIsKept(text, text + URL, f.href);
    WholeIsReplaced(text, f.path);
    NoDollar(f.path);
    PlainSubstitute(f.path, "", text, "");
    AbsentChar(f.path, MARKER, "", '_');
  }
}
