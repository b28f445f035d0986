/// The event-name glob matcher: a last-star backtracking loop over two string
/// indices, its functional form `Scan`, and the documented meaning `Match`.

module Glob {

  /// A pattern read left to right: `**` before `*`, anything else literal.
  datatype Token = Lit(c: char) | Star | DStar {
    predicate IsStar() {
      !Lit?
    }
  }

  function Tokens(p: string): (ts: seq<Token>) {
    if p == "" then []
    else if p[0] != '*' then [Lit(p[0])] + Tokens(p[1..])
    else if |p| > 1 && p[1] == '*' then [DStar] + Tokens(p[2..])
    else [Star] + Tokens(p[1..])
  }

  function Text(t: Token): string {
    match t
    case Lit(c) => [c]
    case Star => "*"
    case DStar => "**"
  }

  function Texts(ts: seq<Token>): string {
    if ts == [] then "" else Text(ts[0]) + Texts(ts[1..])
  }

  predicate NoStarAfterStar(ts: seq<Token>) {
    forall i :: 0 <= i < |ts| - 1 && ts[i].Star? ==> ts[i + 1].Lit?
  }

  /// A reading of a pattern: no star is taken literally and no `*` is read where
  /// a `**` starts.
  predicate Reading(ts: seq<Token>) {
    (forall i :: 0 <= i < |ts| ==> ts[i] != Lit('*')) && NoStarAfterStar(ts)
  }

  lemma ReadingCons(t: Token, ts: seq<Token>)
    ensures Reading([t] + ts) <==> t != Lit('*') && (t.Star? && ts != [] ==> ts[0].Lit?) && Reading(ts)
  {
    var all := [t] + ts;
    assert forall i :: 0 <= i < |ts| ==> all[i + 1] == ts[i];
    if Reading(all) {
      assert all[0] == t;
      assert forall i :: 0 <= i < |ts| ==> ts[i] != Lit('*') by {
        forall i | 0 <= i < |ts| ensures ts[i] != Lit('*') { assert all[i + 1] != Lit('*'); }
      }
      forall i | 0 <= i < |ts| - 1 && ts[i].Star? ensures ts[i + 1].Lit? { assert all[i + 1].Star?; }
    }
  }

  lemma FirstToken(p: string) returns (t: Token, n: nat)
    requires p != ""
    ensures n <= |p| && Tokens(p) == [t] + Tokens(p[n..]) && Text(t) == p[..n]
    ensures t != Lit('*') && (t.Star? && Tokens(p[n..]) != [] ==> Tokens(p[n..])[0].Lit?)
  {
    t := Tokens(p)[0];
    n := |Text(t)|;
  }

  lemma {:induction false} TokensRead(p: string)
    ensures Texts(Tokens(p)) == p && Reading(Tokens(p))
  {
    if p != "" {
      var t, n := FirstToken(p);
      hide Tokens, Reading;
      TokensRead(p[n..]);
      assert Tokens(p)[1..] == Tokens(p[n..]) && p == p[..n] + p[n..];
      ReadingCons(t, Tokens(p[n..]));
    } else {
      assert Tokens(p) == [];
    }
  }

  /// The tokens of a pattern are its one and only reading.
  lemma {:induction false} TokensAreTheReading(p: string, ts: seq<Token>)
    ensures ts == Tokens(p) <==> Texts(ts) == p && Reading(ts)
    decreases |ts|
  {
    TokensRead(p);
    if Texts(ts) == p && Reading(ts) && ts != [] {
      assert ts == [ts[0]] + ts[1..];
      ReadingCons(ts[0], ts[1..]);
      var rest := Texts(ts[1..]);
      TokensAreTheReading(rest, ts[1..]);
      if ts[0].Star? && ts[1..] != [] { assert rest[0] == ts[1].c; }
      assert p[|Text(ts[0])|..] == rest;
    }
  }

  /// The documented meaning. `*` takes characters other than '.', `**` takes any.
  predicate Match(ts: seq<Token>, s: string)
    decreases |ts| + |s|
  {
    if ts == [] then s == ""
    else match ts[0]
      case Lit(c) => s != "" && s[0] == c && Match(ts[1..], s[1..])
      case Star => Match(ts[1..], s) || (s != "" && s[0] != '.' && Match(ts, s[1..]))
      case DStar => Match(ts[1..], s) || (s != "" && Match(ts, s[1..]))
  }

  predicate Matches(pattern: string, name: string) {
    Match(Tokens(pattern), name)
  }

  // ----- the same meaning as a decomposition of the name ---------------------

  predicate Dotless(s: string) {
    '.' !in s
  }

  predicate Fits(t: Token, piece: string) {
    match t
    case Lit(c) => piece == [c]
    case Star => Dotless(piece)
    case DStar => true
  }

  function Concat(pieces: seq<string>): string {
    if pieces == [] then "" else pieces[0] + Concat(pieces[1..])
  }

  /// One piece of the name per token, each of the kind its token allows.
  predicate Decomposes(ts: seq<Token>, s: string, pieces: seq<string>) {
    |pieces| == |ts| && Concat(pieces) == s &&
    forall i :: 0 <= i < |ts| ==> Fits(ts[i], pieces[i])
  }

  lemma {:induction false} MatchSplits(ts: seq<Token>, s: string) returns (pieces: seq<string>)
    requires Match(ts, s)
    ensures Decomposes(ts, s, pieces)
    decreases |ts| + |s|
  {
    if ts == [] {
      pieces := [];
    } else if ts[0].Lit? {
      var rest := MatchSplits(ts[1..], s[1..]);
      pieces := [[s[0]]] + rest;
    } else if Match(ts[1..], s) {
      var rest := MatchSplits(ts[1..], s);
      pieces := [""] + rest;
    } else {
      var rest := MatchSplits(ts, s[1..]);
      pieces := [[s[0]] + rest[0]] + rest[1..];
      assert s == [s[0]] + s[1..];
      assert pieces[1..] == rest[1..];
    }
  }

  lemma {:induction false} SplitsMatch(ts: seq<Token>, s: string, pieces: seq<string>)
    requires Decomposes(ts, s, pieces)
    ensures Match(ts, s)
    decreases |ts| + |s|
  {
    if ts == [] {
    } else {
      var tail := Concat(pieces[1..]);
      assert Decomposes(ts[1..], tail, pieces[1..]);
      SplitsMatch(ts[1..], tail, pieces[1..]);
      if ts[0].IsStar() {
        assert s[|pieces[0]|..] == tail;
        StarTakes(ts, s, |pieces[0]|);
      } else {
        assert s[1..] == tail;
      }
    }
  }

  /// A name matches exactly when it splits into one fitting piece per token.
  lemma MatchIsDecomposition(ts: seq<Token>, s: string)
    ensures Match(ts, s) <==> exists pieces :: Decomposes(ts, s, pieces)
  {
    if Match(ts, s) {
      var pieces := MatchSplits(ts, s);
    }
    if exists pieces :: Decomposes(ts, s, pieces) {
      var pieces :| Decomposes(ts, s, pieces);
      SplitsMatch(ts, s, pieces);
    }
  }

  /// A star may take `d` characters and leave the rest to the tokens after it.
  lemma {:induction false} StarTakes(ts: seq<Token>, s: string, d: nat)
    requires ts != [] && ts[0].IsStar() && d <= |s|
    requires ts[0].Star? ==> Dotless(s[..d])
    requires Match(ts[1..], s[d..]) || Match(ts, s[d..])
    ensures Match(ts, s)
    decreases d
  {
    if d == 0 {
      assert s[0..] == s;
    } else {
      assert s[1..][d - 1..] == s[d..];
      assert s[1..][..d - 1] == s[..d][1..];
      assert s[0] == s[..d][0];
      StarTakes(ts, s[1..], d - 1);
    }
  }

  // ----- the loop, on suffixes ------------------------------------------------

  /// The last star met: the tokens from it on, and the part of the name that
  /// starts where its current match ends.
  datatype Back = NoStar | At(ts: seq<Token>, s: string)

  predicate AllStars(ts: seq<Token>) {
    forall i :: 0 <= i < |ts| ==> ts[i].IsStar()
  }

  ghost predicate Behind(ts: seq<Token>, s: string, b: Back) {
    b.At? ==> b.ts != [] && b.ts[0].IsStar() && |ts| < |b.ts| && |s| <= |b.s|
  }

  /// The matching loop as a function: it remembers only the last star.
  predicate Scan(ts: seq<Token>, s: string, b: Back)
    requires Behind(ts, s, b)
    decreases if b.At? then |b.ts| else |ts| + 1, if b.At? then |b.s| else 0, |ts|
  {
    if s == "" then AllStars(ts)
    else if ts != [] && ts[0].IsStar() then Scan(ts[1..], s, At(ts, s))
    else if ts != [] && ts[0].c == s[0] then Scan(ts[1..], s[1..], b)
    else if b.NoStar? || (b.ts[0].Star? && b.s[0] == '.') then false
    else Scan(b.ts[1..], b.s[1..], At(b.ts, b.s[1..]))
  }

  predicate Accepts(pattern: string, name: string) {
    Scan(Tokens(pattern), name, NoStar)
  }

  // ----- literal blocks -------------------------------------------------------

  /// `ts` begins with `k` literals that spell the first `k` characters of `s`.
  predicate Spells(ts: seq<Token>, s: string, k: nat) {
    k <= |ts| && k <= |s| && forall i :: 0 <= i < k ==> ts[i] == Lit(s[i])
  }

  lemma {:induction false} LiteralBlock(ts: seq<Token>, s: string, k: nat)
    requires Spells(ts, s, k)
    ensures Match(ts, s) == Match(ts[k..], s[k..])
    decreases k
  {
    if k == 0 {
      assert ts[0..] == ts && s[0..] == s;
    } else {
      assert ts[0] == Lit(s[0]);
      assert forall i :: 0 <= i < k - 1 ==> ts[1..][i] == ts[i + 1];
      LiteralBlock(ts[1..], s[1..], k - 1);
      assert ts[1..][k - 1..] == ts[k..] && s[1..][k - 1..] == s[k..];
    }
  }

  /// Where the loop stands relative to its last star: everything between has
  /// been matched literally, starting where the star's match ends.
  ghost predicate Along(ts: seq<Token>, s: string, b: Back) {
    Behind(ts, s, b) &&
    (b.At? ==>
       var k := |b.ts| - 1 - |ts|;
       Spells(b.ts[1..], b.s, k) && ts == b.ts[1 + k..] && s == b.s[k..])
  }

  ghost predicate Target(ts: seq<Token>, s: string, b: Back) {
    if b.At? then Match(b.ts, b.s) else Match(ts, s)
  }

  lemma AlongTarget(ts: seq<Token>, s: string, b: Back)
    requires Along(ts, s, b) && b.At?
    ensures Match(b.ts[1..], b.s) == Match(ts, s)
  {
    var k := |b.ts| - 1 - |ts|;
    LiteralBlock(b.ts[1..], b.s, k);
    assert b.ts[1..][k..] == b.ts[1 + k..];
  }

  lemma AlongLiteral(ts: seq<Token>, s: string, b: Back)
    requires Along(ts, s, b) && ts != [] && s != "" && ts[0] == Lit(s[0])
    ensures Along(ts[1..], s[1..], b)
  {
    if b.At? {
      var k := |b.ts| - 1 - |ts|;
      assert b.ts[1..][k] == ts[0] && b.s[k] == s[0];
      assert s[1..] == b.s[k + 1..];
    }
  }

  lemma {:induction false} AllStarsMatchNothing(ts: seq<Token>)
    ensures AllStars(ts) <==> Match(ts, "")
  {
    if ts != [] {
      AllStarsMatchNothing(ts[1..]);
      if AllStars(ts[1..]) && ts[0].IsStar() {
        assert forall i :: 0 < i < |ts| ==> ts[i] == ts[1..][i - 1];
      }
    }
  }

  /// Soundness, for every pattern: a name the loop accepts does match.
  lemma {:induction false} ScanSound(ts: seq<Token>, s: string, b: Back)
    requires Along(ts, s, b) && Scan(ts, s, b)
    ensures Target(ts, s, b)
    decreases if b.At? then |b.ts| else |ts| + 1, if b.At? then |b.s| else 0, |ts|
  {
    if s == "" {
      AllStarsMatchNothing(ts);
      if b.At? { AlongTarget(ts, s, b); }
    } else if ts != [] && ts[0].IsStar() {
      ScanSound(ts[1..], s, At(ts, s));
      if b.At? { AlongTarget(ts, s, b); }
    } else if ts != [] && ts[0].c == s[0] {
      AlongLiteral(ts, s, b);
      ScanSound(ts[1..], s[1..], b);
    } else {
      ScanSound(b.ts[1..], b.s[1..], At(b.ts, b.s[1..]));
    }
  }

  // ----- what the loop answers, on every pattern --------------------------------

  /// How many literals `ts` begins with.
  function Block(ts: seq<Token>): (k: nat)
    ensures k <= |ts| && forall i :: 0 <= i < k ==> ts[i].Lit?
    ensures k < |ts| ==> ts[k].IsStar()
  {
    if ts == [] || ts[0].IsStar() then 0 else 1 + Block(ts[1..])
  }

  predicate HasStar(ts: seq<Token>) {
    exists i :: 0 <= i < |ts| && ts[i].IsStar()
  }

  /// The literals at the front of `ts`, up to its first star, stand at the front
  /// of `s`.
  predicate BlockFits(ts: seq<Token>, s: string) {
    Spells(ts, s, Block(ts))
  }

  /// `n` is the least that the star `ts[0]` can take so that the literals after it
  /// fit; nothing is asked of the last star, or of a literal.
  predicate Shortest(ts: seq<Token>, s: string, n: nat) {
    ts != [] && n <= |s| &&
    (ts[0].IsStar() && HasStar(ts[1..]) ==> forall d :: 0 <= d < n ==> !BlockFits(ts[1..], s[d..]))
  }

  /// One fitting piece per token, and the piece of every star that another star
  /// follows is the shortest at which the literals between the two fit.
  ghost predicate FirstFit(ts: seq<Token>, s: string, pieces: seq<string>) {
    Decomposes(ts, s, pieces) &&
    forall i :: 0 <= i < |ts| ==> Shortest(ts[i..], Concat(pieces[i..]), |pieces[i]|)
  }

  /// The same by recursion on the tokens.
  predicate First(ts: seq<Token>, s: string)
    decreases |ts| + |s|
  {
    if ts == [] then s == ""
    else if ts[0].Lit? then s != "" && s[0] == ts[0].c && First(ts[1..], s[1..])
    else if HasStar(ts[1..]) then
      if BlockFits(ts[1..], s) then First(ts[1..], s) else MayTake(ts[0], s) && First(ts, s[1..])
    else First(ts[1..], s) || (MayTake(ts[0], s) && First(ts, s[1..]))
  }

  predicate MayTake(t: Token, s: string) {
    s != "" && (t.Star? ==> s[0] != '.')
  }

  lemma HasStarTail(ts: seq<Token>)
    requires ts != []
    ensures HasStar(ts) <==> ts[0].IsStar() || HasStar(ts[1..])
  {
    if HasStar(ts[1..]) {
      var i :| 0 <= i < |ts[1..]| && ts[1..][i].IsStar();
      assert ts[i + 1].IsStar();
    }
    if HasStar(ts) && !ts[0].IsStar() {
      var i :| 0 <= i < |ts| && ts[i].IsStar();
      assert ts[1..][i - 1].IsStar();
    }
  }

  /// Past `k` literals that fit.
  lemma {:induction false} FirstPast(ts: seq<Token>, s: string, k: nat)
    requires Spells(ts, s, k)
    ensures First(ts, s) == First(ts[k..], s[k..]) && HasStar(ts) == HasStar(ts[k..]) && Block(ts) == k + Block(ts[k..])
    decreases k
  {
    if k == 0 {
      assert ts[0..] == ts && s[0..] == s;
    } else {
      assert ts[0] == Lit(s[0]);
      assert forall i :: 0 <= i < k - 1 ==> ts[1..][i] == ts[i + 1];
      FirstPast(ts[1..], s[1..], k - 1);
      HasStarTail(ts);
      assert ts[1..][k - 1..] == ts[k..] && s[1..][k - 1..] == s[k..];
    }
  }

  lemma {:induction false} FirstMatches(ts: seq<Token>, s: string)
    requires First(ts, s)
    ensures Match(ts, s)
    decreases |ts| + |s|
  {
    if ts == [] {
    } else if ts[0].Lit? {
      FirstMatches(ts[1..], s[1..]);
    } else if First(ts[1..], s) {
      FirstMatches(ts[1..], s);
    } else {
      FirstMatches(ts, s[1..]);
    }
  }

  lemma {:induction false} FirstOfNothing(ts: seq<Token>)
    ensures First(ts, "") <==> AllStars(ts)
  {
    if ts != [] {
      FirstOfNothing(ts[1..]);
      assert AllStars(ts) <==> ts[0].IsStar() && AllStars(ts[1..]) by {
        assert forall i :: 0 < i < |ts| ==> ts[i] == ts[1..][i - 1];
      }
      if ts[0].IsStar() && AllStars(ts[1..]) && ts[1..] != [] {
        assert ts[1..][0].IsStar() && Block(ts[1..]) == 0;
      }
    }
  }

  /// What is left of the star that is being placed.
  predicate Placing(ts: seq<Token>, s: string, b: Back) {
    if b.At? then First(b.ts, b.s) else First(ts, s)
  }

  /// The block after the last star fits, up to another star or the end.
  lemma PlacedHere(ts: seq<Token>, s: string, b: Back)
    requires Along(ts, s, b) && b.At? && (ts == [] || ts[0].IsStar())
    ensures ts != [] ==> First(b.ts, b.s) == First(ts, s)
    ensures ts == [] && s == "" ==> First(b.ts, b.s)
  {
    FirstPast(b.ts[1..], b.s, |b.ts| - 1 - |ts|);
  }

  /// It does not fit, or fits but does not reach the end.
  lemma PlacedLater(ts: seq<Token>, s: string, b: Back)
    requires Along(ts, s, b) && b.At? && s != "" && (ts == [] || (ts[0].Lit? && ts[0].c != s[0]))
    ensures First(b.ts, b.s) == (MayTake(b.ts[0], b.s) && First(b.ts, b.s[1..]))
  {
    var k := |b.ts| - 1 - |ts|;
    FirstPast(b.ts[1..], b.s, k);
    if ts != [] {
      assert b.ts[1..][k] == ts[0] && b.s[k] == s[0];
    }
  }

  /// The name ends inside the block: no placement has room for it.
  lemma NoRoom(ts: seq<Token>, b: Back)
    requires Along(ts, "", b) && b.At? && ts != [] && ts[0].Lit?
    ensures !First(b.ts, b.s)
  {
    var k := |b.ts| - 1 - |ts|;
    LiteralsOfBlock(b.ts[1..], b.s, k);
    assert b.ts[1..][k..] == ts;
    if First(b.ts, b.s) {
      FirstMatches(b.ts, b.s);
      MatchNeedsLiterals(b.ts, b.s);
    }
  }

  lemma {:induction false} ScanIsFirst(ts: seq<Token>, s: string, b: Back)
    requires Along(ts, s, b)
    ensures Scan(ts, s, b) == Placing(ts, s, b)
    decreases if b.At? then |b.ts| else |ts| + 1, if b.At? then |b.s| else 0, |ts|
  {
    hide Spells, First, AllStars, Along;
    AlongBehind(ts, s, b);
    if s == "" {
      FirstOfNothing(ts);
      if b.At? { EndOfName(ts, b); }
    } else if ts != [] && ts[0].IsStar() {
      ToStar(ts, s);
      ScanIsFirst(ts[1..], s, At(ts, s));
      if b.At? { PlacedHere(ts, s, b); }
    } else if ts != [] && ts[0].c == s[0] {
      AlongLiteral(ts, s, b);
      ScanIsFirst(ts[1..], s[1..], b);
      if b.NoStar? { FirstStep(ts, s); }
    } else if b.NoStar? {
      FirstStep(ts, s);
    } else {
      PlacedLater(ts, s, b);
      if MayTake(b.ts[0], b.s) {
        ToStar(b.ts, b.s[1..]);
        ScanIsFirst(b.ts[1..], b.s[1..], At(b.ts, b.s[1..]));
      }
    }
  }

  lemma AlongBehind(ts: seq<Token>, s: string, b: Back)
    requires Along(ts, s, b)
    ensures Behind(ts, s, b)
  {
  }

  lemma ToStar(ts: seq<Token>, s: string)
    requires ts != [] && ts[0].IsStar()
    ensures Along(ts[1..], s, At(ts, s))
  {
  }

  lemma FirstStep(ts: seq<Token>, s: string)
    requires s != "" && (ts == [] || ts[0].Lit?)
    ensures First(ts, s) == (ts != [] && ts[0].c == s[0] && First(ts[1..], s[1..]))
  {
  }

  lemma EndOfName(ts: seq<Token>, b: Back)
    requires Along(ts, "", b) && b.At?
    ensures First(b.ts, b.s) == AllStars(ts)
  {
    if ts != [] && ts[0].Lit? {
      NoRoom(ts, b);
    } else {
      PlacedHere(ts, "", b);
      FirstOfNothing(ts);
    }
  }

  // First and FirstFit.

  /// What `FirstFit` asks of the token at `i`.
  predicate FitsHere(ts: seq<Token>, pieces: seq<string>, i: nat) {
    i < |ts| == |pieces| && Fits(ts[i], pieces[i]) && Shortest(ts[i..], Concat(pieces[i..]), |pieces[i]|)
  }

  lemma FirstFitEach(ts: seq<Token>, s: string, pieces: seq<string>)
    ensures FirstFit(ts, s, pieces) <==>
              |pieces| == |ts| && Concat(pieces) == s && forall i :: 0 <= i < |ts| ==> FitsHere(ts, pieces, i)
  {
    hide Shortest, Fits;
    if |pieces| == |ts| && forall i :: 0 <= i < |ts| ==> FitsHere(ts, pieces, i) {
      forall i | 0 <= i < |ts| ensures Fits(ts[i], pieces[i]) && Shortest(ts[i..], Concat(pieces[i..]), |pieces[i]|) {
        assert FitsHere(ts, pieces, i);
      }
    }
  }

  lemma FitsInTail(ts: seq<Token>, pieces: seq<string>, i: nat)
    requires |ts| == |pieces| && i + 1 < |ts|
    ensures FitsHere(ts, pieces, i + 1) <==> FitsHere(ts[1..], pieces[1..], i)
  {
    assert ts[1..][i..] == ts[i + 1..] && pieces[1..][i..] == pieces[i + 1..];
    hide Shortest, Fits;
  }

  /// The first token's share of a decomposition, and the rest's.
  lemma FirstFitTail(ts: seq<Token>, s: string, pieces: seq<string>)
    requires ts != [] && |pieces| == |ts|
    ensures FirstFit(ts, s, pieces) <==>
              s == pieces[0] + Concat(pieces[1..]) && Fits(ts[0], pieces[0]) && Shortest(ts, s, |pieces[0]|) &&
              FirstFit(ts[1..], Concat(pieces[1..]), pieces[1..])
  {
    FirstFitEach(ts, s, pieces);
    FirstFitEach(ts[1..], Concat(pieces[1..]), pieces[1..]);
    assert ts[0..] == ts && pieces[0..] == pieces;
    assert FitsHere(ts, pieces, 0) <==> Fits(ts[0], pieces[0]) && Shortest(ts, Concat(pieces), |pieces[0]|);
    hide FirstFit, FitsHere, Fits, Shortest;
    forall i | 0 <= i < |ts| - 1 ensures FitsHere(ts, pieces, i + 1) <==> FitsHere(ts[1..], pieces[1..], i) {
      FitsInTail(ts, pieces, i);
    }
    assert Concat(pieces) == pieces[0] + Concat(pieces[1..]);
    if FitsHere(ts, pieces, 0) && forall i :: 0 <= i < |ts[1..]| ==> FitsHere(ts[1..], pieces[1..], i) {
      forall i | 0 <= i < |ts| ensures FitsHere(ts, pieces, i) {
        if i > 0 { assert FitsHere(ts[1..], pieces[1..], i - 1); }
      }
    }
    if forall i :: 0 <= i < |ts| ==> FitsHere(ts, pieces, i) {
      forall i | 0 <= i < |ts[1..]| ensures FitsHere(ts[1..], pieces[1..], i) {
        assert FitsHere(ts, pieces, i + 1);
      }
    }
  }

  lemma {:induction false} FirstSplits(ts: seq<Token>, s: string) returns (pieces: seq<string>)
    requires First(ts, s)
    ensures FirstFit(ts, s, pieces)
    decreases |ts| + |s|
  {
    hide FirstFit, Spells;
    if ts == [] {
      pieces := [];
      NoPieces();
    } else {
      var rest;
      if ts[0].Lit? {
        rest := FirstSplits(ts[1..], s[1..]);
        pieces := [[s[0]]] + rest;
      } else if First(ts[1..], s) && (HasStar(ts[1..]) ==> BlockFits(ts[1..], s)) {
        rest := FirstSplits(ts[1..], s);
        pieces := [""] + rest;
      } else {
        var longer := FirstSplits(ts, s[1..]);
        FirstFitLength(ts, s[1..], longer);
        FirstFitTail(ts, s[1..], longer);
        rest := longer[1..];
        pieces := [[s[0]] + longer[0]] + rest;
        ShortestMore(ts, s, |longer[0]|);
      }
      assert pieces[1..] == rest;
      FirstFitLength(ts[1..], s[|pieces[0]|..], rest);
      FirstFitTail(ts, s, pieces);
    }
  }

  lemma NoPieces()
    ensures FirstFit([], "", [])
  {
  }

  lemma FirstFitLength(ts: seq<Token>, s: string, pieces: seq<string>)
    requires FirstFit(ts, s, pieces)
    ensures |pieces| == |ts| && Concat(pieces) == s
  {
  }

  lemma ShortestMore(ts: seq<Token>, s: string, n: nat)
    requires ts != [] && s != "" && Shortest(ts, s[1..], n)
    requires ts[0].IsStar() && HasStar(ts[1..]) ==> !BlockFits(ts[1..], s)
    ensures Shortest(ts, s, n + 1)
  {
    assert s[0..] == s;
    assert forall d :: 0 < d <= n ==> s[d..] == s[1..][d - 1..];
  }

  lemma {:induction false} SplitsFirst(ts: seq<Token>, s: string, pieces: seq<string>)
    requires FirstFit(ts, s, pieces)
    ensures First(ts, s)
    decreases |ts| + |s|
  {
    FirstFitLength(ts, s, pieces);
    if ts != [] {
      FirstFitTail(ts, s, pieces);
      hide FirstFit, Spells, Shortest;
      var tail := Concat(pieces[1..]);
      if ts[0].Lit? {
        assert s[1..] == tail;
        SplitsFirst(ts[1..], tail, pieces[1..]);
      } else if pieces[0] == "" {
        assert s == tail;
        SplitsFirst(ts[1..], tail, pieces[1..]);
        if HasStar(ts[1..]) { NextBlockFits(ts[1..], s, pieces[1..]); }
      } else {
        var shorter := OneLess(ts, s, pieces);
        SplitsFirst(ts, s[1..], shorter);
      }
    }
  }

  /// The star gives up its first character.
  lemma OneLess(ts: seq<Token>, s: string, pieces: seq<string>) returns (shorter: seq<string>)
    requires ts != [] && ts[0].IsStar() && FirstFit(ts, s, pieces) && |pieces| == |ts| && pieces[0] != ""
    ensures MayTake(ts[0], s) && FirstFit(ts, s[1..], shorter)
    ensures HasStar(ts[1..]) ==> !BlockFits(ts[1..], s)
  {
    FirstFitTail(ts, s, pieces);
    hide FirstFit, Spells;
    shorter := [pieces[0][1..]] + pieces[1..];
    assert shorter[1..] == pieces[1..] && s[1..] == pieces[0][1..] + Concat(pieces[1..]) && s[0] == pieces[0][0];
    ShortestLess(ts, s, |pieces[0]|);
    assert Fits(ts[0], shorter[0]);
    FirstFitTail(ts, s[1..], shorter);
  }

  lemma ShortestLess(ts: seq<Token>, s: string, n: nat)
    requires n > 0 && Shortest(ts, s, n)
    ensures Shortest(ts, s[1..], n - 1)
    ensures ts[0].IsStar() && HasStar(ts[1..]) ==> !BlockFits(ts[1..], s)
  {
    assert s[0..] == s;
    assert forall d :: 0 <= d < n - 1 ==> s[1..][d..] == s[d + 1..];
  }

  /// Where the tokens fit, the literals they begin with do.
  lemma {:induction false} NextBlockFits(ts: seq<Token>, s: string, pieces: seq<string>)
    requires FirstFit(ts, s, pieces)
    ensures BlockFits(ts, s)
  {
    FirstFitLength(ts, s, pieces);
    if ts != [] && ts[0].Lit? {
      FirstFitTail(ts, s, pieces);
      hide FirstFit, Shortest;
      var tail := Concat(pieces[1..]);
      NextBlockFits(ts[1..], tail, pieces[1..]);
      assert s[1..] == tail;
      assert forall i :: 0 < i < Block(ts) ==> ts[i] == ts[1..][i - 1] && s[i] == s[1..][i - 1];
    }
  }

  /// The whole answer of the matcher, for every pattern and name: yes exactly when
  /// the name splits into one fitting piece per token so that every star but the
  /// last takes as little as lets the literals after it fit. So it accepts what
  /// placing each star once and for all, from the left, finds.
  lemma AcceptsFirstFit(pattern: string, name: string)
    ensures Accepts(pattern, name) <==> exists pieces :: FirstFit(Tokens(pattern), name, pieces)
  {
    hide First, FirstFit, Scan;
    var ts := Tokens(pattern);
    ScanIsFirst(ts, name, NoStar);
    if First(ts, name) {
      var pieces := FirstSplits(ts, name);
      assert FirstFit(Tokens(pattern), name, pieces);
    } else {
      forall pieces ensures !FirstFit(ts, name, pieces) {
        if FirstFit(ts, name, pieces) { SplitsFirst(ts, name, pieces); }
      }
    }
  }

  // ----- completeness: when remembering only the last star loses nothing -------

  /// Every `*` that has a `**` somewhere before it is followed by a single '.'
  /// and then by another star. `dd` says whether a `**` has been passed.
  predicate Safe(ts: seq<Token>, dd: bool) {
    if ts == [] then true
    else match ts[0]
      case Lit(_) => Safe(ts[1..], dd)
      case DStar => Safe(ts[1..], true)
      case Star => (dd ==> DotThenStar(ts)) && Safe(ts[1..], dd)
  }

  predicate DotThenStar(ts: seq<Token>) {
    |ts| >= 3 && ts[1] == Lit('.') && ts[2].IsStar()
  }

  predicate SafePattern(pattern: string) {
    Safe(Tokens(pattern), false)
  }

  function Literals(ts: seq<Token>): nat {
    if ts == [] then 0 else (if ts[0].Lit? then 1 else 0) + Literals(ts[1..])
  }

  lemma {:induction false} MatchNeedsLiterals(ts: seq<Token>, s: string)
    requires Match(ts, s)
    ensures Literals(ts) <= |s|
    decreases |ts| + |s|
  {
    if ts == [] {
    } else if ts[0].Lit? {
      MatchNeedsLiterals(ts[1..], s[1..]);
    } else if Match(ts[1..], s) {
      MatchNeedsLiterals(ts[1..], s);
    } else {
      MatchNeedsLiterals(ts, s[1..]);
    }
  }

  lemma {:induction false} LiteralsOfBlock(ts: seq<Token>, s: string, k: nat)
    requires Spells(ts, s, k)
    ensures Literals(ts) == k + Literals(ts[k..])
    decreases k
  {
    if k == 0 {
      assert ts[0..] == ts;
    } else {
      assert ts[0] == Lit(s[0]);
      assert forall i :: 0 <= i < k - 1 ==> ts[1..][i] == ts[i + 1];
      LiteralsOfBlock(ts[1..], s[1..], k - 1);
      assert ts[1..][k - 1..] == ts[k..];
    }
  }

  lemma {:induction false} NoLiteralsAllStars(ts: seq<Token>)
    requires Literals(ts) == 0
    ensures AllStars(ts)
  {
    if ts != [] {
      NoLiteralsAllStars(ts[1..]);
      assert forall i :: 0 < i < |ts| ==> ts[i] == ts[1..][i - 1];
    }
  }

  lemma {:induction false} SafeOfBlock(ts: seq<Token>, s: string, k: nat, dd: bool)
    requires Spells(ts, s, k)
    ensures Safe(ts, dd) == Safe(ts[k..], dd)
    decreases k
  {
    if k == 0 {
      assert ts[0..] == ts;
    } else {
      assert ts[0] == Lit(s[0]);
      assert forall i :: 0 <= i < k - 1 ==> ts[1..][i] == ts[i + 1];
      SafeOfBlock(ts[1..], s[1..], k - 1, dd);
      assert ts[1..][k - 1..] == ts[k..];
    }
  }

  lemma {:induction false} FirstDot(x: string, m: nat) returns (f: nat)
    requires m < |x| && x[m] == '.'
    ensures f <= m && x[f] == '.' && Dotless(x[..f])
  {
    if Dotless(x[..m]) {
      f := m;
    } else {
      var g :| 0 <= g < m && x[g] == '.';
      f := FirstDot(x, g);
    }
  }

  lemma {:induction false} StarReachesDot(ts: seq<Token>, y: string) returns (e: nat)
    requires ts != [] && ts[0].Star? && DotThenStar(ts) && Match(ts, y)
    ensures e < |y| && y[e] == '.' && Match(ts[2..], y[e + 1..])
    decreases |y|
  {
    if Match(ts[1..], y) {
      e := 0;
      assert ts[1..][1..] == ts[2..];
    } else {
      e := StarReachesDot(ts, y[1..]);
      assert y[1..][e + 1..] == y[e + 2..];
      e := e + 1;
    }
  }

  /// A safe star after a `**` that matches a suffix also matches the whole:
  /// in the chain `*.*.` up to the next `**` the first dots serve as well.
  lemma {:induction false} ChainMono(ts: seq<Token>, x: string, d: nat)
    requires ts != [] && ts[0].IsStar() && Safe(ts, true)
    requires d <= |x| && Match(ts, x[d..])
    ensures Match(ts, x)
    decreases |ts|
  {
    if ts[0].DStar? {
      StarTakes(ts, x, d);
    } else {
      var e := StarReachesDot(ts, x[d..]);
      var f := FirstDot(x, d + e);
      assert x[f + 1..][d + e - f..] == x[d..][e + 1..];
      assert ts[1..][1..] == ts[2..];
      ChainMono(ts[2..], x[f + 1..], d + e - f);
      StarTakes(ts, x, f);
    }
  }

  /// Two dotless placements of the same literal block leave no '.' between
  /// their ends: the first '.' of the later copy would have an earlier one.
  lemma PlacementsOverlapDotless(ts: seq<Token>, s: string, k: nat, j: nat)
    requires Spells(ts, s, k) && j <= |s| && Spells(ts, s[j..], k)
    requires Dotless(s[..j])
    ensures Dotless(s[k..k + j])
  {
    if !Dotless(s[k..k + j]) {
      var i :| 0 <= i < j && s[k..k + j][i] == '.';
      var m := FirstDot(s, k + i);
      assert false;
    }
  }

  /// One later placement, `j` characters on, of the block after the old star.
  lemma PlacementDominated(ts: seq<Token>, s: string, b: Back, j: nat, dd: bool)
    requires Along(ts, s, b) && b.At? && ts != [] && ts[0].IsStar()
    requires Safe(ts, dd) && (b.ts[0].DStar? ==> dd)
    requires j <= |b.s| && (b.ts[0].Star? ==> Dotless(b.s[..j]))
    requires Match(b.ts[1..], b.s[j..])
    ensures Match(ts, s)
  {
    var y, k := b.s[j..], |b.ts| - 1 - |ts|;
    MatchedBlock(b.ts[1..], y, k, b.s);
    LiteralBlock(b.ts[1..], y, k);
    assert Match(ts, s[j..]) by {
      assert b.ts[1..][k..] == ts && y[k..] == s[j..];
    }
    if ts[0].Star? && b.ts[0].DStar? {
      ChainMono(ts, s, j);
    } else {
      if ts[0].Star? {
        PlacementsOverlapDotless(b.ts[1..], b.s, k, j);
        assert s[..j] == b.s[k..k + j];
      }
      StarTakes(ts, s, j);
    }
  }

  /// The heart of the argument: when a new star `ts[0]` is reached, whatever
  /// a later placement for the old star could match, the new star can match.
  lemma {:induction false} NewStarDominates(ts: seq<Token>, s: string, b: Back, j: nat, dd: bool)
    requires Along(ts, s, b) && b.At? && ts != [] && ts[0].IsStar()
    requires Safe(ts, dd) && (b.ts[0].DStar? ==> dd)
    requires j <= |b.s| && (b.ts[0].Star? ==> Dotless(b.s[..j]))
    requires Match(b.ts, b.s[j..])
    ensures Match(ts, s)
    decreases |b.s| - j
  {
    hide Safe, Spells;
    var y := b.s[j..];
    if Match(b.ts[1..], y) {
      PlacementDominated(ts, s, b, j, dd);
    } else {
      assert y[1..] == b.s[j + 1..];
      assert b.s[..j + 1] == b.s[..j] + [y[0]];
      NewStarDominates(ts, s, b, j + 1, dd);
    }
  }

  /// Tokens known to be literals (they spelled `w` before) spell what they match.
  lemma {:induction false} MatchedBlock(ts: seq<Token>, y: string, k: nat, w: string)
    requires Spells(ts, w, k) && Match(ts, y)
    ensures Spells(ts, y, k)
    decreases k
  {
    if k > 0 {
      assert ts[0] == Lit(w[0]);
      assert forall i :: 0 <= i < k - 1 ==> ts[1..][i] == ts[i + 1];
      MatchedBlock(ts[1..], y[1..], k - 1, w[1..]);
      assert forall i :: 0 < i < k ==> ts[i] == ts[1..][i - 1] == Lit(y[1..][i - 1]);
    }
  }

  /// At the end of the name: if the target holds, only stars are left.
  lemma CompleteAtEnd(ts: seq<Token>, b: Back)
    requires Along(ts, "", b) && Target(ts, "", b)
    ensures AllStars(ts)
  {
    if b.At? {
      var k := |b.ts| - 1 - |ts|;
      MatchNeedsLiterals(b.ts, b.s);
      LiteralsOfBlock(b.ts[1..], b.s, k);
      assert b.ts[1..][k..] == ts;
      NoLiteralsAllStars(ts);
    } else {
      AllStarsMatchNothing(ts);
    }
  }

  /// What `ScanComplete` carries from one call to the next.
  ghost predicate OnTrack(ts: seq<Token>, s: string, b: Back, dd: bool) {
    Behind(ts, s, b) && Along(ts, s, b) && Safe(ts, dd) && (b.At? && b.ts[0].DStar? ==> dd) && Target(ts, s, b)
  }

  lemma TrackToStar(ts: seq<Token>, s: string, b: Back, dd: bool)
    requires OnTrack(ts, s, b, dd) && ts != [] && ts[0].IsStar()
    ensures OnTrack(ts[1..], s, At(ts, s), dd || ts[0].DStar?)
  {
    if b.At? {
      assert b.s[0..] == b.s;
      NewStarDominates(ts, s, b, 0, dd);
    }
  }

  lemma TrackOverLiteral(ts: seq<Token>, s: string, b: Back, dd: bool)
    requires OnTrack(ts, s, b, dd) && ts != [] && s != "" && ts[0] == Lit(s[0])
    ensures OnTrack(ts[1..], s[1..], b, dd)
  {
    AlongLiteral(ts, s, b);
  }

  /// When the current literals fail, the target rests on the next placement.
  lemma TrackBack(ts: seq<Token>, s: string, b: Back, dd: bool)
    requires OnTrack(ts, s, b, dd)
    requires s != "" && (ts == [] || (ts[0].Lit? && ts[0].c != s[0]))
    ensures b.At? && (b.ts[0].DStar? || b.s[0] != '.')
    ensures OnTrack(b.ts[1..], b.s[1..], At(b.ts, b.s[1..]), dd)
  {
    assert !Match(ts, s);
    AlongTarget(ts, s, b);
    var k := |b.ts| - 1 - |ts|;
    SafeOfBlock(b.ts[1..], b.s, k, dd);
    assert b.ts[1..][k..] == ts;
  }

  /// Completeness on safe patterns: a name that matches is accepted.
  lemma {:induction false} ScanComplete(ts: seq<Token>, s: string, b: Back, dd: bool)
    requires OnTrack(ts, s, b, dd)
    ensures Scan(ts, s, b)
    decreases if b.At? then |b.ts| else |ts| + 1, if b.At? then |b.s| else 0, |ts|
  {
    hide Match, Spells, Safe, Target, Along, AllStars;
    if s == "" {
      CompleteAtEnd(ts, b);
    } else if ts != [] && ts[0].IsStar() {
      TrackToStar(ts, s, b, dd);
      ScanComplete(ts[1..], s, At(ts, s), dd || ts[0].DStar?);
    } else if ts != [] && ts[0].c == s[0] {
      TrackOverLiteral(ts, s, b, dd);
      ScanComplete(ts[1..], s[1..], b, dd);
    } else {
      TrackBack(ts, s, b, dd);
      ScanComplete(b.ts[1..], b.s[1..], At(b.ts, b.s[1..]), dd);
    }
  }

  // ----- and on unsafe patterns it always loses some name ----------------------

  /// The literals of `ts`, as the name in which every star takes nothing.
  function Spell(ts: seq<Token>): string {
    if ts == [] then ""
    else if ts[0].Lit? then [ts[0].c] + Spell(ts[1..])
    else Spell(ts[1..])
  }

  lemma {:induction false} SpellConcat(a: seq<Token>, b: seq<Token>)
    ensures Spell(a + b) == Spell(a) + Spell(b)
  {
    if a == [] {
      assert a + b == b;
    } else {
      assert (a + b)[1..] == a[1..] + b;
      SpellConcat(a[1..], b);
    }
  }

  lemma {:induction false} SpellMatches(pre: seq<Token>, ts: seq<Token>, s: string)
    requires Match(ts, s)
    ensures Match(pre + ts, Spell(pre) + s)
    decreases |pre|
  {
    if pre == [] {
      assert pre + ts == ts && Spell(pre) + s == s;
    } else {
      assert (pre + ts)[1..] == pre[1..] + ts;
      SpellMatches(pre[1..], ts, s);
      if pre[0].Lit? {
        assert (Spell(pre) + s)[1..] == Spell(pre[1..]) + s;
      }
    }
  }

  /// What separates the two copies in the lost name: a '.' that no star may
  /// cross, followed if need be by a character the next literal is not.
  function Separator(rest: seq<Token>): (sep: string)
    ensures sep != "" && sep[0] == '.'
  {
    if |rest| >= 2 && rest[0] == Lit('.') && rest[1].Lit?
    then ['.', if rest[1].c == 'a' then 'b' else 'a']
    else "."
  }

  /// A name an unsafe pattern matches but the loop refuses. `u` spells the
  /// tokens since the last `**`; the name repeats them after a separator.
  function LostName(ts: seq<Token>, dd: bool, u: string): (w: string)
    requires !Safe(ts, dd)
    ensures w != ""
  {
    match ts[0]
    case Lit(c) => [c] + LostName(ts[1..], dd, u + [c])
    case DStar => LostName(ts[1..], true, "")
    case Star =>
      if dd && !DotThenStar(ts) then Separator(ts[1..]) + u + Spell(ts[1..])
      else LostName(ts[1..], dd, u)
  }

  /// `pre` holds the tokens since and including the last `**`, if any.
  lemma {:induction false} LostNameMatches(pre: seq<Token>, ts: seq<Token>, dd: bool)
    requires !Safe(ts, dd)
    requires dd ==> pre != [] && pre[0].DStar?
    requires !dd ==> pre == []
    ensures dd ==> Match(pre + ts, Spell(pre) + LostName(ts, dd, Spell(pre)))
    ensures !dd ==> forall u :: Match(ts, LostName(ts, dd, u))
    decreases |ts|
  {
    var u := Spell(pre);
    if ts[0].DStar? {
      LostNameMatches([DStar], ts[1..], true);
      assert [DStar] + ts[1..] == ts;
      assert Spell([DStar]) == "";
      assert "" + LostName(ts[1..], true, "") == LostName(ts, dd, u);
      SpellMatches(pre, ts, LostName(ts, dd, u));
    } else if !dd {
      LostNameMatches([], ts[1..], false);
    } else if ts[0].Star? && !DotThenStar(ts) {
      var w := LostName(ts, dd, u);
      var tail := u + Spell(ts[1..]);
      var sep := Separator(ts[1..]);
      assert ts == [Star] + ts[1..];
      SpellMatches(pre + ts, [], "");
      SpellConcat(pre, ts);
      assert pre + ts + [] == pre + ts && Spell(pre + ts) + "" == tail;
      assert (u + w)[|u| + |sep|..] == tail;
      StarTakes(pre + ts, u + w, |u| + |sep|);
    } else {
      var pre' := pre + [ts[0]];
      assert pre' + ts[1..] == pre + ts;
      SpellConcat(pre, [ts[0]]);
      LostNameMatches(pre', ts[1..], dd);
      if ts[0].Lit? {
        var c := ts[0].c;
        assert Spell([ts[0]]) == [c];
        assert u + LostName(ts, dd, u) == Spell(pre') + LostName(ts[1..], dd, Spell(pre'));
      } else {
        assert Spell(pre') == u;
      }
    }
  }

  lemma {:induction false} LostNameRefused(ts: seq<Token>, dd: bool, u: string, b: Back)
    requires !Safe(ts, dd) && NoStarAfterStar(ts)
    requires Behind(ts, LostName(ts, dd, u), b)
    ensures !Scan(ts, LostName(ts, dd, u), b)
    decreases |ts|
  {
    var w := LostName(ts, dd, u);
    var rest := ts[1..];
    assert NoStarAfterStar(rest) by {
      forall i | 0 <= i < |rest| - 1 && rest[i].Star? ensures rest[i + 1].Lit? {
        assert ts[i + 1].Star?;
      }
    }
    match ts[0]
    case Lit(c) =>
      LostNameRefused(rest, dd, u + [c], b);
    case DStar =>
      LostNameRefused(rest, true, "", At(ts, w));
    case Star =>
      if dd && !DotThenStar(ts) {
        assert w[0] == '.';
        assert Scan(ts, w, b) == Scan(rest, w, At(ts, w));
        if rest != [] && rest[0] == Lit('.') {
          assert w[1..] != "";
          assert rest[1..] != [] ==> w[1] != rest[1].c;
          assert !Scan(rest[1..], w[1..], At(ts, w));
        }
      } else {
        LostNameRefused(rest, dd, u, At(ts, w));
      }
  }

  // ----- the results -----------------------------------------------------------

  /// Whatever the pattern, an accepted name matches.
  lemma AcceptsSound(pattern: string, name: string)
    requires Accepts(pattern, name)
    ensures Matches(pattern, name)
  {
    ScanSound(Tokens(pattern), name, NoStar);
  }

  /// On a safe pattern the loop decides the documented meaning.
  lemma AcceptsExactOnSafe(pattern: string, name: string)
    requires SafePattern(pattern)
    ensures Accepts(pattern, name) <==> Matches(pattern, name)
  {
    if Matches(pattern, name) {
      ScanComplete(Tokens(pattern), name, NoStar, false);
    } else if Accepts(pattern, name) {
      AcceptsSound(pattern, name);
    }
  }

  /// The exact fragment: the loop agrees with the documented meaning on every
  /// name if and only if the pattern is safe.
  lemma ExactFragment(pattern: string)
    ensures (forall name :: Accepts(pattern, name) == Matches(pattern, name)) <==> SafePattern(pattern)
  {
    if SafePattern(pattern) {
      forall name ensures Accepts(pattern, name) == Matches(pattern, name) {
        AcceptsExactOnSafe(pattern, name);
      }
    } else {
      var ts := Tokens(pattern);
      var name := LostName(ts, false, "");
      TokensRead(pattern);
      LostNameMatches([], ts, false);
      LostNameRefused(ts, false, "", NoStar);
      assert Matches(pattern, name) && !Accepts(pattern, name);
    }
  }

  lemma LiteralToken(c: char)
    ensures c != '*' ==> Tokens([c]) == [Lit(c)]
  {
  }

  /// The documented meaning is not always met: `**a*c` should match "a.ac".
  lemma LosesAName()
    ensures Matches("**a*c", "a.ac") && !Accepts("**a*c", "a.ac")
  {
    assert Tokens("**a*c") == [DStar, Lit('a'), Star, Lit('c')] by { TokensOfExample(); }
  }

  lemma TokensOfExample()
    ensures Tokens("**a*c") == [DStar, Lit('a'), Star, Lit('c')]
  {
    assert "**a*c"[2..] == "a*c" && "a*c"[1..] == "*c" && "*c"[1..] == "c";
    LiteralToken('c');
    assert Tokens("*c") == [Star, Lit('c')];
  }

  /// Without a star the matcher is string equality, the exact-name test the
  /// bus uses for listeners that are not patterns.
  lemma {:induction false} StarFreeIsEquality(pattern: string, name: string)
    requires '*' !in pattern
    ensures Accepts(pattern, name) <==> pattern == name
    decreases |pattern|
  {
    if pattern != "" && name != "" {
      assert '*' !in pattern[1..];
      StarFreeIsEquality(pattern[1..], name[1..]);
      assert pattern == [pattern[0]] + pattern[1..] && name == [name[0]] + name[1..];
    }
  }

  // ----- the loop itself ---------------------------------------------------------

  /// Index form of `Back`: `starPi` is the last star's position, or -1.
  ghost function BackAt(pattern: string, name: string, starPi: int, starNi: nat): Back
    requires starPi <= |pattern| && starNi <= |name|
  {
    if starPi < 0 then NoStar else At(Tokens(pattern[starPi..]), name[starNi..])
  }

  /// How many pattern characters the token at the front takes.
  function Width(p: string): nat {
    if |p| > 1 && p[0] == '*' && p[1] == '*' then 2 else 1
  }

  lemma TokensStep(pattern: string, pi: nat)
    requires pi < |pattern|
    ensures var w := Width(pattern[pi..]);
            pi + w <= |pattern| && Tokens(pattern[pi..]) != [] &&
            Tokens(pattern[pi..])[1..] == Tokens(pattern[pi + w..]) &&
            (Tokens(pattern[pi..])[0].IsStar() <==> pattern[pi] == '*')
  {
    var p := pattern[pi..];
    var w := Width(p);
    assert p[w..] == pattern[pi + w..];
  }

  lemma {:induction false} TrailingStars(pattern: string, pi: nat)
    requires pi <= |pattern|
    ensures AllStars(Tokens(pattern[pi..])) <==>
            pi == |pattern| ||
            (pattern[pi] == '*' && AllStars(Tokens(pattern[pi + Width(pattern[pi..])..])))
  {
    if pi < |pattern| {
      TokensStep(pattern, pi);
      var ts := Tokens(pattern[pi..]);
      assert AllStars(ts) <==> ts[0].IsStar() && AllStars(ts[1..]) by {
        assert forall i :: 0 < i < |ts| ==> ts[i] == ts[1..][i - 1];
      }
    }
  }

  /// `n` rows of `row` steps each.
  ghost function Cost(n: nat, row: nat): nat {
    if n == 0 then 0 else row + Cost(n - 1, row)
  }

  lemma {:induction false} CostMono(a: nat, b: nat, row: nat)
    requires a <= b
    ensures Cost(a, row) <= Cost(b, row)
    decreases b
  {
    if a < b { CostMono(a, b - 1, row); }
  }

  lemma {:induction false} CostIsProduct(n: nat, row: nat)
    ensures Cost(n, row) == n * row
  {
    if n > 0 { CostIsProduct(n - 1, row); }
  }

  /// The main loop's variables and its iteration count so far.
  datatype Cursor = Cursor(pi: nat, ni: nat, starPi: int, starNi: nat, starIsDouble: bool, steps: nat)

  datatype Outlook = Ill | Gives(answer: bool)

  /// The answer the loop will give from well-formed variables.
  ghost function From(pattern: string, name: string, c: Cursor): (o: Outlook) {
    if c.pi <= |pattern| && c.starNi <= c.ni <= |name| && -1 <= c.starPi < |pattern| &&
       (c.starPi >= 0 ==>
          c.starPi < c.pi && pattern[c.starPi] == '*' &&
          (c.starIsDouble <==> Width(pattern[c.starPi..]) == 2) &&
          Tokens(pattern[c.starPi..]) != [] && Tokens(pattern[c.starPi..])[0].IsStar() &&
          |Tokens(pattern[c.pi..])| < |Tokens(pattern[c.starPi..])|) &&
       c.steps <= Cost(c.starNi, |pattern| + 1) + c.pi
    then Gives(Scan(Tokens(pattern[c.pi..]), name[c.ni..], BackAt(pattern, name, c.starPi, c.starNi)))
    else Ill
  }

  lemma StepStar(pattern: string, name: string, c: Cursor, expected: bool) returns (c': Cursor)
    requires From(pattern, name, c) == Gives(expected)
    requires c.ni < |name| && c.pi < |pattern| && pattern[c.pi] == '*'
    ensures var double := c.pi + 1 < |pattern| && pattern[c.pi + 1] == '*';
            c' == Cursor(c.pi + (if double then 2 else 1), c.ni, c.pi, c.ni, double, c.steps + 1)
    ensures From(pattern, name, c') == Gives(expected)
  {
    TokensStep(pattern, c.pi);
    CostMono(c.starNi, c.ni, |pattern| + 1);
    var double := c.pi + 1 < |pattern| && pattern[c.pi + 1] == '*';
    assert double <==> Width(pattern[c.pi..]) == 2;
    c' := Cursor(c.pi + (if double then 2 else 1), c.ni, c.pi, c.ni, double, c.steps + 1);
  }

  lemma StepLiteral(pattern: string, name: string, c: Cursor, expected: bool) returns (c': Cursor)
    requires From(pattern, name, c) == Gives(expected)
    requires c.ni < |name| && c.pi < |pattern| && pattern[c.pi] != '*' && pattern[c.pi] == name[c.ni]
    ensures c' == c.(pi := c.pi + 1, ni := c.ni + 1, steps := c.steps + 1)
    ensures From(pattern, name, c') == Gives(expected)
  {
    TokensStep(pattern, c.pi);
    assert name[c.ni..][1..] == name[c.ni + 1..];
    c' := c.(pi := c.pi + 1, ni := c.ni + 1, steps := c.steps + 1);
  }

  lemma StepFail(pattern: string, name: string, c: Cursor, expected: bool)
    requires From(pattern, name, c) == Gives(expected)
    requires c.ni < |name| && (c.pi == |pattern| || (pattern[c.pi] != '*' && pattern[c.pi] != name[c.ni]))
    requires c.starPi < 0 || (!c.starIsDouble && name[c.starNi] == '.')
    ensures !expected && c.steps + 1 < Cost(|name| + 1, |pattern| + 1)
  {
    StepsBelow(c, |name|, |pattern| + 1);
    hide Cost, Spells, Match;
    if c.pi < |pattern| { TokensStep(pattern, c.pi); }
    if c.starPi >= 0 { TokensStep(pattern, c.starPi); }
    var ts, s, b := Tokens(pattern[c.pi..]), name[c.ni..], BackAt(pattern, name, c.starPi, c.starNi);
    assert ts != [] ==> ts[0].Lit? && ts[0].c != s[0];
    hide Tokens, Width;
    assert !Scan(ts, s, b);
  }

  lemma StepsBelow(c: Cursor, nlen: nat, row: nat)
    requires c.steps <= Cost(c.starNi, row) + c.pi && c.pi < row && c.starNi < nlen
    ensures c.steps + 1 < Cost(nlen + 1, row)
  {
    CostMono(c.starNi + 1, nlen, row);
  }

  lemma StepBack(pattern: string, name: string, c: Cursor, expected: bool) returns (c': Cursor)
    requires From(pattern, name, c) == Gives(expected)
    requires c.ni < |name| && (c.pi == |pattern| || (pattern[c.pi] != '*' && pattern[c.pi] != name[c.ni]))
    requires c.starPi >= 0 && (c.starIsDouble || name[c.starNi] != '.')
    ensures c' == c.(pi := c.starPi + (if c.starIsDouble then 2 else 1), ni := c.starNi + 1,
                     starNi := c.starNi + 1, steps := c.steps + 1)
    ensures From(pattern, name, c') == Gives(expected)
  {
    if c.pi < |pattern| { TokensStep(pattern, c.pi); }
    TokensStep(pattern, c.starPi);
    assert name[c.starNi..][1..] == name[c.starNi + 1..];
    c' := c.(pi := c.starPi + (if c.starIsDouble then 2 else 1), ni := c.starNi + 1,
             starNi := c.starNi + 1, steps := c.steps + 1);
  }

  lemma StepEnd(pattern: string, name: string, c: Cursor, expected: bool)
    requires From(pattern, name, c) == Gives(expected) && c.ni == |name|
    ensures expected == AllStars(Tokens(pattern[c.pi..]))
    ensures c.steps < Cost(|name| + 1, |pattern| + 1)
  {
    CostMono(c.starNi, |name|, |pattern| + 1);
  }

  /// The matcher. `steps` counts the iterations of its main loop.
  method GlobMatch(pattern: string, name: string) returns (r: bool, ghost steps: nat)
    ensures r == Accepts(pattern, name)
    ensures r <==> exists pieces :: FirstFit(Tokens(pattern), name, pieces)
    ensures r ==> Matches(pattern, name)
    ensures SafePattern(pattern) ==> (r <==> Matches(pattern, name))
    ensures steps < (|name| + 1) * (|pattern| + 1)
  {
    r, steps := GlobLoop(pattern, name);
    AcceptsFirstFit(pattern, name);
    if r { AcceptsSound(pattern, name); }
    if SafePattern(pattern) { AcceptsExactOnSafe(pattern, name); }
    CostIsProduct(|name| + 1, |pattern| + 1);
  }

  method GlobLoop(pattern: string, name: string) returns (r: bool, ghost steps: nat)
    ensures r == Accepts(pattern, name)
    ensures steps < Cost(|name| + 1, |pattern| + 1)
  {
    hide Tokens, Scan, Width, Cost;
    var plen, nlen := |pattern|, |name|;
    var pi, ni := 0, 0;
    var starPi: int := -1;
    var starNi := 0;
    var starIsDouble := false;
    steps := 0;
    ghost var expected := Accepts(pattern, name);
    ghost var c := Cursor(0, 0, -1, 0, false, 0);
    assert pattern[0..] == pattern && name[0..] == name;

    while ni < nlen
      invariant c == Cursor(pi, ni, starPi, starNi, starIsDouble, steps)
      invariant From(pattern, name, c) == Gives(expected)
      decreases plen - starPi, nlen - starNi, plen - pi
    {
      steps := steps + 1;
      if pi < plen && pattern[pi] == '*' {
        var isDouble := pi + 1 < plen && pattern[pi + 1] == '*';
        c := StepStar(pattern, name, c, expected);
        starPi := pi;
        starIsDouble := isDouble;
        starNi := ni;
        pi := pi + (if isDouble then 2 else 1);
        continue;
      }
      if pi < plen && pattern[pi] == name[ni] {
        c := StepLiteral(pattern, name, c, expected);
        pi := pi + 1;
        ni := ni + 1;
        continue;
      }
      if starPi >= 0 {
        if !starIsDouble && name[starNi] == '.' {
          StepFail(pattern, name, c, expected);
          return false, steps;
        }
        c := StepBack(pattern, name, c, expected);
        starNi := starNi + 1;
        if !starIsDouble && starNi <= nlen && starNi > 0 && name[starNi - 1] == '.' {
          return false, steps;
        }
        ni := starNi;
        pi := starPi + (if starIsDouble then 2 else 1);
        continue;
      }
      StepFail(pattern, name, c, expected);
      return false, steps;
    }

    StepEnd(pattern, name, c, expected);
    r := TrailingLoop(pattern, pi);
  }

  /// The second loop: consume trailing stars, then ask whether anything is left.
  method TrailingLoop(pattern: string, start: nat) returns (r: bool)
    requires start <= |pattern|
    ensures r == AllStars(Tokens(pattern[start..]))
  {
    var plen, pi := |pattern|, start;
    while pi < plen && pattern[pi] == '*'
      invariant 0 <= pi <= plen
      invariant AllStars(Tokens(pattern[start..])) == AllStars(Tokens(pattern[pi..]))
    {
      TrailingStars(pattern, pi);
      if pi + 1 < plen && pattern[pi + 1] == '*' {
        pi := pi + 2;
      } else {
        pi := pi + 1;
      }
    }
    TrailingStars(pattern, pi);
    return pi == plen;
  }
}
