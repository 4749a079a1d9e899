/** What the rewriting of lone surrogates means: reading the rewritten text
    gives what was read, with every unpaired half replaced by U+FFFD. */
module SurrogateText {
  import opened Wrappers
  import opened Surrogates

  /** The pieces of a text: a quote, an ordinary character, an escape of two
      characters, an escape with four hex digits. */
  datatype Piece = Quote | Plain(c: char) | Escape(c: char) | Unicode(digits: string)

  predicate IsDigits(digits: string) {
    |digits| == 4 && IsHex(digits[0]) && IsHex(digits[1]) && IsHex(digits[2]) && IsHex(digits[3])
  }

  predicate IsEscape(c: char) {
    c == '"' || c == '\\' || c == '/' || c == 'b' || c == 'f' || c == 'n' || c == 'r' || c == 't'
  }

  predicate PieceOk(p: Piece, inString: bool) {
    match p
    case Quote => true
    case Plain(c) => c != '"' && (inString ==> c != '\\')
    case Escape(c) => inString && IsEscape(c)
    case Unicode(digits) => inString && IsDigits(digits)
  }

  predicate PiecesOk(ps: seq<Piece>, inString: bool) {
    ps == [] || (PieceOk(ps[0], inString) && PiecesOk(ps[1..], inString != ps[0].Quote?))
  }

  function Text(p: Piece): string {
    match p
    case Quote => "\""
    case Plain(c) => [c]
    case Escape(c) => ['\\', c]
    case Unicode(digits) => ['\\', 'u'] + digits
  }

  function Render(ps: seq<Piece>): string {
    if ps == [] then "" else Text(ps[0]) + Render(ps[1..])
  }

  /** One character, or two units, or what the escape stands for. */
  datatype Token = Outside(c: char) | Bound | Unit(u: nat)

  function Utf16(c: char): seq<Token> {
    var n := c as int;
    if n < 0x1_0000 then [Unit(n)] else [Unit(0xd800 + (n - 0x1_0000) / 0x400), Unit(0xdc00 + (n - 0x1_0000) % 0x400)]
  }

  function EscapeCode(c: char): nat {
    match c
    case 'b' => 8
    case 'f' => 12
    case 'n' => 10
    case 'r' => 13
    case 't' => 9
    case _ => if c as int < 128 then c as int else 0
  }

  function TokensOf(p: Piece, inString: bool): seq<Token> {
    match p
    case Quote => [Bound]
    case Plain(c) => if inString then Utf16(c) else [Outside(c)]
    case Escape(c) => [Unit(EscapeCode(c))]
    case Unicode(digits) => if |digits| == 4 then [Unit(UnitOf(digits))] else []
  }

  /** What a reader makes of a text, with strings as UTF-16. */
  function Tokens(ps: seq<Piece>, inString: bool): seq<Token> {
    if ps == [] then [] else TokensOf(ps[0], inString) + Tokens(ps[1..], inString != ps[0].Quote?)
  }

  predicate StartsLow(ts: seq<Token>) { ts != [] && ts[0].Unit? && IsLow(ts[0].u) }

  /** Every unpaired half becomes U+FFFD. */
  function Paired(ts: seq<Token>): seq<Token> {
    if ts == [] then []
    else if ts[0].Unit? && IsHigh(ts[0].u) && StartsLow(ts[1..]) then [ts[0], ts[1]] + Paired(ts[2..])
    else if ts[0].Unit? && IsSurrogate(ts[0].u) then [Unit(0xfffd)] + Paired(ts[1..])
    else [ts[0]] + Paired(ts[1..])
  }

  predicate StartsLowPiece(ps: seq<Piece>) {
    ps != [] && ps[0].Unicode? && |ps[0].digits| == 4 && IsLow(UnitOf(ps[0].digits))
  }

  /** The pieces of the rewritten text. */
  function Fixed(ps: seq<Piece>): seq<Piece> {
    if ps == [] then []
    else if ps[0].Unicode? && |ps[0].digits| == 4 && IsHigh(UnitOf(ps[0].digits)) && StartsLowPiece(ps[1..]) then
      [ps[0], ps[1]] + Fixed(ps[2..])
    else if ps[0].Unicode? && |ps[0].digits| == 4 && IsSurrogate(UnitOf(ps[0].digits)) then [Unicode("FFFD")] + Fixed(ps[1..])
    else [ps[0]] + Fixed(ps[1..])
  }

  // ------------------------------------------------------------- the rewriting

  /** A string's text starts with an escape for a unit just when its pieces do. */
  lemma EscapeOfRender(ps: seq<Piece>)
    requires PiecesOk(ps, true)
    ensures UnicodeEscape(Render(ps)) == if ps != [] && ps[0].Unicode? then Some(UnitOf(ps[0].digits)) else None
  {
    if ps != [] && ps[0].Unicode? {
      var digits := ps[0].digits;
      assert Render(ps)[2..6] == digits;
    }
  }

  lemma RewriteKeeps(p: Piece, rest: string, inString: bool)
    requires PieceOk(p, inString) && !p.Unicode?
    ensures Rewritten(Text(p) + rest, inString) == Text(p) + Rewritten(rest, inString != p.Quote?)
  {
    var s := Text(p) + rest;
    assert !(p.Escape? && UnicodeEscape(s).Some?);
    assert Taken(s, inString) == |Text(p)|;
    assert s[..|Text(p)|] == Text(p) && s[|Text(p)|..] == rest;
  }

  lemma RewriteUnicode(digits: string, rest: string)
    requires IsDigits(digits)
    ensures UnicodeEscape(Text(Unicode(digits)) + rest) == Some(UnitOf(digits))
    ensures !(IsHigh(UnitOf(digits)) && UnicodeEscape(rest).Some? && IsLow(UnicodeEscape(rest).value)) ==>
      Rewritten(Text(Unicode(digits)) + rest, true) ==
        (if IsSurrogate(UnitOf(digits)) then REPLACEMENT else Text(Unicode(digits))) + Rewritten(rest, true)
  {
    var s := Text(Unicode(digits)) + rest;
    assert s[2..6] == digits && s[6..] == rest && s[..6] == Text(Unicode(digits));
  }

  lemma RewritePair(high: string, low: string, rest: string)
    requires IsDigits(high) && IsDigits(low) && IsHigh(UnitOf(high)) && IsLow(UnitOf(low))
    ensures Rewritten(Text(Unicode(high)) + (Text(Unicode(low)) + rest), true)
         == Text(Unicode(high)) + (Text(Unicode(low)) + Rewritten(rest, true))
  {
    var s := Text(Unicode(high)) + (Text(Unicode(low)) + rest);
    assert s[2..6] == high;
    assert s[6..] == Text(Unicode(low)) + rest && s[6..][2..6] == low;
    assert IsPaired(s) && Taken(s, true) == 12;
    assert s[12..] == rest && s[..12] == Text(Unicode(high)) + Text(Unicode(low));
  }

  lemma RenderOne(p: Piece, rest: seq<Piece>)
    ensures Render([p] + rest) == Text(p) + Render(rest)
  {
    assert ([p] + rest)[1..] == rest;
  }

  lemma RenderTwo(p: Piece, q: Piece, rest: seq<Piece>)
    ensures Render([p, q] + rest) == Text(p) + (Text(q) + Render(rest))
  {
    RenderOne(q, rest);
    RenderOne(p, [q] + rest);
    assert [p] + ([q] + rest) == [p, q] + rest;
  }

  /** The next piece, with its pair if it has one. */
  predicate PairNext(ps: seq<Piece>) {
    ps != [] && ps[0].Unicode? && |ps[0].digits| == 4 && IsHigh(UnitOf(ps[0].digits)) && StartsLowPiece(ps[1..])
  }

  lemma RewritesPair(ps: seq<Piece>)
    requires PiecesOk(ps, true) && PairNext(ps) && Rewritten(Render(ps[2..]), true) == Render(Fixed(ps[2..]))
    ensures Rewritten(Render(ps), true) == Render(Fixed(ps))
  {
    var rest := ps[2..];
    assert ps == [ps[0], ps[1]] + rest && ps[1..][0] == ps[1];
    RenderTwo(ps[0], ps[1], rest);
    RenderTwo(ps[0], ps[1], Fixed(rest));
    RewritePair(ps[0].digits, ps[1].digits, Render(rest));
  }

  lemma RewritesLone(ps: seq<Piece>)
    requires PiecesOk(ps, true) && ps != [] && ps[0].Unicode? && !PairNext(ps)
    requires Rewritten(Render(ps[1..]), true) == Render(Fixed(ps[1..]))
    ensures Rewritten(Render(ps), true) == Render(Fixed(ps))
  {
    var p, rest := ps[0], ps[1..];
    EscapeOfRender(rest);
    RewriteUnicode(p.digits, Render(rest));
    RenderOne(Unicode("FFFD"), Fixed(rest));
    RenderOne(p, Fixed(rest));
    assert Text(Unicode("FFFD")) == REPLACEMENT;
  }

  /** The rewriting of a text is the text of the fixed pieces. */
  lemma {:induction false} RewritesToFixed(ps: seq<Piece>, inString: bool)
    requires PiecesOk(ps, inString)
    ensures Rewritten(Render(ps), inString) == Render(Fixed(ps))
    decreases |ps|
  {
    if ps == [] {
    } else if PairNext(ps) {
      assert ps[1..][1..] == ps[2..];
      RewritesToFixed(ps[2..], inString);
      RewritesPair(ps);
    } else {
      RewritesToFixed(ps[1..], inString != ps[0].Quote?);
      if ps[0].Unicode? {
        RewritesLone(ps);
      } else {
        RewriteKeeps(ps[0], Render(ps[1..]), inString);
        RenderOne(ps[0], Fixed(ps[1..]));
      }
    }
  }

  // ------------------------------------------------------------- the meaning

  lemma StartsLowMeans(ps: seq<Piece>, inString: bool)
    requires PiecesOk(ps, inString)
    ensures StartsLow(Tokens(ps, inString)) <==> StartsLowPiece(ps)
  {
  }

  lemma PairedTwo(a: Token, b: Token, rest: seq<Token>)
    requires a.Unit? && IsHigh(a.u) && b.Unit? && IsLow(b.u)
    ensures Paired([a, b] + rest) == [a, b] + Paired(rest)
  {
    var ts := [a, b] + rest;
    assert ts[1..] == [b] + rest && ts[2..] == rest;
  }

  lemma PairedOne(a: Token, rest: seq<Token>)
    requires !(a.Unit? && IsHigh(a.u) && StartsLow(rest))
    ensures Paired([a] + rest) == [if a.Unit? && IsSurrogate(a.u) then Unit(0xfffd) else a] + Paired(rest)
  {
    assert ([a] + rest)[1..] == rest;
  }

  lemma TwoPieces(ps: seq<Piece>)
    requires PiecesOk(ps, true) && PairNext(ps)
    requires PiecesOk(Fixed(ps[2..]), true) && Tokens(Fixed(ps[2..]), true) == Paired(Tokens(ps[2..], true))
    ensures PiecesOk(Fixed(ps), true) && Tokens(Fixed(ps), true) == Paired(Tokens(ps, true))
  {
    var p, q, rest := ps[0], ps[1], ps[2..];
    assert ps[1..][0] == q && ps[1..][1..] == rest;
    var a, b := Unit(UnitOf(p.digits)), Unit(UnitOf(q.digits));
    TokensTwo(p, q, rest);
    TokensTwo(p, q, Fixed(rest));
    assert ps == [p, q] + rest;
    PairedTwo(a, b, Tokens(rest, true));
  }

  lemma TokensTwo(p: Piece, q: Piece, rest: seq<Piece>)
    requires p.Unicode? && q.Unicode? && IsDigits(p.digits) && IsDigits(q.digits)
    ensures Tokens([p, q] + rest, true) == [Unit(UnitOf(p.digits)), Unit(UnitOf(q.digits))] + Tokens(rest, true)
    ensures PiecesOk(rest, true) ==> PiecesOk([p, q] + rest, true)
  {
    var ps := [p, q] + rest;
    assert ps[1..] == [q] + rest && ([q] + rest)[1..] == rest;
    assert [Unit(UnitOf(p.digits))] + ([Unit(UnitOf(q.digits))] + Tokens(rest, true))
        == [Unit(UnitOf(p.digits)), Unit(UnitOf(q.digits))] + Tokens(rest, true);
  }

  /** Reading the fixed pieces is pairing up what was read. */
  lemma {:induction false} FixedMeansPaired(ps: seq<Piece>, inString: bool)
    requires PiecesOk(ps, inString)
    ensures PiecesOk(Fixed(ps), inString)
    ensures Tokens(Fixed(ps), inString) == Paired(Tokens(ps, inString))
    decreases |ps|
  {
    if ps == [] {
    } else if PairNext(ps) {
      assert ps[1..][1..] == ps[2..];
      FixedMeansPaired(ps[2..], inString);
      TwoPieces(ps);
    } else {
      StartsLowMeans(ps[1..], inString != ps[0].Quote?);
      FixedMeansPaired(ps[1..], inString != ps[0].Quote?);
      OnePiece(ps[0], ps[1..], inString);
    }
  }

  lemma OnePiece(p: Piece, rest: seq<Piece>, inString: bool)
    requires PieceOk(p, inString)
    requires !(p.Unicode? && IsHigh(UnitOf(p.digits)) && StartsLow(Tokens(rest, inString != p.Quote?)))
    requires PiecesOk(Fixed(rest), inString != p.Quote?)
    requires Tokens(Fixed(rest), inString != p.Quote?) == Paired(Tokens(rest, inString != p.Quote?))
    ensures var q := if p.Unicode? && IsSurrogate(UnitOf(p.digits)) then Unicode("FFFD") else p;
      && PiecesOk([q] + Fixed(rest), inString)
      && Tokens([q] + Fixed(rest), inString) == Paired(TokensOf(p, inString) + Tokens(rest, inString != p.Quote?))
  {
    var q := if p.Unicode? && IsSurrogate(UnitOf(p.digits)) then Unicode("FFFD") else p;
    var tail := Tokens(rest, inString != p.Quote?);
    assert ([q] + Fixed(rest))[1..] == Fixed(rest);
    assert UnitOf("FFFD") == 0xfffd;
    var own := TokensOf(p, inString);
    if |own| == 1 {
      PairedOne(own[0], tail);
    } else {
      PairedTwo(own[0], own[1], tail);
      assert own == [own[0], own[1]];
    }
  }

  // ------------------------------------------------------------- texts

  /** The pieces of a text; None when a string has a malformed escape. */
  function Pieces(s: string, inString: bool): Option<seq<Piece>>
    decreases |s|
  {
    if s == "" then Some([])
    else if s[0] == '\\' && inString then
      if |s| >= 6 && s[1] == 'u' && IsDigits(s[2..6]) then Prepended(Unicode(s[2..6]), Pieces(s[6..], inString))
      else if |s| >= 2 && IsEscape(s[1]) then Prepended(Escape(s[1]), Pieces(s[2..], inString))
      else None
    else if s[0] == '"' then Prepended(Quote, Pieces(s[1..], !inString))
    else Prepended(Plain(s[0]), Pieces(s[1..], inString))
  }

  function Prepended(p: Piece, ps: Option<seq<Piece>>): Option<seq<Piece>> {
    match ps case None => None case Some(rest) => Some([p] + rest)
  }

  lemma {:induction false} PiecesRender(s: string, inString: bool)
    requires Pieces(s, inString).Some?
    ensures PiecesOk(Pieces(s, inString).value, inString) && Render(Pieces(s, inString).value) == s
    decreases |s|
  {
    if s != "" {
      var ps := Pieces(s, inString).value;
      var n := |Text(ps[0])|;
      assert s[..n] == Text(ps[0]) && s == s[..n] + s[n..];
      PiecesRender(s[n..], inString != ps[0].Quote?);
      assert ps[1..] == Pieces(s[n..], inString != ps[0].Quote?).value;
    }
  }

  lemma {:induction false} RenderPieces(ps: seq<Piece>, inString: bool)
    requires PiecesOk(ps, inString)
    ensures Pieces(Render(ps), inString) == Some(ps)
    decreases |ps|
  {
    if ps != [] {
      RenderPieces(ps[1..], inString != ps[0].Quote?);
      var s, n := Render(ps), |Text(ps[0])|;
      assert s[..n] == Text(ps[0]) && s[n..] == Render(ps[1..]);
      assert ps[0].Unicode? ==> s[2..6] == ps[0].digits;
      assert [ps[0]] + ps[1..] == ps;
    }
  }

  function Read(s: string): seq<Token>
    requires Pieces(s, false).Some?
  {
    Tokens(Pieces(s, false).value, false)
  }

  /** Rewriting and then reading is reading and then replacing every unpaired
      half; the text keeps its length and its well-formedness. */
  lemma RewritingCommutes(s: string)
    requires Pieces(s, false).Some?
    ensures |Rewritten(s, false)| == |s|
    ensures Pieces(Rewritten(s, false), false).Some? && Read(Rewritten(s, false)) == Paired(Read(s))
  {
    var ps := Pieces(s, false).value;
    PiecesRender(s, false);
    RewritesToFixed(ps, false);
    FixedMeansPaired(ps, false);
    RenderPieces(Fixed(ps), false);
  }

  /** Nothing unpaired is left. */
  lemma {:induction false} PairedIsStable(ts: seq<Token>)
    ensures Paired(Paired(ts)) == Paired(ts)
    ensures !StartsLow(Paired(ts))
    decreases |ts|
  {
    if ts == [] {
    } else if ts[0].Unit? && IsHigh(ts[0].u) && StartsLow(ts[1..]) {
      PairedIsStable(ts[2..]);
      PairedTwo(ts[0], ts[1], Paired(ts[2..]));
    } else {
      PairedIsStable(ts[1..]);
      var head := if ts[0].Unit? && IsSurrogate(ts[0].u) then Unit(0xfffd) else ts[0];
      assert ts == [ts[0]] + ts[1..];
      PairedOne(ts[0], ts[1..]);
      PairedOne(head, Paired(ts[1..]));
    }
  }

  lemma SamePiece(p: Piece, rest: seq<Piece>, inString: bool)
    requires PieceOk(p, inString)
    requires !(p.Unicode? && IsHigh(UnitOf(p.digits)) && StartsLow(Tokens(rest, inString != p.Quote?)))
    requires Paired(Tokens([p] + rest, inString)) == Tokens([p] + rest, inString)
    ensures !(p.Unicode? && IsSurrogate(UnitOf(p.digits)))
    ensures Paired(Tokens(rest, inString != p.Quote?)) == Tokens(rest, inString != p.Quote?)
  {
    var own, tail := TokensOf(p, inString), Tokens(rest, inString != p.Quote?);
    assert ([p] + rest)[1..] == rest;
    assert Tokens([p] + rest, inString) == own + tail;
    if |own| == 1 {
      assert own == [own[0]];
      PairedOne(own[0], tail);
      assert (own + tail)[0] == own[0] && (own + tail)[1..] == tail;
      assert Paired(own + tail)[1..] == Paired(tail);
    } else {
      assert own == [own[0], own[1]];
      PairedTwo(own[0], own[1], tail);
      assert (own + tail)[2..] == tail;
      assert (own + Paired(tail))[2..] == Paired(tail);
    }
  }

  lemma {:induction false} PairedIsUntouched(ps: seq<Piece>, inString: bool)
    requires PiecesOk(ps, inString) && Paired(Tokens(ps, inString)) == Tokens(ps, inString)
    ensures Fixed(ps) == ps
    decreases |ps|
  {
    if ps == [] {
    } else if PairNext(ps) {
      var a, b := Unit(UnitOf(ps[0].digits)), Unit(UnitOf(ps[1].digits));
      assert ps[1..][1..] == ps[2..] && ps == [ps[0], ps[1]] + ps[2..];
      TokensTwo(ps[0], ps[1], ps[2..]);
      PairedTwo(a, b, Tokens(ps[2..], inString));
      assert ([a, b] + Tokens(ps[2..], inString))[2..] == Tokens(ps[2..], inString);
      assert ([a, b] + Paired(Tokens(ps[2..], inString)))[2..] == Paired(Tokens(ps[2..], inString));
      PairedIsUntouched(ps[2..], inString);
    } else {
      StartsLowMeans(ps[1..], inString != ps[0].Quote?);
      assert ps == [ps[0]] + ps[1..];
      SamePiece(ps[0], ps[1..], inString);
      PairedIsUntouched(ps[1..], inString != ps[0].Quote?);
    }
  }

  /** A text is returned as it is exactly when it has no unpaired half. */
  lemma UntouchedIffPaired(s: string)
    requires Pieces(s, false).Some?
    ensures Rewritten(s, false) == s <==> Paired(Read(s)) == Read(s)
  {
    RewritingCommutes(s);
    if Paired(Read(s)) == Read(s) {
      PiecesRender(s, false);
      RewritesToFixed(Pieces(s, false).value, false);
      PairedIsUntouched(Pieces(s, false).value, false);
    }
  }
}
