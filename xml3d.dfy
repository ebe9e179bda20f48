/**
 * The text content of the two data elements of the exported XML3D document:
 * the positions as one stream of "x y z" tokens and the triangle indices
 * joined by single spaces.
 */
module Xml3d {
  import opened Geometry

  /** Joining strings with a separator, as string.Join does. */
  function Join(sep: string, parts: seq<string>): string
    decreases |parts|
  {
    if |parts| == 0 then ""
    else if |parts| == 1 then parts[0]
    else parts[0] + sep + Join(sep, parts[1..])
  }

  /** Splitting at every single space; cur collects the token being read. */
  function SplitFrom(s: string, cur: string): seq<string>
    decreases |s|
  {
    if s == [] then [cur]
    else if s[0] == ' ' then [cur] + SplitFrom(s[1..], "")
    else SplitFrom(s[1..], cur + [s[0]])
  }

  /** The space-separated tokens of a text; the empty text has none. */
  function Tokens(s: string): seq<string> {
    if s == [] then [] else SplitFrom(s, "")
  }

  /** A token is non-empty and holds no space. */
  predicate IsToken(t: string) { t != [] && ' ' !in t }

  /** A number format whose every output is a token. */
  ghost predicate TokenFormat(fmt: real -> string) {
    forall r :: IsToken(fmt(r))
  }

  /** The text of one vertex, "x y z". */
  function Triple(p: Point3, fmt: real -> string): string {
    fmt(p.x) + " " + fmt(p.y) + " " + fmt(p.z)
  }

  /** The vertices' texts in vertex order. */
  function Triples(ps: seq<Point3>, fmt: real -> string): seq<string> {
    if ps == [] then [] else [Triple(ps[0], fmt)] + Triples(ps[1..], fmt)
  }

  /** The position element's text: the vertex texts joined by spaces. */
  function PositionText(ps: seq<Point3>, fmt: real -> string): string {
    Join(" ", Triples(ps, fmt))
  }

  /** The flat token stream x0 y0 z0 x1 y1 z1 ... of the positions. */
  function PositionTokens(ps: seq<Point3>, fmt: real -> string): (r: seq<string>)
    ensures |r| == 3 * |ps|
  {
    if ps == [] then [] else [fmt(ps[0].x), fmt(ps[0].y), fmt(ps[0].z)] + PositionTokens(ps[1..], fmt)
  }

  function DigitChar(d: nat): char
    requires d < 10
  {
    "0123456789"[d]
  }

  /** Decimal digits of a natural number, most significant first. */
  function NatText(n: nat): (r: string)
    ensures r != []
    ensures forall i :: 0 <= i < |r| ==> '0' <= r[i] <= '9'
  {
    if n < 10 then [DigitChar(n)] else NatText(n / 10) + [DigitChar(n % 10)]
  }

  /** Locale-independent integer formatting: an optional minus sign, then the digits. */
  function IntText(n: int): (r: string)
    ensures IsToken(r)
    ensures r[0] == '-' || '0' <= r[0] <= '9'
    ensures forall i :: 0 < i < |r| ==> '0' <= r[i] <= '9'
  {
    if n < 0 then "-" + NatText(-n) else NatText(n)
  }

  /** The value of a decimal digit character. */
  function DigitValue(c: char): nat
    requires '0' <= c <= '9'
  {
    c as int - '0' as int
  }

  /** The number a string of decimal digits denotes, most significant first. */
  function DigitsValue(s: string): nat
    requires forall i :: 0 <= i < |s| ==> '0' <= s[i] <= '9'
  {
    if s == [] then 0 else DigitsValue(s[..|s| - 1]) * 10 + DigitValue(s[|s| - 1])
  }

  /** The number a signed decimal text denotes: an optional minus sign, then digits. */
  function SignedValue(s: string): int
    requires s != [] && (s[0] == '-' || '0' <= s[0] <= '9')
    requires forall i :: 0 < i < |s| ==> '0' <= s[i] <= '9'
  {
    if s[0] == '-' then -(DigitsValue(s[1..]) as int) else DigitsValue(s)
  }

  /** Reading back the digits of a natural number gives the number. */
  lemma {:induction false} NatTextValue(n: nat)
    ensures DigitsValue(NatText(n)) == n
  {
    if n >= 10 {
      NatTextValue(n / 10);
      var t := NatText(n);
      assert t[..|t| - 1] == NatText(n / 10);
    }
  }

  /** Reading back an integer's text gives the integer, so distinct integers have distinct texts. */
  lemma IntTextValue(n: int)
    ensures '0' <= IntText(n)[0] <= '9' <==> n >= 0
    ensures SignedValue(IntText(n)) == n
  {
    var t := IntText(n);
    if n < 0 {
      var digits := NatText(-n);
      assert t == "-" + digits;
      assert t[0] == '-' && t[1..] == digits;
      NatTextValue(-n);
    } else {
      assert t == NatText(n);
      assert '0' <= t[0] <= '9';
      NatTextValue(n);
    }
  }

  lemma IntTextInjective(m: int, n: int)
    ensures IntText(m) == IntText(n) ==> m == n
  {
    IntTextValue(m);
    IntTextValue(n);
  }

  function IntTexts(ns: seq<int>): (r: seq<string>)
    ensures |r| == |ns|
    ensures forall k :: 0 <= k < |ns| ==> r[k] == IntText(ns[k])
  {
    if ns == [] then [] else [IntText(ns[0])] + IntTexts(ns[1..])
  }

  /** The index element's text: the indices joined by single spaces. */
  function IndexText(indices: seq<int>): string {
    Join(" ", IntTexts(indices))
  }

  // ----- the join / split round trip -----

  lemma JoinCons(sep: string, a: string, rest: seq<string>)
    requires rest != []
    ensures Join(sep, [a] + rest) == a + sep + Join(sep, rest)
  {
  }

  /** Reading a space-free run t continues the current token up to the next space. */
  lemma {:induction false} SplitFromToken(t: string, cur: string, rest: string)
    requires ' ' !in t
    ensures SplitFrom(t, cur) == [cur + t]
    ensures SplitFrom(t + " " + rest, cur) == [cur + t] + SplitFrom(rest, "")
  {
    if t == [] {
      assert t + " " + rest == [' '] + rest;
      assert cur + t == cur;
    } else {
      assert (t + " " + rest)[1..] == t[1..] + " " + rest;
      assert cur + [t[0]] + t[1..] == cur + t;
      SplitFromToken(t[1..], cur + [t[0]], rest);
    }
  }

  lemma {:induction false} SplitJoin(parts: seq<string>)
    requires parts != []
    requires forall k :: 0 <= k < |parts| ==> IsToken(parts[k])
    ensures SplitFrom(Join(" ", parts), "") == parts
  {
    SplitFromToken(parts[0], "", "");
    assert "" + parts[0] == parts[0];
    if |parts| > 1 {
      SplitFromToken(parts[0], "", Join(" ", parts[1..]));
      SplitJoin(parts[1..]);
      assert parts == [parts[0]] + parts[1..];
    }
  }

  /** Joining tokens with single spaces and splitting the text again gives back the tokens. */
  lemma TokensOfJoin(parts: seq<string>)
    requires forall k :: 0 <= k < |parts| ==> IsToken(parts[k])
    ensures Tokens(Join(" ", parts)) == parts
  {
    if parts != [] {
      assert Join(" ", parts) != [] by {
        assert |Join(" ", parts)| >= |parts[0]| by {
          if |parts| > 1 { JoinCons(" ", parts[0], parts[1..]); assert parts == [parts[0]] + parts[1..]; }
        }
      }
      SplitJoin(parts);
    }
  }

  // ----- the export layout -----

  /** Joining a triple in front of further parts. */
  lemma JoinTriple(a: string, b: string, c: string, rest: seq<string>)
    ensures rest == [] ==> Join(" ", [a, b, c] + rest) == a + " " + b + " " + c
    ensures rest != [] ==> Join(" ", [a, b, c] + rest) == a + " " + b + " " + c + " " + Join(" ", rest)
  {
    var toks := [a, b, c] + rest;
    assert toks[1..] == [b, c] + rest;
    assert toks[1..][1..] == [c] + rest;
    var tail := if rest == [] then "" else " " + Join(" ", rest);
    if rest != [] {
      JoinCons(" ", c, rest);
    }
    assert Join(" ", [c] + rest) == c + tail;
    assert Join(" ", toks) == a + " " + (b + " " + (c + tail));
    assert a + " " + (b + " " + (c + tail)) == a + " " + b + " " + c + tail;
  }

  /** The vertex texts flow into one stream: the position text is the flat tokens joined by spaces. */
  lemma {:induction false} PositionTextIsTokenStream(ps: seq<Point3>, fmt: real -> string)
    ensures PositionText(ps, fmt) == Join(" ", PositionTokens(ps, fmt))
  {
    if ps != [] {
      var p := ps[0];
      JoinTriple(fmt(p.x), fmt(p.y), fmt(p.z), PositionTokens(ps[1..], fmt));
      assert Triples(ps, fmt) == [Triple(p, fmt)] + Triples(ps[1..], fmt);
      if ps[1..] != [] {
        PositionTextIsTokenStream(ps[1..], fmt);
        JoinCons(" ", Triple(p, fmt), Triples(ps[1..], fmt));
      } else {
        assert Triples(ps, fmt) == [Triple(p, fmt)];
      }
    }
  }

  lemma {:induction false} PositionTokensAreTokens(ps: seq<Point3>, fmt: real -> string)
    requires TokenFormat(fmt)
    ensures forall j :: 0 <= j < |PositionTokens(ps, fmt)| ==> IsToken(PositionTokens(ps, fmt)[j])
  {
    if ps != [] {
      PositionTokensAreTokens(ps[1..], fmt);
      var p := ps[0];
      assert IsToken(fmt(p.x)) && IsToken(fmt(p.y)) && IsToken(fmt(p.z));
    }
  }

  lemma {:induction false} PositionTokensAt(ps: seq<Point3>, fmt: real -> string, k: nat)
    requires k < |ps|
    ensures PositionTokens(ps, fmt)[3 * k] == fmt(ps[k].x)
    ensures PositionTokens(ps, fmt)[3 * k + 1] == fmt(ps[k].y)
    ensures PositionTokens(ps, fmt)[3 * k + 2] == fmt(ps[k].z)
  {
    if k > 0 {
      PositionTokensAt(ps[1..], fmt, k - 1);
    }
  }

  /**
   * With a format that never yields spaces or empty text, the position text
   * holds exactly 3N tokens, x y z of each vertex in vertex order.
   */
  lemma PositionTokenLayout(ps: seq<Point3>, fmt: real -> string)
    requires TokenFormat(fmt)
    ensures Tokens(PositionText(ps, fmt)) == PositionTokens(ps, fmt)
    ensures |Tokens(PositionText(ps, fmt))| == 3 * |ps|
    ensures forall k :: 0 <= k < |ps| ==>
              Tokens(PositionText(ps, fmt))[3 * k] == fmt(ps[k].x) &&
              Tokens(PositionText(ps, fmt))[3 * k + 1] == fmt(ps[k].y) &&
              Tokens(PositionText(ps, fmt))[3 * k + 2] == fmt(ps[k].z)
  {
    PositionTokensAreTokens(ps, fmt);
    PositionTextIsTokenStream(ps, fmt);
    TokensOfJoin(PositionTokens(ps, fmt));
    forall k | 0 <= k < |ps|
      ensures PositionTokens(ps, fmt)[3 * k] == fmt(ps[k].x)
      ensures PositionTokens(ps, fmt)[3 * k + 1] == fmt(ps[k].y)
      ensures PositionTokens(ps, fmt)[3 * k + 2] == fmt(ps[k].z)
    {
      PositionTokensAt(ps, fmt, k);
    }
  }

  /**
   * The index text holds one token per index, in stored order, and each
   * token reads back as its index.
   */
  lemma IndexTokenLayout(indices: seq<int>)
    ensures Tokens(IndexText(indices)) == IntTexts(indices)
    ensures |Tokens(IndexText(indices))| == |indices|
    ensures forall k :: 0 <= k < |indices| ==> SignedValue(Tokens(IndexText(indices))[k]) == indices[k]
  {
    TokensOfJoin(IntTexts(indices));
    forall k | 0 <= k < |indices|
      ensures SignedValue(IntTexts(indices)[k]) == indices[k]
    {
      IntTextValue(indices[k]);
    }
  }
}
