/**
 * The string renderings the services rely on: JavaScript's decimal rendering of a
 * non-negative integer (`${n}`), Node's `Buffer.toString('hex')` and
 * `String.prototype.toUpperCase` restricted to ASCII, with their inverses.
 */
module Text {

  /** An octet, as Node's `Buffer` holds them. */
  newtype byte = x: int | 0 <= x < 256

  predicate IsDigit(c: char) { '0' <= c <= '9' }

  predicate AllDigits(s: string) { forall i :: 0 <= i < |s| ==> IsDigit(s[i]) }

  function DigitChar(d: nat): (c: char)
    requires d < 10
    ensures IsDigit(c) && (c as int) - ('0' as int) == d
  {
    ((d + '0' as int) as char)
  }

  function DigitValue(c: char): (d: nat)
    requires IsDigit(c)
    ensures d < 10 && DigitChar(d) == c
  {
    (c as int) - ('0' as int)
  }

  /** `${n}` for a non-negative integer: most significant digit first, no leading zeros. */
  function NatToString(n: nat): (s: string)
    ensures |s| >= 1 && AllDigits(s)
    ensures |s| > 1 ==> s[0] != '0'
  {
    if n < 10 then [DigitChar(n)] else NatToString(n / 10) + [DigitChar(n % 10)]
  }

  /** Reads a string of decimal digits back as a number. */
  function ParseDigits(s: string): nat
    requires AllDigits(s)
  {
    if s == [] then 0 else 10 * ParseDigits(s[..|s| - 1]) + DigitValue(s[|s| - 1])
  }

  lemma {:induction false} ParseNatToString(n: nat)
    ensures ParseDigits(NatToString(n)) == n
  {
    var s := NatToString(n);
    if n >= 10 {
      ParseNatToString(n / 10);
      assert s[..|s| - 1] == NatToString(n / 10);
    }
  }

  /** Distinct numbers have distinct renderings. */
  lemma NatToStringInjective(m: nat, n: nat)
    requires NatToString(m) == NatToString(n)
    ensures m == n
  {
    ParseNatToString(m);
    ParseNatToString(n);
  }

  // ---------------------------------------------------------------- hexadecimal

  const LowerHexDigits := "0123456789abcdef"

  predicate IsUpperHex(c: char) { '0' <= c <= '9' || 'A' <= c <= 'F' }

  predicate AllUpperHex(s: string) { forall i :: 0 <= i < |s| ==> IsUpperHex(s[i]) }

  /** `Buffer.from(bytes).toString('hex')`: two lower-case digits per byte. */
  function ToHex(bytes: seq<byte>): (s: string)
    ensures |s| == 2 * |bytes|
  {
    if bytes == [] then [] else HexPair(bytes[0]) + ToHex(bytes[1..])
  }

  /** The two lower-case hex digits of one byte, most significant first. */
  function HexPair(b: byte): (s: string)
    ensures |s| == 2
  {
    [LowerHexDigits[(b as int) / 16], LowerHexDigits[(b as int) % 16]]
  }

  /** `toUpperCase()` on one ASCII character; every other character is kept. */
  function UpperChar(c: char): char {
    if 'a' <= c <= 'z' then (c as int - 32) as char else c
  }

  /** `toUpperCase()` on ASCII letters. */
  function ToUpperAscii(s: string): (r: string)
    ensures |r| == |s|
  {
    seq(|s|, i requires 0 <= i < |s| => UpperChar(s[i]))
  }

  function UpperHexValue(c: char): (d: nat)
    requires IsUpperHex(c)
    ensures d < 16
  {
    if c <= '9' then (c as int) - ('0' as int) else (c as int) - ('A' as int) + 10
  }

  /** Reads an upper-case hex string back as bytes, two digits per byte. */
  function FromUpperHex(s: string): seq<byte>
    requires |s| % 2 == 0 && AllUpperHex(s)
  {
    if s == [] then [] else [(16 * UpperHexValue(s[0]) + UpperHexValue(s[1])) as byte] + FromUpperHex(s[2..])
  }

  lemma UpperHexDigit(d: nat)
    requires d < 16
    ensures IsUpperHex(UpperChar(LowerHexDigits[d])) && UpperHexValue(UpperChar(LowerHexDigits[d])) == d
  {
    if d < 10 {
      assert LowerHexDigits[d] == DigitChar(d);
    } else {
      assert LowerHexDigits[d] as int == 'a' as int + d - 10 by {
        if d == 10 {} else if d == 11 {} else if d == 12 {} else if d == 13 {} else if d == 14 {} else {}
      }
    }
  }

  /** Reading back the two upper-cased digits of one byte gives the byte. */
  lemma ByteRoundTrip(b: byte)
    ensures var h := ToUpperAscii(HexPair(b));
      IsUpperHex(h[0]) && IsUpperHex(h[1]) && (16 * UpperHexValue(h[0]) + UpperHexValue(h[1])) as byte == b
  {
    var n := b as int;
    var hi, lo := n / 16, n % 16;
    UpperHexDigit(hi);
    UpperHexDigit(lo);
    var h := ToUpperAscii(HexPair(b));
    assert h[0] == UpperChar(LowerHexDigits[hi]) && h[1] == UpperChar(LowerHexDigits[lo]);
    assert 16 * hi + lo == n;
  }

  lemma UpperConcat(x: string, y: string)
    ensures ToUpperAscii(x + y) == ToUpperAscii(x) + ToUpperAscii(y)
  {
  }

  lemma FromUpperHexCons(h: string, t: string, n: nat)
    requires |h| == 2 && IsUpperHex(h[0]) && IsUpperHex(h[1]) && |t| == 2 * n && AllUpperHex(t)
    ensures |t| % 2 == 0 && |h + t| % 2 == 0 && AllUpperHex(h + t)
    ensures FromUpperHex(h + t) == [(16 * UpperHexValue(h[0]) + UpperHexValue(h[1])) as byte] + FromUpperHex(t)
  {
    EvenLength(t, n);
    EvenLength(h + t, n + 1);
    assert (h + t)[2..] == t;
  }

  /** The upper-cased hex rendering consists of upper-case hex digits and determines the bytes it came from. */
  lemma {:induction false} FromUpperHexRoundTrip(bytes: seq<byte>)
    ensures AllUpperHex(ToUpperAscii(ToHex(bytes)))
    ensures FromUpperHex(ToUpperAscii(ToHex(bytes))) == bytes
  {
    if bytes != [] {
      FromUpperHexRoundTrip(bytes[1..]);
      HexConsStep(bytes);
    }
  }

  /** The inductive step of the round trip: one more byte in front. */
  lemma HexConsStep(bytes: seq<byte>)
    requires bytes != []
    requires AllUpperHex(ToUpperAscii(ToHex(bytes[1..])))
    requires FromUpperHex(ToUpperAscii(ToHex(bytes[1..]))) == bytes[1..]
    ensures AllUpperHex(ToUpperAscii(ToHex(bytes)))
    ensures FromUpperHex(ToUpperAscii(ToHex(bytes))) == bytes
  {
    var b, rest := bytes[0], bytes[1..];
    HexSplit(bytes);
    ByteRoundTrip(b);
    ReadPairThenRest(ToUpperAscii(ToHex(bytes)), ToUpperAscii(HexPair(b)), ToUpperAscii(ToHex(rest)), b, rest);
    assert bytes == [b] + rest;
  }

  /** Reading a digit pair that encodes b, followed by digits that encode rest, gives b then rest. */
  lemma ReadPairThenRest(c: string, h: string, t: string, b: byte, rest: seq<byte>)
    requires c == h + t && |h| == 2 && IsUpperHex(h[0]) && IsUpperHex(h[1])
    requires (16 * UpperHexValue(h[0]) + UpperHexValue(h[1])) as byte == b
    requires |t| == 2 * |rest| && AllUpperHex(t) && FromUpperHex(t) == rest
    ensures AllUpperHex(c) && |c| % 2 == 0 && FromUpperHex(c) == [b] + rest
  {
    FromUpperHexCons(h, t, |rest|);
  }

  /** The rendering of a non-empty sequence: its first byte's two digits, then the rest's. */
  lemma HexSplit(bytes: seq<byte>)
    requires bytes != []
    ensures ToUpperAscii(ToHex(bytes)) == ToUpperAscii(HexPair(bytes[0])) + ToUpperAscii(ToHex(bytes[1..]))
    ensures |ToUpperAscii(ToHex(bytes[1..]))| == 2 * |bytes[1..]|
  {
    UpperConcat(HexPair(bytes[0]), ToHex(bytes[1..]));
  }

  lemma EvenLength(s: string, n: nat)
    requires |s| == 2 * n
    ensures |s| % 2 == 0
  {
  }

  /** The upper-cased hex rendering, its length and its reading back, in one statement. */
  lemma HexCode(bytes: seq<byte>)
    ensures var c := ToUpperAscii(ToHex(bytes));
      |c| == 2 * |bytes| && AllUpperHex(c) && FromUpperHex(c) == bytes
  {
    FromUpperHexRoundTrip(bytes);
  }

  // ---------------------------------------------------------------- substrings

  predicate OccursAt(s: string, t: string, i: nat) {
    i + |t| <= |s| && s[i..i + |t|] == t
  }

  predicate Contains(s: string, t: string) {
    exists i: nat | i <= |s| :: OccursAt(s, t, i)
  }

  /** The middle part of a concatenation is a substring of it. */
  lemma ContainsMiddle(a: string, b: string, c: string)
    ensures Contains(a + b + c, b)
  {
    assert OccursAt(a + b + c, b, |a|);
  }

  /** A substring stays one when more text is appended. */
  lemma ContainsExtend(s: string, t: string, u: string)
    requires Contains(s, t)
    ensures Contains(s + u, t)
  {
    var i: nat :| i <= |s| && OccursAt(s, t, i);
    assert (s + u)[i..i + |t|] == s[i..i + |t|];
    assert OccursAt(s + u, t, i);
  }
}
