/** Base64 (section 4 of RFC 4648), as both of the repository's codecs compute it: the
    group-of-three codec of mod_audio_fork/base64.hpp and the bit accumulator of
    mod_cobalt_transcribe. Masks and shifts are written as quotients and remainders. */
module Base64 {
  import opened Common

  type Sextet = k: int | 0 <= k < 64

  const CHARS: string :=
    "ABCDEFGH" + "IJKLMNOP" + "QRSTUVWX" + "YZabcdef" + "ghijklmn" + "opqrstuv" + "wxyz0123" + "456789+/"

  /** The alphabet by ranges. */
  function Symbol(k: Sextet): char {
    if k < 26 then 'A' + k as char
    else if k < 52 then 'a' + (k - 26) as char
    else if k < 62 then '0' + (k - 52) as char
    else if k == 62 then '+' else '/'
  }

  function Value(c: char): (k: int)
    ensures -1 <= k < 64
  {
    if 'A' <= c <= 'Z' then (c - 'A') as int
    else if 'a' <= c <= 'z' then (c - 'a') as int + 26
    else if '0' <= c <= '9' then (c - '0') as int + 52
    else if c == '+' then 62 else if c == '/' then 63 else -1
  }

  lemma WholeGroups(n: nat, g: nat, i: nat)
    requires 3 * g + i == n && i < 3
    ensures n / 3 == g
  {
  }

  lemma SymbolValue(k: Sextet)
    ensures Value(Symbol(k)) == k && Symbol(k) != '='
  {
  }

  /** base64_chars[k] */
  function Lookup(k: Sextet): (c: char)
    ensures |CHARS| == 64 && c == Symbol(k)
  {
    CHARS[k]
  }

  // ---------------------------------------------------------------- specification

  /** Three bytes as four sextets. */
  function Quad(a: Byte, b: Byte, c: Byte): seq<Sextet> {
    [a / 4, (a % 4) * 16 + b / 16, (b % 16) * 4 + c / 64, c % 64]
  }

  /** Four sextets as three bytes. */
  function Triple(a: Sextet, b: Sextet, c: Sextet, d: Sextet): seq<Byte> {
    [a * 4 + b / 16, (b % 16) * 16 + c / 4, (c % 4) * 64 + d]
  }

  /** The first `g` groups of three bytes. */
  function SextetGroups(s: seq<Byte>, g: nat): (v: seq<Sextet>)
    requires 3 * g <= |s|
    ensures |v| == 4 * g
  {
    if g == 0 then [] else SextetGroups(s, g - 1) + Quad(s[3 * g - 3], s[3 * g - 2], s[3 * g - 1])
  }

  /** One byte left over needs two sextets, two bytes three. */
  function SextetTail(t: seq<Byte>): (v: seq<Sextet>)
    requires |t| < 3
    ensures |v| == if t == [] then 0 else |t| + 1
  {
    if t == [] then [] else Quad(t[0], if |t| > 1 then t[1] else 0, 0)[..|t| + 1]
  }

  function Spelled(v: seq<Sextet>): string {
    seq(|v|, i requires 0 <= i < |v| => Symbol(v[i]))
  }

  /** '=' up to a multiple of four. */
  function Padding(left: nat): string
    requires left < 3
  {
    if left == 0 then "" else if left == 1 then "==" else "="
  }

  function Sextets(s: seq<Byte>): seq<Sextet> {
    SextetGroups(s, |s| / 3) + SextetTail(s[3 * (|s| / 3)..])
  }

  function Encode(s: seq<Byte>): string {
    Spelled(Sextets(s)) + Padding(|s| - 3 * (|s| / 3))
  }

  /** The first `g` groups of four sextets. */
  function ByteGroups(v: seq<Sextet>, g: nat): (s: seq<Byte>)
    requires 4 * g <= |v|
    ensures |s| == 3 * g
  {
    if g == 0 then []
    else ByteGroups(v, g - 1) + Triple(v[4 * g - 4], v[4 * g - 3], v[4 * g - 2], v[4 * g - 1])
  }

  /** A last group of two symbols carries one byte, of three symbols two; one alone, none. */
  function ByteTail(v: seq<Sextet>): seq<Byte>
    requires |v| < 4
  {
    if |v| < 2 then [] else Triple(v[0], v[1], if |v| > 2 then v[2] else 0, 0)[..|v| - 1]
  }

  function Bytes(v: seq<Sextet>): seq<Byte> {
    ByteGroups(v, |v| / 4) + ByteTail(v[4 * (|v| / 4)..])
  }

  /** The values of the symbols up to the first character that is none. */
  function Values(s: string): seq<Sextet> {
    if s == "" || Value(s[0]) == -1 then [] else [Value(s[0])] + Values(s[1..])
  }

  function Decode(s: string): seq<Byte> {
    Bytes(Values(s))
  }

  // ---------------------------------------------------------------- round trip

  /** Values covers the longest run of symbols at the front. */
  lemma {:induction false} ValuesSpan(s: string)
    ensures var v := Values(s);
      && |v| <= |s| && (forall i :: 0 <= i < |v| ==> v[i] == Value(s[i]))
      && (|v| < |s| ==> Value(s[|v|]) == -1)
    decreases |s|
  {
    if s != "" && Value(s[0]) != -1 {
      ValuesSpan(s[1..]);
    }
  }

  lemma {:induction false} SpelledValues(v: seq<Sextet>, t: string)
    requires t != "" ==> t[0] == '='
    ensures Values(Spelled(v) + t) == v
    decreases |v|
  {
    if v == [] {
      assert Spelled(v) + t == t;
    } else {
      SymbolValue(v[0]);
      assert Spelled(v) + t == [Symbol(v[0])] + (Spelled(v[1..]) + t);
      SpelledValues(v[1..], t);
    }
  }

  lemma TripleUndoes(a: Byte, b: Byte, c: Byte)
    ensures Triple(a / 4, (a % 4) * 16 + b / 16, (b % 16) * 4 + c / 64, c % 64) == [a, b, c]
  {
  }

  lemma {:induction false} SamePrefix(v: seq<Sextet>, w: seq<Sextet>, g: nat)
    requires 4 * g <= |v|
    ensures ByteGroups(v + w, g) == ByteGroups(v, g)
    decreases g
  {
    if g > 0 {
      SamePrefix(v, w, g - 1);
    }
  }

  lemma {:induction false} GroupsBack(s: seq<Byte>, g: nat)
    requires 3 * g <= |s|
    ensures ByteGroups(SextetGroups(s, g), g) == s[..3 * g]
    decreases g
  {
    if g > 0 {
      var v, q := SextetGroups(s, g - 1), Quad(s[3 * g - 3], s[3 * g - 2], s[3 * g - 1]);
      GroupsBack(s, g - 1);
      SamePrefix(v, q, g - 1);
      TripleUndoes(s[3 * g - 3], s[3 * g - 2], s[3 * g - 1]);
    }
  }

  lemma TailBack(t: seq<Byte>)
    requires |t| < 3
    ensures ByteTail(SextetTail(t)) == t
  {
    if t != [] {
      TripleUndoes(t[0], if |t| > 1 then t[1] else 0, 0);
    }
  }

  lemma BytesSplit(v: seq<Sextet>, t: seq<Sextet>, g: nat)
    requires |v| == 4 * g && |t| < 4
    ensures Bytes(v + t) == ByteGroups(v, g) + ByteTail(t)
  {
    assert |v + t| / 4 == g && (v + t)[4 * g..] == t;
    SamePrefix(v, t, g);
  }

  /** Decoding an encoding gives the bytes back. Both encoders compute Encode and both
      decoders compute Decode, so this holds across all four pairings. */
  lemma RoundTrip(s: seq<Byte>)
    ensures Decode(Encode(s)) == s
  {
    var g := |s| / 3;
    var t := s[3 * g..];
    SpelledValues(Sextets(s), Padding(|t|));
    GroupsBack(s, g);
    TailBack(t);
    BytesSplit(SextetGroups(s, g), SextetTail(t), g);
    assert s == s[..3 * g] + t;
  }

  /** Four symbols for every three bytes begun. */
  lemma EncodedLength(s: seq<Byte>)
    ensures |Encode(s)| == (|s| + 2) / 3 * 4
  {
    var g := |s| / 3;
    assert |s| - 3 * g < 3;
  }

  lemma SpelledAppend(v: seq<Sextet>, w: seq<Sextet>)
    ensures Spelled(v + w) == Spelled(v) + Spelled(w)
  {
  }
}
