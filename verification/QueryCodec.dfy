/** Percent-encoding (section 2.1 of RFC 3986) as mod_deepgram_transcribe does it. */
module QueryCodec {
  import opened Common

  /** Strings are byte strings: characters up to 255. */
  predicate IsBytes(s: string) {
    forall i :: 0 <= i < |s| ==> s[i] as int < 256
  }

  /** The class [!'()*-.0-9A-Za-z_~:], whose '*-.' is a range. */
  predicate Plain(c: char) {
    c == '!' || c == '\'' || c == '(' || c == ')' || '*' <= c <= '.' || '0' <= c <= '9'
    || 'A' <= c <= 'Z' || 'a' <= c <= 'z' || c == '_' || c == '~' || c == ':'
  }

  function HexDigit(k: nat): char
    requires k < 16
  {
    if k < 10 then '0' + k as char else 'A' + (k - 10) as char
  }

  /** std::uppercase << std::hex << k: no leading zero. */
  function Hex(k: nat): string
    requires k < 256
  {
    if k < 16 then [HexDigit(k)] else [HexDigit(k / 16), HexDigit(k % 16)]
  }

  function EscapedChar(c: char): string {
    if Plain(c) then [c] else ['%'] + Hex(c as int % 256)
  }

  function Escaped(s: string): string {
    if s == [] then [] else EscapedChar(s[0]) + Escaped(s[1..])
  }

  lemma {:induction false} EscapedAppend(s: string, t: string)
    ensures Escaped(s + t) == Escaped(s) + Escaped(t)
    decreases |s|
  {
    if s == [] {
      assert s + t == t;
    } else {
      assert (s + t)[1..] == s[1..] + t;
      EscapedAppend(s[1..], t);
    }
  }

  lemma EscapedOne(c: char)
    ensures Escaped([c]) == EscapedChar(c)
  {
    assert [c][1..] == [];
  }

  lemma EscapedNext(s: string, i: nat)
    requires i < |s|
    ensures Escaped(s[..i + 1]) == Escaped(s[..i]) + EscapedChar(s[i])
  {
    hide EscapedChar, Escaped;
    assert s[..i + 1] == s[..i] + [s[i]];
    EscapedAppend(s[..i], [s[i]]);
    EscapedOne(s[i]);
  }

  method EncodeURIComponent(decoded: string) returns (oss: string)
    ensures oss == Escaped(decoded)
  {
    hide Escaped, Plain, Hex;
    oss := [];
    var i := 0;
    EscapedNone();
    assert decoded[..0] == [];
    while i < |decoded|
      invariant i <= |decoded| && oss == Escaped(decoded[..i])
    {
      var c := decoded[i];
      EscapedNext(decoded, i);
      if Plain(c) {
        oss := oss + [c];
      } else {
        oss := oss + (['%'] + Hex(c as int % 256));
      }
      i := i + 1;
    }
    assert decoded[..i] == decoded;
  }

  lemma EscapedNone()
    ensures Escaped([]) == []
  {
  }

  // ---------------------------------------------------------------- decoding

  function HexValue(c: char): (k: int)
    ensures -1 <= k < 16
  {
    if '0' <= c <= '9' then (c - '0') as int
    else if 'A' <= c <= 'F' then (c - 'A') as int + 10
    else if 'a' <= c <= 'f' then (c - 'a') as int + 10
    else -1
  }

  /** A '%' must be followed by two hexadecimal digits. */
  function Unescaped(s: string): Option<string> {
    if s == [] then Some([])
    else if s[0] != '%' then
      var rest := Unescaped(s[1..]);
      if rest.Some? then Some([s[0]] + rest.value) else None
    else if |s| < 3 || HexValue(s[1]) == -1 || HexValue(s[2]) == -1 then None
    else
      var rest := Unescaped(s[3..]);
      if rest.Some? then Some([(HexValue(s[1]) * 16 + HexValue(s[2])) as char] + rest.value) else None
  }

  lemma HexBack(k: nat)
    requires k < 16
    ensures HexValue(HexDigit(k)) == k && Plain(HexDigit(k))
  {
  }

  /** Bytes that need two hexadecimal digits, or none. */
  predicate Decodable(s: string) {
    forall i :: 0 <= i < |s| ==> 16 <= s[i] as int < 256
  }

  lemma {:induction false} DecodableUnescapes(s: string)
    requires Decodable(s)
    ensures Unescaped(Escaped(s)) == Some(s)
    decreases |s|
  {
    if s != [] {
      DecodableUnescapes(s[1..]);
      UnescapesFirst(s[0], Escaped(s[1..]));
      assert [s[0]] + s[1..] == s;
    }
  }

  lemma UnescapesPlain(c: char, rest: string)
    requires Plain(c) && Unescaped(rest).Some?
    ensures Unescaped([c] + rest) == Some([c] + Unescaped(rest).value)
  {
    assert ([c] + rest)[1..] == rest;
  }

  lemma UnescapesHex(a: nat, b: nat, rest: string)
    requires a < 16 && b < 16 && Unescaped(rest).Some?
    ensures Unescaped(['%', HexDigit(a), HexDigit(b)] + rest) == Some([(a * 16 + b) as char] + Unescaped(rest).value)
  {
    HexBack(a);
    HexBack(b);
    assert (['%', HexDigit(a), HexDigit(b)] + rest)[3..] == rest;
  }

  lemma UnescapesFirst(c: char, rest: string)
    requires 16 <= c as int < 256 && Unescaped(rest).Some?
    ensures Unescaped(EscapedChar(c) + rest) == Some([c] + Unescaped(rest).value)
  {
    hide Plain, Unescaped, HexDigit;
    if Plain(c) {
      UnescapesPlain(c, rest);
    } else {
      var k := c as int;
      UnescapesHex(k / 16, k % 16, rest);
      assert EscapedChar(c) == ['%', HexDigit(k / 16), HexDigit(k % 16)];
    }
  }

  function Percents(s: string): nat {
    if s == [] then 0 else (if s[0] == '%' then 1 else 0) + Percents(s[1..])
  }

  /** Bytes written with a single hexadecimal digit. */
  function Short(s: string): nat {
    if s == [] then 0 else (if s[0] as int < 16 then 1 else 0) + Short(s[1..])
  }

  lemma {:induction false} PercentsAppend(s: string, t: string)
    ensures Percents(s + t) == Percents(s) + Percents(t)
    decreases |s|
  {
    if s == [] {
      assert s + t == t;
    } else {
      assert (s + t)[1..] == s[1..] + t;
      PercentsAppend(s[1..], t);
    }
  }

  lemma HexHasNoPercent(k: nat)
    requires k < 256
    ensures Percents(Hex(k)) == 0 && |Hex(k)| == if k < 16 then 1 else 2
  {
    HexBack(k / 16);
    HexBack(k % 16);
    var h := Hex(k);
    forall i | 0 <= i < |h| ensures h[i] != '%' {
    }
    NoPercents(h);
  }

  lemma CharWeight(c: char)
    requires c as int < 256
    ensures Percents(EscapedChar(c)) == if Plain(c) then 0 else 1
    ensures |EscapedChar(c)| + (if c as int < 16 then 1 else 0) == 1 + 2 * Percents(EscapedChar(c))
  {
    if Plain(c) {
      assert [c][1..] == [];
    } else {
      HexHasNoPercent(c as int);
      PercentsAppend(['%'], Hex(c as int));
      assert ['%'][1..] == [];
      hide Hex, Plain;
    }
  }

  lemma {:induction false} NoPercents(s: string)
    requires forall i :: 0 <= i < |s| ==> s[i] != '%'
    ensures Percents(s) == 0
    decreases |s|
  {
    if s != [] {
      NoPercents(s[1..]);
    }
  }

  lemma {:induction false} EscapedWeight(s: string)
    requires IsBytes(s)
    ensures |Escaped(s)| + Short(s) == |s| + 2 * Percents(Escaped(s))
    decreases |s|
  {
    if s != [] {
      CharWeight(s[0]);
      PercentsAppend(EscapedChar(s[0]), Escaped(s[1..]));
      EscapedWeight(s[1..]);
    }
  }

  lemma HexIsNoPercent(c: char)
    requires HexValue(c) != -1
    ensures c != '%'
  {
  }

  lemma {:induction false} UnescapedWeight(s: string)
    requires Unescaped(s).Some?
    ensures |s| == |Unescaped(s).value| + 2 * Percents(s)
    decreases |s|
  {
    if s != [] {
      if s[0] == '%' {
        HexIsNoPercent(s[1]);
        HexIsNoPercent(s[2]);
        assert s == s[..3] + s[3..];
        PercentsAppend(s[..3], s[3..]);
        assert s[..3] == ['%'] + [s[1], s[2]];
        PercentsAppend(['%'], [s[1], s[2]]);
        NoPercents([s[1], s[2]]);
        UnescapedWeight(s[3..]);
      } else {
        UnescapedWeight(s[1..]);
      }
    }
  }

  lemma {:induction false} ShortExact(s: string)
    requires IsBytes(s)
    ensures Short(s) == 0 <==> Decodable(s)
    decreases |s|
  {
    if s != [] {
      ShortExact(s[1..]);
      assert Decodable(s) ==> Decodable(s[1..]);
      assert 16 <= s[0] as int < 256 && Decodable(s[1..]) ==> Decodable(s);
    }
  }

  /** A value survives encoding and decoding if and only if none of its bytes is below 0x10:
      those lose their leading zero. */
  lemma RoundTripExact(s: string)
    requires IsBytes(s)
    ensures Unescaped(Escaped(s)) == Some(s) <==> Decodable(s)
  {
    ShortExact(s);
    if Decodable(s) {
      DecodableUnescapes(s);
    } else if Unescaped(Escaped(s)).Some? {
      EscapedWeight(s);
      UnescapedWeight(Escaped(s));
    }
  }
}
