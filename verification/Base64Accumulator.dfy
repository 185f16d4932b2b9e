/** The bit accumulator of mod_cobalt_transcribe. */
module Base64Accumulator {
  import opened Common
  import opened Base64
  import opened Base64Bits

  /** val >> n, for the shifts the loops reach. */
  function Shifted(val: nat, n: nat): nat
    requires n <= 7
  {
    if n == 0 then val else if n == 1 then val / 2 else if n == 2 then val / 4 else if n == 3 then val / 8
    else if n == 4 then val / 16 else if n == 5 then val / 32 else if n == 6 then val / 64 else val / 128
  }

  /** What the inner loop emits, from its first shift down to the last that is not negative. */
  function Emitted(val: nat, valb: int): seq<Sextet>
    requires valb <= 7
    decreases valb + 6
  {
    if valb < 0 then [] else [Shifted(val, valb) % 64] + Emitted(val, valb - 6)
  }

  /** The sextets of the next byte after `i` bytes of a group. */
  lemma EmittedIs(val: nat, prev: Byte, c: Byte, i: nat)
    requires i < 3 && (i > 0 ==> val % 256 == prev)
    ensures var w := ShiftIn(val, 256, c);
      && w % 256 == c
      && Emitted(w, 2 + 2 * i) == if i == 0 then [c / 4] else if i == 1 then [(prev % 4) * 16 + c / 16]
                                  else [(prev % 16) * 4 + c / 64, c % 64]
  {
    var w := ShiftIn(val, 256, c);
    var p := val % 256;
    ByteIn(val, p, c);
    SextetsOf(w, p, c);
    assert Emitted(w, 2 + 2 * i) == [Shifted(w, 2 + 2 * i) % 64] + Emitted(w, 2 * i - 4);
  }

  /** Sextets emitted after `g` groups and `i` bytes. */
  function SoFar(s: seq<Byte>, g: nat, i: nat): seq<Sextet>
    requires i < 3 && 3 * g + i <= |s|
  {
    SextetGroups(s, g) +
    if i == 0 then [] else if i == 1 then [s[3 * g] / 4]
    else [s[3 * g] / 4, (s[3 * g] % 4) * 16 + s[3 * g + 1] / 16]
  }

  lemma SoFarStep(s: seq<Byte>, g: nat, i: nat, val: nat)
    requires i < 3 && 3 * g + i < |s| && (i > 0 ==> val % 256 == s[3 * g + i - 1])
    ensures var w := ShiftIn(val, 256, s[3 * g + i]);
      && w % 256 == s[3 * g + i]
      && SoFar(s, g, i) + Emitted(w, 2 + 2 * i) == if i < 2 then SoFar(s, g, i + 1) else SoFar(s, g + 1, 0)
  {
    EmittedIs(val, if i > 0 then s[3 * g + i - 1] else 0, s[3 * g + i], i);
    if i == 2 {
      assert SextetGroups(s, g + 1) == SextetGroups(s, g) + Quad(s[3 * g], s[3 * g + 1], s[3 * g + 2]);
    }
  }

  lemma SpellOne(k: Sextet, rest: seq<Sextet>)
    ensures Spelled([k] + rest) == [Symbol(k)] + Spelled(rest)
  {
  }

  method Emit(val: nat, from: int) returns (out: string, valb: int)
    requires 0 <= from <= 7
    ensures out == Spelled(Emitted(val, from)) && -6 <= valb < 0 && (from - valb) % 6 == 0
  {
    hide Shifted, Symbol, Lookup;
    out, valb := "", from;
    while valb >= 0
      invariant -6 <= valb <= from && (from - valb) % 6 == 0
      invariant out + Spelled(Emitted(val, valb)) == Spelled(Emitted(val, from))
    {
      var k := Shifted(val, valb) % 64;
      SpellOne(k, Emitted(val, valb - 6));
      out := out + [Lookup(k)];
      valb := valb - 6;
    }
  }

  /** Bytes after the last whole group. */
  function Beyond(n: nat): (i: nat)
    ensures i < 3 && n == 3 * (n / 3) + i
  {
    n - 3 * (n / 3)
  }

  lemma BeyondIs(n: nat, g: nat, i: nat)
    requires 3 * g + i == n && i < 3
    ensures n / 3 == g && Beyond(n) == i
  {
    WholeGroups(n, g, i);
  }

  method EmitAll(input: seq<Byte>) returns (out: string, val: nat, valb: int)
    ensures valb == -6 + 2 * Beyond(|input|)
    ensures Beyond(|input|) > 0 ==> val % 256 == input[|input| - 1]
    ensures out == Spelled(SoFar(input, |input| / 3, Beyond(|input|)))
  {
    out, val, valb := "", 0, -6;
    ghost var i := 0;
    var k := 0;
    assert Spelled(SoFar(input, 0, 0)) == "";
    hide SoFar, Emitted, Spelled, ShiftIn, Beyond;
    ghost var g := 0;
    while k < |input|
      invariant 3 * g + i == k <= |input| && i < 3 && valb == -6 + 2 * i
      invariant i > 0 ==> val % 256 == input[k - 1]
      invariant out == Spelled(SoFar(input, g, i))
    {
      SoFarStep(input, g, i, val);
      val := ShiftIn(val, 256, input[k]);
      valb := valb + 8;
      SpelledAppend(SoFar(input, g, i), Emitted(val, valb));
      var more;
      more, valb := Emit(val, valb);
      out := out + more;
      k := k + 1;
      g, i := if i == 2 then g + 1 else g, if i == 2 then 0 else i + 1;
    }
    BeyondIs(|input|, g, i);
  }

  /** What is left of the last byte when the input ends inside a group. */
  lemma LeftOver(val: nat, b: Byte, i: nat)
    requires 1 <= i <= 2 && val % 256 == b
    ensures Shifted(ShiftIn(val, 256, 0), 2 + 2 * i) % 64 == if i == 1 then b % 4 * 16 else b % 16 * 4
  {
    ByteIn(val, b, 0);
    SextetsOf(ShiftIn(val, 256, 0), b, 0);
  }

  lemma LastSextet(s: seq<Byte>, i: nat)
    requires 1 <= i <= 2 && |s| == 3 * (|s| / 3) + i
    ensures var b := s[|s| - 1];
      SoFar(s, |s| / 3, i) + [if i == 1 then b % 4 * 16 else b % 16 * 4] == Sextets(s)
  {
    var g := |s| / 3;
    var t := s[3 * g..];
    assert SextetTail(t) == Quad(t[0], if i > 1 then t[1] else 0, 0)[..i + 1];
  }

  lemma NothingLeft(s: seq<Byte>)
    requires |s| == 3 * (|s| / 3)
    ensures SoFar(s, |s| / 3, 0) == Sextets(s) && Padding(|s| - 3 * (|s| / 3)) == ""
  {
    assert s[3 * (|s| / 3)..] == [];
  }

  lemma SextetsLength(s: seq<Byte>, i: nat)
    requires i < 3 && |s| == 3 * (|s| / 3) + i
    ensures |Spelled(Sextets(s))| % 4 == if i == 0 then 0 else i + 1
  {
  }

  lemma LastSymbol(s: seq<Byte>, i: nat, val: nat)
    requires 1 <= i <= 2 && |s| == 3 * (|s| / 3) + i && val % 256 == s[|s| - 1]
    ensures Spelled(SoFar(s, |s| / 3, i)) + [Symbol(Shifted(ShiftIn(val, 256, 0), 2 + 2 * i) % 64)] == Spelled(Sextets(s))
  {
    var k := Shifted(ShiftIn(val, 256, 0), 2 + 2 * i) % 64;
    LeftOver(val, s[|s| - 1], i);
    LastSextet(s, i);
    SpelledAppend(SoFar(s, |s| / 3, i), [k]);
    assert Spelled([k]) == [Symbol(k)];
  }

  method Pad(spelled: string, ghost i: nat) returns (encoded: string)
    requires i < 3 && |spelled| % 4 == if i == 0 then 0 else i + 1
    ensures encoded == spelled + Padding(i)
  {
    encoded := spelled;
    ghost var n := 0;
    while |encoded| % 4 != 0
      invariant n <= |Padding(i)| && encoded == spelled + seq(n, _ => '=')
      decreases |Padding(i)| - n
    {
      encoded := encoded + "=";
      n := n + 1;
    }
  }

  method AccEncode(input: seq<Byte>) returns (encoded: string)
    ensures encoded == Encode(input)
  {
    var val, valb;
    encoded, val, valb := EmitAll(input);
    ghost var i := Beyond(|input|);
    SextetsLength(input, i);
    if valb > -6 {
      LastSymbol(input, i, val);
      encoded := encoded + [Lookup(Shifted(ShiftIn(val, 256, 0), valb + 8) % 64)];
    } else {
      NothingLeft(input);
    }
    encoded := Pad(encoded, i);
  }

  // ---------------------------------------------------------------- decoding

  /** What the inner loop emits, from its first shift down to the last that is not negative. */
  function EmittedBytes(val: nat, valb: int): seq<Byte>
    requires valb <= 7
    decreases valb + 8
  {
    if valb < 0 then [] else [Shifted(val, valb) % 256] + EmittedBytes(val, valb - 8)
  }

  /** The shift after the next symbol, `i` symbols into a group. */
  function ShiftFor(i: nat): int
    requires i < 4
  {
    if i == 0 then -2 else 6 - 2 * i
  }

  /** Bytes decoded after `g` groups and `i` symbols. */
  function BytesSoFar(v: seq<Sextet>, g: nat, i: nat): seq<Byte>
    requires i < 4 && 4 * g + i <= |v|
  {
    ByteGroups(v, g) + ByteTail(v[4 * g..4 * g + i])
  }

  /** The byte completed by symbol `t`, `i` symbols into a group. */
  function Completed(prev: Sextet, t: Sextet, i: nat): seq<Byte>
    requires i < 4
  {
    if i == 0 then []
    else if i == 1 then [prev * 4 + t / 16]
    else if i == 2 then [prev % 16 * 16 + t / 4]
    else [prev % 4 * 64 + t]
  }

  lemma EmittedBytesIs(val: nat, prev: Sextet, t: Sextet, i: nat)
    requires i < 4 && (i > 0 ==> val % 64 == prev)
    ensures var w := ShiftIn(val, 64, t);
      w % 64 == t && EmittedBytes(w, ShiftFor(i)) == Completed(prev, t, i)
  {
    var w := ShiftIn(val, 64, t);
    var p := val % 64;
    SextetIn(val, p, t);
    ByteAt4(w, p, t);
    ByteAt2(w, p, t);
    ByteAt0(w, p, t);
  }

  /** One symbol more in the last group. */
  lemma TailGrows(t: seq<Sextet>)
    requires 1 <= |t| <= 3
    ensures var i := |t| - 1;
      ByteTail(t) == ByteTail(t[..i]) + Completed(if i > 0 then t[i - 1] else 0, t[i], i)
  {
  }

  lemma GroupOfTail(v: seq<Sextet>, g: nat)
    requires 4 * g + 4 <= |v|
    ensures BytesSoFar(v, g + 1, 0) == BytesSoFar(v, g, 3) + Completed(v[4 * g + 2], v[4 * g + 3], 3)
  {
    var t := v[4 * g..4 * g + 3];
    assert t[0] == v[4 * g] && t[1] == v[4 * g + 1] && t[2] == v[4 * g + 2];
    assert ByteTail(v[4 * (g + 1)..4 * (g + 1)]) == [];
  }

  lemma SoFarGrows(v: seq<Sextet>, g: nat, i: nat)
    requires i < 4 && 4 * g + i < |v|
    ensures BytesSoFar(v, g, i) + Completed(if i > 0 then v[4 * g + i - 1] else 0, v[4 * g + i], i)
         == if i < 3 then BytesSoFar(v, g, i + 1) else BytesSoFar(v, g + 1, 0)
  {
    if i == 3 {
      GroupOfTail(v, g);
    } else {
      var t := v[4 * g..4 * g + i + 1];
      TailGrows(t);
      assert t[..i] == v[4 * g..4 * g + i];
      hide ByteTail, ByteGroups, Completed;
      assert t[i] == v[4 * g + i] && (i > 0 ==> t[i - 1] == v[4 * g + i - 1]);
      assert BytesSoFar(v, g, i + 1) == ByteGroups(v, g) + ByteTail(t);
    }
  }

  lemma BytesStep(v: seq<Sextet>, g: nat, i: nat, val: nat)
    requires i < 4 && 4 * g + i < |v| && (i > 0 ==> val % 64 == v[4 * g + i - 1])
    ensures var w := ShiftIn(val, 64, v[4 * g + i]);
      && w % 64 == v[4 * g + i]
      && BytesSoFar(v, g, i) + EmittedBytes(w, ShiftFor(i))
         == if i < 3 then BytesSoFar(v, g, i + 1) else BytesSoFar(v, g + 1, 0)
  {
    EmittedBytesIs(val, if i > 0 then v[4 * g + i - 1] else 0, v[4 * g + i], i);
    SoFarGrows(v, g, i);
  }

  lemma AllDecoded(v: seq<Sextet>, g: nat, i: nat)
    requires i < 4 && |v| == 4 * g + i
    ensures BytesSoFar(v, g, i) == Bytes(v)
  {
    assert |v| / 4 == g;
    assert v[4 * g..4 * g + i] == v[4 * g..];
  }

  method EmitBytes(val: nat, from: int) returns (out: seq<Byte>, valb: int)
    requires -8 <= from <= 7
    ensures out == EmittedBytes(val, from) && valb == if from < 0 then from else from - 8
  {
    out, valb := [], from;
    while valb >= 0
      invariant -8 <= valb <= from && (valb == from || valb == from - 8)
      invariant out + EmittedBytes(val, valb) == EmittedBytes(val, from)
    {
      out := out + [Shifted(val, valb) % 256];
      valb := valb - 8;
    }
  }

  lemma ValuesStop(s: string, k: nat)
    requires k <= |Values(s)|
    ensures |Values(s)| <= |s|
    ensures if k < |Values(s)| then k < |s| && Value(s[k]) == Values(s)[k] else k == |s| || Value(s[k]) == -1
  {
    ValuesSpan(s);
  }

  /** T[c] is Value(c). */
  method AccDecode(input: string) returns (decoded: seq<Byte>)
    ensures decoded == Decode(input)
  {
    decoded := [];
    var k, val, valb := 0, 0, -8;
    ghost var v, g, i := Values(input), 0, 0;
    assert BytesSoFar(v, 0, 0) == [];
    hide BytesSoFar, EmittedBytes, ShiftIn, Bytes, Values;
    ValuesStop(input, 0);
    while k < |input| && Value(input[k]) != -1
      invariant 4 * g + i == k <= |v| <= |input| && i < 4 && valb == if i == 0 then -8 else -2 * i
      invariant i > 0 ==> val % 64 == v[k - 1]
      invariant decoded == BytesSoFar(v, g, i)
    {
      ValuesStop(input, k);
      BytesStep(v, g, i, val);
      val := ShiftIn(val, 64, Value(input[k]));
      valb := valb + 6;
      var more;
      more, valb := EmitBytes(val, valb);
      decoded := decoded + more;
      k := k + 1;
      g, i := if i == 3 then g + 1 else g, if i == 3 then 0 else i + 1;
    }
    ValuesStop(input, k);
    AllDecoded(v, g, i);
  }
}
