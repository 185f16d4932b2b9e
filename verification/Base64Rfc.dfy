/** The encoding is the one of RFC 4648: its alphabet (Table 1), its bit order (section 4) and
    its test vectors (section 10). */
module Base64Rfc {
  import opened Common
  import opened Base64

  /** Table 1, in ASCII codes. */
  lemma AlphabetIsTable(k: Sextet)
    ensures Symbol(k) as int ==
      if k <= 25 then 65 + k
      else if k <= 51 then 97 + (k - 26)
      else if k <= 61 then 48 + (k - 52)
      else if k == 62 then 43
      else 47
    ensures CHARS[k] == Symbol(k)
  {
    var c := Lookup(k);
  }

  /** A character counts exactly if it is in the alphabet. */
  lemma ValueIsInverse(c: char, k: Sextet)
    ensures Value(c) == k <==> c == Symbol(k)
  {
  }

  /** The number whose digits, in the given base, most significant first, these are. */
  function Number(digits: seq<nat>, base: nat): nat {
    if digits == [] then 0 else Number(digits[..|digits| - 1], base) * base + digits[|digits| - 1]
  }

  lemma Digits3(a: nat, b: nat, c: nat, base: nat)
    ensures Number([a, b, c], base) == (a * base + b) * base + c
  {
    assert [a, b, c][..2] == [a, b] && [a, b][..1] == [a] && [a][..0] == [];
    assert Number([a], base) == a && Number([a, b], base) == a * base + b;
  }

  lemma Digits4(a: nat, b: nat, c: nat, d: nat, base: nat)
    ensures Number([a, b, c, d], base) == ((a * base + b) * base + c) * base + d
  {
    assert [a, b, c, d][..3] == [a, b, c];
    Digits3(a, b, c, base);
  }

  /** Three bytes and the four sextets of their group are the same 24-bit number, most
      significant bits first. */
  lemma GroupIsNumber(a: Byte, b: Byte, c: Byte)
    ensures var q := Quad(a, b, c); Number([q[0], q[1], q[2], q[3]], 64) == Number([a, b, c], 256)
  {
    var q := Quad(a, b, c);
    Digits4(q[0], q[1], q[2], q[3], 64);
    Digits3(a, b, c, 256);
  }

  /** Every group of an encoding is at its place. */
  lemma {:induction false} GroupAt(s: seq<Byte>, g: nat, i: nat)
    requires 3 * g <= |s| && i < g
    ensures SextetGroups(s, g)[4 * i..4 * i + 4] == Quad(s[3 * i], s[3 * i + 1], s[3 * i + 2])
    decreases g
  {
    var v, q := SextetGroups(s, g - 1), Quad(s[3 * g - 3], s[3 * g - 2], s[3 * g - 1]);
    if i == g - 1 {
      assert (v + q)[4 * i..4 * i + 4] == q;
    } else {
      GroupAt(s, g - 1, i);
      assert (v + q)[4 * i..4 * i + 4] == v[4 * i..4 * i + 4];
    }
  }

  /** One byte or two left over: the number with zero bits added, its first symbols, and padding. */
  lemma TailIsZeroFilled(t: seq<Byte>)
    requires 0 < |t| < 3
    ensures SextetTail(t) == Quad(t[0], if |t| == 2 then t[1] else 0, 0)[..|t| + 1]
    ensures |Padding(|t|)| == 3 - |t| && forall i :: 0 <= i < |Padding(|t|)| ==> Padding(|t|)[i] == '='
  {
  }

  lemma Spells(s: seq<Byte>, v: seq<Sextet>, pad: string, text: string)
    requires Sextets(s) == v && Padding(|s| - 3 * (|s| / 3)) == pad && |text| == |v| + |pad|
    requires text[|v|..] == pad && forall i :: 0 <= i < |v| ==> text[i] == Symbol(v[i])
    ensures Encode(s) == text
  {
    assert text == text[..|v|] + text[|v|..];
  }

  /** The test vectors of section 10, and one that uses the last two symbols. */
  lemma Vectors()
    ensures Encode([]) == ""
    ensures Encode([102]) == "Zg=="
    ensures Encode([102, 111]) == "Zm8="
    ensures Encode([102, 111, 111]) == "Zm9v"
    ensures Encode([251, 239, 255]) == "++//"
  {
    hide Encode, Symbol;
    Tails();
    Group();
    LastSymbols();
  }

  lemma Group()
    ensures Encode([102, 111, 111]) == "Zm9v"
  {
    OneGroup(102, 111, 111, "Zm9v");
  }

  lemma LastSymbols()
    ensures Encode([251, 239, 255]) == "++//"
  {
    OneGroup(251, 239, 255, "++//");
  }

  lemma Tails()
    ensures Encode([]) == "" && Encode([102]) == "Zg==" && Encode([102, 111]) == "Zm8="
  {
    Spells([], [], "", "");
    Spells([102], [25, 32], "==", "Zg==");
    Spells([102, 111], [25, 38, 60], "=", "Zm8=");
  }

  lemma OneGroup(a: Byte, b: Byte, c: Byte, text: string)
    requires |text| == 4
    requires var q := Quad(a, b, c); forall i :: 0 <= i < 4 ==> text[i] == Symbol(q[i])
    ensures Encode([a, b, c]) == text
  {
    var s := [a, b, c];
    assert SextetGroups(s, 1) == SextetGroups(s, 0) + Quad(a, b, c);
    assert SextetGroups(s, 0) == [] && s[3..] == [];
    Spells(s, Quad(a, b, c), "", text);
  }

  lemma GroupAndTail(a: Byte, b: Byte, c: Byte, t: seq<Byte>, text: string)
    requires 0 < |t| < 3 && |text| == 8 && text[|t| + 5..] == Padding(|t|)
    requires var v := Quad(a, b, c) + SextetTail(t); forall i :: 0 <= i < |v| ==> text[i] == Symbol(v[i])
    ensures Encode([a, b, c] + t) == text
  {
    var s := [a, b, c] + t;
    assert SextetGroups(s, 1) == SextetGroups(s, 0) + Quad(a, b, c);
    assert SextetGroups(s, 0) == [] && s[3..] == t && |s| / 3 == 1;
    Spells(s, Quad(a, b, c) + SextetTail(t), Padding(|t|), text);
  }

  lemma TwoGroups(a: Byte, b: Byte, c: Byte, d: Byte, e: Byte, f: Byte, text: string)
    requires |text| == 8
    requires var v := Quad(a, b, c) + Quad(d, e, f); forall i :: 0 <= i < 8 ==> text[i] == Symbol(v[i])
    ensures Encode([a, b, c, d, e, f]) == text
  {
    var s := [a, b, c, d, e, f];
    assert SextetGroups(s, 2) == SextetGroups(s, 1) + Quad(d, e, f);
    assert SextetGroups(s, 1) == SextetGroups(s, 0) + Quad(a, b, c);
    assert SextetGroups(s, 0) == [] && s[6..] == [] && |s| / 3 == 2;
    Spells(s, Quad(a, b, c) + Quad(d, e, f), "", text);
  }

  lemma Foo()
    ensures Quad(102, 111, 111) == [25, 38, 61, 47]
  {
  }

  lemma OneLeft()
    ensures SextetTail([98]) == [24, 32]
  {
  }

  lemma TwoLeft()
    ensures SextetTail([98, 97]) == [24, 38, 4]
  {
  }

  lemma FourBytes()
    ensures Encode([102, 111, 111, 98]) == "Zm9vYg=="
  {
    hide Quad, SextetTail;
    Foo();
    OneLeft();
    GroupAndTail(102, 111, 111, [98], "Zm9vYg==");
  }

  lemma FiveBytes()
    ensures Encode([102, 111, 111, 98, 97]) == "Zm9vYmE="
  {
    hide Quad, SextetTail;
    Foo();
    TwoLeft();
    GroupAndTail(102, 111, 111, [98, 97], "Zm9vYmE=");
  }

  lemma SixBytes()
    ensures Encode([102, 111, 111, 98, 97, 114]) == "Zm9vYmFy"
  {
    TwoGroups(102, 111, 111, 98, 97, 114, "Zm9vYmFy");
  }

  /** The other vectors of section 10: "foob", "fooba", "foobar". */
  lemma LongerVectors()
    ensures Encode([102, 111, 111, 98]) == "Zm9vYg=="
    ensures Encode([102, 111, 111, 98, 97]) == "Zm9vYmE="
    ensures Encode([102, 111, 111, 98, 97, 114]) == "Zm9vYmFy"
  {
    hide Encode;
    FourBytes();
    FiveBytes();
    SixBytes();
  }
}
