/** The group-of-three codec of mod_audio_fork/base64.hpp. */
module Base64Hpp {
  import opened Common
  import opened Base64

  /** The four sextets of char_array_3. */
  method Split(a: array<Byte>) returns (q: array<Sextet>)
    requires a.Length == 3
    ensures fresh(q) && q[..] == Quad(a[0], a[1], a[2])
  {
    q := new Sextet[4](_ => 0);
    var x, y, z := a[0], a[1], a[2];
    q[0] := x / 4;
    q[1] := (x % 4) * 16 + y / 16;
    q[2] := (y % 16) * 4 + z / 64;
    q[3] := z % 64;
  }

  method Spell(q: array<Sextet>, count: nat) returns (ret: string)
    requires count <= q.Length
    ensures ret == Spelled(q[..count])
  {
    ret := "";
    var j := 0;
    while j < count
      invariant j <= count && |ret| == j && forall k :: 0 <= k < j ==> ret[k] == Symbol(q[k])
    {
      ret := ret + [Lookup(q[j])];
      j := j + 1;
    }
  }

  /** The padded last group: char_array_3 holds the last `i` bytes. */
  method SpellTail(a: array<Byte>, i: nat) returns (tail: string)
    requires a.Length == 3 && 1 <= i <= 2
    modifies a
    ensures tail == Spelled(SextetTail(old(a[..i]))) + Padding(i)
  {
    var j := i;
    while j < 3
      invariant i <= j <= 3 && a[..i] == old(a[..i]) && forall m :: i <= m < j ==> a[m] == 0
    {
      a[j] := 0;
      j := j + 1;
    }
    var q := Split(a);
    tail := Spell(q, i + 1);
    ghost var spelled := tail;
    j := i;
    while j < 3
      invariant i <= j <= 3 && tail == spelled + seq(j - i, _ => '=')
    {
      tail := tail + "=";
      j := j + 1;
    }
  }

  method SpellGroup(a: array<Byte>) returns (group: string)
    requires a.Length == 3
    ensures group == Spelled(Quad(a[0], a[1], a[2]))
  {
    var q := Split(a);
    group := Spell(q, 4);
    assert q[..4] == q[..];
  }

  lemma NextGroup(s: seq<Byte>, g: nat)
    requires 3 * g + 3 <= |s|
    ensures Spelled(SextetGroups(s, g + 1))
         == Spelled(SextetGroups(s, g)) + Spelled(Quad(s[3 * g], s[3 * g + 1], s[3 * g + 2]))
  {
    SpelledAppend(SextetGroups(s, g), Quad(s[3 * g], s[3 * g + 1], s[3 * g + 2]));
  }

  /** The loop over the input: whole groups are spelled, the last `i` bytes stay in `a`. */
  method SpellGroups(input: seq<Byte>, a: array<Byte>) returns (ret: string, i: nat)
    requires a.Length == 3
    modifies a
    ensures i < 3 && |input| == 3 * (|input| / 3) + i
    ensures ret == Spelled(SextetGroups(input, |input| / 3)) && a[..i] == input[|input| - i..]
  {
    ret, i := "", 0;
    var k := 0;
    ghost var g := 0;
    assert Spelled(SextetGroups(input, 0)) == "";
    hide Spelled, SextetGroups, Quad;
    while k < |input|
      invariant 3 * g + i == k <= |input| && i < 3
      invariant forall j :: 0 <= j < i ==> a[j] == input[3 * g + j]
      invariant ret == Spelled(SextetGroups(input, g))
    {
      a[i] := input[k];
      i, k := i + 1, k + 1;
      if i == 3 {
        var group := SpellGroup(a);
        NextGroup(input, g);
        ret := ret + group;
        i, g := 0, g + 1;
      }
    }
    WholeGroups(|input|, g, i);
  }

  method HppEncode(input: seq<Byte>) returns (ret: string)
    ensures ret == Encode(input)
  {
    var a := new Byte[3](_ => 0);
    var i;
    ret, i := SpellGroups(input, a);
    SpelledAppend(SextetGroups(input, |input| / 3), SextetTail(input[3 * (|input| / 3)..]));
    if i != 0 {
      var tail := SpellTail(a, i);
      ret := ret + tail;
    }
  }

  predicate IsBase64(c: char) {
    var k := c as int;
    k == 43 || 47 <= k <= 57 || 65 <= k <= 90 || 97 <= k <= 122
  }

  lemma IsBase64Exact(c: char)
    ensures IsBase64(c) <==> Value(c) != -1
  {
  }

  /** static_cast<unsigned char>(base64_chars.find(c)): npos becomes 255. */
  function Find(c: char): (k: Byte) {
    if Value(c) == -1 then 255 else Value(c)
  }

  /** The last three expressions of a group, in unsigned char arithmetic. */
  function Joined(a: int, b: int, c: int, d: int): seq<Byte> {
    [(a * 4 + b / 16 % 4) % 256, (b % 16 * 16 + c / 4 % 16) % 256, (c % 4 * 64 + d) % 256]
  }

  lemma FirstByte(a: Sextet, b: Sextet)
    ensures (a * 4 + b / 16 % 4) % 256 == a * 4 + b / 16
  {
  }

  lemma MiddleByte(b: Sextet, c: Sextet)
    ensures (b % 16 * 16 + c / 4 % 16) % 256 == (b % 16) * 16 + c / 4
  {
  }

  lemma LastByte(c: Sextet, d: Sextet)
    ensures (c % 4 * 64 + d) % 256 == (c % 4) * 64 + d
  {
  }

  lemma JoinedIsTriple(a: Sextet, b: Sextet, c: Sextet, d: Sextet)
    ensures Joined(a, b, c, d) == Triple(a, b, c, d)
  {
    FirstByte(a, b);
    MiddleByte(b, c);
    LastByte(c, d);
  }

  lemma JoinedOne(a: Sextet)
    ensures Joined(a, 255, 255, 255)[..0] == ByteTail([a])
  {
  }

  lemma JoinedTwo(a: Sextet, b: Sextet)
    ensures Joined(a, b, 255, 255)[..1] == ByteTail([a, b])
  {
    FirstByte(a, b);
  }

  lemma JoinedThree(a: Sextet, b: Sextet, c: Sextet)
    ensures Joined(a, b, c, 255)[..2] == ByteTail([a, b, c])
  {
    FirstByte(a, b);
    MiddleByte(b, c);
  }

  /** The NULs that fill a last group are not found, but no byte that would show it is taken. */
  lemma JoinedTail(v: seq<Sextet>)
    requires 1 <= |v| <= 3
    ensures Joined(v[0], if |v| > 1 then v[1] else 255, if |v| > 2 then v[2] else 255, 255)[..|v| - 1] == ByteTail(v)
  {
    if |v| == 1 {
      assert v == [v[0]];
      JoinedOne(v[0]);
    } else if |v| == 2 {
      assert v == [v[0], v[1]];
      JoinedTwo(v[0], v[1]);
    } else {
      assert v == [v[0], v[1], v[2]];
      JoinedThree(v[0], v[1], v[2]);
    }
    hide Joined, ByteTail;
  }

  /** char_array_3 from the four characters of a group. */
  method Join(c: array<char>) returns (a: array<Byte>)
    requires c.Length == 4
    ensures fresh(a) && a[..] == Joined(Find(c[0]), Find(c[1]), Find(c[2]), Find(c[3]))
  {
    var v := new int[4](_ => 0);
    var j := 0;
    while j < 4
      modifies v
      invariant j <= 4 && forall k :: 0 <= k < j ==> v[k] == Find(c[k])
    {
      v[j] := Find(c[j]);
      j := j + 1;
    }
    a := new Byte[3](_ => 0);
    a[0] := (v[0] * 4 + v[1] / 16 % 4) % 256;
    a[1] := (v[1] % 16 * 16 + v[2] / 4 % 16) % 256;
    a[2] := (v[2] % 4 * 64 + v[3]) % 256;
  }

  method JoinTail(c: array<char>, i: nat, ghost v: seq<Sextet>) returns (tail: seq<Byte>)
    requires c.Length == 4 && 1 <= i <= 3 && |v| == i && forall j :: 0 <= j < i ==> Find(c[j]) == v[j]
    modifies c
    ensures tail == ByteTail(v)
  {
    var j := i;
    while j < 4
      invariant i <= j <= 4 && forall k :: 0 <= k < j ==> Find(c[k]) == if k < i then v[k] else 255
    {
      c[j] := 0 as char;
      j := j + 1;
    }
    var a := Join(c);
    JoinedTail(v);
    tail := a[..i - 1];
  }

  lemma NextBytes(v: seq<Sextet>, g: nat)
    requires 4 * g + 4 <= |v|
    ensures ByteGroups(v, g + 1) == ByteGroups(v, g) + Joined(v[4 * g], v[4 * g + 1], v[4 * g + 2], v[4 * g + 3])
  {
    JoinedIsTriple(v[4 * g], v[4 * g + 1], v[4 * g + 2], v[4 * g + 3]);
  }

  lemma SymbolAt(s: string, k: nat)
    requires k < |s|
    ensures k < |Values(s)| ==> IsBase64(s[k]) && Find(s[k]) == Values(s)[k] && s[k] != '='
    ensures k == |Values(s)| ==> !IsBase64(s[k])
  {
    ValuesSpan(s);
    IsBase64Exact(s[k]);
  }

  method JoinGroup(c: array<char>, ghost input: string, ghost g: nat) returns (bytes: seq<Byte>)
    requires c.Length == 4 && 4 * g + 4 <= |input| && 4 * g + 4 <= |Values(input)|
    requires forall j :: 0 <= j < 4 ==> c[j] == input[4 * g + j]
    ensures ByteGroups(Values(input), g + 1) == ByteGroups(Values(input), g) + bytes
  {
    SymbolAt(input, 4 * g);
    SymbolAt(input, 4 * g + 1);
    SymbolAt(input, 4 * g + 2);
    SymbolAt(input, 4 * g + 3);
    var a := Join(c);
    NextBytes(Values(input), g);
    bytes := a[..];
  }

  /** The loop stops exactly where Values does. */
  lemma StopsWithValues(s: string, k: nat)
    requires k <= |s| && k <= |Values(s)|
    ensures k == |s| || s[k] == '=' || !IsBase64(s[k]) <==> k == |Values(s)|
  {
    ValuesSpan(s);
    if k < |s| {
      IsBase64Exact(s[k]);
    }
  }

  method JoinGroups(input: string, c: array<char>) returns (ret: seq<Byte>, i: nat, ghost g: nat)
    requires c.Length == 4
    modifies c
    ensures i < 4 && 4 * g + i == |Values(input)| <= |input| && ret == ByteGroups(Values(input), g)
    ensures forall j :: 0 <= j < i ==> c[j] == input[4 * g + j]
  {
    ret, i, g := [], 0, 0;
    var k := 0;
    StopsWithValues(input, 0);
    while k < |input| && input[k] != '=' && IsBase64(input[k])
      invariant 4 * g + i == k <= |input| && k <= |Values(input)| && i < 4
      invariant forall j :: 0 <= j < i ==> c[j] == input[4 * g + j]
      invariant ret == ByteGroups(Values(input), g)
    {
      StopsWithValues(input, k);
      c[i] := input[k];
      i, k := i + 1, k + 1;
      if i == 4 {
        var bytes := JoinGroup(c, input, g);
        ret := ret + bytes;
        i, g := 0, g + 1;
      }
    }
    StopsWithValues(input, k);
  }

  lemma TailSymbols(input: string, g: nat)
    requires 4 * g <= |Values(input)| <= |input|
    ensures forall j :: 0 <= j < |Values(input)| - 4 * g ==> Find(input[4 * g + j]) == Values(input)[4 * g..][j]
  {
    ValuesSpan(input);
  }

  method HppDecode(input: string) returns (ret: seq<Byte>)
    ensures ret == Decode(input)
  {
    var c := new char[4](_ => 0 as char);
    var i;
    ghost var g;
    ret, i, g := JoinGroups(input, c);
    assert |Values(input)| / 4 == g;
    if i != 0 {
      TailSymbols(input, g);
      var tail := JoinTail(c, i, Values(input)[4 * g..]);
      ret := ret + tail;
    }
  }
}
