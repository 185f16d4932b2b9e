/** The pre-connect audio buffer of mod_aws_transcribe (the azure, google and deepgram
    modules carry the same code): SimpleBuffer, a ring of whole chunks that overwrites its
    oldest, and the byte staging in front of it. */
module Prebuffer {
  import opened Common

  // ---------------------------------------------------------------- chunks of a byte string

  /** The whole chunks of `s`, in order; a shorter rest is left out. */
  function Chunks<T>(s: seq<T>, size: nat): seq<seq<T>>
    requires size > 0
    decreases |s|
  {
    if |s| < size then [] else [s[..size]] + Chunks(s[size..], size)
  }

  function Last<T>(s: seq<T>, n: nat): seq<T> {
    if |s| <= n then s else s[|s| - n..]
  }

  function Concat<T>(c: seq<seq<T>>): seq<T> {
    if c == [] then [] else c[0] + Concat(c[1..])
  }

  lemma LastAppend<T>(s: seq<T>, x: T, n: nat)
    requires n > 0
    ensures Last(s + [x], n) == if |s| < n then s + [x] else Last(s, n)[1..] + [x]
  {
  }

  lemma LastOfLast<T>(s: seq<T>, t: seq<T>, n: nat)
    ensures Last(Last(s, n) + t, n) == Last(s + t, n)
  {
  }

  /** `q` chunks' worth of bytes. */
  function Start(q: nat, size: nat): nat {
    if q == 0 then 0 else Start(q - 1, size) + size
  }

  lemma {:induction false} StartIsProduct(q: nat, size: nat)
    ensures Start(q, size) == q * size
    decreases q
  {
    if q > 0 {
      StartIsProduct(q - 1, size);
    }
  }

  lemma {:induction false} StartMono(a: nat, b: nat, size: nat)
    requires a < b
    ensures Start(a, size) + size <= Start(b, size)
    decreases b
  {
    if a < b - 1 {
      StartMono(a, b - 1, size);
    }
  }

  lemma Sized(d: int, size: nat)
    ensures d >= 1 ==> d * size >= size
    ensures d <= -1 ==> d * size <= 0 - size
  {
  }

  lemma StartDivides(q: nat, size: nat)
    requires size > 0
    ensures Start(q, size) / size == q && Start(q, size) % size == 0
  {
    StartIsProduct(q, size);
    var x := q * size;
    var d := q - x / size;
    assert x % size == d * size;
    Sized(d, size);
  }

  lemma WholeChunks(x: nat, size: nat)
    requires size > 0
    ensures Start(x / size, size) + x % size == x
  {
    StartIsProduct(x / size, size);
  }

  lemma {:induction false} ChunksAppend<T>(a: seq<T>, q: nat, b: seq<T>, size: nat)
    requires size > 0 && |a| == Start(q, size)
    ensures Chunks(a + b, size) == Chunks(a, size) + Chunks(b, size)
    decreases q
  {
    if q == 0 {
      assert a + b == b;
    } else {
      assert (a + b)[..size] == a[..size] && (a + b)[size..] == a[size..] + b;
      ChunksAppend(a[size..], q - 1, b, size);
    }
  }

  lemma OneChunk<T>(s: seq<T>, size: nat)
    requires size > 0 && |s| == size
    ensures Chunks(s, size) == [s]
  {
    assert s[..size] == s && s[size..] == [];
  }

  /** One chunk more of a byte string. */
  lemma NextChunk<T>(s: seq<T>, q: nat, size: nat)
    requires size > 0 && Start(q, size) + size <= |s|
    ensures Chunks(s[..Start(q, size) + size], size)
         == Chunks(s[..Start(q, size)], size) + [s[Start(q, size)..Start(q, size) + size]]
  {
    var done := Start(q, size);
    assert s[..done + size] == s[..done] + s[done..done + size];
    ChunksAppend(s[..done], q, s[done..done + size], size);
    OneChunk(s[done..done + size], size);
  }

  // ---------------------------------------------------------------- the ring

  /** The `i`-th slot after `r` in a ring of `n`. */
  function Slot(r: nat, i: nat, n: nat): nat {
    if r + i < n then r + i else r + i - n
  }

  lemma LastTwice<T>(a: seq<T>, b: seq<T>, x: T, n: nat)
    ensures Last(Last(a + b, n) + [x], n) == Last(a + (b + [x]), n)
  {
    LastOfLast(a + b, [x], n);
    assert (a + b) + [x] == a + (b + [x]);
  }

  lemma AddStep<T>(before: seq<seq<T>>, s: seq<T>, q: nat, size: nat, n: nat)
    requires size > 0 && Start(q, size) + size <= |s|
    ensures Last(Last(before + Chunks(s[..Start(q, size)], size), n) + [s[Start(q, size)..Start(q, size) + size]], n)
         == Last(before + Chunks(s[..Start(q + 1, size)], size), n)
  {
    NextChunk(s, q, size);
    LastTwice(before, Chunks(s[..Start(q, size)], size), s[Start(q, size)..Start(q, size) + size], n);
  }

  function ChunkAt(d: seq<Byte>, slot: nat, size: nat): seq<Byte> {
    if Start(slot, size) + size <= |d| then d[Start(slot, size)..Start(slot, size) + size] else []
  }

  /** The slots of `d` from `r` on hold `items`. */
  predicate Ring(d: seq<Byte>, r: nat, items: seq<seq<Byte>>, n: nat, size: nat) {
    && r < n && |d| == Start(n, size) && |items| <= n
    && forall i :: 0 <= i < |items| ==> ChunkAt(d, Slot(r, i, n), size) == items[i]
  }

  /** `chunk` copied over slot `w`. */
  predicate Overwritten(d: seq<Byte>, d': seq<Byte>, w: nat, chunk: seq<Byte>, size: nat) {
    && Start(w, size) + size <= |d| == |d'| && |chunk| == size
    && forall i :: 0 <= i < |d| ==>
         d'[i] == if Start(w, size) <= i < Start(w, size) + size then chunk[i - Start(w, size)] else d[i]
  }

  lemma OtherSlots(d: seq<Byte>, d': seq<Byte>, w: nat, chunk: seq<Byte>, size: nat, k: nat)
    requires Overwritten(d, d', w, chunk, size) && k != w && Start(k, size) + size <= |d|
    ensures ChunkAt(d', k, size) == ChunkAt(d, k, size)
  {
    if k < w { StartMono(k, w, size); } else { StartMono(w, k, size); }
  }

  lemma RingPut(d: seq<Byte>, d': seq<Byte>, r: nat, items: seq<seq<Byte>>, n: nat, size: nat, chunk: seq<Byte>)
    requires Ring(d, r, items, n, size) && |items| < n && Overwritten(d, d', Slot(r, |items|, n), chunk, size)
    ensures Ring(d', r, items + [chunk], n, size)
  {
    forall i | 0 <= i < |items| ensures ChunkAt(d', Slot(r, i, n), size) == items[i] {
      StartMono(Slot(r, i, n), n, size);
      OtherSlots(d, d', Slot(r, |items|, n), chunk, size, Slot(r, i, n));
    }
  }

  lemma RingPop(d: seq<Byte>, r: nat, items: seq<seq<Byte>>, n: nat, size: nat)
    requires Ring(d, r, items, n, size) && items != []
    ensures ChunkAt(d, r, size) == items[0] && Ring(d, Slot(r, 1, n), items[1..], n, size)
    ensures Slot(Slot(r, 1, n), |items| - 1, n) == Slot(r, |items|, n)
  {
    assert Slot(r, 0, n) == r;
    forall i | 0 <= i < |items| - 1 ensures ChunkAt(d, Slot(Slot(r, 1, n), i, n), size) == items[1..][i] {
      assert Slot(Slot(r, 1, n), i, n) == Slot(r, i + 1, n);
    }
  }

  lemma RingOver(d: seq<Byte>, d': seq<Byte>, r: nat, items: seq<seq<Byte>>, n: nat, size: nat, chunk: seq<Byte>)
    requires Ring(d, r, items, n, size) && |items| == n && Overwritten(d, d', r, chunk, size)
    ensures Ring(d', Slot(r, 1, n), items[1..] + [chunk], n, size)
  {
    RingPop(d, r, items, n, size);
    assert Slot(Slot(r, 1, n), n - 1, n) == r;
    RingPut(d, d', Slot(r, 1, n), items[1..], n, size, chunk);
  }

  class SimpleBuffer {
    const chunkSize: nat
    const numChunks: nat
    const data: array<Byte>
    var numItems: nat
    var nextWrite: nat          // m_pNextWrite - m_pData
    var nextRead: nat           // m_pNextRead - m_pData
    ghost var readSlot: nat
    ghost var items: seq<seq<Byte>>

    /** `items` is what the slots from the read cursor up to the write cursor hold, and both
        cursors stand at the start of a slot. */
    ghost predicate Valid()
      reads this, data
    {
      && chunkSize > 0 && numChunks > 0 && numItems == |items|
      && Ring(data[..], readSlot, items, numChunks, chunkSize)
      && nextRead == Start(readSlot, chunkSize)
      && nextWrite == Start(Slot(readSlot, numItems, numChunks), chunkSize)
    }

    constructor (size: nat, n: nat)
      requires size > 0 && n > 0
      ensures Valid() && fresh(data) && items == [] && chunkSize == size && numChunks == n
    {
      chunkSize, numChunks := size, n;
      StartIsProduct(n, size);
      data := new Byte[n * size](_ => 0);
      numItems, nextWrite, nextRead := 0, 0, 0;
      readSlot, items := 0, [];
    }

    /** Steps a cursor one slot round the ring. */
    method Advance(cursor: nat, ghost slot: nat) returns (next: nat)
      requires chunkSize > 0 && slot < numChunks && cursor == Start(slot, chunkSize)
      ensures next == Start(Slot(slot, 1, numChunks), chunkSize)
    {
      StartDivides(slot, chunkSize);
      var offset := cursor / chunkSize;
      if offset >= numChunks - 1 {
        next := 0;
      } else {
        next := cursor + chunkSize;
      }
    }

    method CopyChunk(chunk: seq<Byte>, ghost slot: nat)
      requires |chunk| == chunkSize && nextWrite == Start(slot, chunkSize) && nextWrite + chunkSize <= data.Length
      modifies data
      ensures Overwritten(old(data[..]), data[..], slot, chunk, chunkSize)
    {
      forall i | 0 <= i < chunkSize {
        data[nextWrite + i] := chunk[i];
      }
    }

    /** One turn of the loop in add(). */
    method Put(chunk: seq<Byte>)
      requires Valid() && |chunk| == chunkSize
      modifies this, data
      ensures Valid() && items == Last(old(items) + [chunk], numChunks)
    {
      ghost var w := Slot(readSlot, numItems, numChunks);
      StartMono(w, numChunks, chunkSize);
      CopyChunk(chunk, w);
      LastAppend(items, chunk, numChunks);
      nextWrite := Advance(nextWrite, w);
      if numItems < numChunks {
        RingPut(old(data[..]), data[..], readSlot, items, numChunks, chunkSize, chunk);
        numItems := numItems + 1;
        items := items + [chunk];
      } else {
        RingOver(old(data[..]), data[..], readSlot, items, numChunks, chunkSize, chunk);
        nextRead := Advance(nextRead, readSlot);
        readSlot := Slot(readSlot, 1, numChunks);
        items := items[1..] + [chunk];
      }
    }

    method AddChunks(bytes: seq<Byte>, n: nat)
      requires Valid() && |bytes| == Start(n, chunkSize)
      modifies this, data
      ensures Valid() && items == Last(old(items) + Chunks(bytes, chunkSize), numChunks)
    {
      ghost var before := items;
      var i, done := 0, 0;
      assert bytes[..0] == [] && Last(before + Chunks(bytes[..0], chunkSize), numChunks) == before;
      hide Chunks, Last, Ring;
      while i < n
        invariant Valid() && i <= n && done == Start(i, chunkSize) <= |bytes|
        invariant items == Last(before + Chunks(bytes[..done], chunkSize), numChunks)
      {
        StartMono(i, n, chunkSize);
        AddStep(before, bytes, i, chunkSize, numChunks);
        Put(bytes[done..done + chunkSize]);
        i, done := i + 1, done + chunkSize;
      }
      assert bytes[..done] == bytes;
    }

    /** Appends the whole chunks of `bytes`, oldest overwritten first; other lengths are rejected. */
    method Add(bytes: seq<Byte>)
      requires Valid()
      modifies this, data
      ensures Valid()
      ensures items == if |bytes| % chunkSize != 0 then old(items) else Last(old(items) + Chunks(bytes, chunkSize), numChunks)
    {
      if |bytes| % chunkSize != 0 {
        return;
      }
      WholeChunks(|bytes|, chunkSize);
      AddChunks(bytes, |bytes| / chunkSize);
    }

    /** The oldest chunk, if there is one. */
    method GetNextChunk() returns (chunk: Option<seq<Byte>>)
      requires Valid()
      modifies this
      ensures Valid()
      ensures old(items) == [] ==> chunk.None? && items == []
      ensures old(items) != [] ==> chunk == Some(old(items)[0]) && items == old(items)[1..]
    {
      hide Slot;
      if numItems == 0 {
        return None;
      }
      StartMono(readSlot, numChunks, chunkSize);
      RingPop(data[..], readSlot, items, numChunks, chunkSize);
      chunk := Some(data[nextRead..nextRead + chunkSize]);
      numItems := numItems - 1;
      nextRead := Advance(nextRead, readSlot);
      readSlot := Slot(readSlot, 1, numChunks);
      items := items[1..];
    }
  }

  // ---------------------------------------------------------------- staging

  /** The bytes after the whole chunks. */
  function Rest<T>(s: seq<T>, size: nat): (r: seq<T>)
    requires size > 0
    ensures |r| < size
    decreases |s|
  {
    if |s| < size then s else Rest(s[size..], size)
  }

  lemma {:induction false} RestAppend<T>(a: seq<T>, q: nat, b: seq<T>, size: nat)
    requires size > 0 && |a| == Start(q, size)
    ensures Rest(a + b, size) == Rest(b, size)
    decreases q
  {
    if q == 0 {
      assert a + b == b;
    } else {
      assert (a + b)[size..] == a[size..] + b;
      RestAppend(a[size..], q - 1, b, size);
    }
  }

  /** A byte string is its whole chunks and the rest. */
  lemma {:induction false} ChunksRest<T>(s: seq<T>, size: nat)
    requires size > 0
    ensures |s| == Start(|Chunks(s, size)|, size) + |Rest(s, size)|
    ensures Rest(s, size) == s[Start(|Chunks(s, size)|, size)..]
    decreases |s|
  {
    if |s| >= size {
      ChunksRest(s[size..], size);
      var q := |Chunks(s[size..], size)|;
      assert Start(q + 1, size) == Start(q, size) + size;
      assert s[size..][Start(q, size)..] == s[Start(q + 1, size)..];
    }
  }

  lemma ChunkCount<T>(s: seq<T>, size: nat)
    requires size > 0
    ensures |Chunks(s, size)| == |s| / size
  {
    ChunksRest(s, size);
    WholeChunks(|s|, size);
    var q, k := |Chunks(s, size)|, |s| / size;
    if q < k { StartMono(q, k, size); }
    if k < q { StartMono(k, q, size); }
  }

  /** Appending bytes to a string adds the whole chunks of what was left over and the new bytes. */
  lemma StageMore<T>(w: seq<T>, f: seq<T>, size: nat)
    requires size > 0
    ensures var t := Rest(w, size) + f;
      Chunks(w + f, size) == Chunks(w, size) + Chunks(t, size) && Rest(w + f, size) == Rest(t, size)
  {
    ChunksRest(w, size);
    var q := |Chunks(w, size)|;
    var a := w[..Start(q, size)];
    var t := Rest(w, size) + f;
    assert w == a + Rest(w, size) && w + f == a + t;
    ChunksAppend(a, q, Rest(w, size), size);
    ChunksAppend(a, q, t, size);
    RestAppend(a, q, t, size);
  }

  lemma WholeOf<T>(t: seq<T>, size: nat)
    requires size > 0
    ensures var u := Start(|t| / size, size);
      u <= |t| && u % size == 0 && Chunks(t[..u], size) == Chunks(t, size) && t[u..] == Rest(t, size)
  {
    WholeChunks(|t|, size);
    ChunkCount(t, size);
    ChunksRest(t, size);
    var q := |t| / size;
    var u := Start(q, size);
    StartDivides(q, size);
    assert t == t[..u] + t[u..];
    ChunksAppend(t[..u], q, t[u..], size);
  }

  /** What a drain hands on for the bytes written so far. */
  function Handed<T>(w: seq<T>, size: nat, n: nat): seq<seq<T>>
    requires size > 0
  {
    Last(Chunks(w, size), n) + if Rest(w, size) == [] then [] else [Rest(w, size)]
  }

  class StagedBuffer {
    const ring: SimpleBuffer
    var staging: seq<Byte>
    ghost var written: seq<Byte>

    ghost predicate Valid()
      reads this, ring, ring.data
    {
      && ring.Valid()
      && ring.items == Last(Chunks(written, ring.chunkSize), ring.numChunks)
      && staging == Rest(written, ring.chunkSize)
    }

    constructor (size: nat, n: nat)
      requires size > 0 && n > 0
      ensures Valid() && written == [] && fresh(ring) && fresh(ring.data)
      ensures ring.chunkSize == size && ring.numChunks == n
    {
      ring := new SimpleBuffer(size, n);
      staging, written := [], [];
    }

    /** write() before the connection is published: any length, nothing lost but whole
        overwritten chunks. */
    method Write(frame: seq<Byte>)
      requires Valid()
      modifies this, ring, ring.data
      ensures Valid() && written == old(written) + frame
    {
      var size := ring.chunkSize;
      StageMore(written, frame, size);
      LastOfLast(Chunks(written, size), Chunks(staging + frame, size), ring.numChunks);
      staging := staging + frame;
      WholeOf(staging, size);
      StartIsProduct(|staging| / size, size);
      var usable := (|staging| / size) * size;
      written := written + frame;
      if usable != 0 {
        ring.Add(staging[..usable]);
        staging := staging[usable..];
      } else {
        assert staging[..0] == [] && Chunks(staging[..0], size) == [];
        assert ring.items + [] == ring.items;
      }
    }

    /** The drain in OnStreamReady: every chunk, oldest first, then the staged remainder. */
    method Drain() returns (out: seq<seq<Byte>>)
      requires Valid()
      modifies this, ring
      ensures Valid() && written == []
      ensures out == Handed(old(written), ring.chunkSize, ring.numChunks)
    {
      out := [];
      ghost var before := ring.items;
      assert before[0..] == before;
      var more := ring.numItems != 0;
      while more
        invariant ring.Valid() && |out| <= |before| && out == before[..|out|] && ring.items == before[|out|..]
        invariant !more ==> ring.items == []
        modifies ring
        decreases |ring.items|, more
      {
        var chunk := ring.GetNextChunk();
        more := chunk.Some?;
        if more {
          out := out + [chunk.value];
        }
      }
      assert out == before;
      if staging != [] {
        out := out + [staging];
      }
      staging, written := [], [];
    }
  }

  // ---------------------------------------------------------------- what is lost

  lemma {:induction false} ConcatAppend<T>(a: seq<seq<T>>, b: seq<seq<T>>)
    ensures Concat(a + b) == Concat(a) + Concat(b)
    decreases |a|
  {
    if a == [] {
      assert a + b == b;
    } else {
      assert (a + b)[1..] == a[1..] + b;
      ConcatAppend(a[1..], b);
    }
  }

  /** All the chunks and the rest are the whole string. */
  lemma {:induction false} ChunksWhole<T>(s: seq<T>, size: nat)
    requires size > 0
    ensures Concat(Chunks(s, size)) + Rest(s, size) == s
    decreases |s|
  {
    if |s| >= size {
      ChunksWhole(s[size..], size);
      FirstChunk(s, size);
      assert s == s[..size] + s[size..];
      hide Chunks, Rest;
      assert (s[..size] + Concat(Chunks(s[size..], size))) + Rest(s[size..], size)
          == s[..size] + (Concat(Chunks(s[size..], size)) + Rest(s[size..], size));
    }
  }

  lemma FirstChunk<T>(s: seq<T>, size: nat)
    requires 0 < size <= |s|
    ensures Chunks(s, size) == [s[..size]] + Chunks(s[size..], size) && Rest(s, size) == Rest(s[size..], size)
    ensures Concat(Chunks(s, size)) == s[..size] + Concat(Chunks(s[size..], size))
  {
    assert Chunks(s, size)[1..] == Chunks(s[size..], size);
  }

  lemma {:induction false} ChunksFrom<T>(s: seq<T>, k: nat, size: nat)
    requires size > 0 && k <= |Chunks(s, size)|
    ensures Start(k, size) <= |s| && Concat(Chunks(s, size)[k..]) + Rest(s, size) == s[Start(k, size)..]
    decreases k
  {
    if k == 0 {
      ChunksWhole(s, size);
      assert Chunks(s, size)[0..] == Chunks(s, size) && s[Start(0, size)..] == s;
    } else {
      ChunksSome(s, size);
      FirstChunk(s, size);
      hide Chunks, Rest, Concat;
      ChunksFrom(s[size..], k - 1, size);
      assert Chunks(s, size)[k..] == Chunks(s[size..], size)[k - 1..];
      assert s[Start(k, size)..] == s[size..][Start(k - 1, size)..];
    }
  }

  lemma ChunksSome<T>(s: seq<T>, size: nat)
    requires size > 0 && Chunks(s, size) != []
    ensures |s| >= size
  {
  }

  /** How many of the whole chunks of `held` bytes do not fit. */
  function ChunksLost(held: nat, size: nat, n: nat): nat
    requires size > 0
  {
    if held / size <= n then 0 else held / size - n
  }

  /** Draining hands on a suffix of everything written: what is missing is a whole number of
      the oldest chunks, as many as did not fit. */
  lemma DrainIsSuffix<T>(w: seq<T>, size: nat, n: nat)
    requires size > 0
    ensures var lost := ChunksLost(|w|, size, n);
      lost * size <= |w| && Concat(Handed(w, size, n)) == w[lost * size..]
  {
    var lost := ChunksLost(|w|, size, n);
    ChunkCount(w, size);
    ChunksFrom(w, lost, size);
    StartIsProduct(lost, size);
    var c, r := Last(Chunks(w, size), n), Rest(w, size);
    assert c == Chunks(w, size)[lost..];
    if r == [] {
      assert c + [] == c && Concat(c) + [] == Concat(c);
    } else {
      ConcatAppend(c, [r]);
      assert Concat([r]) == r + Concat([r][1..]);
      assert Concat([r]) == r;
    }
  }
}
