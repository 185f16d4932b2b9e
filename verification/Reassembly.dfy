/** Reassembly of fragmented WebSocket messages (section 5.4 of RFC 6455) in
    LWS_CALLBACK_CLIENT_RECEIVE of mod_audio_fork: one growing buffer, a cap, and a mode
    that swallows the rest of an abandoned message. */
module Reassembly {
  import opened Common

  const MAX_RECV_BUF_SIZE: nat := 65 * 1024 * 10
  const RECV_BUF_REALLOC_SIZE: nat := 8 * 1024

  /** One receive callback: its bytes, what lws says about their place in the message, how
      much of the current frame is still to come, and whether an allocation made now succeeds. */
  datatype Piece = Piece(data: seq<Byte>, first: bool, final: bool, binary: bool, remaining: nat, alloc: bool)

  /** `Overrun` stands for a copy past the end of the buffer. */
  datatype Outcome = Nothing | Delivered(text: seq<Byte>) | Overrun

  /** The receive state of a pipe: the bytes held, the size of their block, the mode. */
  datatype Rx = Rx(held: Option<seq<Byte>>, size: nat, discarding: bool)

  const REST := Rx(None, 0, false)

  /** msg.c_str(): what the callback's receiver sees of a std::string. */
  function UpToNul(s: seq<Byte>): (t: seq<Byte>)
    ensures t <= s && 0 !in t && (t == s || s[|t|] == 0)
  {
    if s == [] || s[0] == 0 then [] else [s[0]] + UpToNul(s[1..])
  }

  // ---------------------------------------------------------------- specification

  function Abandon(p: Piece): (Rx, Outcome) {
    (Rx(None, 0, !p.final), Nothing)
  }

  function Copied(x: Rx, p: Piece): (Rx, Outcome) {
    if x.held.None? then (x, Nothing)
    else if |x.held.value| + |p.data| > x.size then (x, Overrun)
    else
      var all := x.held.value + p.data;
      if p.final then (REST, Delivered(UpToNul(all))) else (Rx(Some(all), x.size, false), Nothing)
  }

  function Filled(x: Rx, p: Piece): (Rx, Outcome) {
    var used := if x.held.Some? then x.held.value else [];
    if x.size < |used| + |p.data| then
      if x.size + RECV_BUF_REALLOC_SIZE > MAX_RECV_BUF_SIZE || !p.alloc then Abandon(p)
      else Copied(Rx(Some(used), x.size + RECV_BUF_REALLOC_SIZE, false), p)
    else Copied(x, p)
  }

  function Received(x: Rx, p: Piece): (Rx, Outcome) {
    if p.binary then (x, Nothing)
    else if p.first then
      if |p.data| + p.remaining > MAX_RECV_BUF_SIZE || !p.alloc then Abandon(p)
      else Filled(Rx(Some([]), |p.data| + p.remaining, false), p)
    else if x.discarding then (x.(discarding := !p.final), Nothing)
    else Filled(x, p)
  }

  // ---------------------------------------------------------------- the receiver

  class Receiver {
    var buf: array?<Byte>       // m_recv_buf
    var len: nat                // m_recv_buf_len
    var ptr: nat                // m_recv_buf_ptr - m_recv_buf
    var discarding: bool

    ghost predicate Valid()
      reads this
    {
      if buf == null then ptr == 0 && len == 0 else ptr <= len == buf.Length
    }

    ghost function State(): Rx
      reads this, buf
      requires Valid()
    {
      Rx(if buf == null then None else Some(buf[..ptr]), len, discarding)
    }

    constructor ()
      ensures Valid() && State() == REST
    {
      buf, len, ptr, discarding := null, 0, 0, false;
    }

    method Free(p: Piece)
      modifies this
      ensures Valid() && buf == null && State() == Abandon(p).0
    {
      buf, ptr, len, discarding := null, 0, 0, !p.final;
    }

    /** realloc: the old bytes in a block that is RECV_BUF_REALLOC_SIZE larger. */
    method Grow()
      requires Valid() && !discarding
      modifies this
      ensures Valid() && buf != null && fresh(buf)
      ensures State() == Rx(Some(if old(buf) == null then [] else old(State()).held.value),
                            old(len) + RECV_BUF_REALLOC_SIZE, false)
    {
      var grown := new Byte[len + RECV_BUF_REALLOC_SIZE](_ => 0);
      if buf != null {
        var b: array<Byte> := buf;
        var i := 0;
        while i < ptr
          modifies grown
          invariant 0 <= i <= ptr && grown[..i] == b[..i]
        {
          grown[i] := b[i];
          i := i + 1;
        }
      }
      buf, len := grown, grown.Length;
    }

    method Copy(p: Piece) returns (out: Outcome)
      requires Valid() && !discarding
      modifies this, buf
      ensures Valid() && (buf == null || buf == old(buf))
      ensures (State(), out) == Copied(old(State()), p)
    {
      if buf == null {
        return Nothing;
      }
      if len - ptr < |p.data| {
        return Overrun;
      }
      var b: array<Byte> := buf;
      ghost var before := b[..ptr];
      var i := 0;
      while i < |p.data|
        modifies b
        invariant 0 <= i <= |p.data|
        invariant b[..ptr] == before && b[ptr..ptr + i] == p.data[..i]
      {
        b[ptr + i] := p.data[i];
        i := i + 1;
      }
      ptr := ptr + |p.data|;
      assert b[..ptr] == before + p.data;
      if p.final {
        out := Delivered(UpToNul(b[..ptr]));
        buf, ptr, len := null, 0, 0;
      } else {
        out := Nothing;
      }
    }

    method Fill(p: Piece) returns (out: Outcome)
      requires Valid() && !discarding
      modifies this, buf
      ensures Valid() && (buf == null || buf == old(buf) || fresh(buf))
      ensures (State(), out) == Filled(old(State()), p)
    {
      if len - ptr < |p.data| {
        if len + RECV_BUF_REALLOC_SIZE > MAX_RECV_BUF_SIZE || !p.alloc {
          Free(p);
          return Nothing;
        }
        Grow();
      }
      out := Copy(p);
    }

    /** The callback. lws marks a piece as first only when no message is open, which is
        what the source asserts. */
    method Receive(p: Piece) returns (out: Outcome)
      requires Valid() && (p.first && !p.binary ==> buf == null)
      modifies this, buf
      ensures Valid() && (buf == null || buf == old(buf) || fresh(buf))
      ensures (State(), out) == Received(old(State()), p)
    {
      if p.binary {
        return Nothing;
      }
      if p.first {
        discarding := false;
        if |p.data| + p.remaining > MAX_RECV_BUF_SIZE || !p.alloc {
          Free(p);
          return Nothing;
        }
        buf := new Byte[|p.data| + p.remaining](_ => 0);
        len, ptr := |p.data| + p.remaining, 0;
      }
      if discarding {
        discarding := !p.final;
        return Nothing;
      }
      out := Fill(p);
    }
  }

  // ---------------------------------------------------------------- messages

  function Total(m: seq<Piece>): (t: seq<Byte>) {
    if m == [] then [] else m[0].data + Total(m[1..])
  }

  /** The pieces of one message, from the first to the final one, of one kind, each no
      larger than what one growth step makes room for. */
  predicate WellFramed(m: seq<Piece>) {
    && m != []
    && forall i :: 0 <= i < |m| ==>
         m[i].first == (i == 0) && m[i].final == (i == |m| - 1) && m[i].binary == m[0].binary
         && |m[i].data| <= RECV_BUF_REALLOC_SIZE
  }

  /** The rest of a message: no first piece, final exactly at the end. */
  predicate Tail(m: seq<Piece>) {
    forall i :: 0 <= i < |m| ==>
      !m[i].first && m[i].final == (i == |m| - 1) && !m[i].binary && |m[i].data| <= RECV_BUF_REALLOC_SIZE
  }

  predicate Allocates(m: seq<Piece>) {
    forall i :: 0 <= i < |m| ==> m[i].alloc
  }

  /** The state after a run of pieces, and what was delivered, in order. */
  function Run(x: Rx, ps: seq<Piece>): (Rx, seq<seq<Byte>>)
    decreases |ps|
  {
    if ps == [] then (x, [])
    else
      var (y, out) := Received(x, ps[0]);
      var (z, rest) := Run(y, ps[1..]);
      (z, (if out.Delivered? then [out.text] else []) + rest)
  }

  /** No piece of the run is copied past the end of the buffer. */
  predicate Safe(x: Rx, ps: seq<Piece>)
    decreases |ps|
  {
    ps == [] || (!Received(x, ps[0]).1.Overrun? && Safe(Received(x, ps[0]).0, ps[1..]))
  }

  lemma {:induction false} RunAppend(x: Rx, a: seq<Piece>, b: seq<Piece>)
    ensures Run(x, a + b).0 == Run(Run(x, a).0, b).0
    ensures Run(x, a + b).1 == Run(x, a).1 + Run(Run(x, a).0, b).1
    ensures Safe(x, a + b) <==> Safe(x, a) && Safe(Run(x, a).0, b)
    decreases |a|
  {
    if a == [] {
      assert a + b == b;
    } else {
      assert (a + b)[0] == a[0] && (a + b)[1..] == a[1..] + b;
      RunAppend(Received(x, a[0]).0, a[1..], b);
    }
  }

  lemma RunOne(x: Rx, p: Piece)
    ensures Run(x, [p]) == (Received(x, p).0, if Received(x, p).1.Delivered? then [Received(x, p).1.text] else [])
  {
    assert [p][1..] == [];
    var t := if Received(x, p).1.Delivered? then [Received(x, p).1.text] else [];
    assert t + [] == t;
  }

  lemma RunFirst(x: Rx, ps: seq<Piece>)
    requires ps != [] && !Received(x, ps[0]).1.Delivered?
    ensures Run(x, ps) == Run(Received(x, ps[0]).0, ps[1..])
  {
    var rest := Run(Received(x, ps[0]).0, ps[1..]).1;
    assert [] + rest == rest;
  }

  // ---------------------------------------------------------------- one message

  /** The block's size after `g` growth steps. */
  function Grown(size: nat, g: nat): nat {
    size + g * RECV_BUF_REALLOC_SIZE
  }

  /** Some number of growth steps makes the block hold `total` without passing the cap. */
  ghost predicate Room(size: nat, total: nat) {
    exists g: nat :: total <= Grown(size, g) <= MAX_RECV_BUF_SIZE
  }

  lemma RoomAfterGrowth(size: nat, total: nat)
    requires size < total
    ensures Room(size, total) <==> size + RECV_BUF_REALLOC_SIZE <= MAX_RECV_BUF_SIZE && Room(size + RECV_BUF_REALLOC_SIZE, total)
  {
    if Room(size, total) {
      var g: nat :| total <= Grown(size, g) <= MAX_RECV_BUF_SIZE;
      assert g > 0;
      assert Grown(size + RECV_BUF_REALLOC_SIZE, g - 1) == Grown(size, g);
    }
    if Room(size + RECV_BUF_REALLOC_SIZE, total) {
      var g: nat :| total <= Grown(size + RECV_BUF_REALLOC_SIZE, g) <= MAX_RECV_BUF_SIZE;
      assert Grown(size, g + 1) == Grown(size + RECV_BUF_REALLOC_SIZE, g);
    }
  }

  lemma RoomAlready(size: nat, total: nat)
    requires total <= size <= MAX_RECV_BUF_SIZE
    ensures Room(size, total)
  {
    assert Grown(size, 0) == size;
  }

  /** The rest of an abandoned message is swallowed to its end. */
  lemma {:induction false} Swallowed(x: Rx, m: seq<Piece>)
    requires x == Rx(None, 0, true) && Tail(m) && m != []
    ensures Run(x, m) == (REST, []) && Safe(x, m)
    decreases |m|
  {
    if |m| > 1 {
      RunFirst(x, m);
      Swallowed(x, m[1..]);
    } else {
      assert m == [m[0]];
      RunOne(x, m[0]);
    }
  }

  predicate Holding(x: Rx, used: seq<Byte>) {
    x.held == Some(used) && |used| <= x.size <= MAX_RECV_BUF_SIZE && !x.discarding
  }

  lemma Joined(used: seq<Byte>, m: seq<Piece>)
    requires m != []
    ensures used + Total(m) == (used + m[0].data) + Total(m[1..])
  {
  }

  /** What the rest of a message leads to, from a state that holds its beginning: the whole
      text or nothing, back at rest either way, and the text if and only if there is room
      for it (allocations permitting). */
  ghost predicate Resolves(x: Rx, m: seq<Piece>, size: nat, whole: seq<Byte>) {
    && Safe(x, m)
    && (Run(x, m) == (REST, [UpToNul(whole)]) || Run(x, m) == (REST, []))
    && (Run(x, m).1 != [] ==> Room(size, |whole|))
    && (Allocates(m) && Room(size, |whole|) ==> Run(x, m).1 != [])
  }

  /** The final piece: the whole text is delivered if it fits, or after one growth step. */
  lemma FinalPiece(x: Rx, used: seq<Byte>, p: Piece)
    requires Holding(x, used) && !p.first && p.final && !p.binary && |p.data| <= RECV_BUF_REALLOC_SIZE
    ensures var whole := used + p.data;
      var fits := |whole| <= x.size || (x.size + RECV_BUF_REALLOC_SIZE <= MAX_RECV_BUF_SIZE && p.alloc);
      Received(x, p) == (REST, if fits then Delivered(UpToNul(whole)) else Nothing)
  {
  }

  lemma RoomForLast(size: nat, total: nat, last: nat)
    requires total <= size + last && last <= RECV_BUF_REALLOC_SIZE && size <= MAX_RECV_BUF_SIZE
    ensures Room(size, total) <==> total <= size || size + RECV_BUF_REALLOC_SIZE <= MAX_RECV_BUF_SIZE
  {
    if size < total {
      RoomAfterGrowth(size, total);
      if size + RECV_BUF_REALLOC_SIZE <= MAX_RECV_BUF_SIZE {
        RoomAlready(size + RECV_BUF_REALLOC_SIZE, total);
      }
    } else {
      RoomAlready(size, total);
    }
  }

  lemma LastPiece(x: Rx, used: seq<Byte>, m: seq<Piece>)
    requires Holding(x, used) && Tail(m) && |m| == 1
    ensures Resolves(x, m, x.size, used + Total(m))
  {
    hide Received, UpToNul, Room;
    assert m == [m[0]] && Total([]) == [] && Total(m) == m[0].data + Total(m[1..]);
    assert used + Total(m) == used + m[0].data;
    FinalPiece(x, used, m[0]);
    RunOne(x, m[0]);
    SafeOne(x, m[0]);
    RoomForLast(x.size, |used + m[0].data|, |m[0].data|);
  }

  lemma SafeOne(x: Rx, p: Piece)
    ensures Safe(x, [p]) <==> !Received(x, p).1.Overrun?
  {
    assert [p][1..] == [];
  }

  /** A piece in the middle: it is added, or the message is abandoned for want of room or memory. */
  lemma MiddlePiece(x: Rx, used: seq<Byte>, p: Piece)
    requires Holding(x, used) && !p.first && !p.final && !p.binary && |p.data| <= RECV_BUF_REALLOC_SIZE
    ensures var (y, out) := Received(x, p);
      && out.Nothing?
      && (Holding(y, used + p.data) || y == Rx(None, 0, true))
      && (y.discarding ==> |used| + |p.data| > x.size && (x.size + RECV_BUF_REALLOC_SIZE > MAX_RECV_BUF_SIZE || !p.alloc))
      && (!y.discarding ==> y.size == if |used| + |p.data| > x.size then x.size + RECV_BUF_REALLOC_SIZE else x.size)
  {
  }

  lemma {:induction false} RestOfMessage(x: Rx, used: seq<Byte>, m: seq<Piece>)
    requires Holding(x, used) && Tail(m) && m != []
    ensures Resolves(x, m, x.size, used + Total(m))
    decreases |m|
  {
    if |m| == 1 {
      LastPiece(x, used, m);
    } else {
      var y := Received(x, m[0]).0;
      var whole := used + Total(m);
      Joined(used, m);
      MiddlePiece(x, used, m[0]);
      RunFirst(x, m);
      if |used| + |m[0].data| > x.size {
        RoomAfterGrowth(x.size, |whole|);
      }
      if y.discarding {
        Swallowed(y, m[1..]);
      } else {
        RestOfMessage(y, used + m[0].data, m[1..]);
        assert Allocates(m) ==> Allocates(m[1..]);
      }
    }
  }

  lemma {:induction false} BinaryIgnored(m: seq<Piece>)
    requires forall i :: 0 <= i < |m| ==> m[i].binary
    ensures Run(REST, m) == (REST, []) && Safe(REST, m)
    decreases |m|
  {
    if m != [] {
      RunFirst(REST, m);
      BinaryIgnored(m[1..]);
    }
  }

  /** The room a message starts with: the length of its first frame. */
  function FirstFrame(m: seq<Piece>): nat
    requires m != []
  {
    |m[0].data| + m[0].remaining
  }

  lemma FirstPiece(p: Piece)
    requires p.first && !p.binary && p.alloc && |p.data| + p.remaining <= MAX_RECV_BUF_SIZE
    ensures var (y, out) := Received(REST, p);
      if p.final then y == REST && out == Delivered(UpToNul(p.data))
      else out.Nothing? && Holding(y, p.data) && y.size == |p.data| + p.remaining
  {
    assert [] + p.data == p.data;
  }

  lemma Opened(x: Rx, m: seq<Piece>, size: nat, whole: seq<Byte>)
    requires m != [] && Received(x, m[0]).1.Nothing? && Resolves(Received(x, m[0]).0, m[1..], size, whole)
    ensures Resolves(x, m, size, whole)
  {
    RunFirst(x, m);
    assert Allocates(m) ==> Allocates(m[1..]);
  }

  lemma RestIsTail(m: seq<Piece>)
    requires WellFramed(m) && !m[0].binary && |m| > 1
    ensures m[0].first && !m[0].final && Tail(m[1..])
  {
  }

  lemma OpenMessageBy(m: seq<Piece>)
    requires |m| > 1 && m[0].first && !m[0].final && Tail(m[1..]) && !m[0].binary
    requires FirstFrame(m) <= MAX_RECV_BUF_SIZE && m[0].alloc
    ensures Resolves(REST, m, FirstFrame(m), Total(m))
  {
    FirstPiece(m[0]);
    RestOfMessage(Received(REST, m[0]).0, m[0].data, m[1..]);
    Opened(REST, m, FirstFrame(m), Total(m));
  }

  lemma OpenMessage(m: seq<Piece>)
    requires WellFramed(m) && !m[0].binary && FirstFrame(m) <= MAX_RECV_BUF_SIZE && m[0].alloc && |m| > 1
    ensures Resolves(REST, m, FirstFrame(m), Total(m))
  {
    RestIsTail(m);
    OpenMessageBy(m);
  }

  lemma RefusedMessage(m: seq<Piece>)
    requires WellFramed(m) && !m[0].binary && (FirstFrame(m) > MAX_RECV_BUF_SIZE || !m[0].alloc)
    ensures Run(REST, m) == (REST, []) && Safe(REST, m)
  {
    if |m| == 1 {
      assert m == [m[0]];
      RunOne(REST, m[0]);
    } else {
      RunFirst(REST, m);
      Swallowed(Rx(None, 0, true), m[1..]);
    }
  }

  lemma SinglePiece(m: seq<Piece>)
    requires WellFramed(m) && !m[0].binary && FirstFrame(m) <= MAX_RECV_BUF_SIZE && m[0].alloc && |m| == 1
    ensures Resolves(REST, m, FirstFrame(m), Total(m))
  {
    assert m == [m[0]] && Total([]) == [] && Total(m) == m[0].data + Total(m[1..]);
    assert Total(m) == m[0].data;
    FirstPiece(m[0]);
    RunOne(REST, m[0]);
    RoomAlready(FirstFrame(m), |Total(m)|);
  }

  lemma NoRoomAboveCap(size: nat, total: nat)
    requires size > MAX_RECV_BUF_SIZE || total > MAX_RECV_BUF_SIZE
    ensures !Room(size, total)
  {
    forall g: nat ensures !(total <= Grown(size, g) <= MAX_RECV_BUF_SIZE) {
    }
  }

  /** One message of any shape, from rest: it is delivered whole, as the concatenation of its
      fragments, or not at all; no copy passes the end of the buffer; the receiver is at rest
      again afterwards. A text message is delivered if and only if its first frame's length
      and a number of growth steps give room for it, allocations permitting. */
  lemma MessageWholeOrNothing(m: seq<Piece>)
    requires WellFramed(m)
    ensures Run(REST, m) == (REST, [UpToNul(Total(m))]) || Run(REST, m) == (REST, [])
    ensures Safe(REST, m)
    ensures m[0].binary || !Room(FirstFrame(m), |Total(m)|) ==> Run(REST, m).1 == []
    ensures Allocates(m) && !m[0].binary && Room(FirstFrame(m), |Total(m)|) ==> Run(REST, m).1 == [UpToNul(Total(m))]
  {
    if m[0].binary {
      BinaryIgnored(m);
    } else if FirstFrame(m) > MAX_RECV_BUF_SIZE || !m[0].alloc {
      RefusedMessage(m);
      if FirstFrame(m) > MAX_RECV_BUF_SIZE { NoRoomAboveCap(FirstFrame(m), |Total(m)|); }
    } else if |m| == 1 {
      SinglePiece(m);
    } else {
      OpenMessage(m);
    }
  }

  /** A message above the cap has no room, however it is cut. */
  lemma NoneAboveCap(first: nat, total: nat)
    requires total > MAX_RECV_BUF_SIZE
    ensures !Room(first, total)
  {
    NoRoomAboveCap(first, total);
  }

  /** What the exact condition means for lengths: a message is sure of room, wherever its
      first frame ends, if and only if it stays one growth step below the cap. */
  lemma LengthExact(total: nat)
    ensures (forall first: nat :: first <= total ==> Room(first, total))
       <==> total <= MAX_RECV_BUF_SIZE - RECV_BUF_REALLOC_SIZE + 1
  {
    if total <= MAX_RECV_BUF_SIZE - RECV_BUF_REALLOC_SIZE + 1 {
      forall first: nat | first <= total ensures Room(first, total) {
        GrowsEnough(first, total);
      }
    } else if total > MAX_RECV_BUF_SIZE {
      NoneAboveCap(total, total);
    } else {
      RoomAfterGrowth(total - 1, total);
      assert !Room(total - 1, total);
    }
  }

  /** So a text message up to that length is delivered, whatever its fragments, if every
      allocation succeeds; its first frame is part of it. */
  lemma DeliveredUpToLength(m: seq<Piece>)
    requires WellFramed(m) && Allocates(m) && !m[0].binary
    requires FirstFrame(m) <= |Total(m)| <= MAX_RECV_BUF_SIZE - RECV_BUF_REALLOC_SIZE + 1
    ensures Run(REST, m) == (REST, [UpToNul(Total(m))])
  {
    LengthExact(|Total(m)|);
    assert Room(FirstFrame(m), |Total(m)|);
    MessageWholeOrNothing(m);
  }

  lemma {:induction false} GrowsEnough(first: nat, total: nat)
    requires total <= MAX_RECV_BUF_SIZE - RECV_BUF_REALLOC_SIZE + 1 && first <= MAX_RECV_BUF_SIZE
    ensures Room(first, total)
    decreases total - first
  {
    if total <= first {
      RoomAlready(first, total);
    } else {
      GrowsEnough(first + RECV_BUF_REALLOC_SIZE, total);
      RoomAfterGrowth(first, total);
    }
  }

  // ---------------------------------------------------------------- a stream of messages

  function Flat(ms: seq<seq<Piece>>): seq<Piece> {
    if ms == [] then [] else ms[0] + Flat(ms[1..])
  }

  /** The texts of the messages the receiver accepts, in order. */
  function Accepted(ms: seq<seq<Piece>>): seq<seq<Byte>> {
    if ms == [] then []
    else (if Run(REST, ms[0]).1 == [] then [] else [UpToNul(Total(ms[0]))]) + Accepted(ms[1..])
  }

  /** Over any stream of messages the deliveries are the texts of the accepted messages, one
      each and in order, never a tail and never a mix. */
  lemma {:induction false} StreamDelivers(ms: seq<seq<Piece>>)
    requires forall i :: 0 <= i < |ms| ==> WellFramed(ms[i])
    ensures Run(REST, Flat(ms)) == (REST, Accepted(ms)) && Safe(REST, Flat(ms))
    decreases |ms|
  {
    if ms != [] {
      MessageWholeOrNothing(ms[0]);
      StreamDelivers(ms[1..]);
      RunAppend(REST, ms[0], Flat(ms[1..]));
    }
  }
}
