/** The outgoing audio buffer of mod_audio_fork: one array whose first LWS_PRE bytes belong
    to libwebsockets, filled by fork_frame and emptied by the writable callback. */
module AudioRing {
  import opened Common

  // ---------------------------------------------------------------- whole sample frames

  /** `n` bytes are a whole number of interleaved sample frames of `f` bytes. */
  predicate WholeFrames(n: nat, f: nat)
    requires f > 0
  {
    n == 0 || (n >= f && WholeFrames(n - f, f))
  }

  lemma {:induction false} FramesAdd(a: nat, b: nat, f: nat)
    requires f > 0 && WholeFrames(a, f) && WholeFrames(b, f)
    ensures WholeFrames(a + b, f)
    decreases a
  {
    if a > 0 {
      FramesAdd(a - f, b, f);
    }
  }

  lemma {:induction false} FramesTimes(k: nat, f: nat)
    requires f > 0
    ensures WholeFrames(k * f, f)
    decreases k
  {
    if k > 0 {
      FramesTimes(k - 1, f);
      assert k * f == (k - 1) * f + f;
    }
  }

  /** And conversely. */
  lemma {:induction false} FrameCount(n: nat, f: nat) returns (k: nat)
    requires f > 0 && WholeFrames(n, f)
    ensures n == k * f
    decreases n
  {
    if n == 0 {
      k := 0;
    } else {
      var j := FrameCount(n - f, f);
      k := j + 1;
    }
  }

  // ---------------------------------------------------------------- specification

  /** What happened to the bytes that left the buffer, in order. */
  datatype Fate = Sent(bytes: seq<Byte>) | Discarded(bytes: seq<Byte>)

  datatype Ring = Ring(content: seq<Byte>, fates: seq<Fate>)

  /** The bytes handed to lws_write, and the bytes lost to overruns, in order. */
  function SentBytes(fates: seq<Fate>): seq<Byte> {
    if fates == [] then [] else (if fates[0].Sent? then fates[0].bytes else []) + SentBytes(fates[1..])
  }

  function LostBytes(fates: seq<Fate>): seq<Byte> {
    if fates == [] then [] else (if fates[0].Discarded? then fates[0].bytes else []) + LostBytes(fates[1..])
  }

  lemma {:induction false} SentSnoc(fates: seq<Fate>, f: Fate)
    ensures SentBytes(fates + [f]) == SentBytes(fates) + if f.Sent? then f.bytes else []
    decreases |fates|
  {
    if fates == [] {
      assert [f][1..] == [];
    } else {
      assert (fates + [f])[1..] == fates[1..] + [f];
      SentSnoc(fates[1..], f);
    }
  }

  lemma {:induction false} LostSnoc(fates: seq<Fate>, f: Fate)
    ensures LostBytes(fates + [f]) == LostBytes(fates) + if f.Discarded? then f.bytes else []
    decreases |fates|
  {
    if fates == [] {
      assert [f][1..] == [];
    } else {
      assert (fates + [f])[1..] == fates[1..] + [f];
      LostSnoc(fates[1..], f);
    }
  }

  lemma FatesSnoc(fates: seq<Fate>, f: Fate)
    ensures SentBytes(fates + [f]) == SentBytes(fates) + if f.Sent? then f.bytes else []
    ensures LostBytes(fates + [f]) == LostBytes(fates) + if f.Discarded? then f.bytes else []
  {
    hide SentBytes, LostBytes;
    SentSnoc(fates, f);
    LostSnoc(fates, f);
  }

  /** The check at the top of the native loop: with less than `min` of `room` left, the
      whole run buffered so far is dropped. */
  function Checked(r: Ring, room: nat, min: nat): Ring {
    if room < |r.content| + min then Ring([], r.fates + [Discarded(r.content)]) else r
  }

  function Added(r: Ring, bytes: seq<Byte>): Ring {
    r.(content := r.content + bytes)
  }

  /** fork_frame without a resampler: check, read, and once more check before the read that fails. */
  function NativeRun(r: Ring, packets: seq<seq<Byte>>, room: nat, min: nat): Ring
    decreases |packets|
  {
    var c := Checked(r, room, min);
    if packets == [] then c else NativeRun(Added(c, packets[0]), packets[1..], room, min)
  }

  /** The resampler writes at most out_len sample frames. */
  function Fitting(bytes: seq<Byte>, available: nat, f: nat): (r: seq<Byte>)
    requires f > 0
    ensures r <= bytes && |r| <= available
  {
    Whole(available, f);
    if |bytes| <= available / f * f then bytes else bytes[..available / f * f]
  }

  lemma Whole(x: nat, f: nat)
    requires f > 0
    ensures 0 <= x / f * f <= x
  {
  }

  /** fork_frame with a resampler: stops as soon as less than `min` is free. */
  function ResampledRun(r: Ring, outputs: seq<seq<Byte>>, room: nat, min: nat, f: nat): Ring
    requires f > 0 && |r.content| <= room
    decreases |outputs|
  {
    if outputs == [] then r
    else
      var next := Added(r, Fitting(outputs[0], room - |r.content|, f));
      if room < |next.content| + min then next else ResampledRun(next, outputs[1..], room, min, f)
  }

  /** The writable callback's binary part. */
  function Flushed(r: Ring): Ring {
    if r.content == [] then r else Ring([], r.fates + [Sent(r.content)])
  }

  // ---------------------------------------------------------------- the buffer

  class AudioBuffer {
    const pre: nat              // LWS_PRE
    const minFree: nat          // m_audio_buffer_min_freespace
    const channels: nat
    const buf: array<Byte>      // m_audio_buffer
    var offset: nat             // m_audio_buffer_write_offset
    ghost var fates: seq<Fate>

    ghost predicate Valid()
      reads this
    {
      pre <= offset <= buf.Length && channels > 0 && pre + minFree * channels <= buf.Length
    }

    ghost function State(): Ring
      reads this, buf
      requires Valid()
    {
      Ring(buf[pre..offset], fates)
    }

    function FrameBytes(): nat {
      2 * channels
    }

    ghost function Room(): nat
      reads this
      requires Valid()
    {
      buf.Length - pre
    }

    /** One packet times the channel count fits. */
    constructor (lwsPre: nat, bufLen: nat, minFreespace: nat, nChannels: nat)
      requires nChannels > 0 && lwsPre + minFreespace * nChannels <= bufLen
      ensures Valid() && State() == Ring([], []) && fresh(buf)
      ensures pre == lwsPre && buf.Length == bufLen && minFree == minFreespace && channels == nChannels
    {
      pre, minFree, channels, offset, fates := lwsPre, minFreespace, nChannels, lwsPre, [];
      buf := new Byte[bufLen](_ => 0);
    }

    method SpaceAvailable() returns (available: nat)
      requires Valid()
      ensures available == Room() - |State().content|
    {
      available := buf.Length - offset;
    }

    /** What a read or the resampler writes at binaryWritePtr, and binaryWritePtrAdd. */
    method Put(bytes: seq<Byte>)
      requires Valid() && offset + |bytes| <= buf.Length
      modifies this, buf
      ensures Valid() && State() == Added(old(State()), bytes)
    {
      forall i | 0 <= i < |bytes| {
        buf[offset + i] := bytes[i];
      }
      offset := offset + |bytes|;
      assert buf[pre..offset] == old(buf[pre..offset]) + bytes;
    }

    method CheckOverrun(available: nat) returns (now: nat)
      requires Valid() && available == Room() - |State().content|
      modifies this
      ensures Valid() && State() == Checked(old(State()), Room(), minFree * channels)
      ensures now == Room() - |State().content| && now >= minFree * channels
    {
      now := available;
      if available < minFree * channels {
        fates := fates + [Discarded(buf[pre..offset])];
        offset := pre;
        now := SpaceAvailable();
      }
    }

    /** fork_frame at the native rate. switch_core_media_bug_read delivers at most one packet
        per channel. */
    method NativeFrame(packets: seq<seq<Byte>>)
      requires Valid() && forall i :: 0 <= i < |packets| ==> |packets[i]| <= minFree * channels
      modifies this, buf
      ensures Valid() && State() == NativeRun(old(State()), packets, Room(), minFree * channels)
    {
      var available := SpaceAvailable();
      var i := 0;
      while true
        invariant Valid() && i <= |packets| && available == Room() - |State().content|
        invariant NativeRun(State(), packets[i..], Room(), minFree * channels)
               == NativeRun(old(State()), packets, Room(), minFree * channels)
        decreases |packets| - i
      {
        available := CheckOverrun(available);
        if i == |packets| {
          break;
        }
        assert packets[i..][1..] == packets[i + 1..];
        if packets[i] != [] {
          Put(packets[i]);
          available := SpaceAvailable();
        } else {
          assert Added(State(), packets[i]) == State();
        }
        i := i + 1;
      }
    }

    /** fork_frame with a resampler, whose full output for each frame that has data is given. */
    method ResampledFrame(outputs: seq<seq<Byte>>)
      requires Valid()
      modifies this, buf
      ensures Valid() && State() == ResampledRun(old(State()), outputs, Room(), minFree, FrameBytes())
    {
      hide Fitting, Checked;
      var available := SpaceAvailable();
      var i := 0;
      while i < |outputs|
        invariant Valid() && i <= |outputs| && available == Room() - |State().content|
        invariant ResampledRun(State(), outputs[i..], Room(), minFree, FrameBytes())
               == ResampledRun(old(State()), outputs, Room(), minFree, FrameBytes())
      {
        assert outputs[i..][1..] == outputs[i + 1..];
        var bytes := Fitting(outputs[i], available, FrameBytes());
        if bytes != [] {
          Put(bytes);
          available := SpaceAvailable();
        } else {
          assert Added(State(), bytes) == State();
        }
        if available < minFree {
          break;
        }
        i := i + 1;
      }
    }

    /** The binary part of LWS_CALLBACK_CLIENT_WRITEABLE: what was buffered has been sent, all of
        it, and the buffer is empty. */
    method Flush()
      requires Valid()
      modifies this
      ensures Valid() && State() == Flushed(old(State()))
      ensures State().content == [] && offset == pre
      ensures SentBytes(State().fates) == SentBytes(old(State().fates)) + old(State().content)
      ensures LostBytes(State().fates) == LostBytes(old(State().fates))
    {
      FatesSnoc(fates, Sent(buf[pre..offset]));
      if offset > pre {
        fates := fates + [Sent(buf[pre..offset])];
        offset := pre;
      }
    }
  }

  // ---------------------------------------------------------------- what every run keeps

  function Flat(s: seq<seq<Byte>>): seq<Byte> {
    if s == [] then [] else s[0] + Flat(s[1..])
  }

  lemma {:induction false} FlatAppend(a: seq<seq<Byte>>, b: seq<seq<Byte>>)
    ensures Flat(a + b) == Flat(a) + Flat(b)
    decreases |a|
  {
    if a == [] {
      assert a + b == b;
    } else {
      assert (a + b)[1..] == a[1..] + b;
      FlatAppend(a[1..], b);
    }
  }

  /** The bytes that have left, in order. */
  function Gone(fates: seq<Fate>): seq<Byte> {
    if fates == [] then [] else fates[0].bytes + Gone(fates[1..])
  }

  lemma {:induction false} GoneSnoc(fates: seq<Fate>, f: Fate)
    ensures Gone(fates + [f]) == Gone(fates) + f.bytes
    decreases |fates|
  {
    if fates == [] {
      assert [f][1..] == [];
    } else {
      assert (fates + [f])[1..] == fates[1..] + [f];
      GoneSnoc(fates[1..], f);
    }
  }

  /** Everything ever buffered: what left, then what is still held. */
  function Buffered(r: Ring): seq<Byte> {
    Gone(r.fates) + r.content
  }

  lemma CheckedKeeps(r: Ring, room: nat, min: nat)
    ensures Buffered(Checked(r, room, min)) == Buffered(r)
  {
    GoneSnoc(r.fates, Discarded(r.content));
  }

  lemma AddedKeeps(r: Ring, bytes: seq<Byte>)
    ensures Buffered(Added(r, bytes)) == Buffered(r) + bytes
  {
  }

  lemma {:induction false} NativeKeeps(r: Ring, packets: seq<seq<Byte>>, room: nat, min: nat)
    ensures Buffered(NativeRun(r, packets, room, min)) == Buffered(r) + Flat(packets)
    decreases |packets|
  {
    CheckedKeeps(r, room, min);
    var c := Checked(r, room, min);
    if packets != [] {
      AddedKeeps(c, packets[0]);
      NativeKeeps(Added(c, packets[0]), packets[1..], room, min);
      assert Buffered(r) + packets[0] + Flat(packets[1..]) == Buffered(r) + Flat(packets);
    }
  }

  /** What the resampler path takes of the outputs. */
  function Taken(r: Ring, outputs: seq<seq<Byte>>, room: nat, min: nat, f: nat): seq<Byte>
    requires f > 0 && |r.content| <= room
    decreases |outputs|
  {
    if outputs == [] then []
    else
      var bytes := Fitting(outputs[0], room - |r.content|, f);
      var next := Added(r, bytes);
      bytes + if room < |next.content| + min then [] else Taken(next, outputs[1..], room, min, f)
  }

  lemma {:induction false} ResampledKeeps(r: Ring, outputs: seq<seq<Byte>>, room: nat, min: nat, f: nat)
    requires f > 0 && |r.content| <= room
    ensures var s := ResampledRun(r, outputs, room, min, f);
      Buffered(s) == Buffered(r) + Taken(r, outputs, room, min, f) && |s.content| <= room && s.fates == r.fates
    decreases |outputs|
  {
    hide Fitting;
    if outputs != [] {
      var bytes := Fitting(outputs[0], room - |r.content|, f);
      var next := Added(r, bytes);
      AddedKeeps(r, bytes);
      if room >= |next.content| + min {
        ResampledKeeps(next, outputs[1..], room, min, f);
      }
    }
  }

  /** Room for everything: the resampler path loses nothing. */
  lemma {:induction false} TakesAll(r: Ring, outputs: seq<seq<Byte>>, room: nat, min: nat, f: nat)
    requires f > 0 && |r.content| + |Flat(outputs)| + min <= room
    requires forall i :: 0 <= i < |outputs| ==> WholeFrames(|outputs[i]|, f)
    ensures Taken(r, outputs, room, min, f) == Flat(outputs)
    decreases |outputs|
  {
    if outputs != [] {
      var k := FrameCount(|outputs[0]|, f);
      FitsWhole(outputs[0], room - |r.content|, f, k);
      TakesAll(Added(r, outputs[0]), outputs[1..], room, min, f);
    }
  }

  lemma FitsWhole(bytes: seq<Byte>, available: nat, f: nat, k: nat)
    requires f > 0 && |bytes| == k * f <= available
    ensures Fitting(bytes, available, f) == bytes
  {
    var q := available / f;
    assert available < (q + 1) * f;
    Wider(k, q, f);
  }

  lemma Wider(k: nat, q: nat, f: nat)
    ensures k > q ==> k * f >= (q + 1) * f
    ensures k <= q ==> k * f <= q * f
  {
  }

  // ---------------------------------------------------------------- whole frames only

  predicate WholeFates(fates: seq<Fate>, f: nat)
    requires f > 0
  {
    forall i :: 0 <= i < |fates| ==> WholeFrames(|fates[i].bytes|, f)
  }

  predicate Aligned(r: Ring, f: nat)
    requires f > 0
  {
    WholeFrames(|r.content|, f) && WholeFates(r.fates, f)
  }

  predicate AllWhole(s: seq<seq<Byte>>, f: nat)
    requires f > 0
  {
    forall i :: 0 <= i < |s| ==> WholeFrames(|s[i]|, f)
  }

  lemma {:induction false} NativeAligned(r: Ring, packets: seq<seq<Byte>>, room: nat, min: nat, f: nat)
    requires f > 0 && Aligned(r, f) && AllWhole(packets, f)
    ensures Aligned(NativeRun(r, packets, room, min), f)
    ensures min <= room ==> |NativeRun(r, packets, room, min).content| + min <= room
    decreases |packets|
  {
    var c := Checked(r, room, min);
    assert Aligned(c, f);
    if packets != [] {
      FramesAdd(|c.content|, |packets[0]|, f);
      NativeAligned(Added(c, packets[0]), packets[1..], room, min, f);
    }
  }

  lemma FittingWhole(bytes: seq<Byte>, available: nat, f: nat)
    requires f > 0 && WholeFrames(|bytes|, f)
    ensures WholeFrames(|Fitting(bytes, available, f)|, f)
  {
    FramesTimes(available / f, f);
  }

  lemma {:induction false} ResampledAligned(r: Ring, outputs: seq<seq<Byte>>, room: nat, min: nat, f: nat)
    requires f > 0 && |r.content| <= room && Aligned(r, f) && AllWhole(outputs, f)
    ensures Aligned(ResampledRun(r, outputs, room, min, f), f)
    decreases |outputs|
  {
    hide Fitting;
    if outputs != [] {
      var bytes := Fitting(outputs[0], room - |r.content|, f);
      FittingWhole(outputs[0], room - |r.content|, f);
      FramesAdd(|r.content|, |bytes|, f);
      if room >= |r.content + bytes| + min {
        ResampledAligned(Added(r, bytes), outputs[1..], room, min, f);
      }
    }
  }

  // ---------------------------------------------------------------- any run

  datatype Op = Native(packets: seq<seq<Byte>>) | Resampled(outputs: seq<seq<Byte>>) | Writable

  datatype Shape = Shape(room: nat, minFree: nat, channels: nat)

  predicate Fits(d: Shape) {
    d.channels > 0 && d.minFree * d.channels <= d.room
  }

  function Step(r: Ring, op: Op, d: Shape): Ring
    requires Fits(d) && |r.content| <= d.room
  {
    match op
    case Native(packets) => NativeRun(r, packets, d.room, d.minFree * d.channels)
    case Resampled(outputs) => ResampledRun(r, outputs, d.room, d.minFree, 2 * d.channels)
    case Writable => Flushed(r)
  }

  function Input(r: Ring, op: Op, d: Shape): seq<Byte>
    requires Fits(d) && |r.content| <= d.room
  {
    match op
    case Native(packets) => Flat(packets)
    case Resampled(outputs) => Taken(r, outputs, d.room, d.minFree, 2 * d.channels)
    case Writable => []
  }

  predicate OpWhole(op: Op, f: nat)
    requires f > 0
  {
    match op
    case Native(packets) => AllWhole(packets, f)
    case Resampled(outputs) => AllWhole(outputs, f)
    case Writable => true
  }

  lemma StepKeeps(r: Ring, op: Op, d: Shape)
    requires Fits(d) && |r.content| <= d.room && Aligned(r, 2 * d.channels) && OpWhole(op, 2 * d.channels)
    ensures var s := Step(r, op, d);
      |s.content| <= d.room && Aligned(s, 2 * d.channels) && Buffered(s) == Buffered(r) + Input(r, op, d)
  {
    var f := 2 * d.channels;
    match op {
      case Native(packets) =>
        NativeKeeps(r, packets, d.room, d.minFree * d.channels);
        NativeAligned(r, packets, d.room, d.minFree * d.channels, f);
      case Resampled(outputs) =>
        ResampledKeeps(r, outputs, d.room, d.minFree, f);
        ResampledAligned(r, outputs, d.room, d.minFree, f);
      case Writable =>
        GoneSnoc(r.fates, Sent(r.content));
    }
  }

  /** fork_frame without a resampler sends nothing and, whatever it drops, leaves room for the
      next packet. */
  lemma {:induction false} NativeLeavesRoom(r: Ring, packets: seq<seq<Byte>>, room: nat, min: nat)
    requires min <= room
    ensures var s := NativeRun(r, packets, room, min);
      |s.content| + min <= room && SentBytes(s.fates) == SentBytes(r.fates)
    decreases |packets|
  {
    FatesSnoc(r.fates, Discarded(r.content));
    if packets != [] {
      NativeLeavesRoom(Added(Checked(r, room, min), packets[0]), packets[1..], room, min);
    }
  }

  lemma StepRoom(r: Ring, op: Op, d: Shape)
    requires Fits(d) && |r.content| <= d.room
    ensures |Step(r, op, d).content| <= d.room
  {
    match op {
      case Native(packets) => NativeLeavesRoom(r, packets, d.room, d.minFree * d.channels);
      case Resampled(outputs) => ResampledKeeps(r, outputs, d.room, d.minFree, 2 * d.channels);
      case Writable =>
    }
  }

  function Exec(r: Ring, ops: seq<Op>, d: Shape): Ring
    requires Fits(d) && |r.content| <= d.room
    decreases |ops|
  {
    StepRoom(r, if ops == [] then Writable else ops[0], d);
    if ops == [] then r else Exec(Step(r, ops[0], d), ops[1..], d)
  }

  /** What the operations of a run put into the buffer. */
  function Inputs(r: Ring, ops: seq<Op>, d: Shape): seq<Byte>
    requires Fits(d) && |r.content| <= d.room
    decreases |ops|
  {
    StepRoom(r, if ops == [] then Writable else ops[0], d);
    if ops == [] then [] else Input(r, ops[0], d) + Inputs(Step(r, ops[0], d), ops[1..], d)
  }

  /** Over any run: the frames sent and the runs discarded at overruns are, in order, the
      buffered stream, nothing repeated and nothing missing; every one of them is a whole
      number of sample frames; and the buffer never passes its end. */
  lemma {:induction false} RunConserves(r: Ring, ops: seq<Op>, d: Shape)
    requires Fits(d) && |r.content| <= d.room && Aligned(r, 2 * d.channels)
    requires forall i :: 0 <= i < |ops| ==> OpWhole(ops[i], 2 * d.channels)
    ensures var s := Exec(r, ops, d);
      Buffered(s) == Buffered(r) + Inputs(r, ops, d) && Aligned(s, 2 * d.channels) && |s.content| <= d.room
    decreases |ops|
  {
    if ops != [] {
      StepKeeps(r, ops[0], d);
      RunConserves(Step(r, ops[0], d), ops[1..], d);
    }
  }

  /** Nothing is discarded while every packet finds its minimum free space. */
  lemma {:induction false} NoOverrunNoLoss(r: Ring, packets: seq<seq<Byte>>, room: nat, min: nat)
    requires |r.content| + |Flat(packets)| + min <= room
    ensures NativeRun(r, packets, room, min) == Added(r, Flat(packets))
    decreases |packets|
  {
    if packets != [] {
      NoOverrunNoLoss(Added(r, packets[0]), packets[1..], room, min);
      assert r.content + packets[0] + Flat(packets[1..]) == r.content + Flat(packets);
    }
  }

  // ---------------------------------------------------------------- what is sent, and what is lost

  lemma {:induction false} LossStays(r: Ring, packets: seq<seq<Byte>>, room: nat, min: nat)
    ensures LostBytes(r.fates) <= LostBytes(NativeRun(r, packets, room, min).fates)
    decreases |packets|
  {
    FatesSnoc(r.fates, Discarded(r.content));
    if packets != [] {
      LossStays(Added(Checked(r, room, min), packets[0]), packets[1..], room, min);
    }
  }

  /** It loses bytes if and only if what is buffered and what it reads do not fit with the
      minimum free space left over. */
  lemma {:induction false} OverrunExactly(r: Ring, packets: seq<seq<Byte>>, room: nat, min: nat)
    requires min <= room
    ensures LostBytes(NativeRun(r, packets, room, min).fates) == LostBytes(r.fates)
      <==> |r.content| + |Flat(packets)| + min <= room
    decreases |packets|
  {
    if room < |r.content| + min {
      FatesSnoc(r.fates, Discarded(r.content));
      var c := Checked(r, room, min);
      if packets != [] { LossStays(Added(c, packets[0]), packets[1..], room, min); }
      assert |LostBytes(c.fates)| > |LostBytes(r.fates)|;
    } else if packets != [] {
      OverrunExactly(Added(r, packets[0]), packets[1..], room, min);
    }
  }

  /** What the buffer held at each writable callback, one after the other. */
  function Handed(r: Ring, ops: seq<Op>, d: Shape): seq<Byte>
    requires Fits(d) && |r.content| <= d.room
    decreases |ops|
  {
    StepRoom(r, if ops == [] then Writable else ops[0], d);
    if ops == [] then []
    else (if ops[0].Writable? then r.content else []) + Handed(Step(r, ops[0], d), ops[1..], d)
  }

  /** Some frame without a resampler finds too little space. */
  predicate Overruns(r: Ring, ops: seq<Op>, d: Shape)
    requires Fits(d) && |r.content| <= d.room
    decreases |ops|
  {
    StepRoom(r, if ops == [] then Writable else ops[0], d);
    ops != []
    && ((ops[0].Native? && d.room < |r.content| + |Flat(ops[0].packets)| + d.minFree * d.channels)
        || Overruns(Step(r, ops[0], d), ops[1..], d))
  }

  /** One operation: a writable callback sends what is buffered and empties the buffer, fork_frame
      sends nothing; and bytes are lost exactly in a frame that overruns. */
  lemma StepSends(r: Ring, op: Op, d: Shape)
    requires Fits(d) && |r.content| <= d.room
    ensures var s := Step(r, op, d);
      && SentBytes(s.fates) == SentBytes(r.fates) + (if op.Writable? then r.content else [])
      && (op.Writable? ==> s.content == [])
      && LostBytes(r.fates) <= LostBytes(s.fates)
      && (LostBytes(s.fates) != LostBytes(r.fates)
          <==> op.Native? && d.room < |r.content| + |Flat(op.packets)| + d.minFree * d.channels)
  {
    match op {
      case Native(packets) =>
        NativeLeavesRoom(r, packets, d.room, d.minFree * d.channels);
        LossStays(r, packets, d.room, d.minFree * d.channels);
        OverrunExactly(r, packets, d.room, d.minFree * d.channels);
      case Resampled(outputs) =>
        ResampledKeeps(r, outputs, d.room, d.minFree, 2 * d.channels);
      case Writable =>
        FatesSnoc(r.fates, Sent(r.content));
    }
  }

  /** Over any run what was sent is what the buffer held at each writable callback, in order, and
      bytes were lost if and only if some frame overran. */
  lemma {:induction false} RunSendsExactly(r: Ring, ops: seq<Op>, d: Shape)
    requires Fits(d) && |r.content| <= d.room
    ensures var s := Exec(r, ops, d);
      && SentBytes(s.fates) == SentBytes(r.fates) + Handed(r, ops, d)
      && LostBytes(r.fates) <= LostBytes(s.fates)
      && (LostBytes(s.fates) != LostBytes(r.fates) <==> Overruns(r, ops, d))
    decreases |ops|
  {
    if ops != [] {
      StepRoom(r, ops[0], d);
      StepSends(r, ops[0], d);
      RunSendsExactly(Step(r, ops[0], d), ops[1..], d);
    }
  }
}
