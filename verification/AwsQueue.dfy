/** m_deqAudio as write() keeps it: a queue that drops its oldest frames at the cap. */
module AwsQueue {
  import opened Common
  import opened Prebuffer
  import opened AwsModel
  import opened AwsInv
  import opened AwsAudio

  class FrameQueue {
    const cap: nat              // m_maxBufferedFrames, at least 1
    var deq: seq<seq<Stamp>>

    constructor (n: nat)
      requires n > 0
      ensures cap == n && deq == []
    {
      cap, deq := n, [];
    }

    /** The locked part of write(). The drain pushes without the check, so the queue may
        start above the cap; afterwards it holds the newest frames and no more than the cap. */
    method Push(bits: seq<Stamp>)
      requires cap > 0
      modifies this
      ensures deq == Last(old(deq) + [bits], cap)
    {
      ghost var before := deq;
      ghost var gone := 0;
      while |deq| >= cap
        invariant gone <= |before| && deq == before[gone..]
        invariant gone > 0 ==> |deq| >= cap - 1
      {
        deq := deq[1..];
        gone := gone + 1;
      }
      assert before[gone..] + [bits] == (before + [bits])[gone..];
      deq := deq + [bits];
    }
  }

  /** The session's step drops what the loop in write() drops: the frames in front of the last
      ones, and their bytes are what it counts as dropped. */
  lemma PushStepIsLast(s: Sys, g: Cfg)
    requires CfgOk(g) && Possible(s, Push)
    ensures var all := s.a.deq + [Stamps(s.a.next, s.a.frame)];
      var kept := Last(all, g.maxFrames);
      && Next(s, Push, g).a.deq == kept
      && Next(s, Push, g).a.dropped == s.a.dropped + Bytes(Concat(all[..|all| - |kept|]))
  {
    hide CtlStep, CtlReady;
    var k := Excess(|s.a.deq|, g.maxFrames);
    var all := s.a.deq + [Stamps(s.a.next, s.a.frame)];
    assert all[k..] == s.a.deq[k..] + [Stamps(s.a.next, s.a.frame)];
    assert all[..k] == s.a.deq[..k] && |all| - |Last(all, g.maxFrames)| == k;
  }

  /** The drain takes over what was prebuffered but for its oldest chunks, and those only as far
      as there are more whole chunks than the ring holds; they are what it counts as dropped. */
  lemma DrainStepIsSuffix(s: Sys, g: Cfg)
    requires CfgOk(g) && Possible(s, DrainBegin) && Increasing(s.a.pre)
    ensures var t := Next(s, DrainBegin, g).a;
      && |Concat(t.todo)| <= |s.a.pre|
      && var lost := |s.a.pre| - |Concat(t.todo)|;
         && lost == ChunksLost(|s.a.pre|, g.chunkSize, g.numChunks) * g.chunkSize
         && t.pre == [] && Concat(t.todo) == s.a.pre[lost..]
         && t.dropped == s.a.dropped + Bytes(s.a.pre[..lost])
  {
    hide CtlStep, CtlReady, Handed;
    DrainIsSuffix(s.a.pre, g.chunkSize, g.numChunks);
    var kept := Handed(s.a.pre, g.chunkSize, g.numChunks);
    var lost := |s.a.pre| - |Concat(kept)|;
    assert Concat(kept) == s.a.pre[lost..];
    Difference(s.a.pre, lost);
  }

  /** Several frames in a row leave the newest ones. */
  lemma {:induction false} PushesLeaveNewest(d: seq<seq<Stamp>>, fs: seq<seq<Stamp>>, cap: nat)
    requires cap > 0 && |d| <= cap
    ensures Pushed(d, fs, cap) == Last(d + fs, cap)
    decreases |fs|
  {
    if fs == [] {
      assert d + fs == d;
    } else {
      var t := Last(d + [fs[0]], cap);
      PushesLeaveNewest(t, fs[1..], cap);
      LastOfLast(d + [fs[0]], fs[1..], cap);
      assert (d + [fs[0]]) + fs[1..] == d + fs;
    }
  }

  /** The queue after a series of pushes. */
  function Pushed(d: seq<seq<Stamp>>, fs: seq<seq<Stamp>>, cap: nat): seq<seq<Stamp>>
    requires cap > 0
    decreases |fs|
  {
    if fs == [] then d else Pushed(Last(d + [fs[0]], cap), fs[1..], cap)
  }
}
