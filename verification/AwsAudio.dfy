/** The audio of an AWS session. A byte is named by its position among all the bytes
    write() has accepted, so "in write order, without duplicates" is "strictly increasing". */
module AwsAudio {
  import opened Common
  import opened Prebuffer
  import opened AwsModel
  import opened AwsInv

  /** What the stream is given: an audio event, the explicit empty event, Close. */
  datatype Out = Audio(bytes: seq<Stamp>) | Eos | Closed

  datatype Cfg = Cfg(chunkSize: nat, numChunks: nat, maxFrames: nat)

  predicate CfgOk(g: Cfg) {
    g.chunkSize > 0 && g.numChunks > 0 && g.maxFrames > 0
  }

  datatype Aud = Aud(
    next: nat,                  // bytes accepted so far
    frame: nat,                 // length of the frame write() is at
    pre: seq<Stamp>,            // bytes in the prebuffer or its staging, or overwritten there
    todo: seq<seq<Stamp>>,      // what the drain still has to queue
    deq: seq<seq<Stamp>>,       // m_deqAudio
    local: seq<seq<Stamp>>,     // the worker's own queue
    sent: seq<Out>,
    dropped: set<Stamp>,        // drop-oldest victims, in the prebuffer or in m_deqAudio
    early: bool,                // m_connected was already published when m_finishing was set
    late: bool)                 // bytes were still prebuffered or in the drain at the worker's last take

  const SILENT := Aud(0, 0, [], [], [], [], [], {}, false, false)

  datatype Sys = Sys(c: Ctl, a: Aud)

  function Bytes(s: seq<Stamp>): set<Stamp> {
    set x | x in s
  }

  /** How many of the oldest frames make way for one more. */
  function Excess(frames: nat, cap: nat): nat
    requires cap > 0
  {
    if frames < cap then 0 else frames - cap + 1
  }

  // ---------------------------------------------------------------- one step

  /** The worker takes over m_deqAudio; the last time when it shuts the stream down. */
  function Take(c: Ctl, a: Aud): Aud {
    if c.finishing && c.stream then a.(local := a.deq, deq := [], late := a.pre != [] || Concat(a.todo) != [])
    else if c.stream && a.deq != [] then a.(local := a.deq, deq := [])
    else a
  }

  predicate Branches(c: Ctl) {
    c.worker.Deliver? || (c.worker.Loop? && !c.finished && (c.connected || c.connecting) && !c.transcript)
  }

  function WorkAud(c: Ctl, a: Aud): Aud {
    if Branches(c) then Take(c, a)
    else match c.worker
      case SelfFinish => a.(early := if c.finishing then a.early else c.connected)
      case Writing(last) =>
        if a.local != [] then a.(sent := a.sent + [Audio(a.local[0])], local := a.local[1..])
        else if last then a.(sent := a.sent + [Eos, Closed]) else a
      case _ => a
  }

  function Accept(a: Aud): Aud {
    a.(next := a.next + a.frame)
  }

  function AudStep(c: Ctl, a: Aud, step: Step, g: Cfg): Aud
    requires CfgOk(g) && CtlReady(c, step, a.deq != [], a.local != [], a.todo != [])
  {
    match step
    case Work => WorkAud(c, a)
    case Write(n) => a.(frame := n)
    case Stage => if c.connected then a else Accept(a).(pre := a.pre + Stamps(a.next, a.frame))
    case Push =>
      var k := Excess(|a.deq|, g.maxFrames);
      Accept(a).(deq := a.deq[k..] + [Stamps(a.next, a.frame)], dropped := a.dropped + Bytes(Concat(a.deq[..k])))
    case DrainBegin =>
      var kept := Handed(a.pre, g.chunkSize, g.numChunks);
      a.(todo := kept, pre := [], dropped := a.dropped + (Bytes(a.pre) - Bytes(Concat(kept))))
    case DrainNext => a.(deq := a.deq + [a.todo[0]], todo := a.todo[1..])
    case Tear(t) => if c.stops[t].at.Finish? && c.stops[t].at.has && !c.finishing then a.(early := c.connected) else a
    case _ => a
  }

  predicate Possible(s: Sys, step: Step) {
    CtlReady(s.c, step, s.a.deq != [], s.a.local != [], s.a.todo != [])
  }

  function Next(s: Sys, step: Step, g: Cfg): Sys
    requires CfgOk(g) && Possible(s, step)
  {
    Sys(CtlStep(s.c, step, s.a.deq != [], s.a.local != [], s.a.todo != []), AudStep(s.c, s.a, step, g))
  }

  predicate ValidRun(s: Sys, run: seq<Step>, g: Cfg)
    requires CfgOk(g)
    decreases |run|
  {
    run == [] || (Possible(s, run[0]) && ValidRun(Next(s, run[0], g), run[1..], g))
  }

  function Exec(s: Sys, run: seq<Step>, g: Cfg): Sys
    requires CfgOk(g) && ValidRun(s, run, g)
    decreases |run|
  {
    if run == [] then s else Exec(Next(s, run[0], g), run[1..], g)
  }

  // ---------------------------------------------------------------- where every byte is

  function Spoken(sent: seq<Out>): seq<Stamp> {
    if sent == [] then []
    else Spoken(sent[..|sent| - 1]) + match sent[|sent| - 1]
      case Audio(b) => b
      case _ => []
  }

  /** Accepted bytes that have not reached the stream and are not dropped. */
  function Behind(a: Aud): seq<Stamp> {
    Concat(a.deq) + Concat(a.todo) + a.pre
  }

  function Flow(a: Aud): seq<Stamp> {
    Spoken(a.sent) + Concat(a.local) + Behind(a)
  }

  predicate Increasing(s: seq<Stamp>) {
    forall i, j :: 0 <= i < j < |s| ==> s[i] < s[j]
  }

  /** Every accepted byte is in `flow`, once and in order, or dropped, and not both. */
  predicate Accounted(flow: seq<Stamp>, dropped: set<Stamp>, next: nat) {
    && Increasing(flow)
    && (forall k :: k in flow ==> k < next && k !in dropped)
    && (forall k :: 0 <= k < next ==> k in flow || k in dropped)
    && (forall k :: k in dropped ==> k < next)
  }

  lemma AccountMore(flow: seq<Stamp>, dropped: set<Stamp>, next: nat, n: nat)
    requires Accounted(flow, dropped, next)
    ensures Accounted(flow + Stamps(next, n), dropped, next + n)
  {
    var s := flow + Stamps(next, n);
    forall i, j | 0 <= i < j < |s| ensures s[i] < s[j] {
      if i < |flow| {
        assert flow[i] in flow;
      }
    }
    forall k | 0 <= k < next + n ensures k in s || k in dropped {
      if k >= next {
        assert s[|flow| + k - next] == k;
      }
    }
  }

  lemma AccountDrop(x: seq<Stamp>, y: seq<Stamp>, z: seq<Stamp>, dropped: set<Stamp>, next: nat)
    requires Accounted(x + y + z, dropped, next)
    ensures Accounted(x + z, dropped + Bytes(y), next)
  {
    var all := x + y + z;
    forall i, j | 0 <= i < j < |x + z| ensures (x + z)[i] < (x + z)[j] {
      var p, q := if i < |x| then i else i + |y|, if j < |x| then j else j + |y|;
      assert all[p] == (x + z)[i] && all[q] == (x + z)[j];
    }
    forall k | k in x + z ensures k < next && k !in dropped + Bytes(y) {
      assert k in all;
      var i :| 0 <= i < |x + z| && (x + z)[i] == k;
      var p := if i < |x| then i else i + |y|;
      assert all[p] == k;
      forall q | 0 <= q < |y| ensures y[q] != k {
        assert all[|x| + q] == y[q];
      }
    }
    forall k | k in y ensures k < next {
      assert k in all;
    }
  }

  // ---------------------------------------------------------------- each move keeps the account

  lemma ConcatOne<T>(s: seq<T>)
    ensures Concat([s]) == s
  {
    assert [s][1..] == [] && Concat([s]) == s + Concat([s][1..]);
  }

  lemma ConcatSnoc<T>(q: seq<seq<T>>, s: seq<T>)
    ensures Concat(q + [s]) == Concat(q) + s
  {
    ConcatAppend(q, [s]);
    ConcatOne(s);
  }

  lemma ConcatHead<T>(q: seq<seq<T>>)
    requires q != []
    ensures Concat(q) == q[0] + Concat(q[1..])
  {
  }

  lemma SpokenSnoc(sent: seq<Out>, o: Out)
    ensures Spoken(sent + [o]) == Spoken(sent) + match o case Audio(b) => b case _ => []
  {
    assert (sent + [o])[..|sent|] == sent;
  }

  lemma TakeFlow(a: Aud)
    requires a.local == []
    ensures Flow(a.(local := a.deq, deq := [])) == Flow(a)
  {
    var none: seq<seq<Stamp>> := [];
    assert Concat(none) == [];
    var x, d, t := Spoken(a.sent), Concat(a.deq), Concat(a.todo) + a.pre;
    assert x + [] + (d + t) == x + d + ([] + t);
  }

  lemma SendFlow(a: Aud)
    requires a.local != []
    ensures Flow(a.(sent := a.sent + [Audio(a.local[0])], local := a.local[1..])) == Flow(a)
  {
    SpokenSnoc(a.sent, Audio(a.local[0]));
    ConcatHead(a.local);
    var x, h, t := Spoken(a.sent), a.local[0], Concat(a.local[1..]);
    assert (x + h) + t + Behind(a) == x + (h + t) + Behind(a);
  }

  lemma CloseFlow(a: Aud)
    ensures Flow(a.(sent := a.sent + [Eos, Closed])) == Flow(a)
  {
    SpokenSnoc(a.sent, Eos);
    SpokenSnoc(a.sent + [Eos], Closed);
    assert a.sent + [Eos, Closed] == a.sent + [Eos] + [Closed];
  }

  lemma DrainNextFlow(a: Aud)
    requires a.todo != []
    ensures Flow(a.(deq := a.deq + [a.todo[0]], todo := a.todo[1..])) == Flow(a)
  {
    ConcatSnoc(a.deq, a.todo[0]);
    ConcatHead(a.todo);
    var d, h, t := Concat(a.deq), a.todo[0], Concat(a.todo[1..]);
    assert (d + h) + t + a.pre == d + (h + t) + a.pre;
  }

  lemma StageFlow(a: Aud)
    ensures Flow(Accept(a).(pre := a.pre + Stamps(a.next, a.frame))) == Flow(a) + Stamps(a.next, a.frame)
  {
  }

  /** Before the drop: the flow in front of the queue, its oldest frames, the rest. */
  lemma PushFlow(a: Aud, k: nat)
    requires k <= |a.deq| && a.todo == [] && a.pre == []
    ensures var x, y, z := Spoken(a.sent) + Concat(a.local), Concat(a.deq[..k]), Concat(a.deq[k..]);
      Flow(a) == x + y + z
      && Flow(Accept(a).(deq := a.deq[k..] + [Stamps(a.next, a.frame)],
                         dropped := a.dropped + Bytes(Concat(a.deq[..k])))) == (x + z) + Stamps(a.next, a.frame)
  {
    var none: seq<seq<Stamp>> := [];
    assert Concat(none) == [];
    assert a.deq == a.deq[..k] + a.deq[k..];
    ConcatAppend(a.deq[..k], a.deq[k..]);
    ConcatSnoc(a.deq[k..], Stamps(a.next, a.frame));
    var x, y, z, n := Spoken(a.sent) + Concat(a.local), Concat(a.deq[..k]), Concat(a.deq[k..]), Stamps(a.next, a.frame);
    assert x + (y + z) == x + y + z && x + (z + n) == (x + z) + n;
  }

  /** The drain keeps a suffix of the prebuffered bytes. */
  lemma DrainFlow(a: Aud, g: Cfg)
    requires CfgOk(g) && a.todo == []
    ensures var kept := Handed(a.pre, g.chunkSize, g.numChunks);
      var lost := |a.pre| - |Concat(kept)|;
      && 0 <= lost && Concat(kept) == a.pre[lost..]
      && Flow(a) == (Spoken(a.sent) + Concat(a.local) + Concat(a.deq)) + a.pre[..lost] + a.pre[lost..]
      && Flow(a.(todo := kept, pre := [])) == (Spoken(a.sent) + Concat(a.local) + Concat(a.deq)) + a.pre[lost..]
  {
    hide Handed;
    var none: seq<seq<Stamp>> := [];
    assert Concat(none) == [];
    DrainIsSuffix(a.pre, g.chunkSize, g.numChunks);
    var kept := Handed(a.pre, g.chunkSize, g.numChunks);
    var lost := |a.pre| - |Concat(kept)|;
    assert a.pre == a.pre[..lost] + a.pre[lost..];
  }

  lemma Difference(pre: seq<Stamp>, lost: nat)
    requires lost <= |pre| && Increasing(pre)
    ensures Bytes(pre) - Bytes(pre[lost..]) == Bytes(pre[..lost])
  {
    assert pre == pre[..lost] + pre[lost..];
    forall k | k in pre[..lost] ensures k in pre && k !in pre[lost..] {
    }
  }
}
