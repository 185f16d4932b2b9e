/** What the callers asked for, counted from the run itself, is what the pipe holds: no call
    is swallowed, and nothing is made up. */
module PipeLedger {
  import opened Common
  import opened PipeModel
  import opened PipeInv
  import opened PipeClient
  import opened PipeCallbacks
  import opened PipeService
  import opened PipeEvents
  import opened PipeProgress
  import opened PipeSafety
  import opened PipeText

  datatype Ledger = Ledger(
    offered: string,            // every text passed to bufferForSending on a connected pipe
    messages: nat,              // messages delivered by lws
    audio: bool,                // fork_frame left audio that no writable callback has taken
    early: bool,                // do_graceful_shutdown() read a state other than CONNECTED
    handed: bool,               // close() by a reaper, or the pipe was discarded
    issued: bool)               // connect()

  const BLANK := Ledger("", 0, false, false, false, false)

  function MessageCount(trace: seq<Event>): nat {
    if trace == [] then 0
    else MessageCount(trace[..|trace| - 1]) + if trace[|trace| - 1].Message? then 1 else 0
  }

  function Holds(q: Pipe): Ledger {
    Ledger(q.out.offered, MessageCount(q.trace), q.out.audio, q.graceful || q.client.GracefulStore?,
           HandedOff(q.client), q.issued)
  }

  /** What a call asks of the pipe it is made on. */
  function Asks(q: Pipe, step: Step, l: Ledger): Ledger {
    match step
    case QueueText(_, t) => l.(offered := l.offered + t)
    case QueueAudio(_) => l.(audio := true)
    case NoAudio(_) => l.(audio := false)
    case Graceful(_) => if q.state.CONNECTED? then l else l.(early := true)
    case HandOff(_) => l.(handed := true)
    case DiscardUnattached(_) => l.(handed := true)
    case Connect(_) => l.(issued := true)
    case ConnectNoContext(_) => l.(issued := true)
    case _ => l
  }

  /** What a step asks of `p`. */
  function Entry(s: Sys, step: Step, p: PipeId, l: Ledger): Ledger
    requires p in s.pipes
  {
    match step
    case OnReceive(w) => if w in s.socks && s.socks[w].owner == p then l.(messages := l.messages + 1) else l
    case Service(c) =>
      if s.svc.EstCb? && s.svc.p == p && s.svc.est.MetadataText?
      then l.(offered := l.offered + if c.meta.Some? then c.meta.value else "")
      else if s.svc.WritableCb? && s.svc.p == p && s.svc.wr.SendAudio? then l.(audio := false) else l
    case _ => if IsOwnerStep(step) && step.p == p then Asks(s.pipes[p], step, l) else l
  }

  function Tally(s: Sys, run: seq<Step>, p: PipeId, l: Ledger): Ledger
    requires ValidRun(s, run)
    decreases |run|
  {
    if run == [] then l
    else Tally(Apply(s, run[0]), run[1..], p, if p in s.pipes then Entry(s, run[0], p, l) else l)
  }

  lemma CountSnoc(trace: seq<Event>, e: Event)
    ensures MessageCount(trace + [e]) == MessageCount(trace) + if e.Message? then 1 else 0
  {
    assert (trace + [e])[..|trace|] == trace;
  }

  // ---------------------------------------------------------------- one step

  predicate Enters(s: Sys, step: Step, p: PipeId) {
    && Enabled(s, step) && p in s.pipes && p in Apply(s, step).pipes
    && Holds(Apply(s, step).pipes[p]) == Entry(s, step, p, Holds(s.pipes[p]))
  }

  lemma ContinuedHolds(q: Pipe)
    requires OwnerAt(q, Continue(0))
    ensures Holds(Continued(q).pipe) == Holds(q)
  {
    ContinuedIssued(q);
    if HandedOff(q.client) {
      ContinuedHands(q);
      ContinuedAlive(q);
    } else {
      GracefulHolds(q);
    }
    hide Continued, MessageCount;
  }

  lemma ContinuedIssued(q: Pipe)
    ensures Continued(q).pipe.issued == q.issued && Carries(q, Continued(q).pipe)
  {
  }

  lemma ContinuedAlive(q: Pipe)
    requires HandedOff(q.client)
    ensures !Continued(q).pipe.client.GracefulStore?
  {
    ContinuedHands(q);
  }

  lemma GracefulHolds(q: Pipe)
    requires q.client.GracefulStore? || q.client.GracefulRecheck?
    ensures var r := Continued(q).pipe; (r.graceful || r.client.GracefulStore?) == (q.graceful || q.client.GracefulStore?)
    ensures !HandedOff(Continued(q).pipe.client)
  {
  }

  lemma SenderHolds(q: Pipe, step: Step)
    requires IsOwnerStep(step) && OwnerAt(q, step) && (step.QueueText? || step.QueueAudio? || step.NoAudio? || step.Gate?)
    ensures Holds(OwnerNext(q, step).pipe) == Asks(q, step, Holds(q))
  {
    hide MessageCount, Continued;
  }

  lemma CloserHolds(q: Pipe, step: Step)
    requires IsOwnerStep(step) && OwnerAt(q, step) && (step.Graceful? || step.HandOff? || step.DiscardUnattached? || step.Connect?)
    ensures Holds(OwnerNext(q, step).pipe) == Asks(q, step, Holds(q))
  {
    hide MessageCount, Continued;
  }

  lemma FailHolds(q: Pipe, step: Step)
    requires step.ConnectNoContext? && OwnerAt(q, step)
    ensures Holds(OwnerNext(q, step).pipe) == Asks(q, step, Holds(q))
  {
    CountSnoc(q.trace, ConnectFail);
    hide MessageCount, Continued;
  }

  lemma OwnerHolds(q: Pipe, step: Step)
    requires IsOwnerStep(step) && OwnerAt(q, step)
    ensures Holds(OwnerNext(q, step).pipe) == Asks(q, step, Holds(q))
  {
    hide Holds, Continued;
    if step.Continue? {
      ContinuedHolds(q);
    } else {
      hide OwnerNext, Asks;
      if step.ConnectNoContext? {
        FailHolds(q, step);
      } else if step.Graceful? || step.HandOff? || step.DiscardUnattached? || step.Connect? {
        CloserHolds(q, step);
      } else {
        SenderHolds(q, step);
      }
    }
  }

  lemma OwnerEnters(s: Sys, step: Step, p: PipeId)
    requires Enabled(s, step) && IsOwnerStep(step) && p in s.pipes
    ensures Enters(s, step, p)
  {
    OwnerApplies(s, step);
    OwnerHolds(s.pipes[step.p], step);
    hide OwnerNext, Holds, Asks, Act, Unlocked, OwnerAt;
  }

  lemma EstHolds(q: Pipe, at: EstAt, c: Choice)
    ensures var l := Holds(q);
      Holds(EstNext(q, at, c).upd.pipe) ==
      if at.MetadataText? then l.(offered := l.offered + if c.meta.Some? then c.meta.value else "") else l
  {
    CountSnoc(q.trace, ConnectSuccess);
    hide MessageCount;
  }

  lemma ClosedHolds(q: Pipe, at: CloAt)
    ensures Holds(ClosedNext(q, at).upd.pipe) == Holds(q)
  {
    CountSnoc(q.trace, ClosedGracefully);
    CountSnoc(q.trace, Dropped);
    hide MessageCount;
  }

  lemma TextHolds(q: Pipe, c: Choice)
    ensures Holds(WritableNext(q, SendText, c).upd.pipe) == Holds(q)
  {
    hide MessageCount;
  }

  lemma AudioHolds(q: Pipe, c: Choice)
    ensures Holds(WritableNext(q, SendAudio, c).upd.pipe) == Holds(q).(audio := false)
  {
    hide MessageCount;
  }

  lemma OtherHolds(q: Pipe, at: WriteAt, c: Choice)
    requires at.ReadGracefulFlag? || at.ReadState?
    ensures Holds(WritableNext(q, at, c).upd.pipe) == Holds(q)
  {
    hide MessageCount;
  }

  lemma WritableHolds(q: Pipe, at: WriteAt, c: Choice)
    ensures var l := Holds(q);
      Holds(WritableNext(q, at, c).upd.pipe) == if at.SendAudio? then l.(audio := false) else l
  {
    hide Holds, WritableNext;
    match at {
      case SendText => TextHolds(q, c);
      case SendAudio => AudioHolds(q, c);
      case _ => OtherHolds(q, at, c);
    }
  }

  lemma EstEnters(s: Sys, c: Choice, p: PipeId)
    requires ServiceEnabled(s, c) && s.svc.EstCb? && p in s.pipes
    ensures Enters(s, Service(c), p)
  {
    hide Holds, OnSock;
    EstHolds(s.pipes[s.svc.p], s.svc.est, c);
    hide EstNext, OnList;
  }

  lemma ClosedEnters(s: Sys, c: Choice, p: PipeId)
    requires ServiceEnabled(s, c) && s.svc.ClosedCb? && p in s.pipes
    ensures Enters(s, Service(c), p)
  {
    hide Holds, OnSock;
    ClosedHolds(s.pipes[s.svc.p], s.svc.clo);
    hide ClosedNext, OnList;
  }

  lemma WritableEnters(s: Sys, c: Choice, p: PipeId)
    requires ServiceEnabled(s, c) && s.svc.WritableCb? && p in s.pipes
    ensures Enters(s, Service(c), p)
  {
    hide Holds, OnSock;
    WritableHolds(s.pipes[s.svc.p], s.svc.wr, c);
    hide WritableNext, OnList;
  }

  lemma CallbackEnters(s: Sys, c: Choice, p: PipeId)
    requires ServiceEnabled(s, c) && InCallback(s.svc) && p in s.pipes
    ensures Enters(s, Service(c), p)
  {
    hide Enters, ServiceEnabled;
    match s.svc {
      case EstCb(_, _, _) => EstEnters(s, c, p);
      case ClosedCb(_, _, _) => ClosedEnters(s, c, p);
      case WritableCb(_, _, _) => WritableEnters(s, c, p);
      case _ =>
    }
  }

  lemma ConnScanHolds(s: Sys, c: Choice, p: PipeId)
    requires ServiceEnabled(s, c) && s.svc.ConnScan? && p in s.pipes
    ensures p in ServiceStep(s, c).pipes && Holds(ServiceStep(s, c).pipes[p]) == Holds(s.pipes[p])
  {
    hide MessageCount;
  }

  lemma AdoptedHolds(q: Pipe, conn: Option<Wsi>)
    ensures var r := q.(state := CONNECTING, vhd := true, wsi := conn); Holds(r) == Holds(q) && Holds(Fail(r)) == Holds(q)
  {
    CountSnoc(q.trace, ConnectFail);
    hide MessageCount;
  }

  lemma ConnLoopHolds(s: Sys, c: Choice, p: PipeId)
    requires ServiceEnabled(s, c) && s.svc.ConnLoop? && p in s.pipes
    ensures p in ServiceStep(s, c).pipes && Holds(ServiceStep(s, c).pipes[p]) == Holds(s.pipes[p])
  {
    AdoptedHolds(s.pipes[p], c.conn);
    hide Holds, Fail;
  }

  lemma PassEnters(s: Sys, c: Choice, p: PipeId)
    requires ServiceEnabled(s, c) && !InCallback(s.svc) && p in s.pipes
    ensures Enters(s, Service(c), p)
  {
    hide ServiceStep, Holds;
    if s.svc.ConnScan? {
      ConnScanHolds(s, c, p);
    } else if s.svc.ConnLoop? {
      ConnLoopHolds(s, c, p);
    } else if !s.svc.SvcIdle? {
      ListForward(s, c, p);
    }
  }

  lemma FailedHolds(q: Pipe)
    ensures Holds(Fail(q)) == Holds(q)
  {
    CountSnoc(q.trace, ConnectFail);
    hide MessageCount;
  }

  lemma RaisedHolds(q: Pipe)
    ensures Holds(q.(vhd := true, state := CONNECTED)) == Holds(q)
  {
  }

  lemma ToldHolds(q: Pipe)
    ensures Holds(Told(q)) == Holds(q).(messages := Holds(q).messages + 1)
  {
    CountSnoc(q.trace, Message);
    hide MessageCount;
  }

  lemma HandshakePipes(s: Sys, step: Step)
    requires Enabled(s, step) && (step.OnError? || step.OnEstablished?) && s.socks[step.w].owner in s.pipes
    requires var i := FindAt(s.connects, s.pipes, step.w); i < |s.connects| && s.connects[i] == s.socks[step.w].owner
    ensures var p := s.socks[step.w].owner; var q := s.pipes[p];
      Apply(s, step).pipes == s.pipes[p := if step.OnError? then Fail(q) else q.(vhd := true, state := CONNECTED)]
  {
    hide AfterFind;
  }

  lemma HandshakeEnters(s: Sys, step: Step, p: PipeId)
    requires Inv(s) && Enabled(s, step) && (step.OnError? || step.OnEstablished?) && p in s.pipes
    ensures Enters(s, step, p)
  {
    hide LocalInv, MessageCount, Holds;
    LookupFinds(s, step.w);
    HandshakePipes(s, step);
    FailedHolds(s.pipes[s.socks[step.w].owner]);
    RaisedHolds(s.pipes[s.socks[step.w].owner]);
    hide Apply, Enabled, FindAt;
  }

  lemma ReceiveEnters(s: Sys, w: Wsi, p: PipeId)
    requires Inv(s) && Enabled(s, OnReceive(w)) && p in s.pipes
    ensures Enters(s, OnReceive(w), p)
  {
    hide LocalInv, Holds, Apply;
    ReceiveLeaves(s, w, p);
    ToldHolds(s.pipes[s.socks[w].owner]);
  }

  lemma EventEnters(s: Sys, step: Step, p: PipeId)
    requires Enabled(s, step) && PipeProgress.Delivered(step) && !step.OnReceive? && p in s.pipes
    ensures Enters(s, step, p)
  {
    hide Holds;
  }

  lemma StepEnters(s: Sys, step: Step, p: PipeId)
    requires Inv(s) && Enabled(s, step) && p in s.pipes
    ensures Enters(s, step, p)
  {
    hide Inv, Enters;
    if IsOwnerStep(step) {
      OwnerEnters(s, step, p);
    } else if step.Service? {
      if InCallback(s.svc) { CallbackEnters(s, step.c, p); } else { PassEnters(s, step.c, p); }
    } else if step.OnError? || step.OnEstablished? {
      HandshakeEnters(s, step, p);
    } else if step.OnReceive? {
      ReceiveEnters(s, step.w, p);
    } else {
      EventEnters(s, step, p);
    }
  }

  lemma CreateEnters(s: Sys, step: Step, p: PipeId)
    requires Inv(s) && Enabled(s, step) && p !in s.pipes && p in Apply(s, step).pipes
    ensures Holds(Apply(s, step).pipes[p]) == BLANK
  {
    OnlyCreateAdds(s, step, p);
  }

  lemma {:induction false} RunEnters(s: Sys, run: seq<Step>, p: PipeId)
    requires Inv(s) && ValidRun(s, run) && p in Exec(s, run).pipes
    ensures Holds(Exec(s, run).pipes[p]) == Tally(s, run, p, if p in s.pipes then Holds(s.pipes[p]) else BLANK)
    decreases |run|
  {
    hide Inv, Holds, Entry;
    if run != [] {
      var s' := Apply(s, run[0]);
      StepKeeps(s, run[0]);
      RunEnters(s', run[1..], p);
      if p in s.pipes {
        StepEnters(s, run[0], p);
      } else if p in s'.pipes {
        CreateEnters(s, run[0], p);
      }
    }
  }

  /** In every run a pipe has accepted exactly the texts its callers queued and the metadata its
      connect handler sent, in order; has notified exactly the messages lws delivered; holds
      audio exactly if fork_frame left some since the last audio write; carries the graceful
      flag exactly if do_graceful_shutdown was called while it was not connected, once that
      call has got past its store; and is with a reaper, or discarded, and connecting,
      exactly if it was asked to be. */
  lemma LedgerExact(run: seq<Step>, p: PipeId)
    requires ValidRun(EMPTY, run) && p in Exec(EMPTY, run).pipes
    ensures var q, l := Exec(EMPTY, run).pipes[p], Tally(EMPTY, run, p, BLANK);
      && q.out.offered == l.offered && MessageCount(q.trace) == l.messages && q.out.audio == l.audio
      && (q.graceful || q.client.GracefulStore? <==> l.early)
      && (HandedOff(q.client) <==> l.handed) && (q.issued <==> l.issued)
  {
    EmptyInv();
    RunEnters(EMPTY, run, p);
  }

  lemma TwoSteps(s: Sys, a: Step, b: Step)
    requires Enabled(s, a) && Enabled(Apply(s, a), b)
    ensures ValidRun(s, [a, b]) && Exec(s, [a, b]) == Apply(Apply(s, a), b)
  {
    hide Apply, Enabled;
    var s1 := Apply(s, a);
    var s2 := Apply(s1, b);
    assert [a, b][1..] == [b] && [b][1..] == [];
    assert ValidRun(s2, []) && Exec(s2, []) == s2;
    assert ValidRun(s1, [b]) && Exec(s1, [b]) == s2;
  }

  /** bufferForSending on a connected pipe accepts the text. */
  lemma SendsWhenConnected(s: Sys, p: PipeId, t: string)
    requires p in s.pipes && s.pipes[p].client.Ready? && s.pipes[p].state.CONNECTED? && !s.svc.WriteScan?
    ensures ValidRun(s, [Gate(p), QueueText(p, t)])
    ensures var s' := Exec(s, [Gate(p), QueueText(p, t)]);
      p in s'.pipes && s'.pipes[p].out.offered == s.pipes[p].out.offered + t
  {
    GateThenQueue(s, p, t);
    hide Apply, Enabled;
    TwoSteps(s, Gate(p), QueueText(p, t));
  }

  lemma GateThenQueue(s: Sys, p: PipeId, t: string)
    requires p in s.pipes && s.pipes[p].client.Ready? && s.pipes[p].state.CONNECTED? && !s.svc.WriteScan?
    ensures Enabled(s, Gate(p)) && Enabled(Apply(s, Gate(p)), QueueText(p, t))
    ensures var s' := Apply(Apply(s, Gate(p)), QueueText(p, t));
      p in s'.pipes && s'.pipes[p].out.offered == s.pipes[p].out.offered + t
  {
  }

  /** So does the connect handler, when ESTABLISHED calls it on a connected pipe. */
  lemma MetadataAccepted(s: Sys, c: Choice)
    requires s.svc.EstCb? && s.svc.est.Metadata? && Owns(s, s.svc.p, s.svc.w)
    requires s.pipes[s.svc.p].state.CONNECTED? && c.meta.Some?
    ensures ValidRun(s, [Service(c), Service(c)])
    ensures var s', p := Exec(s, [Service(c), Service(c)]), s.svc.p;
      p in s'.pipes && s'.pipes[p].out.offered == s.pipes[p].out.offered + c.meta.value
  {
    MetadataStep(s, c);
    MetadataTextStep(Apply(s, Service(c)), c);
    hide Apply, Enabled;
    TwoSteps(s, Service(c), Service(c));
  }

  lemma MetadataStep(s: Sys, c: Choice)
    requires s.svc.EstCb? && s.svc.est.Metadata? && Owns(s, s.svc.p, s.svc.w)
    requires s.pipes[s.svc.p].state.CONNECTED? && c.meta.Some?
    ensures Enabled(s, Service(c))
    ensures var s' := Apply(s, Service(c));
      s'.svc == EstCb(s.svc.p, s.svc.w, MetadataText) && Owns(s', s.svc.p, s.svc.w) && s'.pipes[s.svc.p] == s.pipes[s.svc.p]
  {
  }

  lemma MetadataTextStep(s: Sys, c: Choice)
    requires s.svc.EstCb? && s.svc.est.MetadataText? && Owns(s, s.svc.p, s.svc.w) && c.meta.Some?
    ensures Enabled(s, Service(c))
    ensures var s' := Apply(s, Service(c));
      s.svc.p in s'.pipes && s'.pipes[s.svc.p].out.offered == s.pipes[s.svc.p].out.offered + c.meta.value
  {
    MetadataTextAppends(s.pipes[s.svc.p], c);
    hide EstNext;
  }

  lemma MetadataTextAppends(q: Pipe, c: Choice)
    requires c.meta.Some?
    ensures EstNext(q, MetadataText, c).upd.pipe.out.offered == q.out.offered + c.meta.value
  {
  }
}
