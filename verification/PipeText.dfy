/** Text frames: what has been handed to lws_write is always a prefix of what was offered,
    and until the connection ends nothing is missing but what is still queued. */
module PipeText {
  import opened Common
  import opened PipeModel
  import opened PipeInv
  import opened PipeClient
  import opened PipeCallbacks
  import opened PipeService
  import opened PipeEvents
  import opened PipeProgress
  import opened PipeSafety
  import opened PipeReaper
  import opened PipeGraceful

  predicate NoText(q: Pipe) {
    q.out == NOTHING_OUT
  }

  predicate TextOk(q: Pipe, l: Link) {
    && q.out.sent <= q.out.offered
    && (l.Linked? && !l.phase.Ending? ==> q.out.offered == q.out.sent + q.out.text)
    && (!WasConnected(q.state) ==> NoText(q))
    && (q.out.flushed ==> q.graceful)
  }

  predicate TextIn(s: Sys, p: PipeId) {
    p in s.pipes && TextOk(s.pipes[p], LinkOf(s, p))
  }

  predicate SameText(a: Pipe, b: Pipe) {
    b.out.offered == a.out.offered && b.out.sent == a.out.sent && b.out.text == a.out.text
  }

  lemma AppendText(q: Pipe, t: string, l: Link)
    requires TextOk(q, l) && WasConnected(q.state)
    ensures TextOk(Append(q, t), l)
  {
    assert q.out.sent + (q.out.text + t) == (q.out.sent + q.out.text) + t;
  }

  lemma ContinuedText(q: Pipe)
    ensures Continued(q).pipe.out == q.out && (q.graceful ==> Continued(q).pipe.graceful)
  {
    hide GracefulNext, CloseNext, DisconnectNext, ReapNext;
  }

  lemma GatedConnected(v: View)
    requires LocalInv(v) && v.pipe.client.Gated?
    ensures WasConnected(v.pipe.state)
  {
  }

  lemma OwnerText(q: Pipe, step: Step, l: Link)
    requires IsOwnerStep(step) && OwnerAt(q, step) && TextOk(q, l) && (q.client.Gated? ==> WasConnected(q.state))
    requires q.client.New? ==> q.state.IDLE?
    ensures TextOk(OwnerNext(q, step).pipe, l)
  {
    OwnerForward(q, step);
    if step.Continue? {
      ContinuedText(q);
    } else if step.QueueText? {
      AppendText(q, step.t, l);
    }
  }

  lemma OwnerStepText(s: Sys, step: Step, p: PipeId)
    requires Inv(s) && Enabled(s, step) && IsOwnerStep(step) && TextIn(s, p)
    ensures TextIn(Apply(s, step), p)
  {
    hide LocalInv, OwnerNext, OwnerAt, TextOk;
    var q := s.pipes[step.p];
    ActView(s, step.p, OwnerNext(q, step), p);
    if step.p == p {
      if q.client.New? { NewStaysIdle(s, p); }
      if q.client.Gated? { GatedConnected(ViewOf(s, p)); }
      OwnerText(q, step, LinkOf(s, p));
    }
  }

  // ---------------------------------------------------------------- the service thread

  lemma EstText(v: View, c: Choice)
    requires LocalInv(v) && v.role.Est? && TextOk(v.pipe, v.link)
    ensures var v' := EstView(v, EstNext(v.pipe, v.role.est, c)); TextOk(v'.pipe, v'.link)
  {
    hide LocalInv, Classify;
    EstWasConnected(v);
    if v.role.est.MetadataText? {
      AppendText(v.pipe, if c.meta.Some? then c.meta.value else "", v.link);
    } else {
      EstKeepsText(v.pipe, v.role.est, c);
      hide EstNext;
    }
  }

  lemma EstKeepsText(q: Pipe, at: EstAt, c: Choice)
    requires !at.MetadataText?
    ensures var r := EstNext(q, at, c).upd.pipe; r.out == q.out && r.graceful == q.graceful && (WasConnected(q.state) ==> WasConnected(r.state))
    ensures EstNext(q, at, c).sock.Leave?
  {
  }

  lemma EstWasConnected(v: View)
    requires LocalInv(v) && v.role.Est?
    ensures WasConnected(v.pipe.state)
  {
  }

  lemma ClosedKeepsText(q: Pipe, at: CloAt)
    ensures var r := ClosedNext(q, at).upd.pipe; r.out == q.out && r.graceful == q.graceful && (WasConnected(q.state) ==> WasConnected(r.state))
    ensures !ClosedNext(q, at).sock.End?
  {
  }

  lemma ClosingWasConnected(v: View)
    requires LocalInv(v) && v.role.Clo?
    ensures WasConnected(v.pipe.state)
  {
  }

  lemma CloText(v: View)
    requires LocalInv(v) && v.role.Clo? && TextOk(v.pipe, v.link)
    ensures var v' := CloView(v, ClosedNext(v.pipe, v.role.clo)); TextOk(v'.pipe, v'.link)
  {
    hide LocalInv, ClosedNext, Classify;
    ClosedKeepsText(v.pipe, v.role.clo);
    ClosingWasConnected(v);
  }

  lemma WritingIsOpen(v: View)
    requires LocalInv(v) && v.role.Wr?
    ensures WasConnected(v.pipe.state) && v.link.Linked? && v.link.phase.Open?
  {
  }

  lemma SendingText(q: Pipe, l: Link, c: Choice)
    requires TextOk(q, l) && WasConnected(q.state) && l.Linked? && l.phase.Open?
    ensures var n := WritableNext(q, SendText, c); TextOk(n.upd.pipe, LinkAfter(l, n.sock))
  {
    assert (q.out.sent + q.out.text) + "" == q.out.sent + q.out.text;
  }

  lemma WritableKeepsText(q: Pipe, at: WriteAt, c: Choice)
    requires !at.SendText?
    ensures var r := WritableNext(q, at, c).upd.pipe; SameText(q, r) && r.state == q.state && r.graceful == q.graceful
    ensures WritableNext(q, at, c).upd.pipe.out.flushed ==> q.out.flushed || q.graceful
    ensures !WritableNext(q, at, c).sock.Remove?
  {
  }

  lemma WrText(v: View, c: Choice)
    requires LocalInv(v) && v.role.Wr? && TextOk(v.pipe, v.link)
    ensures var v' := WrView(v, WritableNext(v.pipe, v.role.wr, c)); TextOk(v'.pipe, v'.link)
  {
    WritingIsOpen(v);
    if v.role.wr.SendText? {
      SendingText(v.pipe, v.link, c);
      hide LocalInv, Classify, TextOk, WritableNext, LinkAfter;
    } else {
      WritableKeepsText(v.pipe, v.role.wr, c);
      hide LocalInv, Classify, WritableNext;
    }
  }

  lemma CallbackText(s: Sys, c: Choice, p: PipeId)
    requires Inv(s) && ServiceEnabled(s, c) && InCallback(s.svc) && TextIn(s, p)
    ensures TextIn(ServiceStep(s, c), p)
  {
    if s.svc.p != p {
      CallbackLeaves(s, c, p);
    } else {
      CallbackOwn(s, c);
      match s.svc {
        case EstCb(_, _, _) => EstText(ViewOf(s, p), c);
        case ClosedCb(_, _, _) => CloText(ViewOf(s, p));
        case WritableCb(_, _, _) => WrText(ViewOf(s, p), c);
        case _ =>
      }
    }
  }

  lemma TodoUnconnected(v: View)
    requires LocalInv(v) && v.role.Todo?
    ensures !WasConnected(v.pipe.state)
  {
  }

  /** Before it is connected a pipe has no text, and no list pass gives it any. */
  lemma UnconnectedPass(s: Sys, c: Choice, p: PipeId)
    requires ServiceEnabled(s, c) && !InCallback(s.svc) && p in s.pipes && NoText(s.pipes[p])
    ensures p in ServiceStep(s, c).pipes && NoText(ServiceStep(s, c).pipes[p])
  {
    if s.svc.ConnScan? {
      UnconnectedConnScan(s, c, p);
    } else if s.svc.ConnLoop? {
      UnconnectedConnLoop(s, c, p);
    }
    hide ConnScanStep, ConnLoopStep, NoText;
  }

  lemma UnconnectedConnScan(s: Sys, c: Choice, p: PipeId)
    requires s.svc.ConnScan? && ServiceEnabled(s, c) && p in s.pipes && NoText(s.pipes[p])
    ensures var t := ConnScanStep(s, s.svc.pos, s.svc.todo); p in t.pipes && NoText(t.pipes[p])
  {
  }

  lemma UnconnectedConnLoop(s: Sys, c: Choice, p: PipeId)
    requires ServiceEnabled(s, c) && s.svc.ConnLoop? && p in s.pipes && NoText(s.pipes[p])
    ensures var t := ConnLoopStep(s, s.svc.todo, c); p in t.pipes && NoText(t.pipes[p])
  {
  }

  lemma ListlessOutside(s: Sys, p: PipeId)
    requires !InCallback(s.svc) && !RoleOf(s.svc, p).Todo?
    ensures Listless(RoleOf(s.svc, p))
  {
  }

  lemma PassText(s: Sys, c: Choice, p: PipeId)
    requires Inv(s) && ServiceEnabled(s, c) && !InCallback(s.svc) && !s.svc.SvcIdle? && TextIn(s, p)
    ensures TextIn(ServiceStep(s, c), p)
  {
    if WasConnected(s.pipes[p].state) {
      if RoleOf(s.svc, p).Todo? { TodoUnconnected(ViewOf(s, p)); }
      ListlessOutside(s, p);
      PassLeaves(s, c, p);
    } else {
      UnconnectedPass(s, c, p);
    }
  }

  // ---------------------------------------------------------------- events

  lemma ErrorText(s: Sys, w: Wsi, p: PipeId)
    requires Inv(s) && s.svc.SvcIdle? && w in s.socks && s.socks[w].phase.Shaking? && TextIn(s, p)
    ensures TextIn(ErrorStep(s, w), p)
  {
    LookupFinds(s, w);
    hide Inv, TextIn, FindAt, ErrorStep;
    var q := s.socks[w].owner;
    if p == q { ErrorOwnText(s, w, p); } else { ErrorOtherText(s, w, q, p); }
  }

  lemma ErrorOwnText(s: Sys, w: Wsi, p: PipeId)
    requires Handshaking(s, w, p) && s.pipes[p].state.CONNECTING? && TextIn(s, p)
    ensures TextIn(ErrorStep(s, w), p)
  {
    ErrorView(s, w, p);
    hide ErrorStep, FindAt, Classify;
  }

  lemma ErrorOtherText(s: Sys, w: Wsi, q: PipeId, p: PipeId)
    requires Handshaking(s, w, q) && TextIn(s, p) && p != q
    ensures TextIn(ErrorStep(s, w), p)
  {
    ErrorOther(s, w, q, p);
    hide ErrorStep, FindAt, Classify;
  }

  lemma NotYetWritable(v: View)
    requires LocalInv(v) && v.role.NoRole? && v.pipe.state.CONNECTING?
    ensures v.link == Linked(Shaking, false, false)
  {
  }

  lemma EstablishedText(s: Sys, w: Wsi, p: PipeId)
    requires Inv(s) && s.svc.SvcIdle? && w in s.socks && s.socks[w].phase.Shaking? && TextIn(s, p)
    ensures TextIn(EstablishedStep(s, w), p)
  {
    LookupFinds(s, w);
    var q := s.socks[w].owner;
    if p == q {
      NotYetWritable(ViewOf(s, p));
      EstablishedView(s, w, p);
    } else {
      EstablishedOther(s, w, q, p);
    }
  }

  function Told(q: Pipe): Pipe {
    q.(trace := q.trace + [Message])
  }

  lemma ReceiveIsPut(s: Sys, w: Wsi)
    requires Enabled(s, OnReceive(w)) && s.socks[w].attached == Some(s.socks[w].owner)
    ensures var p := s.socks[w].owner; p in s.pipes && Apply(s, OnReceive(w)) == Put(s, p, Told(s.pipes[p]))
  {
  }

  /** A message changes its pipe's trace and nothing else. */
  lemma ReceiveLeaves(s: Sys, w: Wsi, p: PipeId)
    requires Inv(s) && Enabled(s, OnReceive(w)) && p in s.pipes
    ensures s.socks[w].attached == Some(s.socks[w].owner) && s.socks[w].owner in s.pipes
    ensures var s' := Apply(s, OnReceive(w));
      && s' == Put(s, s.socks[w].owner, Told(s.pipes[s.socks[w].owner]))
      && s'.pipes[p] == if p == s.socks[w].owner then Told(s.pipes[p]) else s.pipes[p]
  {
    hide LocalInv, Running;
    AttachedToOwner(s, w);
    ReceiveIsPut(s, w);
    hide Inv, Apply;
  }

  lemma PutLinks(s: Sys, q: PipeId, pipe: Pipe, p: PipeId)
    requires q in s.pipes && p in s.pipes && pipe.wsi == s.pipes[q].wsi
    ensures LinkOf(Put(s, q, pipe), p) == LinkOf(s, p)
  {
  }

  lemma ReceiveText(s: Sys, w: Wsi, p: PipeId)
    requires Inv(s) && Enabled(s, OnReceive(w)) && TextIn(s, p)
    ensures TextIn(Apply(s, OnReceive(w)), p)
  {
    hide LocalInv, Apply, LinkOf;
    ReceiveLeaves(s, w, p);
    PutLinks(s, s.socks[w].owner, Told(s.pipes[s.socks[w].owner]), p);
  }

  lemma WritableText(s: Sys, w: Wsi, p: PipeId)
    requires Inv(s) && Enabled(s, OnWritable(w)) && TextIn(s, p)
    ensures TextIn(Apply(s, OnWritable(w)), p)
  {
    AttachedToOwner(s, w);
    WritableView(s, w, p);
  }

  lemma ClosedText(s: Sys, w: Wsi, p: PipeId)
    requires Inv(s) && Enabled(s, OnClosed(w)) && TextIn(s, p)
    ensures TextIn(Apply(s, OnClosed(w)), p)
  {
    AttachedToOwner(s, w);
  }

  lemma WakeText(s: Sys, step: Step, p: PipeId)
    requires Enabled(s, step) && (step.Create? || step.StrayWake? || step.WakeUp?) && TextIn(s, p)
    ensures TextIn(Apply(s, step), p)
  {
  }

  lemma StepText(s: Sys, step: Step, p: PipeId)
    requires Inv(s) && Enabled(s, step) && TextIn(s, p)
    ensures TextIn(Apply(s, step), p)
  {
    if IsOwnerStep(step) {
      OwnerStepText(s, step, p);
    } else if step.Service? {
      if InCallback(s.svc) { CallbackText(s, step.c, p); } else { PassText(s, step.c, p); }
    } else if step.OnError? {
      ErrorText(s, step.w, p);
    } else if step.OnEstablished? {
      EstablishedText(s, step.w, p);
    } else if step.OnReceive? {
      ReceiveText(s, step.w, p);
    } else if step.OnWritable? {
      WritableText(s, step.w, p);
    } else if step.OnClosed? {
      ClosedText(s, step.w, p);
    } else {
      WakeText(s, step, p);
    }
  }

  lemma ServiceAdds(s: Sys, c: Choice)
    requires Inv(s) && ServiceEnabled(s, c)
    ensures ServiceStep(s, c).pipes.Keys == s.pipes.Keys
  {
    hide LocalInv;
    if InCallback(s.svc) {
      CallbackOwn(s, c);
    }
  }

  lemma HandshakeAdds(s: Sys, step: Step)
    requires Inv(s) && Enabled(s, step) && (step.OnError? || step.OnEstablished?)
    ensures Apply(s, step).pipes.Keys == s.pipes.Keys
  {
    LookupFinds(s, step.w);
  }

  lemma ReceiveAdds(s: Sys, w: Wsi)
    requires Inv(s) && Enabled(s, OnReceive(w))
    ensures Apply(s, OnReceive(w)).pipes.Keys == s.pipes.Keys
  {
    AttachedToOwner(s, w);
  }

  /** Only fork_session_init makes pipes. */
  lemma OnlyCreateAdds(s: Sys, step: Step, p: PipeId)
    requires Inv(s) && Enabled(s, step) && p !in s.pipes && p in Apply(s, step).pipes
    ensures step == Create(p)
  {
    hide Inv;
    if step.Service? {
      ServiceAdds(s, step.c);
    } else if step.OnError? || step.OnEstablished? {
      HandshakeAdds(s, step);
    } else if step.OnReceive? {
      ReceiveAdds(s, step.w);
    }
  }

  lemma CreatesText(s: Sys, step: Step, p: PipeId)
    requires Inv(s) && Enabled(s, step) && p !in s.pipes && p in Apply(s, step).pipes
    ensures TextIn(Apply(s, step), p)
  {
    OnlyCreateAdds(s, step, p);
  }

  predicate AllText(s: Sys) {
    forall p :: p in s.pipes ==> TextIn(s, p)
  }

  lemma {:induction false} RunText(s: Sys, run: seq<Step>)
    requires Inv(s) && AllText(s) && ValidRun(s, run)
    ensures AllText(Exec(s, run))
    decreases |run|
  {
    if run != [] {
      var s' := Apply(s, run[0]);
      StepKeeps(s, run[0]);
      forall p | p in s'.pipes ensures TextIn(s', p) {
        if p in s.pipes { StepText(s, run[0], p); } else { CreatesText(s, run[0], p); }
      }
      RunText(s', run[1..]);
    }
  }

  /** In every reachable state the text sent is a prefix of the text accepted, in order and
      without repetition, and as long as the socket is open the rest is still queued. */
  lemma TextInOrder(run: seq<Step>, p: PipeId)
    requires ValidRun(EMPTY, run) && p in Exec(EMPTY, run).pipes
    ensures var s := Exec(EMPTY, run); var q := s.pipes[p]; var l := LinkOf(s, p);
      && q.out.sent <= q.out.offered
      && (l.Linked? && !l.phase.Ending? ==> q.out.offered == q.out.sent + q.out.text)
  {
    EmptyInv();
    RunText(EMPTY, run);
    assert TextIn(Exec(EMPTY, run), p);
  }

  /** The zero-length frame is for a graceful shutdown that came before the connect: one asked
      for on a connected pipe leaves the flag clear and sends none. */
  lemma FlushedNeedsFlag(run: seq<Step>, p: PipeId)
    requires ValidRun(EMPTY, run) && p in Exec(EMPTY, run).pipes && Exec(EMPTY, run).pipes[p].out.flushed
    ensures Exec(EMPTY, run).pipes[p].graceful
  {
    EmptyInv();
    RunText(EMPTY, run);
    assert TextIn(Exec(EMPTY, run), p);
  }
}
