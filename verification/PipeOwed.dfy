/** Nothing queued is forgotten: while the connection is up, text, audio and the zero-length
    frame of a graceful shutdown are each owed a writable callback. */
module PipeOwed {
  import opened Common
  import opened PipeModel
  import opened PipeInv
  import opened PipeClient
  import opened PipeCallbacks
  import opened PipeService
  import opened PipeEvents
  import opened PipeProgress
  import opened PipeSafety
  import opened PipeReaper
  import opened PipeGraceful
  import opened PipeText

  /** The connection is up, and no CLOSED callback is under way on it. */
  predicate Serving(v: View) {
    v.pipe.state.CONNECTED? && v.link.Linked? && v.link.phase.Open? && !v.role.Clo?
  }

  /** On pendingWrites, on the service thread's local list, or asked for at lws. */
  predicate AskedFor(v: View) {
    v.inW || v.role.WriteHit? || (v.link.Linked? && v.link.writable)
  }

  predicate TextOwed(v: View) {
    v.pipe.out.text != "" && !v.pipe.graceful ==>
      AskedFor(v) || v.role == Wr(ReadGracefulFlag) || v.role == Wr(SendText)
  }

  predicate AudioOwed(v: View) {
    v.pipe.out.audio && !v.pipe.graceful ==> AskedFor(v) || v.role.Wr?
  }

  predicate BeforeGracefulRead(r: Role) {
    r.Est? && !r.est.NotifySuccess? && !r.est.Metadata? && !r.est.MetadataText?
  }

  /** Either side of the handshake between do_graceful_shutdown and ESTABLISHED may ask. */
  predicate FlushOwed(v: View) {
    v.pipe.graceful && !v.pipe.out.flushed ==>
      AskedFor(v) || v.role == Wr(ReadGracefulFlag) || v.pipe.client.GracefulRecheck? || BeforeGracefulRead(v.role)
  }

  predicate WriteOwed(v: View) {
    Serving(v) ==> TextOwed(v) && AudioOwed(v) && FlushOwed(v)
  }

  predicate BeforeWrites(svc: Svc) {
    svc.ConnScan? || svc.ConnLoop? || svc.DiscScan? || svc.DiscLoop? || svc.WriteScan?
  }

  /** A pass over pendingWrites is still to come, if there is anything on it. */
  predicate WritesCovered(s: Sys) {
    s.writes == [] || s.wake || BeforeWrites(s.svc)
  }

  predicate OwedIn(s: Sys, p: PipeId) {
    p in s.pipes && WriteOwed(ViewOf(s, p))
  }

  /** What it is owed does not depend on anything else. */
  lemma SameOwed(v: View, v': View)
    requires v'.pipe == v.pipe && v'.link == v.link && v'.role == v.role && v'.inW == v.inW && WriteOwed(v)
    ensures WriteOwed(v')
  {
  }

  lemma AskedOwed(v: View, v': View)
    requires v.link.Linked? && v'.link == v.link.(writable := true) && v'.pipe == v.pipe && v'.inW == v.inW
    requires WriteOwed(v) && (v'.role == v.role || v'.role.NoRole?)
    ensures WriteOwed(v')
  {
  }

  lemma FreshOwed(v: View)
    requires v.pipe.out == NOTHING_OUT && v.role == Est(ReadPending)
    ensures WriteOwed(v)
  {
  }

  lemma ToldOwed(v: View, v': View)
    requires v'.pipe == Told(v.pipe) && v'.link == v.link && v'.role == v.role && v'.inW == v.inW && WriteOwed(v)
    ensures WriteOwed(v')
  {
  }

  // ---------------------------------------------------------------- the owner

  lemma DeletingIsDown(v: View)
    requires LocalInv(v) && Deleting(v.pipe.client)
    ensures !v.pipe.state.CONNECTED?
  {
  }

  lemma GracefulOwed(v: View)
    requires WriteOwed(v) && (v.pipe.client.GracefulStore? || v.pipe.client.GracefulRecheck?)
    ensures WriteOwed(ActOn(v, Continued(v.pipe)))
  {
  }

  /** A step of the owner that leaves the view but for its client, or takes it out of service. */
  lemma ClosingOwed(v: View, u: Upd)
    requires WriteOwed(v) && !v.pipe.client.GracefulRecheck? && u.w.Same? && u.pipe.out == v.pipe.out
    requires u.pipe.graceful == v.pipe.graceful && (u.pipe.state.CONNECTED? ==> v.pipe.state.CONNECTED?)
    ensures WriteOwed(ActOn(v, u))
  {
    hide Classify;
  }

  lemma HandedSame(q: Pipe)
    requires HandedOff(q.client) && !q.client.DropWrites?
    ensures var u := Continued(q);
      u.w.Same? && u.pipe.out == q.out && u.pipe.graceful == q.graceful && (u.pipe.state.CONNECTED? ==> q.state.CONNECTED?)
  {
    ContinuedText(q);
    ContinuedHands(q);
    ContinuedMoves(q);
    HandedWrites(q);
    hide Continued, HandedOff;
  }

  lemma HandedWrites(q: Pipe)
    requires HandedOff(q.client) && !q.client.DropWrites?
    ensures Continued(q).w.Same?
    ensures Continued(q).pipe.state.CONNECTED? ==> q.state.CONNECTED?
  {
  }

  lemma DownOwed(v: View, u: Upd)
    requires !u.pipe.state.CONNECTED?
    ensures WriteOwed(ActOn(v, u))
  {
    hide Classify;
  }

  lemma ContinuedOwed(v: View)
    requires LocalInv(v) && OwnerAt(v.pipe, Continue(0)) && WriteOwed(v)
    ensures WriteOwed(ActOn(v, Continued(v.pipe)))
  {
    if v.pipe.client.GracefulStore? || v.pipe.client.GracefulRecheck? {
      GracefulOwed(v);
    } else if v.pipe.client.DropWrites? {
      DeletingIsDown(v);
      ContinuedMoves(v.pipe);
      DownOwed(v, Continued(v.pipe));
      hide LocalInv, Continued, WriteOwed;
    } else {
      HandedSame(v.pipe);
      ClosingOwed(v, Continued(v.pipe));
      hide LocalInv, Continued, WriteOwed;
    }
  }

  lemma QueueOwed(v: View, step: Step)
    requires WriteOwed(v) && (step.QueueText? || step.QueueAudio? || step.NoAudio?) && OwnerAt(v.pipe, step)
    ensures WriteOwed(ActOn(v, OwnerNext(v.pipe, step)))
  {
    hide Classify, Continued;
  }

  lemma ReadyOwed(v: View, step: Step)
    requires WriteOwed(v) && (step.Gate? || step.Graceful? || step.HandOff?) && OwnerAt(v.pipe, step)
    ensures WriteOwed(ActOn(v, OwnerNext(v.pipe, step)))
  {
    hide Classify, Continued;
  }

  lemma NewOwed(v: View, step: Step)
    requires v.pipe.state.IDLE? && (step.Connect? || step.ConnectNoContext? || step.DiscardUnattached?)
    ensures WriteOwed(ActOn(v, OwnerNext(v.pipe, step)))
  {
    hide Classify, Continued;
  }

  lemma OwnerOwedLocally(v: View, step: Step)
    requires LocalInv(v) && IsOwnerStep(step) && OwnerAt(v.pipe, step) && WriteOwed(v)
    ensures WriteOwed(ActOn(v, OwnerNext(v.pipe, step)))
  {
    if step.Continue? {
      ContinuedOwed(v);
    } else if step.QueueText? || step.QueueAudio? || step.NoAudio? {
      QueueOwed(v, step);
    } else if step.Gate? || step.Graceful? || step.HandOff? {
      ReadyOwed(v, step);
    } else {
      NewIsIdle(v);
      NewOwed(v, step);
    }
    hide WriteOwed, LocalInv, Continued;
  }

  lemma OwnerStepIsAct(s: Sys, step: Step)
    requires Inv(s) && Enabled(s, step) && IsOwnerStep(step)
    ensures step.p in s.pipes && OwnerAt(s.pipes[step.p], step) && LocalInv(ViewOf(s, step.p))
    ensures Unlocked(s.svc, OwnerNext(s.pipes[step.p], step))
    ensures Apply(s, step) == Act(s, step.p, OwnerNext(s.pipes[step.p], step))
  {
    hide LocalInv, OwnerNext, OwnerAt, ViewOf;
  }

  lemma OwnerSelfOwed(s: Sys, step: Step)
    requires Inv(s) && Enabled(s, step) && IsOwnerStep(step) && OwedIn(s, step.p)
    ensures OwedIn(Apply(s, step), step.p)
  {
    OwnerStepIsAct(s, step);
    hide Inv, LocalInv, OwnerNext, OwnerAt, ViewOf, WriteOwed, Apply, Enabled, ActOn;
    ActView(s, step.p, OwnerNext(s.pipes[step.p], step), step.p);
    OwnerOwedLocally(ViewOf(s, step.p), step);
  }

  lemma OthersOwed(s: Sys, x: PipeId, u: Upd, p: PipeId)
    requires x in s.pipes && p != x && Unlocked(s.svc, u) && u.pipe.wsi == s.pipes[x].wsi && OwedIn(s, p)
    ensures OwedIn(Act(s, x, u), p)
  {
    hide ViewOf, WriteOwed, ActOn;
    ActView(s, x, u, p);
    SameOwed(ViewOf(s, p), ViewOf(Act(s, x, u), p));
  }

  lemma OwnerStepOwed(s: Sys, step: Step, p: PipeId)
    requires Inv(s) && Enabled(s, step) && IsOwnerStep(step) && OwedIn(s, p)
    ensures OwedIn(Apply(s, step), p)
  {
    hide Inv, LocalInv, OwnerNext, OwnerAt, ViewOf, WriteOwed, Apply, Enabled, OwedIn, Act, Unlocked;
    if step.p == p {
      OwnerSelfOwed(s, step);
    } else {
      OwnerStepIsAct(s, step);
      OthersOwed(s, step.p, OwnerNext(s.pipes[step.p], step), p);
    }
  }

  lemma OwnerCovers(s: Sys, step: Step)
    requires Enabled(s, step) && IsOwnerStep(step) && WritesCovered(s)
    ensures WritesCovered(Apply(s, step))
  {
    PushWakes(s.pipes[step.p], step);
    hide OwnerNext, OwnerAt;
  }

  lemma PushWakes(q: Pipe, step: Step)
    requires IsOwnerStep(step)
    ensures OwnerNext(q, step).w.Push? ==> OwnerNext(q, step).wake
  {
  }

  /** Whoever has something for a connected pipe to send puts it on pendingWrites and wakes the
      service thread: text, audio, and do_graceful_shutdown, at its first look or its second. */
  lemma CallsWake(s: Sys, step: Step)
    requires Enabled(s, step) && IsOwnerStep(step) && s.pipes[step.p].state.CONNECTED?
    requires step.QueueText? || step.QueueAudio? || step.Graceful? || s.pipes[step.p].client.GracefulRecheck?
    ensures step.p in Apply(s, step).writes && Apply(s, step).wake
  {
    CallsPush(s.pipes[step.p], step);
    hide OwnerNext;
  }

  lemma CallsPush(q: Pipe, step: Step)
    requires IsOwnerStep(step) && OwnerAt(q, step) && q.state.CONNECTED?
    requires step.QueueText? || step.QueueAudio? || step.Graceful? || q.client.GracefulRecheck?
    ensures OwnerNext(q, step).w.Push? && OwnerNext(q, step).wake
  {
    hide CloseNext, DisconnectNext, ReapNext;
  }

  // ---------------------------------------------------------------- the callbacks

  lemma EstOwed(v: View, c: Choice)
    requires LocalInv(v) && v.role.Est? && WriteOwed(v)
    ensures WriteOwed(EstView(v, EstNext(v.pipe, v.role.est, c)))
  {
    hide ClientOk, OwedOk, Classify;
  }

  lemma CloOwed(v: View)
    requires v.role.Clo?
    ensures WriteOwed(CloView(v, ClosedNext(v.pipe, v.role.clo)))
  {
    hide Classify;
  }

  lemma WrFlagOwed(v: View, c: Choice)
    requires v.role == Wr(ReadGracefulFlag) && WriteOwed(v)
    ensures WriteOwed(WrView(v, WritableNext(v.pipe, ReadGracefulFlag, c)))
  {
    hide Classify;
  }

  lemma WrTextOwed(v: View, c: Choice)
    requires v.role == Wr(SendText) && WriteOwed(v)
    ensures WriteOwed(WrView(v, WritableNext(v.pipe, SendText, c)))
  {
    hide Classify;
  }

  lemma WrStateOwed(v: View, c: Choice)
    requires v.role == Wr(ReadState) && WriteOwed(v)
    ensures WriteOwed(WrView(v, WritableNext(v.pipe, ReadState, c)))
  {
    hide Classify;
  }

  lemma WrAudioOwed(v: View, c: Choice)
    requires v.role == Wr(SendAudio) && WriteOwed(v)
    ensures WriteOwed(WrView(v, WritableNext(v.pipe, SendAudio, c)))
  {
    hide Classify;
  }

  lemma WrOwed(v: View, c: Choice)
    requires v.role.Wr? && WriteOwed(v)
    ensures WriteOwed(WrView(v, WritableNext(v.pipe, v.role.wr, c)))
  {
    hide WriteOwed, WrView, WritableNext;
    match v.role.wr {
      case ReadGracefulFlag => WrFlagOwed(v, c);
      case SendText => WrTextOwed(v, c);
      case ReadState => WrStateOwed(v, c);
      case SendAudio => WrAudioOwed(v, c);
    }
  }

  lemma CallbackOwed(s: Sys, c: Choice, p: PipeId)
    requires Inv(s) && ServiceEnabled(s, c) && InCallback(s.svc) && OwedIn(s, p)
    ensures OwedIn(ServiceStep(s, c), p)
  {
    hide LocalInv, ServiceStep, ServiceEnabled, ViewOf, WriteOwed, EstNext, ClosedNext, WritableNext, SocksOk, ListsOk;
    if s.svc.p != p {
      CallbackLeaves(s, c, p);
      SameOwed(ViewOf(s, p), ViewOf(ServiceStep(s, c), p));
    } else {
      CallbackRole(s);
      CallbackOwn(s, c);
      match s.svc {
        case EstCb(_, _, _) => EstOwed(ViewOf(s, p), c);
        case ClosedCb(_, _, _) => CloOwed(ViewOf(s, p));
        case WritableCb(_, _, _) => WrOwed(ViewOf(s, p), c);
        case _ =>
      }
    }
  }

  lemma CallbackRole(s: Sys)
    requires InCallback(s.svc) && s.svc.p in s.pipes
    ensures ViewOf(s, s.svc.p).role == RoleOf(s.svc, s.svc.p)
  {
  }

  lemma CallbackWakes(s: Sys, c: Choice)
    requires ServiceEnabled(s, c) && InCallback(s.svc) && WritesCovered(s)
    ensures WritesCovered(ServiceStep(s, c))
  {
    EstWakes(s, c);
    hide EstNext;
  }

  lemma EstWakes(s: Sys, c: Choice)
    requires ServiceEnabled(s, c)
    ensures s.svc.EstCb? ==> var u := EstNext(s.pipes[s.svc.p], s.svc.est, c).upd; !u.w.Drop? && (u.w.Push? ==> u.wake)
  {
  }

  // ---------------------------------------------------------------- the list passes

  lemma ConnScanOwed(s: Sys, pos: nat, todo: seq<PipeId>, p: PipeId)
    requires s.svc == ConnScan(pos, todo) && pos < |s.connects| && s.connects[pos] in s.pipes && OwedIn(s, p)
    ensures OwedIn(ConnScanStep(s, pos, todo), p)
  {
    if p == s.connects[pos] { ConnScanView(s, pos, todo); } else { ConnScanOther(s, pos, todo, p); }
    hide Classify;
  }

  lemma ConnLoopOwed(s: Sys, todo: seq<PipeId>, c: Choice, p: PipeId)
    requires ConnLoopGoesOn(s, todo, c) && OwedIn(s, p)
    ensures OwedIn(ConnLoopStep(s, todo, c), p)
  {
    if p == todo[0] { ConnLoopView(s, todo, c); } else { ConnLoopOther(s, todo, c, p); }
    hide Classify, ConnLoopStep;
  }

  lemma ConnEndsOwed(s: Sys, next: Svc, p: PipeId)
    requires OwedIn(s, p) && RoleOf(next, p) == RoleOf(s.svc, p)
    ensures OwedIn(s.(svc := next), p)
  {
    hide Classify;
  }

  lemma ConnPassOwed(s: Sys, c: Choice, p: PipeId)
    requires Inv(s) && ServiceEnabled(s, c) && (s.svc.ConnScan? || s.svc.ConnLoop?) && OwedIn(s, p)
    ensures OwedIn(ServiceStep(s, c), p)
  {
    hide OwedIn, LocalInv, SocksOk, ListsOk;
    match s.svc {
      case ConnScan(pos, todo) =>
        if pos < |s.connects| { ConnScanOwed(s, pos, todo, p); } else { ConnEndsOwed(s, ConnLoop(todo), p); }
      case ConnLoop(todo) =>
        if todo != [] { ConnLoopOwed(s, todo, c, p); } else { ConnEndsOwed(s, DiscScan(0, []), p); }
      case _ =>
    }
  }

  lemma QueuePassOwed(s: Sys, c: Choice, p: PipeId)
    requires Inv(s) && ServiceEnabled(s, c) && (s.svc.DiscScan? || s.svc.WriteScan?) && OwedIn(s, p)
    ensures OwedIn(ServiceStep(s, c), p)
  {
    if s.svc.DiscScan? {
      if s.disconnects != [] {
        QueuedHead(s, s.disconnects[0]);
        DiscScanView(s, s.svc.hits, p);
      }
      DiscEndsOwed(s, p);
    } else {
      if s.writes != [] {
        QueuedHead(s, s.writes[0]);
        WriteScanView(s, s.svc.hits, p);
      } else {
        WriteScanSame(s, s.svc.hits, p);
      }
    }
    hide LocalInv, Classify, SocksOk, ListsOk, DiscScanStep, WriteScanStep;
  }

  lemma DiscEndsOwed(s: Sys, p: PipeId)
    requires s.svc.DiscScan? && s.svc.pos == 0 && OwedIn(s, p)
    ensures s.disconnects == [] ==> OwedIn(DiscScanStep(s, 0, s.svc.hits), p)
  {
    hide Classify;
  }

  lemma HitPassOwed(s: Sys, c: Choice, p: PipeId)
    requires Inv(s) && ServiceEnabled(s, c) && (s.svc.DiscLoop? || s.svc.WriteLoop?) && OwedIn(s, p)
    ensures OwedIn(ServiceStep(s, c), p)
  {
    if s.svc.hits == [] {
      hide LocalInv, Classify, WriteOwed, SocksOk, ListsOk;
      assert ViewOf(ServiceStep(s, c), p) == ViewOf(s, p);
    } else {
      HitHead(s);
      hide Inv, WriteOwed, AskWritable, ViewOf, LinkOf;
      AskOwed(s, ServiceStep(s, c).svc, p);
    }
  }

  lemma AskOwed(s: Sys, next: Svc, p: PipeId)
    requires HitNext(s.svc, next) && s.svc.hits[0] in s.pipes && LinkOf(s, s.svc.hits[0]).Linked? && OwedIn(s, p)
    ensures OwedIn(AskWritable(s, s.svc.hits[0]).(svc := next), p)
  {
    var s' := AskWritable(s, s.svc.hits[0]).(svc := next);
    AskView(s, next, p);
    var v, v' := ViewOf(s, p), ViewOf(s', p);
    assert p in s'.pipes && v.role == RoleOf(s.svc, p) && v'.role == RoleOf(next, p) && v.link == LinkOf(s, p);
    hide WriteOwed, AskWritable, ViewOf, LinkOf, RoleOf;
    if p == s.svc.hits[0] { AskedOwed(v, v'); } else { SameOwed(v, v'); }
  }

  lemma PassOwed(s: Sys, c: Choice, p: PipeId)
    requires Inv(s) && ServiceEnabled(s, c) && !InCallback(s.svc) && !s.svc.SvcIdle? && OwedIn(s, p)
    ensures OwedIn(ServiceStep(s, c), p)
  {
    hide Inv, OwedIn, ServiceStep, ServiceEnabled;
    if s.svc.ConnScan? || s.svc.ConnLoop? {
      ConnPassOwed(s, c, p);
    } else if s.svc.DiscScan? || s.svc.WriteScan? {
      QueuePassOwed(s, c, p);
    } else {
      HitPassOwed(s, c, p);
    }
  }

  /** The scan of pendingWrites ends when the list is empty. */
  lemma PassCovers(s: Sys, c: Choice)
    requires Inv(s) && ServiceEnabled(s, c) && !InCallback(s.svc) && WritesCovered(s)
    ensures WritesCovered(ServiceStep(s, c))
  {
    if s.svc.WriteScan? && s.writes != [] {
      QueuedHead(s, s.writes[0]);
    }
    hide LocalInv, SocksOk, ListsOk;
  }

  // ---------------------------------------------------------------- events

  lemma ErrorOwed(s: Sys, w: Wsi, p: PipeId)
    requires Inv(s) && s.svc.SvcIdle? && w in s.socks && s.socks[w].phase.Shaking? && OwedIn(s, p)
    ensures OwedIn(ErrorStep(s, w), p)
  {
    LookupFinds(s, w);
    var q := s.socks[w].owner;
    hide LocalInv, Classify, FindAt, ErrorStep;
    if p == q { ErrorView(s, w, p); } else { ErrorOther(s, w, q, p); }
  }

  lemma EstablishedOwed(s: Sys, w: Wsi, p: PipeId)
    requires Inv(s) && s.svc.SvcIdle? && w in s.socks && s.socks[w].phase.Shaking? && OwedIn(s, p) && TextIn(s, p)
    ensures OwedIn(EstablishedStep(s, w), p)
  {
    LookupFinds(s, w);
    if p == s.socks[w].owner {
      NotYetWritable(ViewOf(s, p));
      assert s.pipes[p].out == NOTHING_OUT && !s.socks[w].writable;
    }
    hide Inv, WriteOwed, TextIn, FindAt, EstablishedStep, LinkOf;
    RaisedOwed(s, w, s.socks[w].owner, p);
  }

  lemma RaisedOwed(s: Sys, w: Wsi, q: PipeId, p: PipeId)
    requires Handshaking(s, w, q) && OwedIn(s, p)
    requires p == q ==> s.pipes[p].out == NOTHING_OUT && !s.socks[w].writable
    ensures OwedIn(EstablishedStep(s, w), p)
  {
    if p == q { EstablishedView(s, w, p); } else { EstablishedOther(s, w, q, p); }
    var v, v' := ViewOf(s, p), ViewOf(EstablishedStep(s, w), p);
    assert p in EstablishedStep(s, w).pipes && v.pipe == s.pipes[p];
    hide WriteOwed, EstablishedStep, ViewOf, FindAt;
    if p == q { FreshOwed(v'); } else { SameOwed(v, v'); }
  }

  lemma ReceiveOwed(s: Sys, w: Wsi, p: PipeId)
    requires Inv(s) && Enabled(s, OnReceive(w)) && OwedIn(s, p)
    ensures OwedIn(Apply(s, OnReceive(w)), p)
  {
    hide LocalInv, Apply;
    ReceiveLeaves(s, w, p);
    hide Inv, OwedIn;
    PutTold(s, s.socks[w].owner, p);
  }

  lemma PutTold(s: Sys, q: PipeId, p: PipeId)
    requires q in s.pipes && OwedIn(s, p)
    ensures OwedIn(Put(s, q, Told(s.pipes[q])), p)
  {
    PutLinks(s, q, Told(s.pipes[q]), p);
    var v, v' := ViewOf(s, p), ViewOf(Put(s, q, Told(s.pipes[q])), p);
    assert v'.link == v.link && v'.role == v.role && v'.inW == v.inW && v'.pipe == if p == q then Told(v.pipe) else v.pipe;
    hide WriteOwed, ViewOf;
    if p == q { ToldOwed(v, v'); } else { SameOwed(v, v'); }
  }

  lemma WritableOwed(s: Sys, w: Wsi, p: PipeId)
    requires Inv(s) && Enabled(s, OnWritable(w)) && OwedIn(s, p)
    ensures OwedIn(Apply(s, OnWritable(w)), p)
  {
    AttachedToOwner(s, w);
    WritableView(s, w, p);
    hide LocalInv, Classify;
  }

  lemma ClosedOwed(s: Sys, w: Wsi, p: PipeId)
    requires Inv(s) && Enabled(s, OnClosed(w)) && OwedIn(s, p)
    ensures OwedIn(Apply(s, OnClosed(w)), p)
  {
    AttachedToOwner(s, w);
    ClosedView(s, s.socks[w].owner, w, p);
    hide LocalInv, Classify;
  }

  lemma WakeOwed(s: Sys, step: Step, p: PipeId)
    requires Enabled(s, step) && (step.Create? || step.StrayWake? || step.WakeUp?) && OwedIn(s, p)
    ensures OwedIn(Apply(s, step), p)
  {
    hide Classify;
  }

  lemma EventCovers(s: Sys, step: Step)
    requires Enabled(s, step) && !IsOwnerStep(step) && !step.Service? && WritesCovered(s)
    ensures WritesCovered(Apply(s, step))
  {
  }

  // ---------------------------------------------------------------- every step, every run

  predicate AllOwed(s: Sys) {
    WritesCovered(s) && forall p :: p in s.pipes ==> OwedIn(s, p)
  }

  lemma StepOwed(s: Sys, step: Step, p: PipeId)
    requires Inv(s) && Enabled(s, step) && OwedIn(s, p) && TextIn(s, p)
    ensures OwedIn(Apply(s, step), p)
  {
    hide Inv, OwedIn, TextIn;
    if IsOwnerStep(step) {
      OwnerStepOwed(s, step, p);
    } else if step.Service? {
      if InCallback(s.svc) { CallbackOwed(s, step.c, p); } else { PassOwed(s, step.c, p); }
    } else if step.OnError? {
      ErrorOwed(s, step.w, p);
    } else if step.OnEstablished? {
      EstablishedOwed(s, step.w, p);
    } else if step.OnReceive? {
      ReceiveOwed(s, step.w, p);
    } else if step.OnWritable? {
      WritableOwed(s, step.w, p);
    } else if step.OnClosed? {
      ClosedOwed(s, step.w, p);
    } else {
      WakeOwed(s, step, p);
    }
  }

  lemma StepCovers(s: Sys, step: Step)
    requires Inv(s) && Enabled(s, step) && WritesCovered(s)
    ensures WritesCovered(Apply(s, step))
  {
    hide Inv, WritesCovered;
    if IsOwnerStep(step) {
      OwnerCovers(s, step);
    } else if step.Service? {
      if InCallback(s.svc) { CallbackWakes(s, step.c); } else { PassCovers(s, step.c); }
    } else {
      EventCovers(s, step);
    }
  }

  lemma CreatesOwed(s: Sys, step: Step, p: PipeId)
    requires Inv(s) && Enabled(s, step) && p !in s.pipes && p in Apply(s, step).pipes
    ensures OwedIn(Apply(s, step), p)
  {
    OnlyCreateAdds(s, step, p);
  }

  /** What the text and the writes are known by, beside the invariant. */
  ghost predicate Books(s: Sys) {
    Inv(s) && AllText(s) && AllOwed(s)
  }

  lemma StepBooks(s: Sys, step: Step)
    requires Books(s) && Enabled(s, step)
    ensures Books(Apply(s, step))
  {
    hide Inv, TextIn, OwedIn, WritesCovered;
    var s' := Apply(s, step);
    StepKeeps(s, step);
    StepCovers(s, step);
    forall p | p in s'.pipes ensures TextIn(s', p) && OwedIn(s', p) {
      if p in s.pipes {
        StepText(s, step, p);
        StepOwed(s, step, p);
      } else {
        CreatesText(s, step, p);
        CreatesOwed(s, step, p);
      }
    }
  }

  lemma {:induction false} RunBooks(s: Sys, run: seq<Step>)
    requires Books(s) && ValidRun(s, run)
    ensures Books(Exec(s, run))
    decreases |run|
  {
    hide Books;
    if run != [] {
      StepBooks(s, run[0]);
      RunBooks(Apply(s, run[0]), run[1..]);
    }
  }

  lemma EmptyBooks()
    ensures Books(EMPTY)
  {
    EmptyInv();
  }

  /** In every reachable state a connected pipe with an open socket and no CLOSED under way is
      owed a writable callback for its text and its audio, unless the graceful flag is set;
      and for the zero-length frame, once it is, unless whoever set the flag is still about
      to look at the state or ESTABLISHED at the flag. */
  lemma NothingForgotten(run: seq<Step>, p: PipeId)
    requires ValidRun(EMPTY, run)
    requires var s := Exec(EMPTY, run); p in s.pipes && Serving(ViewOf(s, p))
    ensures var s := Exec(EMPTY, run); var q := s.pipes[p];
      var owed := (p in s.writes && (s.wake || BeforeWrites(s.svc))) || RoleOf(s.svc, p).WriteHit? || LinkOf(s, p).writable;
      var role := RoleOf(s.svc, p);
      && (q.out.text != "" && !q.graceful ==> owed || role == Wr(ReadGracefulFlag) || role == Wr(SendText))
      && (q.out.audio && !q.graceful ==> owed || role.Wr?)
      && (q.graceful && !q.out.flushed ==>
            owed || role == Wr(ReadGracefulFlag) || q.client.GracefulRecheck? || BeforeGracefulRead(role))
  {
    EmptyBooks();
    RunBooks(EMPTY, run);
    assert OwedIn(Exec(EMPTY, run), p);
    hide Inv, Classify;
  }
}
