/** What is owed can be paid: from every reachable state the service thread alone hands the
    queued text, the buffered audio or the zero-length frame to lws_write. */
module PipeDelivery {
  import opened Common
  import opened PipeModel
  import opened PipeInv
  import opened PipeClient
  import opened PipeCallbacks
  import opened PipeService
  import opened PipeEvents
  import opened PipeProgress
  import opened PipeSafety
  import opened PipeReaper
  import opened PipeGraceful
  import opened PipeText
  import opened PipeOwed

  /** The service thread's own steps, with writes that succeed and no metadata from a handler. */
  predicate ServiceOnly(step: Step) {
    step.WakeUp? || step.OnWritable? || (step.Service? && step.c.ok && step.c.meta.None?)
  }

  predicate ServiceRun(run: seq<Step>) {
    forall i :: 0 <= i < |run| ==> ServiceOnly(run[i])
  }

  /** ESTABLISHED has seen a close() and is on its way to the compare-and-swap. */
  predicate SwapAhead(v: View) {
    v.pipe.closePending && v.role.Est? && (v.role.est.ReadPending? || v.role.est.EstCloseRead? || v.role.est.EstCloseSwap?)
  }

  predicate Flowing(v: View) {
    Serving(v) && !SwapAhead(v) && (v.pipe.graceful ==> !v.pipe.client.GracefulRecheck?)
  }

  predicate Pending(q: Pipe) {
    if q.graceful then !q.out.flushed else q.out.text != "" || q.out.audio
  }

  // ---------------------------------------------------------------- the rank

  /** The writable callback under way will see to it. */
  predicate Attending(v: View) {
    || v.role == Wr(ReadGracefulFlag)
    || (!v.pipe.graceful && (v.role == Wr(SendText) || (v.role.Wr? && v.pipe.out.text == "")))
  }

  /** How far the service thread is from a writable callback that sees to it; text goes first
      and audio takes one more callback. */
  function Wait(v: View, svc: Svc): nat {
    var q := if !v.pipe.graceful && v.pipe.out.text != "" then 3 else 0;
    if !Pending(v.pipe) then 0
    else if Attending(v) then 1 + q
    else if v.link.Linked? && v.link.writable then 2 + q
    else if v.role.WriteHit? then 3 + q
    else if v.inW then (if BeforeWrites(svc) then 4 + q else 5 + q)
    else 9
  }

  predicate Served(v: View, svc: Svc, v': View, svc': Svc) {
    && Flowing(v') && v'.pipe.graceful == v.pipe.graceful && v'.pipe.out.offered == v.pipe.out.offered
    && Wait(v', svc') <= Wait(v, svc)
  }

  predicate ServedIn(s: Sys, s': Sys, p: PipeId) {
    p in s.pipes && p in s'.pipes && Served(ViewOf(s, p), s.svc, ViewOf(s', p), s'.svc)
  }

  // ---------------------------------------------------------------- no step of the service thread takes it further off

  lemma SameFlows(v: View, v': View)
    requires v'.pipe == v.pipe && v'.role == v.role && Flowing(v)
    requires v.link.Linked? && v'.link.Linked? && v'.link.phase == v.link.phase
    ensures Flowing(v')
  {
  }

  lemma SameRank(v: View, svc: Svc, v': View, svc': Svc)
    requires v'.pipe == v.pipe && v'.link == v.link && v'.role == v.role && v'.inW == v.inW
    requires v.inW && BeforeWrites(svc) ==> BeforeWrites(svc')
    ensures Wait(v', svc') <= Wait(v, svc)
  {
    hide BeforeWrites, Pending;
  }

  /** The view but for what the passes over the other lists change. */
  lemma SameWait(v: View, svc: Svc, v': View, svc': Svc)
    requires v'.pipe == v.pipe && v'.link == v.link && v'.role == v.role && v'.inW == v.inW && Flowing(v)
    requires v.inW && BeforeWrites(svc) ==> BeforeWrites(svc')
    ensures Served(v, svc, v', svc')
  {
    assert v.link.Linked?;
    hide Flowing, Wait;
    SameFlows(v, v');
    SameRank(v, svc, v', svc');
  }

  lemma HitWait(v: View, svc: Svc, v': View, svc': Svc)
    requires v'.pipe == v.pipe && v'.link == v.link && v'.role == WriteHit && Flowing(v) && !v.role.Wr?
    ensures Served(v, svc, v', svc')
  {
  }

  lemma AskedWait(v: View, svc: Svc, v': View, svc': Svc)
    requires v.link.Linked? && v'.link == Linked(v.link.phase, v.link.attached, true) && v'.pipe == v.pipe
    requires Flowing(v) && !v.role.Wr? && !v.role.Est? && (v'.role == v.role || v'.role.NoRole?)
    ensures Served(v, svc, v', svc')
  {
    hide Flowing, Wait;
    AskedFlows(v, v'.role);
    SameFlows(v.(role := v'.role), v');
    AskedRank(v, svc, v', svc');
  }

  lemma AskedFlows(v: View, role: Role)
    requires Flowing(v) && (role == v.role || role.NoRole?)
    ensures Flowing(v.(role := role))
  {
  }

  lemma AskedRank(v: View, svc: Svc, v': View, svc': Svc)
    requires v.link.Linked? && v'.link == Linked(v.link.phase, v.link.attached, true) && v'.pipe == v.pipe && !v.role.Wr?
    ensures Wait(v', svc') <= Wait(v, svc)
  {
    hide BeforeWrites, Pending;
  }

  lemma ServingRole(v: View)
    requires LocalInv(v) && Serving(v)
    ensures !v.role.Todo? && !v.role.DiscHit? && WasConnected(v.pipe.state) && !v.pipe.state.DISCONNECTING?
  {
  }

  lemma ConnScanServed(s: Sys, pos: nat, todo: seq<PipeId>, p: PipeId)
    requires s.svc == ConnScan(pos, todo) && pos < |s.connects| && s.connects[pos] in s.pipes && p in s.pipes
    requires Flowing(ViewOf(s, p))
    ensures ServedIn(s, ConnScanStep(s, pos, todo), p)
  {
    var s' := ConnScanStep(s, pos, todo);
    if p == s.connects[pos] { ConnScanView(s, pos, todo); } else { ConnScanOther(s, pos, todo, p); }
    assert p in s'.pipes && BeforeWrites(s'.svc);
    var v, v' := ViewOf(s, p), ViewOf(s', p);
    ServingState(v);
    hide ViewOf, Flowing, Served, ConnScanStep, BeforeWrites;
    SameWait(v, s.svc, v', s'.svc);
  }

  lemma ServingState(v: View)
    requires Flowing(v)
    ensures v.pipe.state.CONNECTED?
  {
  }

  lemma ConnLoopServed(s: Sys, todo: seq<PipeId>, c: Choice, p: PipeId)
    requires ConnLoopGoesOn(s, todo, c) && p in s.pipes && p != todo[0] && Flowing(ViewOf(s, p))
    ensures ServedIn(s, ConnLoopStep(s, todo, c), p)
  {
    ConnLoopOther(s, todo, c, p);
    ConnLoopGoes(s, todo, c);
    var v := ViewOf(s, p);
    hide ViewOf, Flowing, Served, ConnLoopStep, BeforeWrites;
    SameWait(v, s.svc, v, ConnLoopStep(s, todo, c).svc);
  }

  lemma ConnLoopGoes(s: Sys, todo: seq<PipeId>, c: Choice)
    requires ConnLoopGoesOn(s, todo, c)
    ensures BeforeWrites(ConnLoopStep(s, todo, c).svc)
  {
  }

  /** The end of a pass over pendingConnects, or of the connects it started. */
  lemma ConnEndServed(s: Sys, next: Svc, p: PipeId)
    requires p in s.pipes && RoleOf(next, p) == RoleOf(s.svc, p) && BeforeWrites(next) && Flowing(ViewOf(s, p))
    ensures ServedIn(s, s.(svc := next), p)
  {
    var v, v' := ViewOf(s, p), ViewOf(s.(svc := next), p);
    assert v'.pipe == v.pipe && v'.link == v.link && v'.role == v.role && v'.inW == v.inW;
    hide ViewOf, Flowing, Served, BeforeWrites;
    SameWait(v, s.svc, v', next);
  }

  lemma ConnServed(s: Sys, c: Choice, p: PipeId)
    requires Inv(s) && ServiceEnabled(s, c) && (s.svc.ConnScan? || s.svc.ConnLoop?) && p in s.pipes && Flowing(ViewOf(s, p))
    ensures ServedIn(s, ServiceStep(s, c), p)
  {
    ServingRole(ViewOf(s, p));
    hide LocalInv, SocksOk, ListsOk, Flowing, ServedIn;
    match s.svc {
      case ConnScan(pos, todo) =>
        if pos < |s.connects| { ConnScanServed(s, pos, todo, p); } else { ConnEndServed(s, ConnLoop(todo), p); }
      case ConnLoop(todo) =>
        if todo != [] { ConnLoopServed(s, todo, c, p); } else { ConnEndServed(s, DiscScan(0, []), p); }
      case _ =>
    }
  }

  lemma DiscEntryServed(s: Sys, hits: seq<PipeId>, p: PipeId)
    requires s.svc == DiscScan(0, hits) && s.disconnects != [] && s.disconnects[0] in s.pipes && p in s.pipes
    requires s.pipes[s.disconnects[0]].vhd && Flowing(ViewOf(s, p))
    ensures ServedIn(s, DiscScanStep(s, 0, hits), p)
  {
    var s' := DiscScanStep(s, 0, hits);
    DiscScanView(s, hits, p);
    assert p in s'.pipes && BeforeWrites(s'.svc);
    var v, v' := ViewOf(s, p), ViewOf(s', p);
    ServingState(v);
    hide ViewOf, Flowing, Served, DiscScanStep, BeforeWrites;
    SameWait(v, s.svc, v', s'.svc);
  }

  lemma DiscScanServed(s: Sys, c: Choice, p: PipeId)
    requires Inv(s) && ServiceEnabled(s, c) && s.svc.DiscScan? && p in s.pipes && Flowing(ViewOf(s, p))
    ensures ServedIn(s, ServiceStep(s, c), p)
  {
    ServingRole(ViewOf(s, p));
    hide LocalInv, SocksOk, ListsOk, Flowing, ServedIn;
    if s.disconnects != [] {
      QueuedHead(s, s.disconnects[0]);
      DiscEntryServed(s, s.svc.hits, p);
    } else {
      ConnEndServed(s, DiscLoop(s.svc.hits), p);
    }
  }

  lemma WriteScanServed(s: Sys, c: Choice, p: PipeId)
    requires Inv(s) && ServiceEnabled(s, c) && s.svc.WriteScan? && p in s.pipes && Flowing(ViewOf(s, p))
    ensures ServedIn(s, ServiceStep(s, c), p)
  {
    var s' := ServiceStep(s, c);
    if s.writes == [] {
      WriteScanSame(s, s.svc.hits, p);
      SameWait(ViewOf(s, p), s.svc, ViewOf(s', p), s'.svc);
    } else {
      QueuedHead(s, s.writes[0]);
      WriteScanView(s, s.svc.hits, p);
      if p == s.writes[0] {
        HitWait(ViewOf(s, p), s.svc, ViewOf(s', p), s'.svc);
      } else {
        SameWait(ViewOf(s, p), s.svc, ViewOf(s', p), s'.svc);
      }
    }
    hide Inv, Served;
  }

  lemma LoopEndServed(s: Sys, next: Svc, p: PipeId)
    requires HitLoop(s.svc, next) && p in s.pipes && Flowing(ViewOf(s, p))
    ensures ServedIn(s, s.(svc := next), p)
  {
    assert ViewOf(s.(svc := next), p) == ViewOf(s, p);
    SameWait(ViewOf(s, p), s.svc, ViewOf(s, p), next);
  }

  lemma AskServed(s: Sys, next: Svc, p: PipeId)
    requires HitNext(s.svc, next) && s.svc.hits[0] in s.pipes && p in s.pipes && LinkOf(s, s.svc.hits[0]).Linked?
    requires Flowing(ViewOf(s, p)) && (p == s.svc.hits[0] ==> RoleOf(s.svc, p).WriteHit?)
    ensures ServedIn(s, AskWritable(s, s.svc.hits[0]).(svc := next), p)
  {
    var s' := AskWritable(s, s.svc.hits[0]).(svc := next);
    AskView(s, next, p);
    var v, v' := ViewOf(s, p), ViewOf(s', p);
    assert p in s'.pipes;
    hide ViewOf, Flowing, Served, AskWritable, Wait;
    if p == s.svc.hits[0] { AskedWait(v, s.svc, v', next); } else { SameWait(v, s.svc, v', next); }
  }

  lemma LoopServed(s: Sys, c: Choice, p: PipeId)
    requires Inv(s) && ServiceEnabled(s, c) && (s.svc.DiscLoop? || s.svc.WriteLoop?) && p in s.pipes && Flowing(ViewOf(s, p))
    ensures ServedIn(s, ServiceStep(s, c), p)
  {
    ServingRole(ViewOf(s, p));
    var next := ServiceStep(s, c).svc;
    if s.svc.hits == [] {
      hide Inv, Flowing, ServedIn, ViewOf;
      LoopEndServed(s, next, p);
    } else {
      HitHead(s);
      HitIsWrite(s, p);
      hide Inv, Flowing, ServedIn, ViewOf, LinkOf, AskWritable;
      AskServed(s, next, p);
    }
  }

  lemma HitIsWrite(s: Sys, p: PipeId)
    requires (s.svc.DiscLoop? || s.svc.WriteLoop?) && s.svc.hits != [] && !RoleOf(s.svc, p).DiscHit?
    ensures p == s.svc.hits[0] ==> RoleOf(s.svc, p).WriteHit?
  {
  }

  /** What a step of ESTABLISHED leaves to a pipe that stays connected. */
  predicate EstLeaves(q: Pipe, at: EstAt, c: Choice) {
    var n := EstNext(q, at, c);
    && n.sock.Leave? && !n.upd.w.Drop? && n.upd.pipe.out == q.out && n.upd.pipe.graceful == q.graceful
    && n.upd.pipe.client == q.client
    && (at.EstCloseSwap? || n.upd.pipe.state == q.state) && (at.EstCloseRead? || n.upd.pipe.closePending == q.closePending)
    && (n.next.Some? && (n.next.value.ReadPending? || n.next.value.EstCloseRead? || n.next.value.EstCloseSwap?) ==>
          (at.ReadPending? && q.closePending) || at.EstCloseRead?)
  }

  lemma EstKeepsOut(q: Pipe, at: EstAt, c: Choice)
    requires c.meta.None?
    ensures EstLeaves(q, at, c)
  {
    hide EstLeaves;
    if at.MetadataText? { MetadataKeepsOut(q, c); } else { OtherEstKeepsOut(q, at, c); }
  }

  lemma OtherEstKeepsOut(q: Pipe, at: EstAt, c: Choice)
    requires !at.MetadataText?
    ensures EstLeaves(q, at, c)
  {
  }

  lemma MetadataKeepsOut(q: Pipe, c: Choice)
    requires c.meta.None?
    ensures EstLeaves(q, MetadataText, c)
  {
    assert q.out.text + "" == q.out.text && q.out.offered + "" == q.out.offered;
  }

  lemma EstRole(v: View)
    requires LocalInv(v) && v.role.Est? && Flowing(v)
    ensures !v.role.est.EstCloseRead? && !v.role.est.EstCloseSwap? && (v.role.est.ReadPending? ==> !v.pipe.closePending)
  {
  }

  lemma EstServed(v: View, c: Choice, svc: Svc, svc': Svc)
    requires LocalInv(v) && v.role.Est? && Flowing(v) && c.meta.None? && !BeforeWrites(svc) && !BeforeWrites(svc')
    ensures Served(v, svc, EstView(v, EstNext(v.pipe, v.role.est, c)), svc')
  {
    EstRole(v);
    EstKeepsOut(v.pipe, v.role.est, c);
    hide LocalInv, Classify, EstNext;
  }

  lemma WrFlagServed(v: View, c: Choice, svc: Svc, svc': Svc)
    requires v.role == Wr(ReadGracefulFlag) && Flowing(v) && c.ok && !BeforeWrites(svc) && !BeforeWrites(svc')
    ensures Served(v, svc, WrView(v, WritableNext(v.pipe, ReadGracefulFlag, c)), svc')
  {
    hide Classify;
  }

  lemma WrTextServed(v: View, c: Choice, svc: Svc, svc': Svc)
    requires v.role == Wr(SendText) && Flowing(v) && c.ok && !BeforeWrites(svc) && !BeforeWrites(svc')
    ensures Served(v, svc, WrView(v, WritableNext(v.pipe, SendText, c)), svc')
  {
    hide Classify;
  }

  lemma WrStateServed(v: View, c: Choice, svc: Svc, svc': Svc)
    requires v.role == Wr(ReadState) && Flowing(v) && !BeforeWrites(svc) && !BeforeWrites(svc')
    ensures Served(v, svc, WrView(v, WritableNext(v.pipe, ReadState, c)), svc')
  {
    hide Classify;
  }

  lemma WrAudioServed(v: View, c: Choice, svc: Svc, svc': Svc)
    requires v.role == Wr(SendAudio) && Flowing(v) && !BeforeWrites(svc) && !BeforeWrites(svc')
    ensures Served(v, svc, WrView(v, WritableNext(v.pipe, SendAudio, c)), svc')
  {
    hide Classify;
  }

  lemma WrServed(v: View, c: Choice, svc: Svc, svc': Svc)
    requires v.role.Wr? && Flowing(v) && c.ok && !BeforeWrites(svc) && !BeforeWrites(svc')
    ensures Served(v, svc, WrView(v, WritableNext(v.pipe, v.role.wr, c)), svc')
  {
    hide Served, WrView, WritableNext;
    match v.role.wr {
      case ReadGracefulFlag => WrFlagServed(v, c, svc, svc');
      case SendText => WrTextServed(v, c, svc, svc');
      case ReadState => WrStateServed(v, c, svc, svc');
      case SendAudio => WrAudioServed(v, c, svc, svc');
    }
  }

  lemma CallbackEnds(s: Sys, c: Choice)
    requires InCallback(s.svc) && ServiceEnabled(s, c)
    ensures !BeforeWrites(s.svc) && !BeforeWrites(ServiceStep(s, c).svc)
  {
  }

  lemma CallbackServed(s: Sys, c: Choice, p: PipeId)
    requires Inv(s) && ServiceEnabled(s, c) && InCallback(s.svc) && p in s.pipes && Flowing(ViewOf(s, p))
    requires c.ok && c.meta.None?
    ensures ServedIn(s, ServiceStep(s, c), p)
  {
    var v, svc' := ViewOf(s, p), ServiceStep(s, c).svc;
    CallbackEnds(s, c);
    if s.svc.p != p {
      CallbackLeaves(s, c, p);
      SameWait(v, s.svc, ViewOf(ServiceStep(s, c), p), svc');
    } else {
      CallbackOwn(s, c);
      match s.svc {
        case EstCb(_, _, _) => EstServed(v, c, s.svc, svc');
        case WritableCb(_, _, _) => WrServed(v, c, s.svc, svc');
        case _ =>
      }
    }
    hide Inv, Served, EstNext, WritableNext;
  }

  lemma ServiceServed(s: Sys, c: Choice, p: PipeId)
    requires Inv(s) && ServiceEnabled(s, c) && !s.svc.SvcIdle? && p in s.pipes && Flowing(ViewOf(s, p))
    requires c.ok && c.meta.None?
    ensures ServedIn(s, ServiceStep(s, c), p) && SvcRank(ServiceStep(s, c)) < SvcRank(s)
  {
    hide Inv, Flowing, ServedIn, ServiceStep, SvcRank;
    if InCallback(s.svc) {
      CallbackServed(s, c, p);
      CallbackRankFalls(s, c);
    } else if s.svc.ConnScan? || s.svc.ConnLoop? {
      ConnServed(s, c, p);
      ConnRankFalls(s, c);
    } else {
      ListRankFalls(s, c);
      if s.svc.DiscScan? {
        DiscScanServed(s, c, p);
      } else if s.svc.WriteScan? {
        WriteScanServed(s, c, p);
      } else {
        LoopServed(s, c, p);
      }
    }
  }

  // ---------------------------------------------------------------- an idle service thread

  /** One step nearer. */
  ghost predicate Nears(s: Sys, step: Step, p: PipeId) {
    && Enabled(s, step) && ServiceOnly(step) && ServedIn(s, Apply(s, step), p)
    && (Wait(ViewOf(Apply(s, step), p), Apply(s, step).svc) < Wait(ViewOf(s, p), s.svc)
        || SvcRank(Apply(s, step)) < SvcRank(s))
  }

  lemma WakeNears(s: Sys, p: PipeId)
    requires s.svc.SvcIdle? && s.wake && p in s.pipes && p in s.writes && Flowing(ViewOf(s, p)) && Pending(s.pipes[p])
    requires !(LinkOf(s, p).Linked? && LinkOf(s, p).writable)
    ensures Nears(s, WakeUp, p)
  {
    assert LinkOf(Apply(s, WakeUp), p) == LinkOf(s, p);
  }

  lemma WritableNears(s: Sys, p: PipeId)
    requires Inv(s) && s.svc.SvcIdle? && p in s.pipes && Flowing(ViewOf(s, p)) && Pending(s.pipes[p])
    requires LinkOf(s, p).Linked? && LinkOf(s, p).writable
    ensures s.pipes[p].wsi.Some? && Nears(s, OnWritable(s.pipes[p].wsi.value), p)
  {
    assert LinkOf(s, p).phase.Open?;
    hide LocalInv, Flowing, Pending, Nears;
    AttachedToOwner(s, s.pipes[p].wsi.value);
    WritableNearsBy(s, s.pipes[p].wsi.value, p);
  }

  lemma WritableNearsBy(s: Sys, w: Wsi, p: PipeId)
    requires s.svc.SvcIdle? && p in s.pipes && Flowing(ViewOf(s, p)) && Pending(s.pipes[p]) && SocksOk(s)
    requires w in s.socks && s.socks[w].owner == p && s.socks[w].attached == Some(p) && s.pipes[p].wsi == Some(w)
    requires s.socks[w].phase.Open? && s.socks[w].writable
    ensures Nears(s, OnWritable(w), p)
  {
    WritableView(s, w, p);
    assert Apply(s, OnWritable(w)) == BeginWritable(s, w);
    var v, v' := ViewOf(s, p), ViewOf(BeginWritable(s, w), p);
    assert v.link.Linked? && v.link.writable && v.role.NoRole?;
    hide Wait, Served, Flowing, ViewOf, SocksOk;
    AttendedWait(v, s.svc, v', BeginWritable(s, w).svc);
  }

  lemma AttendedWait(v: View, svc: Svc, v': View, svc': Svc)
    requires v.link.Linked? && v.link.writable && v.role.NoRole? && Flowing(v) && Pending(v.pipe)
    requires v'.pipe == v.pipe && v'.role == Wr(ReadGracefulFlag) && v'.link == v.link.(writable := false)
    ensures Served(v, svc, v', svc') && Wait(v', svc') < Wait(v, svc)
  {
    hide BeforeWrites;
  }

  lemma IdleOwed(s: Sys, p: PipeId)
    requires AllOwed(s) && s.svc.SvcIdle? && p in s.pipes && Flowing(ViewOf(s, p)) && Pending(s.pipes[p])
    ensures LinkOf(s, p).Linked? && (LinkOf(s, p).writable || (p in s.writes && s.wake))
  {
    assert OwedIn(s, p);
    hide Classify;
  }

  lemma ServiceNears(s: Sys, p: PipeId) returns (step: Step)
    requires Inv(s) && !s.svc.SvcIdle? && p in s.pipes && Flowing(ViewOf(s, p))
    ensures Nears(s, step, p)
  {
    hide Flowing, Served, Wait, Inv, SvcRank, ServiceStep;
    var w := UnusedSocket(s.socks.Keys);
    var c := Choice(Some(w), true, None);
    step := Service(c);
    ServiceReady(s, c);
    ServiceServed(s, c, p);
  }

  lemma Nearer(s: Sys, p: PipeId) returns (step: Step)
    requires Books(s) && p in s.pipes && Flowing(ViewOf(s, p)) && Pending(s.pipes[p])
    ensures Nears(s, step, p)
  {
    hide Inv, Flowing, Pending, Nears, AllOwed;
    if !s.svc.SvcIdle? {
      step := ServiceNears(s, p);
    } else {
      IdleOwed(s, p);
      if LinkOf(s, p).Linked? && LinkOf(s, p).writable {
        WritableNears(s, p);
        step := OnWritable(s.pipes[p].wsi.value);
      } else {
        WakeNears(s, p);
        step := WakeUp;
      }
    }
  }

  lemma NotPendingMeans(s: Sys, p: PipeId)
    requires TextIn(s, p) && Flowing(ViewOf(s, p)) && !Pending(s.pipes[p])
    ensures var q := s.pipes[p];
      if q.graceful then q.out.flushed else q.out.sent == q.out.offered && q.out.text == "" && !q.out.audio
  {
    assert s.pipes[p].out.sent + "" == s.pipes[p].out.sent;
    hide Classify;
  }

  /** The service thread has seen to everything, and nothing was added meanwhile. */
  predicate AllDelivered(q: Pipe, q': Pipe) {
    && q'.out.offered == q.out.offered && q'.graceful == q.graceful
    && if q.graceful then q'.out.flushed else q'.out.sent == q'.out.offered && q'.out.text == "" && !q'.out.audio
  }

  lemma ServedKeeps(s: Sys, s': Sys, p: PipeId)
    requires ServedIn(s, s', p)
    ensures Flowing(ViewOf(s', p)) && Wait(ViewOf(s', p), s'.svc) <= Wait(ViewOf(s, p), s.svc)
    ensures s'.pipes[p].graceful == s.pipes[p].graceful && s'.pipes[p].out.offered == s.pipes[p].out.offered
  {
  }

  lemma {:induction false} Deliver(s: Sys, p: PipeId) returns (run: seq<Step>)
    requires Books(s) && p in s.pipes && Flowing(ViewOf(s, p))
    ensures ValidRun(s, run) && ServiceRun(run) && p in Exec(s, run).pipes
    ensures AllDelivered(s.pipes[p], Exec(s, run).pipes[p])
    decreases Wait(ViewOf(s, p), s.svc), SvcRank(s)
  {
    hide Inv, Wait, SvcRank, Flowing, ServiceOnly, Apply, Enabled, TextIn, OwedIn, ViewOf;
    if !Pending(s.pipes[p]) {
      run := [];
      assert TextIn(s, p);
      NotPendingMeans(s, p);
    } else {
      var step := Nearer(s, p);
      ServedKeeps(s, Apply(s, step), p);
      StepBooks(s, step);
      var rest := Deliver(Apply(s, step), p);
      run := [step] + rest;
      assert run[1..] == rest;
    }
  }

  // ---------------------------------------------------------------- text on a pipe that is being closed

  /** Text queued before a close that this side has started, or is about to start on the
      service thread: the writable callback that will close the socket sends it first. */
  predicate Parting(v: View) {
    && v.pipe.out.text != "" && !v.pipe.graceful && v.link.Linked? && v.link.phase.Open? && !v.role.Clo?
    && ((v.pipe.state.CONNECTED? && SwapAhead(v))
        || (v.pipe.state.DISCONNECTING? && !v.pipe.client.CloseDue? && v.role != Wr(ReadState)))
  }

  predicate Parts(v: View, v': View) {
    && v'.pipe.out.offered == v.pipe.out.offered && v'.link.Linked? && v'.link.phase.Open?
    && (Parting(v') || v'.pipe.out.text == "")
  }

  predicate PartsIn(s: Sys, s': Sys, p: PipeId) {
    p in s.pipes && p in s'.pipes && Parts(ViewOf(s, p), ViewOf(s', p))
  }

  lemma EstParts(v: View, c: Choice)
    requires LocalInv(v) && v.role.Est? && Parting(v) && c.meta.None?
    ensures Parts(v, EstView(v, EstNext(v.pipe, v.role.est, c)))
  {
    hide OwedOk, Classify;
    assert v.pipe.out.text + "" == v.pipe.out.text && v.pipe.out.offered + "" == v.pipe.out.offered;
  }

  lemma WrFlagParts(v: View, c: Choice)
    requires v.role == Wr(ReadGracefulFlag) && Parting(v)
    ensures Parts(v, WrView(v, WritableNext(v.pipe, ReadGracefulFlag, c)))
  {
    hide Classify;
  }

  lemma WrTextParts(v: View, c: Choice)
    requires v.role == Wr(SendText) && Parting(v) && c.ok
    ensures Parts(v, WrView(v, WritableNext(v.pipe, SendText, c)))
  {
    hide Classify;
  }

  lemma WrAudioParts(v: View, c: Choice)
    requires v.role == Wr(SendAudio) && Parting(v)
    ensures Parts(v, WrView(v, WritableNext(v.pipe, SendAudio, c)))
  {
    hide Classify;
  }

  lemma WrParts(v: View, c: Choice)
    requires v.role.Wr? && Parting(v) && c.ok
    ensures Parts(v, WrView(v, WritableNext(v.pipe, v.role.wr, c)))
  {
    hide Parts, WrView, WritableNext;
    match v.role.wr {
      case ReadGracefulFlag => WrFlagParts(v, c);
      case SendText => WrTextParts(v, c);
      case ReadState =>
      case SendAudio => WrAudioParts(v, c);
    }
  }

  lemma SameParts(v: View, v': View)
    requires Parting(v) && v'.pipe == v.pipe && v'.link.Linked? && v'.link.phase == v.link.phase
    requires v'.role == v.role || (Listless(v'.role) && !v.role.Est?)
    ensures Parts(v, v')
  {
  }

  lemma PartingRole(v: View)
    requires LocalInv(v) && Parting(v)
    ensures v.role.Est? || v.role.Wr? || Listless(v.role)
    ensures WasConnected(v.pipe.state) && (v.role.NoRole? ==> v.pipe.state.DISCONNECTING?)
  {
  }

  lemma CallbackParts(s: Sys, c: Choice, p: PipeId)
    requires Inv(s) && ServiceEnabled(s, c) && InCallback(s.svc) && p in s.pipes && Parting(ViewOf(s, p))
    requires c.ok && c.meta.None?
    ensures PartsIn(s, ServiceStep(s, c), p)
  {
    var v := ViewOf(s, p);
    if s.svc.p != p {
      CallbackLeaves(s, c, p);
      SameParts(v, ViewOf(ServiceStep(s, c), p));
    } else {
      CallbackOwn(s, c);
      match s.svc {
        case EstCb(_, _, _) => EstParts(v, c);
        case WritableCb(_, _, _) => WrParts(v, c);
        case _ =>
      }
    }
    hide Inv, Parts, EstNext, WritableNext;
  }

  lemma PassRole(svc: Svc, p: PipeId)
    requires !InCallback(svc)
    ensures !RoleOf(svc, p).Est? && !RoleOf(svc, p).Wr?
  {
  }

  lemma PassParts(s: Sys, c: Choice, p: PipeId)
    requires Inv(s) && ServiceEnabled(s, c) && !InCallback(s.svc) && !s.svc.SvcIdle? && p in s.pipes && Parting(ViewOf(s, p))
    ensures PartsIn(s, ServiceStep(s, c), p)
  {
    PartingRole(ViewOf(s, p));
    PassRole(s.svc, p);
    hide Parting, Parts, Inv;
    PassLeaves(s, c, p);
    SameParts(ViewOf(s, p), ViewOf(ServiceStep(s, c), p));
  }

  ghost predicate Parted(s: Sys, step: Step, p: PipeId) {
    && Enabled(s, step) && ServiceOnly(step) && PartsIn(s, Apply(s, step), p)
    && Below(Apply(s, step), s, p)
  }

  lemma ServiceParted(s: Sys, p: PipeId) returns (step: Step)
    requires Inv(s) && !s.svc.SvcIdle? && p in s.pipes && Parting(ViewOf(s, p))
    ensures Parted(s, step, p)
  {
    var w := UnusedSocket(s.socks.Keys);
    var c := Choice(Some(w), true, None);
    step := Service(c);
    hide Inv, Below, PartsIn, ServiceStep;
    ServiceReady(s, c);
    ServiceBelow(s, c, p);
    if InCallback(s.svc) { CallbackParts(s, c, p); } else { PassParts(s, c, p); }
  }

  lemma PartingOwed(v: View)
    requires LocalInv(v) && v.role.NoRole? && Parting(v)
    ensures v.pipe.wsi.Some? && v.link.Linked? && v.link.phase.Open? && (v.link.writable || (v.inD && v.covD))
  {
  }

  lemma WakeParted(s: Sys, p: PipeId)
    requires s.svc.SvcIdle? && s.wake && p in s.pipes && Parting(ViewOf(s, p)) && NeedsPass(ViewOf(s, p))
    ensures Parted(s, WakeUp, p)
  {
    WakeHelps(s, p, Env(true, true));
    assert LinkOf(Apply(s, WakeUp), p) == LinkOf(s, p);
    hide Below, NeedsPass;
  }

  lemma WritableParted(s: Sys, p: PipeId, w: Wsi)
    requires ConnectedBy(s, p, w) && SocksOk(s) && s.socks[w].phase.Open? && s.socks[w].writable && Parting(ViewOf(s, p))
    ensures Parted(s, OnWritable(w), p)
  {
    WritableHelps(s, p, w, Env(true, true));
    WritableView(s, w, p);
    assert Apply(s, OnWritable(w)) == BeginWritable(s, w);
    hide Below, BeginWritable;
  }

  lemma IdleParted(s: Sys, p: PipeId) returns (step: Step)
    requires Inv(s) && s.svc.SvcIdle? && p in s.pipes && Parting(ViewOf(s, p))
    ensures Parted(s, step, p)
  {
    PartingRole(ViewOf(s, p));
    PartingOwed(ViewOf(s, p));
    var w := s.pipes[p].wsi.value;
    AttachedToOwner(s, w);
    hide LocalInv, Parted;
    if s.socks[w].writable {
      step := OnWritable(w);
      WritableParted(s, p, w);
    } else {
      step := WakeUp;
      WakeParted(s, p);
    }
  }

  lemma PartedKeeps(s: Sys, s': Sys, p: PipeId)
    requires PartsIn(s, s', p)
    ensures p in s'.pipes && s'.pipes[p].out.offered == s.pipes[p].out.offered
    ensures Parting(ViewOf(s', p)) || (s'.pipes[p].out.text == "" && LinkOf(s', p).Linked? && LinkOf(s', p).phase.Open?)
  {
  }

  lemma AllSent(s: Sys, p: PipeId)
    requires TextIn(s, p) && s.pipes[p].out.text == "" && LinkOf(s, p).Linked? && LinkOf(s, p).phase.Open?
    ensures s.pipes[p].out.sent == s.pipes[p].out.offered
  {
    assert s.pipes[p].out.sent + "" == s.pipes[p].out.sent;
  }

  ghost predicate TextBooks(s: Sys) {
    Inv(s) && AllText(s)
  }

  lemma StepTextBooks(s: Sys, step: Step)
    requires TextBooks(s) && Enabled(s, step)
    ensures TextBooks(Apply(s, step))
  {
    hide Inv, TextIn;
    var s' := Apply(s, step);
    StepKeeps(s, step);
    forall p | p in s'.pipes ensures TextIn(s', p) {
      if p in s.pipes { StepText(s, step, p); } else { CreatesText(s, step, p); }
    }
  }

  predicate TextDelivered(q: Pipe, q': Pipe) {
    q'.out.offered == q.out.offered && q'.out.sent == q'.out.offered && q'.out.text == ""
  }

  lemma {:induction false} DeliverText(s: Sys, p: PipeId) returns (run: seq<Step>)
    requires TextBooks(s) && p in s.pipes && Parting(ViewOf(s, p))
    ensures ValidRun(s, run) && ServiceRun(run) && p in Exec(s, run).pipes
    ensures TextDelivered(s.pipes[p], Exec(s, run).pipes[p])
    decreases OwnerRank(s.pipes[p].client), StateRank(s.pipes[p].state), Delay(ViewOf(s, p), s.svc), SvcRank(s)
  {
    hide Inv, Delay, Parting, PartsIn, ServiceOnly, TextIn, OwnerRank, StateRank, SvcRank, ViewOf, LinkOf, Apply, Enabled;
    var step: Step;
    if s.svc.SvcIdle? { step := IdleParted(s, p); } else { step := ServiceParted(s, p); }
    var s' := Apply(s, step);
    PartedKeeps(s, s', p);
    StepTextBooks(s, step);
    var rest := [];
    if Parting(ViewOf(s', p)) {
      rest := DeliverText(s', p);
    } else {
      assert TextIn(s', p);
      AllSent(s', p);
    }
    run := [step] + rest;
    assert run[1..] == rest;
  }

  // ---------------------------------------------------------------- main results

  /** After any run, the service thread alone can hand over all the text accepted on a connected
      pipe with an open socket and a clear graceful flag, also when a close() is being completed. */
  lemma TextGoesOut(run: seq<Step>, p: PipeId)
    requires ValidRun(EMPTY, run)
    requires var s := Exec(EMPTY, run); p in s.pipes && Serving(ViewOf(s, p)) && !s.pipes[p].graceful
    ensures var s := Exec(EMPTY, run);
      exists more :: ValidRun(s, more) && ServiceRun(more) && p in Exec(s, more).pipes
                     && TextDelivered(s.pipes[p], Exec(s, more).pipes[p])
  {
    EmptyBooks();
    RunBooks(EMPTY, run);
    var s := Exec(EMPTY, run);
    hide Inv, OwedIn, WritesCovered;
    if SwapAhead(ViewOf(s, p)) && s.pipes[p].out.text != "" {
      var more := DeliverText(s, p);
    } else if SwapAhead(ViewOf(s, p)) {
      assert TextIn(s, p);
      AllSent(s, p);
      assert ValidRun(s, []) && ServiceRun([]) && TextDelivered(s.pipes[p], Exec(s, []).pipes[p]);
    } else {
      var more := Deliver(s, p);
    }
  }

  /** And the buffered audio, or the zero-length frame once the flag is set, unless a close()
      is being completed or whoever set the flag is still inside do_graceful_shutdown. */
  lemma EverythingGoesOut(run: seq<Step>, p: PipeId)
    requires ValidRun(EMPTY, run)
    requires var s := Exec(EMPTY, run); p in s.pipes && Flowing(ViewOf(s, p))
    ensures var s := Exec(EMPTY, run);
      exists more :: ValidRun(s, more) && ServiceRun(more) && p in Exec(s, more).pipes
                     && AllDelivered(s.pipes[p], Exec(s, more).pipes[p])
  {
    EmptyBooks();
    RunBooks(EMPTY, run);
    hide Inv, OwedIn, WritesCovered, Flowing;
    var more := Deliver(Exec(EMPTY, run), p);
  }
}
