/** A reaper that waits can always be served: whatever state a run has reached, the
    service thread and the reaper alone bring a handed-off pipe to its deletion, however
    its handshake ends and without the far end doing anything, as long as the graceful
    flag is clear. */
module PipeReaper {
  import opened Common
  import opened PipeModel
  import opened PipeInv
  import opened PipeClient
  import opened PipeCallbacks
  import opened PipeService
  import opened PipeEvents
  import opened PipeProgress
  import opened PipeSafety

  /** How the environment behaves: whether lws_client_connect_via_info returns a socket,
      and whether a handshake succeeds. */
  datatype Env = Env(reachable: bool, accepted: bool)

  /** The steps that need nobody but this process: no socket is closed by its far end, and
      writes succeed. */
  predicate Local(s: Sys, step: Step, env: Env) {
    match step
    case OnError(_) => !env.accepted
    case OnEstablished(_) => env.accepted
    case OnClosed(w) => w in s.socks && s.socks[w].phase.Ending?
    case Service(c) => c.ok && c.conn.Some? == env.reachable
    case _ => true
  }

  predicate LocalRun(s: Sys, run: seq<Step>, env: Env)
    requires ValidRun(s, run)
    decreases |run|
  {
    run == [] || (Local(s, run[0], env) && LocalRun(Apply(s, run[0]), run[1..], env))
  }

  // ---------------------------------------------------------------- the rank

  function OwnerRank(c: Client): nat {
    match c
    case CloseRead => 9
    case CloseStore => 8
    case CloseRecheck => 7
    case CloseSwap => 6
    case CloseDue => 5
    case Waiting => 4
    case DropConnects => 3
    case DropDisconnects => 2
    case DropWrites => 1
    case _ => 0
  }

  function StateRank(st: LwsState): nat {
    match st
    case IDLE => 4
    case CONNECTING => 3
    case CONNECTED => 2
    case DISCONNECTING => 1
    case _ => 0
  }

  /** The passes that still lie before the end of the scan of pendingDisconnects. */
  predicate Early(svc: Svc) {
    svc.ConnScan? || svc.ConnLoop? || svc.DiscScan?
  }

  /** How far the service thread is from the step that changes the pipe's state; the text
      still queued delays the close by one writable callback. */
  function Delay(v: View, svc: Svc): nat {
    var queued := if v.pipe.out.text == "" then 0 else 2;
    match v.pipe.state
    case IDLE => if v.pipe.issued && !svc.ConnScan? then 1 else 0
    case DISCONNECTING =>
      if v.role.Est? then 10
      else if v.role.Clo? then 0
      else if v.link.Linked? && v.link.phase.Ending? then 1
      else if v.role.Wr? && !v.role.wr.SendAudio? then 2 + queued
      else if v.link.Linked? && v.link.writable then 3 + queued
      else if v.role.DiscHit? then 6
      else if v.inD then (if Early(svc) then 7 else 8)
      else 9
    case _ => 0
  }

  function EstRank(at: EstAt): nat {
    match at
    case ReadPending => 8
    case EstCloseRead => 7
    case EstCloseSwap => 6
    case EstCloseDue => 5
    case ReadGraceful => 4
    case NotifySuccess => 3
    case Metadata => 2
    case MetadataText => 1
  }

  function CloRank(at: CloAt): nat {
    match at
    case ReadFirst => 4
    case ReadSecond => 3
    case StoreDisconnected => 2
    case Detach => 1
  }

  function WrRank(at: WriteAt): nat {
    match at
    case ReadGracefulFlag => 4
    case SendText => 3
    case ReadState => 2
    case SendAudio => 1
  }

  function Left(l: seq<PipeId>, pos: nat): nat {
    if pos <= |l| then 2 * (|l| - pos) else 0
  }

  /** An upper bound on the steps left in what the service thread is doing. */
  function SvcRank(s: Sys): nat {
    match s.svc
    case SvcIdle => 0
    case ConnScan(pos, todo) => 6 + 2 * |s.writes| + 2 * |s.disconnects| + Left(s.connects, pos) + |todo|
    case ConnLoop(todo) => 5 + 2 * |s.writes| + 2 * |s.disconnects| + |todo|
    case DiscScan(pos, hits) => 4 + 2 * |s.writes| + Left(s.disconnects, pos) + |hits|
    case DiscLoop(hits) => 3 + 2 * |s.writes| + |hits|
    case WriteScan(pos, hits) => 2 + Left(s.writes, pos) + |hits|
    case WriteLoop(hits) => 1 + |hits|
    case EstCb(_, _, at) => EstRank(at)
    case ClosedCb(_, _, at) => CloRank(at)
    case WritableCb(_, _, at) => WrRank(at)
  }

  /** Lexicographically: the owner, the state, the delay, the service thread. */
  predicate Below(s': Sys, s: Sys, p: PipeId)
    requires p in s.pipes && p in s'.pipes
  {
    var q, q' := s.pipes[p], s'.pipes[p];
    var o, o' := OwnerRank(q.client), OwnerRank(q'.client);
    var t, t' := StateRank(q.state), StateRank(q'.state);
    var d, d' := Delay(ViewOf(s, p), s.svc), Delay(ViewOf(s', p), s'.svc);
    o' < o || (o' == o && (t' < t || (t' == t && (d' < d || (d' == d && SvcRank(s') < SvcRank(s))))))
  }

  // ---------------------------------------------------------------- the service thread gets through its work

  lemma ConnRankFalls(s: Sys, c: Choice)
    requires ServiceEnabled(s, c) && (s.svc.ConnScan? || s.svc.ConnLoop?)
    ensures SvcRank(ServiceStep(s, c)) < SvcRank(s)
  {
  }

  lemma ListRankFalls(s: Sys, c: Choice)
    requires ServiceEnabled(s, c) && (s.svc.DiscScan? || s.svc.DiscLoop? || s.svc.WriteScan? || s.svc.WriteLoop?)
    ensures SvcRank(ServiceStep(s, c)) < SvcRank(s)
  {
  }

  lemma CallbackRankFalls(s: Sys, c: Choice)
    requires ServiceEnabled(s, c) && InCallback(s.svc)
    ensures SvcRank(ServiceStep(s, c)) < SvcRank(s)
  {
  }

  // ---------------------------------------------------------------- and nobody falls back meanwhile

  lemma IdleListed(v: View)
    requires LocalInv(v) && v.pipe.state.IDLE? && v.pipe.issued
    ensures v.inC && v.role.NoRole?
  {
  }

  lemma SameDelay(v: View, svc: Svc, v': View, svc': Svc)
    requires v' == v.(covC := v'.covC, covD := v'.covD)
    requires v.pipe.state.IDLE? && v.pipe.issued && svc.ConnScan? ==> svc'.ConnScan?
    requires v.inD && Early(svc) ==> Early(svc')
    ensures Delay(v', svc') <= Delay(v, svc)
  {
  }

  predicate Steady(s: Sys, s': Sys, p: PipeId) {
    && p in s.pipes && p in s'.pipes
    && (s'.pipes[p].state == s.pipes[p].state ==> Delay(ViewOf(s', p), s'.svc) <= Delay(ViewOf(s, p), s.svc))
  }

  lemma ConnScanSteady(s: Sys, pos: nat, todo: seq<PipeId>, p: PipeId)
    requires s.svc == ConnScan(pos, todo) && pos < |s.connects| && s.connects[pos] in s.pipes && p in s.pipes
    ensures Steady(s, ConnScanStep(s, pos, todo), p)
  {
    var s' := ConnScanStep(s, pos, todo);
    if p == s.connects[pos] {
      ConnScanView(s, pos, todo);
    } else {
      ConnScanOther(s, pos, todo, p);
    }
    if s'.pipes[p].state == s.pipes[p].state {
      SameDelay(ViewOf(s, p), s.svc, ViewOf(s', p), s'.svc);
    }
  }

  lemma ScannedAll(s: Sys, p: PipeId)
    requires Inv(s) && s.svc.ConnScan? && s.svc.pos == |s.connects| && p in s.pipes
    ensures !(s.pipes[p].state.IDLE? && s.pipes[p].issued)
  {
    assert s.connects[..s.svc.pos] == s.connects;
    if s.pipes[p].state.IDLE? && s.pipes[p].issued {
      IdleListed(ViewOf(s, p));
    }
  }

  lemma ConnScanEndsSteady(s: Sys, p: PipeId)
    requires Inv(s) && s.svc.ConnScan? && s.svc.pos == |s.connects| && p in s.pipes
    ensures Steady(s, ConnScanStep(s, s.svc.pos, s.svc.todo), p)
  {
    var s' := ConnScanStep(s, s.svc.pos, s.svc.todo);
    ScannedAll(s, p);
    assert ViewOf(s', p) == ViewOf(s, p);
    SameDelay(ViewOf(s, p), s.svc, ViewOf(s', p), s'.svc);
  }

  lemma ConnLoopSteady(s: Sys, todo: seq<PipeId>, c: Choice, p: PipeId)
    requires ConnLoopGoesOn(s, todo, c) && p in s.pipes
    ensures Steady(s, ConnLoopStep(s, todo, c), p)
  {
    var s' := ConnLoopStep(s, todo, c);
    if p == todo[0] {
      ConnLoopView(s, todo, c);
    } else {
      ConnLoopOther(s, todo, c, p);
      SameDelay(ViewOf(s, p), s.svc, ViewOf(s', p), s'.svc);
    }
  }

  lemma ConnLoopEndsSteady(s: Sys, c: Choice, p: PipeId)
    requires s.svc == ConnLoop([]) && p in s.pipes
    ensures Steady(s, ConnLoopStep(s, [], c), p)
  {
    var s' := ConnLoopStep(s, [], c);
    assert ViewOf(s', p) == ViewOf(s, p);
    SameDelay(ViewOf(s, p), s.svc, ViewOf(s', p), s'.svc);
  }

  lemma DiscScanSteady(s: Sys, hits: seq<PipeId>, p: PipeId)
    requires s.svc == DiscScan(0, hits) && s.disconnects != [] && s.disconnects[0] in s.pipes && p in s.pipes
    requires s.pipes[s.disconnects[0]].vhd
    ensures Steady(s, DiscScanStep(s, 0, hits), p)
  {
    DiscScanView(s, hits, p);
  }

  lemma DiscScanEndsSteady(s: Sys, hits: seq<PipeId>, p: PipeId)
    requires s.svc == DiscScan(0, hits) && s.disconnects == [] && p in s.pipes
    ensures Steady(s, DiscScanStep(s, 0, hits), p)
  {
    var s' := DiscScanStep(s, 0, hits);
    assert ViewOf(s', p) == ViewOf(s, p).(covD := s.wake);
    SameDelay(ViewOf(s, p), s.svc, ViewOf(s', p), s'.svc);
  }

  lemma WriteScanSteady(s: Sys, hits: seq<PipeId>, p: PipeId)
    requires s.svc == WriteScan(0, hits) && s.writes != [] && s.writes[0] in s.pipes && p in s.pipes
    requires s.pipes[s.writes[0]].vhd
    ensures Steady(s, WriteScanStep(s, 0, hits), p)
  {
    WriteScanView(s, hits, p);
  }

  lemma QuietlySteady(s: Sys, next: Svc, p: PipeId)
    requires p in s.pipes && (HitLoop(s.svc, next) || (s.svc.WriteScan? && next == WriteLoop(s.svc.hits)))
    ensures Steady(s, s.(svc := next), p)
  {
    assert ViewOf(s.(svc := next), p) == ViewOf(s, p);
    SameDelay(ViewOf(s, p), s.svc, ViewOf(s, p), next);
  }

  /** A pipe that has been asked for is next closed by its writable callback. */
  lemma AskSteady(s: Sys, next: Svc, p: PipeId)
    requires HitNext(s.svc, next) && s.svc.hits[0] in s.pipes && p in s.pipes && LinkOf(s, s.svc.hits[0]).Linked?
    ensures Steady(s, AskWritable(s, s.svc.hits[0]).(svc := next), p)
  {
    AskView(s, next, p);
  }

  lemma EstSteady(v: View, c: Choice, svc: Svc)
    requires LocalInv(v) && v.role.Est?
    ensures var v' := EstView(v, EstNext(v.pipe, v.role.est, c));
      v'.pipe.state == v.pipe.state ==> Delay(v', svc) <= Delay(v, svc)
  {
  }

  lemma CloSteady(v: View, c: Choice, svc: Svc)
    requires LocalInv(v) && v.role.Clo?
    ensures var v' := CloView(v, ClosedNext(v.pipe, v.role.clo));
      v'.pipe.state == v.pipe.state ==> Delay(v', svc) <= Delay(v, svc)
  {
  }

  lemma WrSteady(v: View, c: Choice, svc: Svc)
    requires LocalInv(v) && v.role.Wr? && c.ok && !v.pipe.graceful
    ensures var v' := WrView(v, WritableNext(v.pipe, v.role.wr, c));
      v'.pipe.state == v.pipe.state ==> Delay(v', svc) <= Delay(v, svc)
  {
  }

  /** Outside the scans of connects and disconnects the delay is the view's alone. */
  lemma DelayLate(v: View, svc: Svc, svc': Svc)
    requires !Early(svc) && !Early(svc')
    ensures Delay(v, svc) == Delay(v, svc')
  {
  }

  lemma CallbackOtherSteady(s: Sys, p: PipeId, w: Wsi, u: Upd, op: SockOp, next: Svc, x: PipeId)
    requires CallbackGoesOn(s, p, w, u, op, next) && x in s.pipes && x != p
    ensures Steady(s, Callback(s, p, w, u, op, next), x)
  {
    OtherCallbackView(s, p, w, u, op, next, x);
    SameDelay(ViewOf(s, x), s.svc, ViewOf(Callback(s, p, w, u, op, next), x), next);
  }

  lemma CallbackOwnSteady(s: Sys, p: PipeId, w: Wsi, u: Upd, op: SockOp, next: Svc)
    requires CallbackGoesOn(s, p, w, u, op, next)
    requires var v' := CbView(ViewOf(s, p), u, op, RoleOf(next, p));
      v'.pipe.state == s.pipes[p].state ==> Delay(v', s.svc) <= Delay(ViewOf(s, p), s.svc)
    ensures Steady(s, Callback(s, p, w, u, op, next), p)
  {
    CallbackView(s, p, w, u, op, next);
    DelayLate(CbView(ViewOf(s, p), u, op, RoleOf(next, p)), s.svc, next);
  }

  lemma EstOwnSteady(s: Sys, c: Choice)
    requires s.svc.EstCb? && Owns(s, s.svc.p, s.svc.w) && LocalInv(ViewOf(s, s.svc.p))
    ensures ServiceEnabled(s, c) && Steady(s, ServiceStep(s, c), s.svc.p)
  {
    var p, w, at := s.svc.p, s.svc.w, s.svc.est;
    var n := EstNext(s.pipes[p], at, c);
    EstSteady(ViewOf(s, p), c, s.svc);
    CallbackOwnSteady(s, p, w, n.upd, n.sock, if n.next.Some? then EstCb(p, w, n.next.value) else SvcIdle);
  }

  lemma EstOtherSteady(s: Sys, c: Choice, x: PipeId)
    requires s.svc.EstCb? && Owns(s, s.svc.p, s.svc.w) && x in s.pipes && x != s.svc.p
    ensures ServiceEnabled(s, c) && Steady(s, ServiceStep(s, c), x)
  {
    var p, w, at := s.svc.p, s.svc.w, s.svc.est;
    var n := EstNext(s.pipes[p], at, c);
    CallbackOtherSteady(s, p, w, n.upd, n.sock, if n.next.Some? then EstCb(p, w, n.next.value) else SvcIdle, x);
  }

  lemma ClosedOwnSteady(s: Sys, c: Choice)
    requires s.svc.ClosedCb? && Owns(s, s.svc.p, s.svc.w) && LocalInv(ViewOf(s, s.svc.p))
    ensures ServiceEnabled(s, c) && Steady(s, ServiceStep(s, c), s.svc.p)
  {
    var p, w, at := s.svc.p, s.svc.w, s.svc.clo;
    var n := ClosedNext(s.pipes[p], at);
    CloSteady(ViewOf(s, p), c, s.svc);
    CallbackOwnSteady(s, p, w, n.upd, n.sock, if n.next.Some? then ClosedCb(p, w, n.next.value) else SvcIdle);
  }

  lemma ClosedOtherSteady(s: Sys, c: Choice, x: PipeId)
    requires s.svc.ClosedCb? && Owns(s, s.svc.p, s.svc.w) && x in s.pipes && x != s.svc.p
    ensures ServiceEnabled(s, c) && Steady(s, ServiceStep(s, c), x)
  {
    var p, w, at := s.svc.p, s.svc.w, s.svc.clo;
    var n := ClosedNext(s.pipes[p], at);
    CallbackOtherSteady(s, p, w, n.upd, n.sock, if n.next.Some? then ClosedCb(p, w, n.next.value) else SvcIdle, x);
  }

  lemma WritableOwnSteady(s: Sys, c: Choice)
    requires s.svc.WritableCb? && Owns(s, s.svc.p, s.svc.w) && LocalInv(ViewOf(s, s.svc.p)) && c.ok && !s.pipes[s.svc.p].graceful
    ensures ServiceEnabled(s, c) && Steady(s, ServiceStep(s, c), s.svc.p)
  {
    var p, w, at := s.svc.p, s.svc.w, s.svc.wr;
    var n := WritableNext(s.pipes[p], at, c);
    WrSteady(ViewOf(s, p), c, s.svc);
    CallbackOwnSteady(s, p, w, n.upd, n.sock, if n.next.Some? then WritableCb(p, w, n.next.value) else SvcIdle);
  }

  lemma WritableOtherSteady(s: Sys, c: Choice, x: PipeId)
    requires s.svc.WritableCb? && Owns(s, s.svc.p, s.svc.w) && x in s.pipes && x != s.svc.p
    ensures ServiceEnabled(s, c) && Steady(s, ServiceStep(s, c), x)
  {
    var p, w, at := s.svc.p, s.svc.w, s.svc.wr;
    var n := WritableNext(s.pipes[p], at, c);
    CallbackOtherSteady(s, p, w, n.upd, n.sock, if n.next.Some? then WritableCb(p, w, n.next.value) else SvcIdle, x);
  }

  lemma HitHead(s: Sys)
    requires Inv(s) && (s.svc.DiscLoop? || s.svc.WriteLoop?) && s.svc.hits != []
    ensures s.svc.hits[0] in s.pipes && LinkOf(s, s.svc.hits[0]).Linked?
  {
    var p := s.svc.hits[0];
    assert p in s.svc.hits;
    HitLocal(ViewOf(s, p));
  }

  lemma QueuedHead(s: Sys, p: PipeId)
    requires Inv(s) && (s.svc.DiscScan? || s.svc.WriteScan?) && p in s.pipes && (p in s.disconnects || p in s.writes)
    ensures s.pipes[p].vhd
  {
    QueuedLocal(ViewOf(s, p));
  }

  lemma ListSteady(s: Sys, c: Choice, x: PipeId)
    requires Inv(s) && ServiceEnabled(s, c) && !InCallback(s.svc) && !s.svc.SvcIdle? && x in s.pipes
    ensures Steady(s, ServiceStep(s, c), x)
  {
    match s.svc {
      case SvcIdle =>
      case ConnScan(pos, todo) =>
        if pos == |s.connects| { ConnScanEndsSteady(s, x); } else { ConnScanSteady(s, pos, todo, x); }
      case ConnLoop(todo) => if todo == [] { ConnLoopEndsSteady(s, c, x); } else { ConnLoopSteady(s, todo, c, x); }
      case DiscScan(_, hits) =>
        if s.disconnects == [] {
          DiscScanEndsSteady(s, hits, x);
        } else {
          QueuedHead(s, s.disconnects[0]);
          DiscScanSteady(s, hits, x);
        }
      case DiscLoop(hits) =>
        if hits == [] {
          QuietlySteady(s, WriteScan(0, []), x);
        } else {
          HitHead(s);
          AskSteady(s, DiscLoop(hits[1..]), x);
        }
      case WriteScan(_, hits) =>
        if s.writes == [] {
          QuietlySteady(s, WriteLoop(hits), x);
        } else {
          QueuedHead(s, s.writes[0]);
          WriteScanSteady(s, hits, x);
        }
      case WriteLoop(hits) =>
        if hits == [] {
          QuietlySteady(s, SvcIdle, x);
        } else {
          HitHead(s);
          AskSteady(s, WriteLoop(hits[1..]), x);
        }
      case _ =>
    }
  }

  lemma CallbackSteady(s: Sys, c: Choice, x: PipeId)
    requires Inv(s) && InCallback(s.svc) && x in s.pipes && c.ok && !s.pipes[x].graceful
    ensures ServiceEnabled(s, c) && Steady(s, ServiceStep(s, c), x)
  {
    match s.svc {
      case EstCb(p, _, _) => if x == p { EstOwnSteady(s, c); } else { EstOtherSteady(s, c, x); }
      case ClosedCb(p, _, _) => if x == p { ClosedOwnSteady(s, c); } else { ClosedOtherSteady(s, c, x); }
      case WritableCb(p, _, _) => if x == p { WritableOwnSteady(s, c); } else { WritableOtherSteady(s, c, x); }
      case _ =>
    }
  }

  lemma BelowByService(s: Sys, s': Sys, p: PipeId)
    requires Steady(s, s', p) && MayMove(s.pipes[p].state, s'.pipes[p].state) && SvcRank(s') < SvcRank(s)
    requires s'.pipes[p].client == s.pipes[p].client
    ensures Below(s', s, p)
  {
  }

  /** A step of the service thread leaves the rank lower. */
  lemma ServiceBelow(s: Sys, c: Choice, p: PipeId)
    requires Inv(s) && ServiceEnabled(s, c) && !s.svc.SvcIdle? && p in s.pipes && c.ok && !s.pipes[p].graceful
    ensures p in ServiceStep(s, c).pipes && Below(ServiceStep(s, c), s, p)
  {
    ServiceForward(s, c, p);
    if InCallback(s.svc) {
      CallbackRankFalls(s, c);
      CallbackSteady(s, c, p);
    } else {
      if s.svc.ConnScan? || s.svc.ConnLoop? { ConnRankFalls(s, c); } else { ListRankFalls(s, c); }
      ListSteady(s, c, p);
    }
    BelowByService(s, ServiceStep(s, c), p);
  }

  // ---------------------------------------------------------------- an idle service thread

  lemma ClosingRank(q: Pipe)
    requires HandedOff(q.client) && !Deleting(q.client) && !q.client.Waiting?
    ensures OwnerRank(Continued(q).pipe.client) < OwnerRank(q.client)
  {
    hide ReapNext, GracefulNext;
  }

  lemma DeletingRank(q: Pipe)
    requires q.client.Waiting? || (Deleting(q.client) && !q.client.Gone?)
    ensures OwnerRank(Continued(q).pipe.client) < OwnerRank(q.client)
  {
    ReapRank(q);
    hide CloseNext, DisconnectNext, GracefulNext, ReapNext, OwnerRank;
  }

  lemma ReapRank(q: Pipe)
    requires q.client.Waiting? || (Deleting(q.client) && !q.client.Gone?)
    ensures OwnerRank(ReapNext(q).pipe.client) < OwnerRank(q.client)
  {
    hide Carries;
    match q.client {
      case Waiting => assert ReapNext(q).pipe.client == DropConnects;
      case DropConnects => assert ReapNext(q).pipe.client == DropDisconnects;
      case DropDisconnects => assert ReapNext(q).pipe.client == DropWrites;
      case DropWrites => assert ReapNext(q).pipe.client == Gone;
    }
  }

  lemma ReaperBelow(s: Sys, p: PipeId)
    requires s.svc.SvcIdle? && p in s.pipes && HandedOff(s.pipes[p].client) && !s.pipes[p].client.Gone?
    requires s.pipes[p].client.Waiting? ==> s.pipes[p].closed
    ensures Enabled(s, Continue(p)) && Below(Apply(s, Continue(p)), s, p)
  {
    if s.pipes[p].client.Waiting? || Deleting(s.pipes[p].client) {
      DeletingRank(s.pipes[p]);
    } else {
      ClosingRank(s.pipes[p]);
    }
    OwnerApplies(s, Continue(p));
  }

  /** What a waiting reaper can count on while the service thread is idle. */
  lemma WaitingHas(v: View)
    requires LocalInv(v) && v.role.NoRole? && v.pipe.client.Waiting? && !v.pipe.closed && !v.pipe.graceful
    ensures v.pipe.state.IDLE? || v.pipe.state.CONNECTING? || v.pipe.state.DISCONNECTING?
    ensures v.pipe.state.IDLE? ==> v.pipe.issued && v.covC
    ensures v.pipe.state.CONNECTING? ==> v.link == Linked(Shaking, false, false) && v.pipe.wsi.Some?
    ensures v.pipe.state.DISCONNECTING? ==>
      && v.link.Linked? && !v.link.phase.Shaking? && v.pipe.wsi.Some?
      && (v.link.writable || v.link.phase.Ending? || (v.inD && v.covD))
  {
  }

  ghost predicate Helps(s: Sys, step: Step, p: PipeId, env: Env) {
    && Enabled(s, step) && Local(s, step, env) && p in s.pipes && p in Apply(s, step).pipes
    && Below(Apply(s, step), s, p)
  }

  /** Waking helps a pipe that is still to be connected, or whose disconnect is queued. */
  predicate NeedsPass(v: View) {
    || (v.pipe.state.IDLE? && v.pipe.issued)
    || (v.pipe.state.DISCONNECTING? && v.inD && !(v.link.Linked? && (v.link.writable || v.link.phase.Ending?)))
  }

  lemma WakeHelps(s: Sys, p: PipeId, env: Env)
    requires s.svc.SvcIdle? && s.wake && p in s.pipes && NeedsPass(ViewOf(s, p)) && RoleOf(s.svc, p).NoRole?
    ensures Helps(s, WakeUp, p, env)
  {
    var s' := Apply(s, WakeUp);
    assert LinkOf(s', p) == LinkOf(s, p);
  }

  predicate ConnectedBy(s: Sys, p: PipeId, w: Wsi) {
    && s.svc.SvcIdle? && p in s.pipes && s.pipes[p].wsi == Some(w) && s.pipes[p].state.DISCONNECTING?
    && w in s.socks && s.socks[w].owner == p && s.socks[w].attached == Some(p)
  }

  lemma EndingHelps(s: Sys, p: PipeId, w: Wsi, env: Env)
    requires ConnectedBy(s, p, w) && s.socks[w].phase.Ending?
    ensures Helps(s, OnClosed(w), p, env)
  {
  }

  lemma WritableHelps(s: Sys, p: PipeId, w: Wsi, env: Env)
    requires ConnectedBy(s, p, w) && SocksOk(s) && s.socks[w].phase.Open? && s.socks[w].writable
    ensures Helps(s, OnWritable(w), p, env)
  {
    WritableView(s, w, p);
    assert Apply(s, OnWritable(w)) == BeginWritable(s, w);
  }

  lemma DisconnectHelp(s: Sys, p: PipeId, env: Env) returns (step: Step)
    requires Inv(s) && s.svc.SvcIdle? && p in s.pipes && s.pipes[p].state.DISCONNECTING?
    requires s.pipes[p].client.Waiting? && !s.pipes[p].closed && !s.pipes[p].graceful
    ensures Helps(s, step, p, env)
  {
    WaitingHas(ViewOf(s, p));
    var w := s.pipes[p].wsi.value;
    AttachedToOwner(s, w);
    if s.socks[w].phase.Ending? {
      step := OnClosed(w);
      EndingHelps(s, p, w, env);
    } else if s.socks[w].writable {
      step := OnWritable(w);
      WritableHelps(s, p, w, env);
    } else {
      step := WakeUp;
      WakeHelps(s, p, env);
    }
  }

  lemma ErrorHelps(s: Sys, p: PipeId, w: Wsi, env: Env)
    requires Inv(s) && s.svc.SvcIdle? && w in s.socks && s.socks[w].phase.Shaking? && s.socks[w].owner == p
    requires !env.accepted
    ensures Helps(s, OnError(w), p, env)
  {
    hide LocalInv, Delay, AfterFind, FindAt, SocksOk, ListsOk;
    LookupFinds(s, w);
  }

  lemma EstablishedHelps(s: Sys, p: PipeId, w: Wsi, env: Env)
    requires Inv(s) && s.svc.SvcIdle? && w in s.socks && s.socks[w].phase.Shaking? && s.socks[w].owner == p
    requires env.accepted
    ensures Helps(s, OnEstablished(w), p, env)
  {
    hide LocalInv, Delay, AfterFind, FindAt, SocksOk, ListsOk;
    LookupFinds(s, w);
  }

  lemma HandshakeHelp(s: Sys, p: PipeId, env: Env) returns (step: Step)
    requires Inv(s) && s.svc.SvcIdle? && p in s.pipes && s.pipes[p].state.CONNECTING?
    requires s.pipes[p].client.Waiting? && !s.pipes[p].closed && !s.pipes[p].graceful
    ensures Helps(s, step, p, env)
  {
    WaitingHas(ViewOf(s, p));
    var w := s.pipes[p].wsi.value;
    if env.accepted {
      step := OnEstablished(w);
      EstablishedHelps(s, p, w, env);
    } else {
      step := OnError(w);
      ErrorHelps(s, p, w, env);
    }
  }

  lemma IdleHelp(s: Sys, p: PipeId, env: Env) returns (step: Step)
    requires Inv(s) && s.svc.SvcIdle? && p in s.pipes && s.pipes[p].state.IDLE?
    requires s.pipes[p].client.Waiting? && !s.pipes[p].closed && !s.pipes[p].graceful
    ensures Helps(s, step, p, env)
  {
    WaitingHas(ViewOf(s, p));
    step := WakeUp;
    WakeHelps(s, p, env);
  }

  // ---------------------------------------------------------------- a step that helps always exists

  lemma UnusedSocket(used: set<Wsi>) returns (w: Wsi)
    ensures w !in used
  {
    if used == {} {
      w := 0;
    } else {
      var top: Wsi := 0;
      var rest := used;
      while rest != {}
        invariant rest <= used && forall x :: x in used && x !in rest ==> x <= top
        decreases rest
      {
        var x :| x in rest;
        rest := rest - {x};
        top := if x > top then x else top;
      }
      w := top + 1;
    }
  }

  lemma ServiceReady(s: Sys, c: Choice)
    requires Inv(s) && !s.svc.SvcIdle? && (c.conn.Some? ==> c.conn.value !in s.socks)
    ensures ServiceEnabled(s, c)
  {
  }

  lemma ServiceHelps(s: Sys, c: Choice, p: PipeId, env: Env)
    requires Inv(s) && ServiceEnabled(s, c) && !s.svc.SvcIdle? && p in s.pipes && !s.pipes[p].graceful
    requires c.ok && c.conn.Some? == env.reachable
    ensures Helps(s, Service(c), p, env)
  {
    hide Inv, Below;
    ServiceBelow(s, c, p);
  }

  lemma ServiceHelp(s: Sys, p: PipeId, env: Env) returns (step: Step)
    requires Inv(s) && !s.svc.SvcIdle? && p in s.pipes && !s.pipes[p].graceful
    ensures Helps(s, step, p, env)
  {
    var w := UnusedSocket(s.socks.Keys);
    var c := Choice(if env.reachable then Some(w) else None, true, None);
    step := Service(c);
    ServiceReady(s, c);
    ServiceHelps(s, c, p, env);
  }

  lemma Help(s: Sys, p: PipeId, env: Env) returns (step: Step)
    requires Inv(s) && p in s.pipes && HandedOff(s.pipes[p].client) && !s.pipes[p].client.Gone? && !s.pipes[p].graceful
    ensures Helps(s, step, p, env)
  {
    var q := s.pipes[p];
    if !s.svc.SvcIdle? {
      step := ServiceHelp(s, p, env);
    } else if !q.client.Waiting? || q.closed {
      step := Continue(p);
      ReaperBelow(s, p);
    } else {
      WaitingHas(ViewOf(s, p));
      if q.state.IDLE? {
        step := IdleHelp(s, p, env);
      } else if q.state.CONNECTING? {
        step := HandshakeHelp(s, p, env);
      } else {
        step := DisconnectHelp(s, p, env);
      }
    }
  }

  lemma {:induction false} Finish(s: Sys, p: PipeId, env: Env) returns (run: seq<Step>)
    requires Inv(s) && p in s.pipes && HandedOff(s.pipes[p].client) && !s.pipes[p].graceful
    ensures ValidRun(s, run) && LocalRun(s, run, env) && Freed(Exec(s, run), p)
    decreases OwnerRank(s.pipes[p].client), StateRank(s.pipes[p].state), Delay(ViewOf(s, p), s.svc), SvcRank(s)
  {
    hide Inv, Delay, Local;
    if s.pipes[p].client.Gone? {
      run := [];
    } else {
      var step := Help(s, p, env);
      StepKeeps(s, step);
      StepForward(s, step, p);
      var rest := Finish(Apply(s, step), p, env);
      run := [step] + rest;
      assert run[1..] == rest;
    }
  }

  /** From every state any run can reach, a pipe handed to its reaper with the graceful flag
      clear can still be closed and deleted by this process alone, whichever way its
      handshake ends: every such continuation lowers the rank. */
  lemma ReaperAlwaysServed(run: seq<Step>, p: PipeId, env: Env)
    requires ValidRun(EMPTY, run)
    requires var s := Exec(EMPTY, run); p in s.pipes && HandedOff(s.pipes[p].client) && !s.pipes[p].graceful
    ensures var s := Exec(EMPTY, run);
      exists more :: ValidRun(s, more) && LocalRun(s, more, env) && Freed(Exec(s, more), p)
  {
    EmptyInv();
    RunKeeps(EMPTY, run);
    var more := Finish(Exec(EMPTY, run), p, env);
  }
}
