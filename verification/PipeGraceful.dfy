/** Two limits of the close path, stated exactly: a pipe with the graceful flag set is never
    closed from this side, and a close that slips between the two reads of CLOSED ends the
    connection without a terminal notification. */
module PipeGraceful {
  import opened Common
  import opened PipeModel
  import opened PipeInv
  import opened PipeClient
  import opened PipeCallbacks
  import opened PipeService
  import opened PipeEvents
  import opened PipeProgress
  import opened PipeSafety
  import opened PipeReaper

  // ---------------------------------------------------------------- what the list passes leave alone

  predicate Listless(r: Role) {
    r.NoRole? || r.DiscHit? || r.WriteHit?
  }

  /** A list pass asks for writable callbacks and moves entries, nothing else. */
  predicate Passed(v: View, v': View) {
    && v'.pipe == v.pipe && Listless(v'.role)
    && (v'.link == v.link || (v.link.Linked? && v'.link == v.link.(writable := true)))
  }

  lemma ConnScanLeaves(s: Sys, pos: nat, todo: seq<PipeId>, x: PipeId)
    requires s.svc == ConnScan(pos, todo) && pos <= |s.connects| && (pos < |s.connects| ==> s.connects[pos] in s.pipes)
    requires x in s.pipes && WasConnected(s.pipes[x].state) && Listless(RoleOf(s.svc, x))
    ensures Passed(ViewOf(s, x), ViewOf(ConnScanStep(s, pos, todo), x))
  {
    if pos < |s.connects| {
      if x == s.connects[pos] { ConnScanView(s, pos, todo); } else { ConnScanOther(s, pos, todo, x); }
    }
  }

  lemma ConnLoopLeaves(s: Sys, todo: seq<PipeId>, c: Choice, x: PipeId)
    requires s.svc == ConnLoop(todo) && NoDup(todo) && ServiceEnabled(s, c)
    requires x in s.pipes && Listless(RoleOf(s.svc, x))
    ensures Passed(ViewOf(s, x), ViewOf(ConnLoopStep(s, todo, c), x))
  {
    if todo != [] { ConnLoopOther(s, todo, c, x); }
  }

  lemma DiscScanLeaves(s: Sys, hits: seq<PipeId>, x: PipeId)
    requires s.svc == DiscScan(0, hits) && x in s.pipes
    requires s.disconnects != [] ==> s.disconnects[0] in s.pipes && s.pipes[s.disconnects[0]].vhd
    ensures Passed(ViewOf(s, x), ViewOf(DiscScanStep(s, 0, hits), x))
  {
    if s.disconnects != [] { DiscScanView(s, hits, x); }
  }

  lemma WriteScanLeaves(s: Sys, hits: seq<PipeId>, x: PipeId)
    requires s.svc == WriteScan(0, hits) && x in s.pipes
    requires s.writes != [] ==> s.writes[0] in s.pipes && s.pipes[s.writes[0]].vhd
    ensures Passed(ViewOf(s, x), ViewOf(WriteScanStep(s, 0, hits), x))
  {
    if s.writes != [] { WriteScanView(s, hits, x); }
  }

  lemma LoopLeaves(s: Sys, c: Choice, x: PipeId)
    requires ServiceEnabled(s, c) && (s.svc.DiscLoop? || s.svc.WriteLoop?) && x in s.pipes
    requires s.svc.hits != [] ==> LinkOf(s, s.svc.hits[0]).Linked?
    ensures Passed(ViewOf(s, x), ViewOf(ServiceStep(s, c), x))
  {
    if s.svc.hits != [] {
      AskView(s, ServiceStep(s, c).svc, x);
    }
  }

  lemma ConnLeaves(s: Sys, c: Choice, x: PipeId)
    requires SvcOk(s) && ServiceEnabled(s, c) && (s.svc.ConnScan? || s.svc.ConnLoop?) && x in s.pipes
    requires WasConnected(s.pipes[x].state) && Listless(RoleOf(s.svc, x))
    ensures x in ServiceStep(s, c).pipes && Passed(ViewOf(s, x), ViewOf(ServiceStep(s, c), x))
  {
    if s.svc.ConnScan? {
      ConnScanLeaves(s, s.svc.pos, s.svc.todo, x);
    } else {
      ConnLoopLeaves(s, s.svc.todo, c, x);
    }
  }

  lemma QueueLeaves(s: Sys, c: Choice, x: PipeId)
    requires Inv(s) && ServiceEnabled(s, c) && (s.svc.DiscScan? || s.svc.WriteScan?) && x in s.pipes
    ensures x in ServiceStep(s, c).pipes && Passed(ViewOf(s, x), ViewOf(ServiceStep(s, c), x))
  {
    if s.svc.DiscScan? {
      if s.disconnects != [] { QueuedHead(s, s.disconnects[0]); }
      DiscScanLeaves(s, s.svc.hits, x);
    } else {
      if s.writes != [] { QueuedHead(s, s.writes[0]); }
      WriteScanLeaves(s, s.svc.hits, x);
    }
  }

  lemma HitsLeave(s: Sys, c: Choice, x: PipeId)
    requires Inv(s) && ServiceEnabled(s, c) && (s.svc.DiscLoop? || s.svc.WriteLoop?) && x in s.pipes
    ensures x in ServiceStep(s, c).pipes && Passed(ViewOf(s, x), ViewOf(ServiceStep(s, c), x))
  {
    if s.svc.hits != [] { HitHead(s); }
    LoopLeaves(s, c, x);
  }

  lemma PassLeaves(s: Sys, c: Choice, x: PipeId)
    requires Inv(s) && ServiceEnabled(s, c) && !InCallback(s.svc) && !s.svc.SvcIdle? && x in s.pipes
    requires WasConnected(s.pipes[x].state) && Listless(RoleOf(s.svc, x))
    ensures x in ServiceStep(s, c).pipes && Passed(ViewOf(s, x), ViewOf(ServiceStep(s, c), x))
  {
    if s.svc.ConnScan? || s.svc.ConnLoop? {
      ConnLeaves(s, c, x);
    } else if s.svc.DiscScan? || s.svc.WriteScan? {
      QueueLeaves(s, c, x);
    } else {
      HitsLeave(s, c, x);
    }
  }

  /** A callback changes its own pipe and socket; the other views only gain cover. */
  lemma CallbackLeaves(s: Sys, c: Choice, x: PipeId)
    requires SvcOk(s) && InCallback(s.svc) && x in s.pipes && x != s.svc.p
    ensures ServiceEnabled(s, c) && x in ServiceStep(s, c).pipes
    ensures var v, v' := ViewOf(s, x), ViewOf(ServiceStep(s, c), x); v' == v.(covC := v'.covC, covD := v'.covD)
  {
    var p, w := s.svc.p, s.svc.w;
    match s.svc {
      case EstCb(_, _, at) =>
        var n := EstNext(s.pipes[p], at, c);
        OtherCallbackView(s, p, w, n.upd, n.sock, if n.next.Some? then EstCb(p, w, n.next.value) else SvcIdle, x);
      case ClosedCb(_, _, at) =>
        var n := ClosedNext(s.pipes[p], at);
        OtherCallbackView(s, p, w, n.upd, n.sock, if n.next.Some? then ClosedCb(p, w, n.next.value) else SvcIdle, x);
      case WritableCb(_, _, at) =>
        var n := WritableNext(s.pipes[p], at, c);
        OtherCallbackView(s, p, w, n.upd, n.sock, if n.next.Some? then WritableCb(p, w, n.next.value) else SvcIdle, x);
      case _ =>
    }
  }

  /** The callback's own pipe. */
  lemma CallbackOwn(s: Sys, c: Choice)
    requires SvcOk(s) && InCallback(s.svc)
    ensures ServiceEnabled(s, c) && s.svc.p in ServiceStep(s, c).pipes
    ensures var v, v' := ViewOf(s, s.svc.p), ViewOf(ServiceStep(s, c), s.svc.p);
      v' == match v.role
            case Est(at) => EstView(v, EstNext(v.pipe, at, c))
            case Clo(at) => CloView(v, ClosedNext(v.pipe, at))
            case Wr(at) => WrView(v, WritableNext(v.pipe, at, c))
            case _ => v
  {
    var p, w := s.svc.p, s.svc.w;
    match s.svc {
      case EstCb(_, _, at) =>
        var n := EstNext(s.pipes[p], at, c);
        CallbackView(s, p, w, n.upd, n.sock, if n.next.Some? then EstCb(p, w, n.next.value) else SvcIdle);
      case ClosedCb(_, _, at) =>
        var n := ClosedNext(s.pipes[p], at);
        CallbackView(s, p, w, n.upd, n.sock, if n.next.Some? then ClosedCb(p, w, n.next.value) else SvcIdle);
      case WritableCb(_, _, at) =>
        var n := WritableNext(s.pipes[p], at, c);
        CallbackView(s, p, w, n.upd, n.sock, if n.next.Some? then WritableCb(p, w, n.next.value) else SvcIdle);
      case _ =>
    }
  }

  // ---------------------------------------------------------------- the graceful flag

  /** Disconnecting, flagged, and not past the flag's test in a writable callback. */
  predicate Held(v: View) {
    && v.pipe.graceful && v.pipe.state.DISCONNECTING? && HandedOff(v.pipe.client)
    && v.link.Linked? && v.link.phase.Open?
    && !v.role.Clo? && !v.role.Todo? && (v.role.Wr? ==> v.role.wr.ReadGracefulFlag?)
  }

  lemma HeldByOwnCallback(v: View, c: Choice)
    requires Held(v) && c.ok
    ensures v.role.Est? ==> Held(EstView(v, EstNext(v.pipe, v.role.est, c)))
    ensures v.role.Wr? ==> Held(WrView(v, WritableNext(v.pipe, v.role.wr, c)))
  {
  }

  predicate HeldIn(s: Sys, p: PipeId) {
    p in s.pipes && Held(ViewOf(s, p))
  }

  lemma HeldByService(s: Sys, c: Choice, p: PipeId)
    requires Inv(s) && ServiceEnabled(s, c) && !s.svc.SvcIdle? && HeldIn(s, p) && c.ok
    ensures HeldIn(ServiceStep(s, c), p)
  {
    hide LocalInv;
    if !InCallback(s.svc) {
      PassLeaves(s, c, p);
    } else if s.svc.p != p {
      CallbackLeaves(s, c, p);
    } else {
      CallbackOwn(s, c);
      HeldByOwnCallback(ViewOf(s, p), c);
    }
  }

  lemma HeldByClosing(v: View)
    requires Held(v) && !Deleting(v.pipe.client)
    ensures Held(ActOn(v, Continued(v.pipe)))
  {
  }

  lemma HeldByDeleting(v: View)
    requires Held(v) && Deleting(v.pipe.client)
    ensures Held(ActOn(v, Continued(v.pipe)))
  {
  }

  lemma HeldByReaper(s: Sys, p: PipeId)
    requires HeldIn(s, p) && Unlocked(s.svc, Continued(s.pipes[p]))
    ensures HeldIn(Act(s, p, Continued(s.pipes[p])), p)
  {
    ActView(s, p, Continued(s.pipes[p]), p);
    if Deleting(s.pipes[p].client) {
      HeldByDeleting(ViewOf(s, p));
    } else {
      HeldByClosing(ViewOf(s, p));
    }
  }

  lemma HeldByOther(s: Sys, step: Step, p: PipeId)
    requires Enabled(s, step) && IsOwnerStep(step) && HeldIn(s, p) && step.p != p
    ensures HeldIn(Apply(s, step), p)
  {
    ActView(s, step.p, OwnerNext(s.pipes[step.p], step), p);
  }

  lemma HandedOnlyContinues(q: Pipe, step: Step)
    requires IsOwnerStep(step) && OwnerAt(q, step) && HandedOff(q.client)
    ensures step.Continue?
  {
  }

  lemma HeldByOwner(s: Sys, step: Step, p: PipeId)
    requires Enabled(s, step) && IsOwnerStep(step) && HeldIn(s, p)
    ensures HeldIn(Apply(s, step), p)
  {
    if step.p == p {
      HandedOnlyContinues(s.pipes[p], step);
      HeldByReaper(s, p);
    } else {
      HeldByOther(s, step, p);
    }
  }

  /** An event on another pipe's socket, or a new pipe, leaves the view but for its cover and
      its entry in pendingConnects. */
  predicate Untouched(v: View, v': View) {
    v' == v.(covC := v'.covC, covD := v'.covD, inC := v'.inC)
  }

  lemma ErrorLeaves(s: Sys, w: Wsi, x: PipeId)
    requires Inv(s) && s.svc.SvcIdle? && w in s.socks && s.socks[w].phase.Shaking?
    requires x in s.pipes && WasConnected(s.pipes[x].state)
    ensures x in ErrorStep(s, w).pipes && Untouched(ViewOf(s, x), ViewOf(ErrorStep(s, w), x))
  {
    LookupFinds(s, w);
    ErrorOther(s, w, s.socks[w].owner, x);
  }

  lemma EstablishedLeaves(s: Sys, w: Wsi, x: PipeId)
    requires Inv(s) && s.svc.SvcIdle? && w in s.socks && s.socks[w].phase.Shaking?
    requires x in s.pipes && WasConnected(s.pipes[x].state)
    ensures x in EstablishedStep(s, w).pipes && Untouched(ViewOf(s, x), ViewOf(EstablishedStep(s, w), x))
  {
    LookupFinds(s, w);
    EstablishedOther(s, w, s.socks[w].owner, x);
  }

  lemma HandshakeLeaves(s: Sys, step: Step, x: PipeId)
    requires Inv(s) && Enabled(s, step) && (step.OnError? || step.OnEstablished?)
    requires x in s.pipes && WasConnected(s.pipes[x].state)
    ensures x in Apply(s, step).pipes && Untouched(ViewOf(s, x), ViewOf(Apply(s, step), x))
  {
    if step.OnError? { ErrorLeaves(s, step.w, x); } else { EstablishedLeaves(s, step.w, x); }
  }

  lemma HeldByReceive(s: Sys, w: Wsi, p: PipeId)
    requires Inv(s) && Enabled(s, OnReceive(w)) && HeldIn(s, p)
    ensures HeldIn(Apply(s, OnReceive(w)), p)
  {
    hide LocalInv;
    AttachedToOwner(s, w);
  }

  lemma HeldByEvent(s: Sys, step: Step, p: PipeId)
    requires Enabled(s, step) && HeldIn(s, p) && (step.Create? || step.StrayWake? || step.WakeUp?)
    ensures HeldIn(Apply(s, step), p)
  {
  }

  lemma ClosedView(s: Sys, q: PipeId, w: Wsi, x: PipeId)
    requires s.svc.SvcIdle? && x in s.pipes
    ensures ViewOf(s.(svc := ClosedCb(q, w, ReadFirst)), x) ==
      if x == q then ViewOf(s, x).(role := Clo(ReadFirst)) else ViewOf(s, x)
  {
  }

  lemma HeldByClosed(s: Sys, w: Wsi, p: PipeId)
    requires s.svc.SvcIdle? && HeldIn(s, p) && w in s.socks && s.socks[w].phase.Ending?
    requires s.socks[w].owner in s.pipes && s.pipes[s.socks[w].owner].wsi == Some(w)
    ensures HeldIn(s.(svc := ClosedCb(s.socks[w].owner, w, ReadFirst)), p)
  {
    ClosedView(s, s.socks[w].owner, w, p);
  }

  lemma HeldByOnClosed(s: Sys, w: Wsi, p: PipeId)
    requires Inv(s) && s.svc.SvcIdle? && w in s.socks && s.socks[w].phase.Ending? && HeldIn(s, p)
    ensures Enabled(s, OnClosed(w)) && HeldIn(Apply(s, OnClosed(w)), p)
  {
    AttachedToOwner(s, w);
    HeldByClosed(s, w, p);
  }

  lemma HeldByWritable(s: Sys, w: Wsi, p: PipeId)
    requires Inv(s) && Enabled(s, OnWritable(w)) && HeldIn(s, p)
    ensures HeldIn(Apply(s, OnWritable(w)), p)
  {
    AttachedToOwner(s, w);
    WritableView(s, w, p);
  }

  lemma HeldKept(s: Sys, step: Step, env: Env, p: PipeId)
    requires Inv(s) && Enabled(s, step) && Local(s, step, env) && HeldIn(s, p)
    ensures HeldIn(Apply(s, step), p)
  {
    if IsOwnerStep(step) {
      HeldByOwner(s, step, p);
    } else if step.OnError? || step.OnEstablished? {
      HandshakeLeaves(s, step, p);
    } else if step.OnClosed? {
      HeldByOnClosed(s, step.w, p);
    } else if step.OnWritable? {
      HeldByWritable(s, step.w, p);
    } else if step.Service? {
      HeldByService(s, step.c, p);
    } else if step.OnReceive? {
      HeldByReceive(s, step.w, p);
    } else {
      HeldByEvent(s, step, p);
    }
  }

  lemma {:induction false} HeldForever(s: Sys, run: seq<Step>, env: Env, p: PipeId)
    requires Inv(s) && ValidRun(s, run) && LocalRun(s, run, env) && HeldIn(s, p)
    ensures Inv(Exec(s, run)) && HeldIn(Exec(s, run), p)
    decreases |run|
  {
    if run != [] {
      StepKeeps(s, run[0]);
      HeldKept(s, run[0], env, p);
      HeldForever(Apply(s, run[0]), run[1..], env, p);
    }
  }

  lemma HeldOpen(v: View)
    requires LocalInv(v) && Held(v)
    ensures !v.pipe.closed
  {
  }

  lemma DisconnectingHanded(v: View)
    requires LocalInv(v) && v.pipe.state.DISCONNECTING? && v.role.NoRole? && v.link.Linked? && v.link.phase.Open?
    ensures HandedOff(v.pipe.client) && (v.pipe.graceful ==> Held(v))
    ensures v.pipe.issued
  {
  }

  lemma FreedIsClosed(v: View)
    requires LocalInv(v) && v.pipe.client.Gone? && v.pipe.issued
    ensures v.pipe.closed
  {
  }

  lemma {:induction false} IssuedStays(s: Sys, run: seq<Step>, p: PipeId)
    requires Inv(s) && ValidRun(s, run) && p in s.pipes && !s.pipes[p].state.IDLE?
    ensures p in Exec(s, run).pipes && !Exec(s, run).pipes[p].state.IDLE?
    decreases |run|
  {
    hide Inv;
    if run != [] {
      StepKeeps(s, run[0]);
      StepForward(s, run[0], p);
      IssuedStays(Apply(s, run[0]), run[1..], p);
    }
  }

  lemma StartedIsIssued(v: View)
    requires LocalInv(v) && !v.pipe.state.IDLE?
    ensures v.pipe.issued
  {
  }

  lemma FinishClosed(s: Sys, p: PipeId, env: Env) returns (more: seq<Step>)
    requires Inv(s) && p in s.pipes && HandedOff(s.pipes[p].client) && !s.pipes[p].graceful && !s.pipes[p].state.IDLE?
    ensures ValidRun(s, more) && LocalRun(s, more, env) && p in Exec(s, more).pipes && Exec(s, more).pipes[p].closed
  {
    more := Finish(s, p, env);
    RunKeeps(s, more);
    IssuedStays(s, more, p);
    StartedIsIssued(ViewOf(Exec(s, more), p));
    FreedIsClosed(ViewOf(Exec(s, more), p));
  }

  /** do_graceful_shutdown before the connect leaves a flag that every writable callback
      honours with a zero-length frame instead of reading the state: a disconnecting
      pipe with an open socket can be closed from this side if and only if the flag is clear. */
  lemma ClosableIffNotGraceful(run: seq<Step>, p: PipeId, env: Env)
    requires ValidRun(EMPTY, run)
    requires var s := Exec(EMPTY, run);
      && s.svc.SvcIdle? && p in s.pipes && s.pipes[p].state.DISCONNECTING?
      && LinkOf(s, p).Linked? && LinkOf(s, p).phase.Open?
    ensures var s := Exec(EMPTY, run);
      (exists more :: ValidRun(s, more) && LocalRun(s, more, env) && p in Exec(s, more).pipes && Exec(s, more).pipes[p].closed)
      <==> !s.pipes[p].graceful
  {
    hide LocalInv;
    EmptyInv();
    RunKeeps(EMPTY, run);
    var s := Exec(EMPTY, run);
    DisconnectingHanded(ViewOf(s, p));
    if s.pipes[p].graceful {
      forall more | ValidRun(s, more) && LocalRun(s, more, env) && p in Exec(s, more).pipes
        ensures !Exec(s, more).pipes[p].closed
      {
        HeldForever(s, more, env, p);
        HeldOpen(ViewOf(Exec(s, more), p));
      }
    } else {
      var more := FinishClosed(s, p, env);
    }
  }
}
