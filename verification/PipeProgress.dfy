/** The life cycle only moves forward, and a reaper that waits can always be served. */
module PipeProgress {
  import opened Common
  import opened PipeModel
  import opened PipeInv
  import opened PipeClient
  import opened PipeCallbacks
  import opened PipeService
  import opened PipeEvents

  // ---------------------------------------------------------------- the life cycle

  /** One step leaves the state alone or moves it along the life cycle. */
  predicate MayMove(a: LwsState, b: LwsState) {
    || a == b
    || (a.IDLE? && (b.CONNECTING? || b.FAILED?))
    || (a.CONNECTING? && (b.CONNECTED? || b.FAILED?))
    || (a.CONNECTED? && (b.DISCONNECTING? || b.DISCONNECTED?))
    || (a.DISCONNECTING? && b.DISCONNECTED?)
  }

  /** What no step of any thread does to a pipe: move its state off the life cycle, unset
      its promise, take its reaper back, or set the graceful flag once it is handed off. */
  predicate Forward(a: Pipe, b: Pipe) {
    && MayMove(a.state, b.state)
    && (a.closed ==> b.closed)
    && (HandedOff(a.client) ==> HandedOff(b.client) && b.graceful == a.graceful)
  }

  lemma NewIsIdle(v: View)
    requires LocalInv(v) && v.pipe.client.New?
    ensures v.pipe.state.IDLE?
  {
  }

  lemma ContinuedMoves(q: Pipe)
    ensures MayMove(q.state, Continued(q).pipe.state)
  {
  }

  lemma ContinuedKeepsPromise(q: Pipe)
    ensures Continued(q).pipe.closed == q.closed
  {
  }

  lemma CloseHands(q: Pipe)
    requires HandedOff(q.client) && !Deleting(q.client) && !q.client.Waiting?
    ensures HandedOff(Continued(q).pipe.client) && Continued(q).pipe.graceful == q.graceful
  {
  }

  lemma ReapHands(q: Pipe)
    requires Deleting(q.client) || q.client.Waiting?
    ensures HandedOff(Continued(q).pipe.client) && Continued(q).pipe.graceful == q.graceful
  {
  }

  lemma ContinuedHands(q: Pipe)
    requires HandedOff(q.client)
    ensures HandedOff(Continued(q).pipe.client) && Continued(q).pipe.graceful == q.graceful
  {
    hide HandedOff, Continued, Deleting;
    if Deleting(q.client) || q.client.Waiting? {
      ReapHands(q);
    } else {
      CloseHands(q);
    }
  }

  lemma ContinuedForward(q: Pipe)
    ensures Forward(q, Continued(q).pipe)
  {
    ContinuedMoves(q);
    ContinuedKeepsPromise(q);
    if HandedOff(q.client) {
      ContinuedHands(q);
    }
  }

  lemma OwnerForward(q: Pipe, step: Step)
    requires IsOwnerStep(step) && OwnerAt(q, step) && (q.client.New? ==> q.state.IDLE?)
    ensures Forward(q, OwnerNext(q, step).pipe)
  {
    if step.Continue? {
      ContinuedForward(q);
    }
  }

  lemma EstForward(q: Pipe, at: EstAt, c: Choice)
    ensures Forward(q, EstNext(q, at, c).upd.pipe) && EstNext(q, at, c).upd.pipe.client == q.client
  {
  }

  lemma ClosedForward(q: Pipe, at: CloAt)
    requires at.StoreDisconnected? ==> q.state.CONNECTED? || q.state.DISCONNECTING?
    ensures Forward(q, ClosedNext(q, at).upd.pipe) && ClosedNext(q, at).upd.pipe.client == q.client
  {
  }

  lemma WritableForward(q: Pipe, at: WriteAt, c: Choice)
    ensures Forward(q, WritableNext(q, at, c).upd.pipe) && WritableNext(q, at, c).upd.pipe.client == q.client
  {
  }

  lemma RunningState(v: View)
    requires LocalInv(v)
    ensures v.role.Clo? && v.role.clo.StoreDisconnected? ==> v.pipe.state.CONNECTED? || v.pipe.state.DISCONNECTING?
    ensures v.role.Todo? ==> v.pipe.state.CONNECTING? && !v.pipe.closed
  {
  }

  predicate InCallback(svc: Svc) {
    svc.EstCb? || svc.ClosedCb? || svc.WritableCb?
  }

  lemma CallbackForward(s: Sys, c: Choice, p: PipeId)
    requires Inv(s) && ServiceEnabled(s, c) && p in s.pipes && InCallback(s.svc)
    ensures var s' := ServiceStep(s, c);
      p in s'.pipes && Forward(s.pipes[p], s'.pipes[p]) && s'.pipes[p].client == s.pipes[p].client
  {
    hide LocalInv;
    var q := s.pipes[s.svc.p];
    RunningState(ViewOf(s, s.svc.p));
    match s.svc {
      case EstCb(_, _, at) => EstForward(q, at, c);
      case ClosedCb(_, _, at) => ClosedForward(q, at);
      case WritableCb(_, _, at) => WritableForward(q, at, c);
      case _ =>
    }
  }

  predicate StepsForward(s: Sys, s': Sys, p: PipeId) {
    p in s.pipes && p in s'.pipes && Forward(s.pipes[p], s'.pipes[p]) && s'.pipes[p].client == s.pipes[p].client
  }

  lemma ConnScanForward(s: Sys, c: Choice, p: PipeId)
    requires ServiceEnabled(s, c) && p in s.pipes && s.svc.ConnScan?
    ensures StepsForward(s, ServiceStep(s, c), p)
  {
  }

  lemma ConnLoopForward(s: Sys, c: Choice, p: PipeId)
    requires ServiceEnabled(s, c) && p in s.pipes && s.svc.ConnLoop?
    requires RoleOf(s.svc, p).Todo? ==> s.pipes[p].state.CONNECTING? && !s.pipes[p].closed
    ensures StepsForward(s, ServiceStep(s, c), p)
  {
    assert s.svc.todo != [] ==> s.svc.todo[0] in s.svc.todo;
  }

  lemma ConnectForward(s: Sys, c: Choice, p: PipeId)
    requires Inv(s) && ServiceEnabled(s, c) && p in s.pipes && (s.svc.ConnScan? || s.svc.ConnLoop?)
    ensures var s' := ServiceStep(s, c);
      p in s'.pipes && Forward(s.pipes[p], s'.pipes[p]) && s'.pipes[p].client == s.pipes[p].client
  {
    hide LocalInv, ServiceStep, Forward;
    RunningState(ViewOf(s, p));
    if s.svc.ConnScan? {
      ConnScanForward(s, c, p);
    } else {
      ConnLoopForward(s, c, p);
    }
  }

  lemma ListForward(s: Sys, c: Choice, p: PipeId)
    requires ServiceEnabled(s, c) && p in s.pipes
    requires s.svc.DiscScan? || s.svc.DiscLoop? || s.svc.WriteScan? || s.svc.WriteLoop?
    ensures ServiceStep(s, c).pipes == s.pipes
  {
  }

  lemma ServiceForward(s: Sys, c: Choice, p: PipeId)
    requires Inv(s) && ServiceEnabled(s, c) && p in s.pipes
    ensures var s' := ServiceStep(s, c);
      p in s'.pipes && Forward(s.pipes[p], s'.pipes[p]) && s'.pipes[p].client == s.pipes[p].client
  {
    if InCallback(s.svc) {
      CallbackForward(s, c, p);
    } else if s.svc.ConnScan? || s.svc.ConnLoop? {
      ConnectForward(s, c, p);
    } else {
      ListForward(s, c, p);
    }
  }

  lemma ErrorForward(s: Sys, w: Wsi, p: PipeId)
    requires Inv(s) && s.svc.SvcIdle? && w in s.socks && s.socks[w].phase.Shaking? && p in s.pipes
    ensures Forward(s.pipes[p], ErrorStep(s, w).pipes[p]) && ErrorStep(s, w).pipes[p].client == s.pipes[p].client
  {
    LookupFinds(s, w);
  }

  lemma EstablishedForward(s: Sys, w: Wsi, p: PipeId)
    requires Inv(s) && s.svc.SvcIdle? && w in s.socks && s.socks[w].phase.Shaking? && p in s.pipes
    ensures Forward(s.pipes[p], EstablishedStep(s, w).pipes[p])
    ensures EstablishedStep(s, w).pipes[p].client == s.pipes[p].client
  {
    LookupFinds(s, w);
  }

  predicate Moves(s: Sys, step: Step, p: PipeId) {
    Enabled(s, step) && p in s.pipes && p in Apply(s, step).pipes && Forward(s.pipes[p], Apply(s, step).pipes[p])
  }

  lemma HandshakeMoves(s: Sys, step: Step, p: PipeId)
    requires Inv(s) && Enabled(s, step) && (step.OnError? || step.OnEstablished?) && p in s.pipes
    ensures Moves(s, step, p)
  {
    if step.OnError? {
      ErrorForward(s, step.w, p);
    } else {
      EstablishedForward(s, step.w, p);
    }
  }

  lemma OwnerApplies(s: Sys, step: Step)
    requires Enabled(s, step) && IsOwnerStep(step)
    ensures OwnerAt(s.pipes[step.p], step)
    ensures Apply(s, step).pipes == s.pipes[step.p := OwnerNext(s.pipes[step.p], step).pipe]
  {
  }

  lemma NewStaysIdle(s: Sys, p: PipeId)
    requires Inv(s) && p in s.pipes && s.pipes[p].client.New?
    ensures s.pipes[p].state.IDLE?
  {
    NewIsIdle(ViewOf(s, p));
  }

  lemma OwnerMoves(s: Sys, step: Step, p: PipeId)
    requires Enabled(s, step) && IsOwnerStep(step) && p in s.pipes
    requires s.pipes[step.p].client.New? ==> s.pipes[step.p].state.IDLE?
    ensures Moves(s, step, p)
  {
    OwnerApplies(s, step);
    OwnerForward(s.pipes[step.p], step);
  }

  predicate Delivered(step: Step) {
    step.Create? || step.StrayWake? || step.WakeUp? || step.OnClosed? || step.OnReceive? || step.OnWritable?
  }

  lemma DeliveredMoves(s: Sys, step: Step, p: PipeId)
    requires Enabled(s, step) && p in s.pipes && Delivered(step)
    ensures Moves(s, step, p) && Apply(s, step).pipes[p].client == s.pipes[p].client
  {
  }

  lemma ServiceMoves(s: Sys, c: Choice, p: PipeId)
    requires Inv(s) && Enabled(s, Service(c)) && p in s.pipes
    ensures Moves(s, Service(c), p)
  {
    ServiceForward(s, c, p);
  }

  /** Every step of every thread moves every pipe forward, or not at all: FAILED and
      DISCONNECTED are never left, and a promise is never taken back. */
  lemma StepForward(s: Sys, step: Step, p: PipeId)
    requires Inv(s) && Enabled(s, step) && p in s.pipes
    ensures p in Apply(s, step).pipes && Forward(s.pipes[p], Apply(s, step).pipes[p])
  {
    assert Moves(s, step, p) by {
      if IsOwnerStep(step) {
        if s.pipes[step.p].client.New? {
          NewStaysIdle(s, step.p);
        }
        OwnerMoves(s, step, p);
      } else if Delivered(step) {
        DeliveredMoves(s, step, p);
      } else if step.Service? {
        ServiceMoves(s, step.c, p);
      } else {
        HandshakeMoves(s, step, p);
      }
    }
  }
}
