/** LWS_CALLBACK_CLIENT_CLOSED reads the state twice. A swap to DISCONNECTING that lands
    between the two reads is seen by neither branch, and the connection ends without a
    terminal notification; nothing else can make that happen. */
module PipeSilent {
  import opened Common
  import opened PipeModel
  import opened PipeInv
  import opened PipeClient
  import opened PipeCallbacks
  import opened PipeService
  import opened PipeEvents
  import opened PipeProgress
  import opened PipeSafety
  import opened PipeReaper
  import opened PipeGraceful

  /** Steps of the other threads only. */
  predicate Beside(run: seq<Step>) {
    forall i :: 0 <= i < |run| ==> !run[i].Service?
  }

  /** The reaper's compare-and-swap on `p` succeeds during the run. */
  predicate SwapWins(s: Sys, run: seq<Step>, p: PipeId)
    requires ValidRun(s, run)
    decreases |run|
  {
    run != [] && (IsSwap(s, run[0], p) || SwapWins(Apply(s, run[0]), run[1..], p))
  }

  /** A closing callback on `p` is at `at`, with nothing shown as terminal yet. */
  predicate InClosed(s: Sys, p: PipeId, at: CloAt) {
    p in s.pipes && s.svc.ClosedCb? && s.svc.p == p && s.svc.clo == at
  }

  predicate IsSwap(s: Sys, step: Step, p: PipeId) {
    step == Continue(p) && p in s.pipes && s.pipes[p].client.CloseSwap? && s.pipes[p].state.CONNECTED?
  }

  lemma ContinuedTrace(q: Pipe)
    ensures Continued(q).pipe.trace == q.trace
  {
  }

  lemma ContinuedState(q: Pipe)
    ensures Continued(q).pipe.state == if q.client.CloseSwap? && q.state.CONNECTED? then DISCONNECTING else q.state
  {
  }

  lemma OwnerBeside(q: Pipe, step: Step)
    requires IsOwnerStep(step) && OwnerAt(q, step) && !q.client.New?
    ensures var q' := OwnerNext(q, step).pipe; q'.trace == q.trace
    ensures var q' := OwnerNext(q, step).pipe;
      q'.state == if step.Continue? && q.client.CloseSwap? && q.state.CONNECTED? then DISCONNECTING else q.state
  {
    hide Continued;
    if step.Continue? {
      ContinuedTrace(q);
      ContinuedState(q);
    }
  }

  lemma StepBeside(s: Sys, step: Step, p: PipeId, at: CloAt)
    requires Inv(s) && Enabled(s, step) && !step.Service? && InClosed(s, p, at) && !s.pipes[p].state.IDLE?
    ensures var s' := Apply(s, step);
      && InClosed(s', p, at) && s'.pipes[p].trace == s.pipes[p].trace
      && s'.pipes[p].state == if IsSwap(s, step, p) then DISCONNECTING else s.pipes[p].state
  {
    hide LocalInv;
    if IsOwnerStep(step) {
      OwnerApplies(s, step);
      if step.p == p {
        NewStaysIdleOr(s, p);
        OwnerBeside(s.pipes[p], step);
      }
    }
  }

  lemma NewStaysIdleOr(s: Sys, p: PipeId)
    requires Inv(s) && p in s.pipes
    ensures s.pipes[p].client.New? ==> s.pipes[p].state.IDLE?
  {
    if s.pipes[p].client.New? {
      NewStaysIdle(s, p);
    }
  }

  lemma {:induction false} RunBeside(s: Sys, run: seq<Step>, p: PipeId, at: CloAt)
    requires Inv(s) && ValidRun(s, run) && Beside(run) && InClosed(s, p, at)
    requires s.pipes[p].state.CONNECTED? || s.pipes[p].state.DISCONNECTING?
    ensures var s' := Exec(s, run);
      && Inv(s') && InClosed(s', p, at) && s'.pipes[p].trace == s.pipes[p].trace
      && s'.pipes[p].state == if SwapWins(s, run, p) then DISCONNECTING else s.pipes[p].state
    decreases |run|
  {
    hide Inv;
    if run != [] {
      StepKeeps(s, run[0]);
      StepBeside(s, run[0], p, at);
      RunBeside(Apply(s, run[0]), run[1..], p, at);
    }
  }

  lemma ClosingConnected(v: View)
    requires LocalInv(v) && v.role.Clo? && (v.role.clo.ReadFirst? || v.role.clo.ReadSecond?)
    ensures v.pipe.state.CONNECTED? || v.pipe.state.DISCONNECTING?
  {
  }

  lemma FirstRead(s: Sys, p: PipeId, c: Choice)
    requires Inv(s) && InClosed(s, p, ReadFirst)
    ensures Enabled(s, Service(c)) && p in Apply(s, Service(c)).pipes
    ensures var q, s' := s.pipes[p], Apply(s, Service(c));
      && s'.pipes[p].trace == q.trace + (if q.state.DISCONNECTING? then [ClosedGracefully] else [])
      && InClosed(s', p, if q.state.DISCONNECTING? then StoreDisconnected else ReadSecond)
      && s'.pipes[p].state == q.state
  {
    hide LocalInv;
  }

  lemma SecondRead(s: Sys, p: PipeId, c: Choice)
    requires Inv(s) && InClosed(s, p, ReadSecond)
    ensures Enabled(s, Service(c)) && p in Apply(s, Service(c)).pipes
    ensures var q, s' := s.pipes[p], Apply(s, Service(c));
      && s'.pipes[p].trace == q.trace + (if q.state.CONNECTED? then [Dropped] else [])
      && InClosed(s', p, StoreDisconnected)
  {
    hide LocalInv;
  }

  /** The terminal notification of a connection that CLOSED finds CONNECTED is missing if
      and only if the reaper's compare-and-swap wins between the two reads. */
  lemma TerminalEventExact(run: seq<Step>, between: seq<Step>, p: PipeId, c1: Choice, c2: Choice)
    requires ValidRun(EMPTY, run) && InClosed(Exec(EMPTY, run), p, ReadFirst)
    requires Exec(EMPTY, run).pipes[p].state.CONNECTED? && Enabled(Exec(EMPTY, run), Service(c1))
    requires var s1 := Apply(Exec(EMPTY, run), Service(c1));
      ValidRun(s1, between) && Beside(between) && Enabled(Exec(s1, between), Service(c2))
    ensures var s := Exec(EMPTY, run); var s1 := Apply(s, Service(c1));
      var s2 := Apply(Exec(s1, between), Service(c2));
      && InClosed(s2, p, StoreDisconnected)
      && s2.pipes[p].trace == s.pipes[p].trace + if SwapWins(s1, between, p) then [] else [Dropped]
  {
    EmptyInv();
    RunKeeps(EMPTY, run);
    var s := Exec(EMPTY, run);
    FirstRead(s, p, c1);
    StepKeeps(s, Service(c1));
    RunBeside(Apply(s, Service(c1)), between, p, ReadSecond);
    SecondRead(Exec(Apply(s, Service(c1)), between), p, c2);
  }

  // ---------------------------------------------------------------- nothing after the promise

  lemma ClosedLocal(v: View)
    requires LocalInv(v) && v.pipe.closed
    ensures v.role.NoRole? || v.role == Clo(Detach)
    ensures v.pipe.state.FAILED? || v.pipe.state.DISCONNECTED?
    ensures v.link.Linked? ==> v.role.Clo?
    ensures v.pipe.issued
  {
  }

  lemma ConnectQuiet(s: Sys, c: Choice, p: PipeId)
    requires ServiceEnabled(s, c) && p in s.pipes && (s.svc.ConnScan? || s.svc.ConnLoop?)
    requires RoleOf(s.svc, p).NoRole? && !s.pipes[p].state.IDLE?
    ensures ServiceStep(s, c).pipes[p] == s.pipes[p]
  {
    assert s.svc.ConnLoop? && s.svc.todo != [] ==> s.svc.todo[0] in s.svc.todo;
  }

  lemma ServiceQuiet(s: Sys, c: Choice, p: PipeId)
    requires SvcOk(s) && ServiceEnabled(s, c) && p in s.pipes && !s.pipes[p].state.IDLE?
    requires RoleOf(s.svc, p).NoRole? || (RoleOf(s.svc, p) == Clo(Detach))
    ensures p in ServiceStep(s, c).pipes && ServiceStep(s, c).pipes[p] == s.pipes[p]
  {
    if InCallback(s.svc) {
      CallbackQuiet(s, c, p);
    } else if s.svc.ConnScan? || s.svc.ConnLoop? {
      ConnectQuiet(s, c, p);
    } else if !s.svc.SvcIdle? {
      ListForward(s, c, p);
    }
  }

  lemma CallbackQuiet(s: Sys, c: Choice, p: PipeId)
    requires SvcOk(s) && ServiceEnabled(s, c) && p in s.pipes && InCallback(s.svc)
    requires s.svc.p != p || (s.svc.ClosedCb? && s.svc.clo.Detach?)
    ensures p in ServiceStep(s, c).pipes && ServiceStep(s, c).pipes[p] == s.pipes[p]
  {
    if s.svc.p == p {
      CallbackOwn(s, c);
    } else {
      CallbackLeaves(s, c, p);
    }
  }

  lemma HandshakeQuiet(s: Sys, step: Step, p: PipeId)
    requires Inv(s) && Enabled(s, step) && (step.OnError? || step.OnEstablished?)
    requires p in s.pipes && !s.pipes[p].state.CONNECTING?
    ensures p in Apply(s, step).pipes && Apply(s, step).pipes[p] == s.pipes[p]
  {
    LookupFinds(s, step.w);
  }

  lemma ReceiveQuiet(s: Sys, w: Wsi, p: PipeId)
    requires Inv(s) && Enabled(s, OnReceive(w)) && p in s.pipes && s.pipes[p].closed
    ensures p in Apply(s, OnReceive(w)).pipes && Apply(s, OnReceive(w)).pipes[p] == s.pipes[p]
  {
    AttachedToOwner(s, w);
  }

  lemma ClosedNotNew(v: View)
    requires LocalInv(v) && v.pipe.closed
    ensures !v.pipe.client.New?
  {
  }

  /** The remaining deliveries and wake-ups leave every pipe as it is. */
  lemma DeliveredQuiet(s: Sys, step: Step, p: PipeId)
    requires Enabled(s, step) && p in s.pipes && Delivered(step) && !step.OnReceive?
    ensures p in Apply(s, step).pipes && Apply(s, step).pipes[p] == s.pipes[p]
  {
  }

  lemma OwnerStepQuiet(s: Sys, step: Step, p: PipeId)
    requires Enabled(s, step) && IsOwnerStep(step) && p in s.pipes && !s.pipes[p].client.New?
    ensures p in Apply(s, step).pipes && Apply(s, step).pipes[p].trace == s.pipes[p].trace
  {
    OwnerApplies(s, step);
    if step.p == p { OwnerBeside(s.pipes[p], step); }
  }

  /** Once its promise is set a pipe never notifies again. */
  lemma QuietAfterPromise(s: Sys, step: Step, p: PipeId)
    requires Inv(s) && Enabled(s, step) && p in s.pipes && s.pipes[p].closed
    ensures p in Apply(s, step).pipes && Apply(s, step).pipes[p].trace == s.pipes[p].trace
  {
    ClosedLocal(ViewOf(s, p));
    ClosedNotNew(ViewOf(s, p));
    if IsOwnerStep(step) {
      OwnerStepQuiet(s, step, p);
    } else if step.Service? {
      ServiceQuiet(s, step.c, p);
    } else if step.OnError? || step.OnEstablished? {
      HandshakeQuiet(s, step, p);
    } else if step.OnReceive? {
      ReceiveQuiet(s, step.w, p);
    } else {
      DeliveredQuiet(s, step, p);
    }
  }
}
