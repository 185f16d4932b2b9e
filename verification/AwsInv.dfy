/** The control invariant of an AWS session, kept by every step of every thread. */
module AwsInv {
  import opened Common
  import opened AwsModel

  predicate Prepub(w: WorkerAt) {
    w.Construct? || w.MaybeConnect? || w.Publish?
  }

  predicate ObjOk(c: Ctl) {
    && (c.worker.Construct? <==> c.obj.Unbuilt?)
    && (c.pub ==> c.obj.Built?)
    && (Prepub(c.worker) ==> !c.pub)
    && (!Prepub(c.worker) && c.obj.Built? ==> c.pub)
    && (c.obj.Freed? ==> c.joined)
    && (c.joined ==> c.worker.Done?)
  }

  predicate SdkOk(c: Ctl) {
    && (c.connecting <==> !c.sdk.NotStarted?)
    && (c.finished <==> c.sdk.Over?)
    && (c.connected ==> c.sdk.Streaming? || c.sdk.Over?)
    && (c.stream ==> !c.sdk.NotStarted? && !c.sdk.Started?)
    && (c.transcript || c.worker.Deliver? || c.shutdown ==> c.connecting)
    && (c.worker.Construct? || c.worker.MaybeConnect? ==> c.sdk.NotStarted?)
    && (c.vad && Prepub(c.worker) ==> c.sdk.NotStarted?)
  }

  /** The steps of a teardown that hold cb->mutex. */
  predicate Holding(s: Stop) {
    !s.kind.Orphan? && !s.at.WantLock? && !s.at.Returned?
  }

  ghost predicate LockOk(c: Ctl) {
    && (c.media.Outside? <==> !c.lock.MediaThread?)
    && (!c.media.Outside? ==> c.pub)
    && (forall t :: t in c.stops && Holding(c.stops[t]) ==> c.lock == Stopper(t))
    && (c.lock.Stopper? ==> c.lock.t in c.stops && Holding(c.stops[c.lock.t]))
    && (forall t :: t in c.stops ==> (c.stops[t].kind.Orphan? <==> !c.attached))
    && (!c.attached ==> c.lock.Nobody? && forall t, u :: t in c.stops && u in c.stops ==> t == u)
  }

  /** Between raising the flag and deleting the streamer. */
  predicate InCharge(at: StopAt) {
    at.Load? || at.Finish? || at.Join? || at.Kill?
  }

  ghost predicate SomeoneInCharge(c: Ctl) {
    exists t :: t in c.stops && InCharge(c.stops[t].at)
  }

  /** A raised flag is in some teardown's hands until the streamer is deleted. */
  ghost predicate ChargeOk(c: Ctl) {
    && (c.finishing || c.worker.SelfFinish? ==> c.stopReq)
    && (c.stopReq ==> c.obj.Freed? || SomeoneInCharge(c))
  }

  /** The worker has seen the request, or still will. */
  predicate WillStop(c: Ctl) {
    c.obj.Freed? || c.finishing || Prepub(c.worker) || c.worker.CheckStop? || c.worker.SelfFinish?
  }

  predicate StopOk(c: Ctl, at: StopAt) {
    && (InCharge(at) ==> c.stopReq)
    && (at.Finish? && at.has ==> c.pub)
    && ((at.Finish? && !at.has) || at.Join? ==> WillStop(c))
    && (at.Kill? ==> c.joined)
    && (at.Release? ==> c.obj.Freed?)
  }

  ghost predicate StopsOk(c: Ctl) {
    forall t :: t in c.stops ==> StopOk(c, c.stops[t].at)
  }

  predicate DoneOk(c: Ctl) {
    c.worker.Done? ==> c.finished || (!c.connecting && c.finishing)
  }

  ghost predicate CtlInv(c: Ctl) {
    ObjOk(c) && SdkOk(c) && LockOk(c) && ChargeOk(c) && StopsOk(c) && DoneOk(c)
  }

  lemma InitialInv(vad: bool, attached: bool)
    ensures CtlInv(Initial(vad, attached))
  {
  }

  /** While a teardown is in charge the media thread is outside. */
  lemma ChargeKeepsOut(c: Ctl)
    requires LockOk(c) && SomeoneInCharge(c)
    ensures c.media.Outside?
  {
    var t :| t in c.stops && InCharge(c.stops[t].at);
    assert Holding(c.stops[t]) || c.stops[t].kind.Orphan?;
  }

  // ---------------------------------------------------------------- steps that leave the teardowns alone

  predicate SameStops(c: Ctl, d: Ctl) {
    d.stops == c.stops && d.attached == c.attached && d.lock == c.lock && d.media.Outside? == c.media.Outside?
  }

  lemma LockSame(c: Ctl, d: Ctl)
    requires LockOk(c) && SameStops(c, d) && (c.pub ==> d.pub)
    ensures LockOk(d)
  {
  }

  lemma ChargeSame(c: Ctl, d: Ctl)
    requires ChargeOk(c) && d.stops == c.stops && d.stopReq == c.stopReq && d.obj.Freed? == c.obj.Freed?
    requires d.finishing || d.worker.SelfFinish? ==> c.stopReq
    ensures ChargeOk(d)
  {
  }

  lemma StopsSame(c: Ctl, d: Ctl)
    requires StopsOk(c) && d.stops == c.stops && d.stopReq == c.stopReq && d.obj.Freed? == c.obj.Freed?
    requires c.pub ==> d.pub
    requires c.joined ==> d.joined
    requires c.stopReq && WillStop(c) ==> WillStop(d)
    ensures StopsOk(d)
  {
    forall t | t in d.stops ensures StopOk(d, d.stops[t].at) {
      assert StopOk(c, c.stops[t].at);
    }
  }

  /** What a step other than a teardown's may do to what the teardowns rely on. */
  predicate Framed(c: Ctl, d: Ctl) {
    && SameStops(c, d) && d.stopReq == c.stopReq && (c.pub ==> d.pub) && (c.joined ==> d.joined)
    && d.obj.Freed? == c.obj.Freed?
    && (d.finishing || d.worker.SelfFinish? ==> c.stopReq)
    && (c.stopReq && WillStop(c) ==> WillStop(d))
  }

  lemma FrameKeeps(c: Ctl, d: Ctl)
    requires LockOk(c) && ChargeOk(c) && StopsOk(c) && Framed(c, d)
    ensures LockOk(d) && ChargeOk(d) && StopsOk(d)
  {
    LockSame(c, d);
    ChargeSame(c, d);
    StopsSame(c, d);
  }

  predicate Local(c: Ctl) {
    ObjOk(c) && SdkOk(c) && DoneOk(c) && (c.finishing || c.worker.SelfFinish? ==> c.stopReq)
  }

  // ---------------------------------------------------------------- the worker

  lemma StartKeeps(c: Ctl)
    requires Local(c) && Prepub(c.worker)
    ensures var d := WorkStep(c, false, false); Local(d) && Framed(c, d)
  {
  }

  lemma CheckKeeps(c: Ctl)
    requires Local(c) && (c.worker.CheckStop? || c.worker.SelfFinish?)
    ensures var d := WorkStep(c, false, false); Local(d) && Framed(c, d)
  {
  }

  lemma FinishedKeeps(c: Ctl)
    requires Local(c) && c.worker.Loop? && c.finished
    ensures var d := Turn(c, false); Local(d) && Framed(c, d)
  {
  }

  lemma NeverStartedKeeps(c: Ctl, queued: bool)
    requires Local(c) && c.worker.Loop? && !c.finished && !c.connecting && Wakes(c, queued) && (queued ==> c.connecting)
    ensures var d := Turn(c, queued); Local(d) && Framed(c, d)
  {
  }

  lemma DeliverKeeps(c: Ctl)
    requires Local(c) && c.worker.Loop? && !c.finished && c.connecting && c.transcript
    ensures var d := Turn(c, false); Local(d) && Framed(c, d)
  {
  }

  lemma BranchKeeps(c: Ctl, queued: bool)
    requires Local(c) && ((c.worker.Loop? && c.connecting) || c.worker.Deliver?)
    ensures var d := Branch(c, queued); Local(d) && Framed(c, d)
  {
  }

  lemma BackToLoop(c: Ctl, stream: bool)
    requires Local(c) && c.worker.Writing? && (stream ==> c.stream)
    ensures var d := c.(stream := stream, worker := Loop); Local(d) && Framed(c, d)
  {
  }

  lemma WritingKeeps(c: Ctl, local: bool)
    requires Local(c) && c.worker.Writing?
    ensures var d := WorkStep(c, false, local); Local(d) && Framed(c, d)
  {
    hide Local, Framed;
    BackToLoop(c, c.stream);
    BackToLoop(c, false);
    FramedRefl(c);
  }

  lemma FramedRefl(c: Ctl)
    requires Local(c)
    ensures Framed(c, c)
  {
  }

  lemma TurnCases(c: Ctl, queued: bool)
    requires SdkOk(c)
    ensures c.finished ==> Turn(c, queued) == Turn(c, false)
    ensures !c.finished && c.connecting && c.transcript ==> Turn(c, queued) == Turn(c, false)
    ensures !c.finished && c.connecting && !c.transcript ==> Turn(c, queued) == Branch(c, queued)
  {
  }

  lemma TurnKeeps(c: Ctl, queued: bool)
    requires Local(c) && c.worker.Loop? && Wakes(c, queued) && (queued ==> c.connecting)
    ensures var d := Turn(c, queued); Local(d) && Framed(c, d)
  {
    TurnCases(c, queued);
    hide ObjOk, DoneOk, Turn, Branch, Framed, SdkOk;
    if c.finished {
      FinishedKeeps(c);
    } else if !c.connecting {
      NeverStartedKeeps(c, queued);
    } else if c.transcript {
      DeliverKeeps(c);
    } else {
      BranchKeeps(c, queued);
    }
  }

  lemma WorkCases(c: Ctl, queued: bool, local: bool)
    ensures Prepub(c.worker) || c.worker.CheckStop? || c.worker.SelfFinish? ==> WorkStep(c, queued, local) == WorkStep(c, false, false)
    ensures c.worker.Loop? ==> WorkStep(c, queued, local) == Turn(c, queued)
    ensures c.worker.Deliver? ==> WorkStep(c, queued, local) == Branch(c, queued)
    ensures c.worker.Writing? ==> WorkStep(c, queued, local) == WorkStep(c, false, local)
  {
  }

  lemma WorkKeeps(c: Ctl, queued: bool, local: bool)
    requires Local(c) && WorkReady(c, queued) && (queued ==> c.connecting)
    ensures var d := WorkStep(c, queued, local); Local(d) && Framed(c, d)
  {
    WorkCases(c, queued, local);
    hide Local, WorkStep, Turn, Branch, Framed;
    match c.worker {
      case Loop => TurnKeeps(c, queued);
      case Deliver => BranchKeeps(c, queued);
      case Writing(_) => WritingKeeps(c, local);
      case CheckStop => CheckKeeps(c);
      case SelfFinish => CheckKeeps(c);
      case Done =>
      case _ => StartKeeps(c);
    }
  }

  // ---------------------------------------------------------------- media, SDK and environment

  lemma OutsideWhenCharged(c: Ctl)
    requires CtlInv(c) && !c.media.Outside?
    ensures !c.stopReq && c.pub && c.obj.Built? && !c.finishing
  {
    if c.stopReq {
      assert !c.obj.Freed?;
      ChargeKeepsOut(c);
    }
  }

  lemma VadKeeps(c: Ctl)
    requires CtlInv(c) && CtlReady(c, VadConnect, false, false, false)
    ensures var d := CtlStep(c, VadConnect, false, false, false); Local(d) && Framed(c, d)
  {
    OutsideWhenCharged(c);
    hide LockOk, ChargeOk, StopsOk;
  }

  predicate MediaStep(step: Step) {
    step.Write? || step.Stage? || step.Push?
  }

  lemma MediaKeeps(c: Ctl, step: Step)
    requires Local(c) && MediaStep(step) && CtlReady(c, step, false, false, false)
    ensures var d := CtlStep(c, step, false, false, false); Local(d) && Framed(c, d)
  {
  }

  predicate SdkStep(step: Step) {
    step.OnReady? || step.DrainBegin? || step.DrainNext? || step.DrainEnd? || step.OnTranscript? || step.OnOutcome?
  }

  lemma SdkKeeps(c: Ctl, step: Step, todo: bool)
    requires Local(c) && SdkStep(step) && CtlReady(c, step, false, false, todo)
    ensures var d := CtlStep(c, step, false, false, todo); Local(d) && Framed(c, d)
  {
  }

  lemma EnterKeeps(c: Ctl)
    requires CtlInv(c) && CtlReady(c, Enter, false, false, false)
    ensures CtlInv(CtlStep(c, Enter, false, false, false))
  {
  }

  lemma LeaveKeeps(c: Ctl)
    requires CtlInv(c) && CtlReady(c, Leave, false, false, false)
    ensures CtlInv(CtlStep(c, Leave, false, false, false))
  {
  }

  lemma SlotKeeps(c: Ctl)
    requires CtlInv(c)
    ensures CtlInv(c.(named := false))
  {
  }

  lemma BeginKeeps(c: Ctl, t: Tid, kind: Kind)
    requires CtlInv(c) && BeginOk(c, t, kind)
    ensures CtlInv(c.(stops := c.stops[t := Stop(kind, WantLock)]))
  {
  }

  // ---------------------------------------------------------------- teardowns

  predicate At(c: Ctl, t: Tid, at: StopAt) {
    t in c.stops && c.stops[t].at == at
  }

  /** The lock, or being an orphan, makes a teardown the only active one. */
  ghost predicate Alone(c: Ctl, t: Tid) {
    t in c.stops && forall u :: u in c.stops && u != t ==> c.stops[u].at.WantLock? || c.stops[u].at.Returned?
  }

  lemma ActiveAlone(c: Ctl, t: Tid)
    requires LockOk(c) && t in c.stops && !c.stops[t].at.WantLock? && !c.stops[t].at.Returned?
    ensures Alone(c, t)
  {
  }

  lemma FreeAlone(c: Ctl, t: Tid)
    requires LockOk(c) && At(c, t, WantLock) && TearReady(c, t)
    ensures Alone(c, t)
  {
  }

  lemma AloneStops(c: Ctl, d: Ctl, t: Tid)
    requires Alone(c, t) && t in d.stops && d.stops == c.stops[t := d.stops[t]] && StopOk(d, d.stops[t].at)
    ensures StopsOk(d)
  {
  }

  lemma ReturnKeeps(c: Ctl, t: Tid)
    requires CtlInv(c) && At(c, t, WantLock)
    ensures CtlInv(Pc(c, t, c.stops[t], Returned))
  {
    ChargeMoves(c, Pc(c, t, c.stops[t], Returned), t);
  }

  lemma ChargeMoves(c: Ctl, d: Ctl, t: Tid)
    requires t in c.stops && !InCharge(c.stops[t].at) && t in d.stops && d.stops == c.stops[t := d.stops[t]]
    ensures SomeoneInCharge(c) ==> SomeoneInCharge(d)
  {
    if SomeoneInCharge(c) {
      var u :| u in c.stops && InCharge(c.stops[u].at);
      assert u in d.stops && InCharge(d.stops[u].at);
    }
  }

  lemma LockKeeps(c: Ctl, t: Tid)
    requires CtlInv(c) && At(c, t, WantLock) && c.lock.Nobody? && !c.stops[t].kind.Orphan?
    ensures CtlInv(Pc(c, t, c.stops[t], Flag).(lock := Stopper(t)))
  {
    var d := Pc(c, t, c.stops[t], Flag).(lock := Stopper(t));
    FreeAlone(c, t);
    AloneStops(c, d, t);
    ChargeMoves(c, d, t);
  }

  lemma OrphanKeeps(c: Ctl, t: Tid)
    requires CtlInv(c) && At(c, t, WantLock) && c.stops[t].kind.Orphan?
    ensures CtlInv(Pc(c, t, c.stops[t], Flag))
  {
    ChargeMoves(c, Pc(c, t, c.stops[t], Flag), t);
  }

  lemma TakeKeeps(c: Ctl, t: Tid)
    requires CtlInv(c) && At(c, t, WantLock) && TearReady(c, t)
    ensures CtlInv(TearStep(c, t))
  {
    hide CtlInv;
    if c.stops[t].kind.Orphan? {
      OrphanKeeps(c, t);
    } else if c.stops[t].kind.ByName? && !c.named {
      ReturnKeeps(c, t);
    } else {
      LockKeeps(c, t);
    }
  }

  lemma FlagKeeps(c: Ctl, t: Tid)
    requires CtlInv(c) && At(c, t, Flag)
    ensures CtlInv(Pc(c, t, c.stops[t], Load).(stopReq := true))
  {
    var d := Pc(c, t, c.stops[t], Load).(stopReq := true);
    assert t in d.stops && InCharge(d.stops[t].at);
  }

  lemma LoadKeeps(c: Ctl, t: Tid)
    requires CtlInv(c) && At(c, t, Load)
    ensures CtlInv(Pc(c, t, c.stops[t], Finish(c.pub)))
  {
    var d := Pc(c, t, c.stops[t], Finish(c.pub));
    assert t in d.stops && InCharge(d.stops[t].at);
    assert !c.pub ==> WillStop(c);
  }

  lemma FinishLocal(c: Ctl, t: Tid)
    requires Local(c) && t in c.stops && c.stops[t].at.Finish? && c.stopReq && (c.stops[t].at.has ==> c.pub)
    ensures Local(Pc(c, t, c.stops[t], Join).(finishing := c.finishing || c.stops[t].at.has))
  {
  }

  lemma FinishStopOk(c: Ctl, t: Tid)
    requires t in c.stops && c.stops[t].at.Finish? && StopOk(c, c.stops[t].at)
    ensures StopOk(Pc(c, t, c.stops[t], Join).(finishing := c.finishing || c.stops[t].at.has), Join)
  {
  }

  lemma FinishStops(c: Ctl, t: Tid)
    requires LockOk(c) && t in c.stops && c.stops[t].at.Finish? && StopOk(c, c.stops[t].at)
    ensures var d := Pc(c, t, c.stops[t], Join).(finishing := c.finishing || c.stops[t].at.has); StopsOk(d) && LockOk(d)
  {
    hide LockOk, StopsOk, StopOk, Alone;
    var d := Pc(c, t, c.stops[t], Join).(finishing := c.finishing || c.stops[t].at.has);
    FinishStopOk(c, t);
    ActiveAlone(c, t);
    AloneStops(c, d, t);
    LockMoves(c, d, t);
  }

  lemma FinishKeeps(c: Ctl, t: Tid)
    requires CtlInv(c) && t in c.stops && c.stops[t].at.Finish?
    ensures CtlInv(Pc(c, t, c.stops[t], Join).(finishing := c.finishing || c.stops[t].at.has))
  {
    var d := Pc(c, t, c.stops[t], Join).(finishing := c.finishing || c.stops[t].at.has);
    assert StopOk(c, c.stops[t].at);
    FinishLocal(c, t);
    FinishStops(c, t);
    assert t in d.stops && InCharge(d.stops[t].at);
    hide StopOk, LockOk, StopsOk, ObjOk, SdkOk, DoneOk;
  }

  /** A step of a teardown that keeps what it holds. */
  lemma LockMoves(c: Ctl, d: Ctl, t: Tid)
    requires LockOk(c) && t in c.stops && t in d.stops && d.stops == c.stops[t := d.stops[t]]
    requires d.stops[t].kind == c.stops[t].kind && Holding(d.stops[t]) == Holding(c.stops[t])
    requires d.lock == c.lock && d.media == c.media && d.attached == c.attached && (c.pub ==> d.pub || d.media.Outside?)
    ensures LockOk(d)
  {
  }

  lemma JoinKeeps(c: Ctl, t: Tid)
    requires CtlInv(c) && At(c, t, Join) && TearReady(c, t)
    ensures CtlInv(Pc(c, t, c.stops[t], Kill).(joined := true))
  {
    var d := Pc(c, t, c.stops[t], Kill).(joined := true);
    assert t in d.stops && InCharge(d.stops[t].at);
    JoinLocal(c, t);
    JoinStops(c, t);
    hide ObjOk, SdkOk, DoneOk, LockOk, StopsOk;
  }

  lemma JoinLocal(c: Ctl, t: Tid)
    requires Local(c) && t in c.stops && (c.joined || c.worker.Done?)
    ensures Local(Pc(c, t, c.stops[t], Kill).(joined := true))
  {
  }

  lemma JoinStops(c: Ctl, t: Tid)
    requires CtlInv(c) && At(c, t, Join)
    ensures var d := Pc(c, t, c.stops[t], Kill).(joined := true); StopsOk(d) && LockOk(d)
  {
    hide ObjOk, SdkOk, DoneOk, ChargeOk;
    var d := Pc(c, t, c.stops[t], Kill).(joined := true);
    assert StopOk(c, c.stops[t].at);
    LockMoves(c, d, t);
    hide LockOk;
    forall u | u in d.stops ensures StopOk(d, d.stops[u].at) {
      assert StopOk(c, c.stops[u].at);
    }
  }

  /** At the kill the worker is joined, the SDK has nothing outstanding and the media
      thread is outside. */
  lemma KillFacts(c: Ctl, t: Tid)
    requires CtlInv(c) && At(c, t, Kill)
    ensures c.worker.Done? && c.joined && c.media.Outside? && (c.sdk.NotStarted? || c.sdk.Over?) && c.stopReq
    ensures c.pub <==> c.obj.Built?
    ensures !c.pub ==> c.obj.Freed?
  {
    assert StopOk(c, c.stops[t].at);
    assert t in c.stops && InCharge(c.stops[t].at);
    ChargeKeepsOut(c);
  }

  lemma FreeKeeps(c: Ctl, t: Tid)
    requires CtlInv(c) && At(c, t, Kill) && c.pub
    ensures CtlInv(Pc(c, t, c.stops[t], Release).(obj := Freed, pub := false))
  {
    var d := Pc(c, t, c.stops[t], Release).(obj := Freed, pub := false);
    KillFacts(c, t);
    ActiveAlone(c, t);
    AloneStops(c, d, t);
    LockMoves(c, d, t);
    hide LockOk, StopsOk, Alone;
  }

  lemma AlreadyFreedKeeps(c: Ctl, t: Tid)
    requires CtlInv(c) && At(c, t, Kill) && !c.pub
    ensures CtlInv(Pc(c, t, c.stops[t], Release))
  {
    var d := Pc(c, t, c.stops[t], Release);
    KillFacts(c, t);
    ActiveAlone(c, t);
    AloneStops(c, d, t);
    LockMoves(c, d, t);
    hide LockOk, StopsOk, Alone;
  }

  lemma KillKeeps(c: Ctl, t: Tid)
    requires CtlInv(c) && At(c, t, Kill)
    ensures CtlInv(TearStep(c, t))
  {
    hide CtlInv;
    if c.pub { FreeKeeps(c, t); } else { AlreadyFreedKeeps(c, t); }
  }

  lemma ReleaseKeeps(c: Ctl, t: Tid)
    requires CtlInv(c) && At(c, t, Release)
    ensures CtlInv(TearStep(c, t))
  {
  }

  lemma TearCases(c: Ctl, t: Tid)
    requires TearReady(c, t)
    ensures var s := c.stops[t];
      && (s.at.Flag? ==> TearStep(c, t) == Pc(c, t, s, Load).(stopReq := true))
      && (s.at.Load? ==> TearStep(c, t) == Pc(c, t, s, Finish(c.pub)))
      && (s.at.Finish? ==> TearStep(c, t) == Pc(c, t, s, Join).(finishing := c.finishing || s.at.has))
      && (s.at.Join? ==> TearStep(c, t) == Pc(c, t, s, Kill).(joined := true))
  {
  }

  lemma TearKeeps(c: Ctl, t: Tid)
    requires CtlInv(c) && TearReady(c, t)
    ensures CtlInv(TearStep(c, t))
  {
    TearCases(c, t);
    hide CtlInv, TearStep, Pc;
    match c.stops[t].at {
      case WantLock => TakeKeeps(c, t);
      case Flag => FlagKeeps(c, t);
      case Load => LoadKeeps(c, t);
      case Finish(_) => FinishKeeps(c, t);
      case Join => JoinKeeps(c, t);
      case Kill => KillKeeps(c, t);
      case Release => ReleaseKeeps(c, t);
      case Returned =>
    }
  }

  // ---------------------------------------------------------------- every step

  lemma LocalKeeps(c: Ctl, d: Ctl)
    requires CtlInv(c) && Local(d) && Framed(c, d)
    ensures CtlInv(d)
  {
    hide ObjOk, SdkOk, DoneOk, StopsOk, LockOk;
    FrameKeeps(c, d);
  }

  lemma InvIsLocal(c: Ctl)
    requires CtlInv(c)
    ensures Local(c)
  {
    hide ObjOk, SdkOk, DoneOk, StopsOk, LockOk;
  }

  predicate Framing(step: Step) {
    step.Work? || step.Overdue? || step.VadConnect? || MediaStep(step) || SdkStep(step)
  }

  lemma FramingKeeps(c: Ctl, step: Step, queued: bool, local: bool, todo: bool)
    requires CtlInv(c) && CtlReady(c, step, queued, local, todo) && Framing(step) && (queued ==> c.connecting)
    ensures var d := CtlStep(c, step, queued, local, todo); Local(d) && Framed(c, d)
  {
    InvIsLocal(c);
    hide Local, Framed, CtlInv, WorkStep;
    if step.Work? {
      WorkKeeps(c, queued, local);
    } else if step.Overdue? {
      FramedRefl(c);
    } else if step.VadConnect? {
      VadKeeps(c);
    } else if MediaStep(step) {
      MediaKeeps(c, step);
    } else {
      SdkKeeps(c, step, todo);
    }
  }

  lemma CtlKeeps(c: Ctl, step: Step, queued: bool, local: bool, todo: bool)
    requires CtlInv(c) && CtlReady(c, step, queued, local, todo) && (queued ==> c.connecting)
    ensures CtlInv(CtlStep(c, step, queued, local, todo))
  {
    if Framing(step) {
      FramingKeeps(c, step, queued, local, todo);
      LocalKeeps(c, CtlStep(c, step, queued, local, todo));
    } else {
      match step {
        case Enter => EnterKeeps(c);
        case Leave => LeaveKeeps(c);
        case Begin(t, kind) => BeginKeeps(c, t, kind);
        case Tear(t) => TearKeeps(c, t);
        case SlotTaken => SlotKeeps(c);
        case _ =>
      }
    }
  }
}
