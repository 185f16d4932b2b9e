/** What every run of an AWS session keeps: the streamer is deleted once, when nobody can
    reach it any more; a stop is never lost; and the audio reaches the stream in order. */
module AwsSafety {
  import opened Common
  import opened Prebuffer
  import opened AwsModel
  import opened AwsInv
  import opened AwsAudio

  // ---------------------------------------------------------------- the audio invariant

  predicate Where(c: Ctl, a: Aud) {
    && (a.deq != [] ==> c.connecting)
    && (a.todo != [] ==> c.sdk.Draining?)
    && (c.sdk.Draining? || c.connected ==> a.pre == [])
    && (a.local != [] ==> c.worker.Writing?)
    && (c.media.Pushing? ==> c.connected)
    && (c.media.Staging? ==> !c.media.Outside?)
  }

  predicate AllAudio(sent: seq<Out>) {
    forall i :: 0 <= i < |sent| ==> sent[i].Audio?
  }

  predicate IsClosed(a: Aud) {
    a.sent != [] && a.sent[|a.sent| - 1].Closed?
  }

  /** Audio events; then, at the close, one empty event and Close, and nothing after. */
  predicate LogOk(sent: seq<Out>) {
    AllAudio(sent) || (|sent| >= 2 && AllAudio(sent[..|sent| - 2]) && sent[|sent| - 2].Eos? && sent[|sent| - 1].Closed?)
  }

  predicate Ending(c: Ctl, a: Aud) {
    (c.worker.Writing? && c.worker.last) || IsClosed(a)
  }

  predicate Starting(w: WorkerAt) {
    Prepub(w) || w.CheckStop? || w.SelfFinish?
  }

  predicate CloseOk(c: Ctl, a: Aud) {
    && LogOk(a.sent)
    && (IsClosed(a) ==> !c.stream && c.finishing && !c.worker.Writing? && !Starting(c.worker))
    && (c.worker.Writing? && c.worker.last ==> c.finishing && c.stream)
    && (IsClosed(a) || c.stream ==> !c.sdk.NotStarted? && !c.sdk.Started?)
    && (c.worker.Writing? ==> c.stream)
    && (a.early ==> c.connected && c.finishing)
    && (a.early && Ending(c, a) ==> a.deq == [])
  }

  ghost predicate Inv(s: Sys) {
    && CtlInv(s.c) && Where(s.c, s.a) && CloseOk(s.c, s.a)
    && Accounted(Flow(s.a), s.a.dropped, s.a.next)
  }

  lemma StartInv(vad: bool, attached: bool)
    ensures Inv(Sys(Initial(vad, attached), SILENT))
  {
    InitialInv(vad, attached);
    var none: seq<seq<Stamp>> := [];
    assert Concat(none) == [] && Flow(SILENT) == [];
  }

  // ---------------------------------------------------------------- the account

  lemma WorkAccount(c: Ctl, a: Aud)
    requires Where(c, a) && Accounted(Flow(a), a.dropped, a.next)
    ensures Accounted(Flow(WorkAud(c, a)), WorkAud(c, a).dropped, WorkAud(c, a).next)
  {
    hide Accounted, Flow;
    if Branches(c) {
      assert a.local == [];
      TakeFlow(a);
      LateFlow(a.(local := a.deq, deq := []), a.pre != [] || Concat(a.todo) != []);
    } else if c.worker.SelfFinish? {
      EarlyFlow(a, c.connected);
      EarlyFlow(a, a.early);
    } else if c.worker.Writing? {
      if a.local != [] { SendFlow(a); } else { CloseFlow(a); }
    }
  }

  lemma EarlyFlow(a: Aud, early: bool)
    ensures Flow(a.(early := early)) == Flow(a)
  {
  }

  lemma LateFlow(a: Aud, late: bool)
    ensures Flow(a.(late := late)) == Flow(a)
  {
  }

  lemma FrameFlow(a: Aud, n: nat)
    ensures Flow(a.(frame := n)) == Flow(a)
  {
  }

  lemma StageAccount(c: Ctl, a: Aud)
    requires Accounted(Flow(a), a.dropped, a.next)
    ensures var b := Accept(a).(pre := a.pre + Stamps(a.next, a.frame)); Accounted(Flow(b), b.dropped, b.next)
  {
    hide Accounted, Flow;
    StageFlow(a);
    AccountMore(Flow(a), a.dropped, a.next, a.frame);
  }

  lemma PushAccount(a: Aud, k: nat)
    requires k <= |a.deq| && a.todo == [] && a.pre == [] && Accounted(Flow(a), a.dropped, a.next)
    ensures var b := Accept(a).(deq := a.deq[k..] + [Stamps(a.next, a.frame)],
                                dropped := a.dropped + Bytes(Concat(a.deq[..k])));
      Accounted(Flow(b), b.dropped, b.next)
  {
    hide Accounted, Flow;
    PushFlow(a, k);
    var x, y, z := Spoken(a.sent) + Concat(a.local), Concat(a.deq[..k]), Concat(a.deq[k..]);
    AccountDrop(x, y, z, a.dropped, a.next);
    AccountMore(x + z, a.dropped + Bytes(y), a.next, a.frame);
  }

  lemma PartIncreasing(x: seq<Stamp>, y: seq<Stamp>, z: seq<Stamp>)
    requires Increasing(x + y + z)
    ensures Increasing(y + z)
  {
    var all := x + y + z;
    forall i, j | 0 <= i < j < |y + z| ensures (y + z)[i] < (y + z)[j] {
      assert all[|x| + i] == (y + z)[i] && all[|x| + j] == (y + z)[j];
    }
  }

  lemma DrainAccount(a: Aud, g: Cfg)
    requires CfgOk(g) && a.todo == [] && Accounted(Flow(a), a.dropped, a.next)
    ensures var kept := Handed(a.pre, g.chunkSize, g.numChunks);
      var b := a.(todo := kept, pre := [], dropped := a.dropped + (Bytes(a.pre) - Bytes(Concat(kept))));
      Accounted(Flow(b), b.dropped, b.next)
  {
    hide Flow, Handed;
    DrainFlow(a, g);
    var kept := Handed(a.pre, g.chunkSize, g.numChunks);
    var lost := |a.pre| - |Concat(kept)|;
    var x := Spoken(a.sent) + Concat(a.local) + Concat(a.deq);
    PartIncreasing(x, a.pre[..lost], a.pre[lost..]);
    assert a.pre == a.pre[..lost] + a.pre[lost..];
    Difference(a.pre, lost);
    AccountDrop(x, a.pre[..lost], a.pre[lost..], a.dropped, a.next);
    DroppedFlow(a.(todo := kept, pre := []), a.dropped + (Bytes(a.pre) - Bytes(Concat(kept))));
  }

  lemma DroppedFlow(a: Aud, dropped: set<Stamp>)
    ensures Flow(a.(dropped := dropped)) == Flow(a)
  {
  }

  lemma StepAccount(c: Ctl, a: Aud, step: Step, g: Cfg)
    requires CfgOk(g) && CtlReady(c, step, a.deq != [], a.local != [], a.todo != []) && SdkOk(c)
    requires Where(c, a) && Accounted(Flow(a), a.dropped, a.next)
    ensures var b := AudStep(c, a, step, g); Accounted(Flow(b), b.dropped, b.next)
  {
    hide Accounted, Flow, Handed, WorkAud, Bytes, Concat;
    match step {
      case Work => WorkAccount(c, a);
      case Write(n) => FrameFlow(a, n);
      case Stage => StageAccount(c, a);
      case Push => PushAccount(a, Excess(|a.deq|, g.maxFrames));
      case DrainBegin => DrainAccount(a, g);
      case DrainNext => DrainNextFlow(a);
      case Tear(t) => EarlyFlow(a, c.connected);
      case _ =>
    }
  }

  // ---------------------------------------------------------------- what a step of the worker changes

  predicate Facts(c: Ctl, d: Ctl, queued: bool, local: bool) {
    && d.connected == c.connected && d.media == c.media && d.shutdown == (c.shutdown || (Branches(c) && c.finishing))
    && d.stream == (c.stream && !(c.worker.Writing? && c.worker.last && !local))
    && d.finishing == (c.finishing || c.worker.SelfFinish?) && (c.connecting ==> d.connecting)
    && (d.sdk == c.sdk || (c.sdk.NotStarted? && c.worker.MaybeConnect? && d.sdk.Started?))
    && (d.worker.Writing? <==> (Branches(c) && c.stream && (c.finishing || queued)) || (c.worker.Writing? && local))
    && (d.worker.Writing? ==> d.worker.last == if Branches(c) then c.finishing else c.worker.Writing? && c.worker.last)
    && (!Starting(c.worker) ==> !Starting(d.worker))
  }

  lemma FactsBegin(c: Ctl)
    requires Prepub(c.worker) && SdkOk(c)
    ensures Facts(c, WorkStep(c, false, false), false, false)
  {
    match c.worker {
      case Construct => assert Facts(c, WorkStep(c, false, false), false, false);
      case MaybeConnect => assert Facts(c, WorkStep(c, false, false), false, false);
      case _ =>
    }
  }

  lemma FactsCheck(c: Ctl)
    requires c.worker.CheckStop? || c.worker.SelfFinish?
    ensures Facts(c, WorkStep(c, false, false), false, false)
  {
  }

  lemma FactsBranch(c: Ctl, queued: bool)
    requires Branches(c)
    ensures Facts(c, Branch(c, queued), queued, false)
  {
  }

  lemma FactsTurn(c: Ctl)
    requires c.worker.Loop? && !Branches(c)
    ensures Facts(c, Turn(c, false), false, false)
  {
  }

  lemma FactsWriting(c: Ctl, local: bool)
    requires c.worker.Writing?
    ensures Facts(c, WorkStep(c, false, local), false, local)
  {
  }

  lemma FactsAnyQueue(c: Ctl, d: Ctl, queued: bool, local: bool)
    requires !Branches(c) && (c.worker.Writing? || !local) && Facts(c, d, false, local)
    ensures Facts(c, d, queued, local)
  {
  }

  lemma WorkFacts(c: Ctl, queued: bool, local: bool)
    requires SdkOk(c) && WorkReady(c, queued) && (local ==> c.worker.Writing?)
    ensures Facts(c, WorkStep(c, queued, local), queued, local)
  {
    WorkCases(c, queued, local);
    TurnCases(c, queued);
    if c.worker.Loop? && !Branches(c) {
      TurnWithout(c, queued);
    }
    hide Facts, WorkStep, Turn, Branch;
    if Branches(c) {
      FactsBranch(c, queued);
    } else {
      if c.worker.Loop? {
        FactsTurn(c);
      } else if c.worker.Writing? {
        FactsWriting(c, local);
      } else if Prepub(c.worker) {
        FactsBegin(c);
      } else {
        FactsCheck(c);
      }
      FactsAnyQueue(c, WorkStep(c, queued, local), queued, local);
    }
  }

  lemma TurnWithout(c: Ctl, queued: bool)
    requires c.worker.Loop? && !Branches(c)
    ensures Turn(c, queued) == Turn(c, false)
  {
  }

  // ---------------------------------------------------------------- where things stand

  lemma WhereByFacts(c: Ctl, a: Aud, d: Ctl)
    requires Where(c, a) && Facts(c, d, a.deq != [], a.local != []) && c.worker.Done? == false
    ensures Where(d, WorkAud(c, a))
  {
  }

  lemma MediaWhere(c: Ctl, a: Aud, step: Step, g: Cfg)
    requires CfgOk(g) && CtlReady(c, step, a.deq != [], a.local != [], a.todo != []) && FromMedia(step)
    requires SdkOk(c) && Where(c, a)
    ensures Where(CtlStep(c, step, a.deq != [], a.local != [], a.todo != []), AudStep(c, a, step, g))
  {
    hide Handed, Bytes, Concat, Excess, WorkAud, WorkStep, TearStep, WorkReady, TearReady, BeginOk;
  }

  lemma SdkWhere(c: Ctl, a: Aud, step: Step, g: Cfg)
    requires CfgOk(g) && CtlReady(c, step, a.deq != [], a.local != [], a.todo != [])
    requires !FromMedia(step) && !step.Work? && !step.Tear? && SdkOk(c) && Where(c, a)
    ensures Where(CtlStep(c, step, a.deq != [], a.local != [], a.todo != []), AudStep(c, a, step, g))
  {
    hide Handed, Bytes, Concat, Excess, WorkAud, WorkStep, TearStep, WorkReady, TearReady, BeginOk;
  }

  lemma StepWhere(c: Ctl, a: Aud, step: Step, g: Cfg)
    requires CfgOk(g) && CtlReady(c, step, a.deq != [], a.local != [], a.todo != []) && !step.Work? && !step.Tear?
    requires SdkOk(c) && Where(c, a)
    ensures Where(CtlStep(c, step, a.deq != [], a.local != [], a.todo != []), AudStep(c, a, step, g))
  {
    hide CtlStep, AudStep, CtlReady, Where, SdkOk;
    if FromMedia(step) { MediaWhere(c, a, step, g); } else { SdkWhere(c, a, step, g); }
  }

  predicate TearChanges(c: Ctl, d: Ctl, t: Tid)
    requires t in c.stops
  {
    && d.connecting == c.connecting && d.connected == c.connected && d.sdk == c.sdk && d.worker == c.worker
    && d.media == c.media && d.stream == c.stream
    && d.finishing == (c.finishing || (c.stops[t].at.Finish? && c.stops[t].at.has)) && d.shutdown == c.shutdown
  }

  lemma TakeCases(c: Ctl, t: Tid)
    requires TearReady(c, t) && c.stops[t].at.WantLock?
    ensures var s := c.stops[t];
      || TearStep(c, t) == Pc(c, t, s, Flag)
      || TearStep(c, t) == Pc(c, t, s, Returned)
      || TearStep(c, t) == Pc(c, t, s, Flag).(lock := Stopper(t))
  {
  }

  lemma LeaveCases(c: Ctl, t: Tid)
    requires TearReady(c, t) && !c.stops[t].at.WantLock?
    ensures var s := c.stops[t];
      && (s.at.Kill? ==> TearStep(c, t) == Pc(c, t, s, Release).(obj := if c.pub then Freed else c.obj, pub := false))
      && (s.at.Release? ==> TearStep(c, t) == Pc(c, t, s, Returned).(
            named := c.named && !s.kind.ByName?, lock := if s.kind.Orphan? then c.lock else Nobody))
  {
  }

  lemma TearFrameTake(c: Ctl, t: Tid)
    requires TearReady(c, t) && c.stops[t].at.WantLock?
    ensures TearChanges(c, TearStep(c, t), t)
  {
    hide TearStep;
    TakeCases(c, t);
  }

  lemma TearFrameAct(c: Ctl, t: Tid)
    requires TearReady(c, t) && (c.stops[t].at.Flag? || c.stops[t].at.Load?)
    ensures TearChanges(c, TearStep(c, t), t)
  {
    hide TearStep;
    TearCases(c, t);
  }

  lemma TearFrameEnd(c: Ctl, t: Tid)
    requires TearReady(c, t) && (c.stops[t].at.Finish? || c.stops[t].at.Join?)
    ensures TearChanges(c, TearStep(c, t), t)
  {
    hide TearStep;
    TearCases(c, t);
  }

  lemma TearFrameLeave(c: Ctl, t: Tid)
    requires TearReady(c, t) && (c.stops[t].at.Kill? || c.stops[t].at.Release?)
    ensures TearChanges(c, TearStep(c, t), t)
  {
    hide TearStep;
    LeaveCases(c, t);
  }

  lemma TearFrame(c: Ctl, t: Tid)
    requires TearReady(c, t)
    ensures TearChanges(c, TearStep(c, t), t)
  {
    hide TearStep, TearChanges;
    if c.stops[t].at.WantLock? {
      TearFrameTake(c, t);
    } else if c.stops[t].at.Kill? || c.stops[t].at.Release? {
      TearFrameLeave(c, t);
    } else if c.stops[t].at.Flag? || c.stops[t].at.Load? {
      TearFrameAct(c, t);
    } else {
      TearFrameEnd(c, t);
    }
  }

  /** What a teardown does to the audio: it may note whether m_connected was published. */
  predicate TearNotes(c: Ctl, a: Aud, b: Aud, t: Tid)
    requires t in c.stops
  {
    b == if c.stops[t].at.Finish? && c.stops[t].at.has && !c.finishing then a.(early := c.connected) else a
  }

  lemma TearAud(c: Ctl, a: Aud, t: Tid, g: Cfg)
    requires CfgOk(g) && TearReady(c, t)
    ensures TearNotes(c, a, AudStep(c, a, Tear(t), g), t)
  {
    hide TearStep, TearReady, WorkAud, Handed, Bytes, Concat, Excess, Stamps;
  }

  lemma WhereByChanges(c: Ctl, a: Aud, d: Ctl, b: Aud, t: Tid)
    requires t in c.stops && TearChanges(c, d, t) && TearNotes(c, a, b, t) && Where(c, a)
    ensures Where(d, b)
  {
  }

  lemma TearWhere(c: Ctl, a: Aud, t: Tid, g: Cfg)
    requires CfgOk(g) && TearReady(c, t) && Where(c, a)
    ensures Where(TearStep(c, t), AudStep(c, a, Tear(t), g))
  {
    hide TearStep, AudStep, TearChanges, TearNotes, Where;
    TearFrame(c, t);
    TearAud(c, a, t, g);
    WhereByChanges(c, a, TearStep(c, t), AudStep(c, a, Tear(t), g), t);
  }

  // ---------------------------------------------------------------- the end of the stream

  lemma AudioSnoc(sent: seq<Out>, b: seq<Stamp>)
    requires AllAudio(sent)
    ensures AllAudio(sent + [Audio(b)])
  {
  }

  lemma ClosedLog(a: Aud)
    requires LogOk(a.sent)
    ensures IsClosed(a) <==> !AllAudio(a.sent)
    ensures !IsClosed(a) ==> LogOk(a.sent + [Eos, Closed])
  {
    if !IsClosed(a) {
      assert (a.sent + [Eos, Closed])[..|a.sent|] == a.sent;
    }
  }

  lemma LogAfterWriting(c: Ctl, a: Aud)
    requires LogOk(a.sent) && !IsClosed(a) && c.worker.Writing?
    ensures LogOk(WorkAud(c, a).sent)
    ensures IsClosed(WorkAud(c, a)) <==> c.worker.last && a.local == []
  {
    hide LogOk, AllAudio, Take;
    ClosedLog(a);
    if a.local != [] {
      AudioSnoc(a.sent, a.local[0]);
      AudioIsLog(a.sent + [Audio(a.local[0])]);
    }
  }

  lemma AudioIsLog(sent: seq<Out>)
    requires AllAudio(sent)
    ensures LogOk(sent)
  {
  }

  lemma LogAfterWork(c: Ctl, a: Aud)
    requires LogOk(a.sent) && (IsClosed(a) ==> !c.worker.Writing?)
    ensures LogOk(WorkAud(c, a).sent)
    ensures IsClosed(WorkAud(c, a)) <==>
      IsClosed(a) || (!Branches(c) && c.worker.Writing? && c.worker.last && a.local == [])
  {
    if c.worker.Writing? {
      LogAfterWriting(c, a);
    }
    hide LogOk, AllAudio;
  }

  lemma CloseByFacts(c: Ctl, a: Aud, d: Ctl)
    requires SdkOk(c) && CloseOk(c, a) && Facts(c, d, a.deq != [], a.local != []) && (a.local != [] ==> c.worker.Writing?)
    ensures CloseOk(d, WorkAud(c, a))
  {
    LogAfterWork(c, a);
    hide LogOk, IsClosed, AllAudio;
  }

  /** The stream is only ever taken, and closed, in processData. */
  lemma WorkKeepsAudio(c: Ctl, a: Aud)
    requires SdkOk(c) && CloseOk(c, a) && Where(c, a) && WorkReady(c, a.deq != [])
    ensures var d := WorkStep(c, a.deq != [], a.local != []); Where(d, WorkAud(c, a)) && CloseOk(d, WorkAud(c, a))
  {
    WorkFacts(c, a.deq != [], a.local != []);
    hide WorkStep;
    WhereByFacts(c, a, WorkStep(c, a.deq != [], a.local != []));
    CloseByFacts(c, a, WorkStep(c, a.deq != [], a.local != []));
  }

  predicate FromMedia(step: Step) {
    step.Enter? || step.VadConnect? || step.Write? || step.Stage? || step.Push? || step.Leave?
  }

  /** A step that leaves the log, the worker and the stream alone, and queues nothing once the
      session is finishing. */
  lemma QuietClose(c: Ctl, a: Aud, d: Ctl, b: Aud)
    requires CloseOk(c, a) && b.sent == a.sent && b.early == a.early && (c.finishing ==> b.deq == a.deq)
    requires d.stream == c.stream && d.finishing == c.finishing && d.worker == c.worker && d.connected == c.connected
    requires d.sdk == c.sdk || c.sdk.NotStarted?
    requires d.sdk.NotStarted? || d.sdk.Started? ==> c.sdk.NotStarted? || c.sdk.Started?
    ensures CloseOk(d, b)
  {
    hide LogOk, AllAudio;
  }

  lemma MediaClose(c: Ctl, a: Aud, step: Step, g: Cfg)
    requires CfgOk(g) && CtlReady(c, step, a.deq != [], a.local != [], a.todo != []) && FromMedia(step)
    requires SdkOk(c) && CloseOk(c, a) && Where(c, a) && (c.finishing ==> c.media.Outside?)
    ensures CloseOk(CtlStep(c, step, a.deq != [], a.local != [], a.todo != []), AudStep(c, a, step, g))
  {
    hide CloseOk, CtlStep, AudStep;
    MediaCtl(c, step, a.deq != [], a.local != [], a.todo != []);
    MediaAud(c, a, step, g);
    QuietClose(c, a, CtlStep(c, step, a.deq != [], a.local != [], a.todo != []), AudStep(c, a, step, g));
  }

  /** What a step of the media thread leaves alone; VAD's connect() may start the SDK. */
  predicate MediaChanges(c: Ctl, d: Ctl) {
    && d.stream == c.stream && d.finishing == c.finishing && d.worker == c.worker && d.connected == c.connected
    && d.shutdown == c.shutdown && d.finished == c.finished && (d.sdk == c.sdk || (c.sdk.NotStarted? && d.sdk.Started?))
  }

  lemma ConnectCtl(c: Ctl)
    requires CtlReady(c, VadConnect, false, false, false) && SdkOk(c)
    ensures MediaChanges(c, CtlStep(c, VadConnect, false, false, false))
  {
  }

  lemma MediaCtl(c: Ctl, step: Step, queued: bool, local: bool, todo: bool)
    requires CtlReady(c, step, queued, local, todo) && FromMedia(step) && SdkOk(c)
    ensures MediaChanges(c, CtlStep(c, step, queued, local, todo))
  {
    hide WorkStep, TearStep, WorkReady, TearReady, BeginOk;
    match step {
      case VadConnect => ConnectCtl(c);
      case Enter =>
      case Write(_) =>
      case Stage =>
      case Push =>
      case Leave =>
    }
  }

  lemma MediaAud(c: Ctl, a: Aud, step: Step, g: Cfg)
    requires CfgOk(g) && CtlReady(c, step, a.deq != [], a.local != [], a.todo != []) && FromMedia(step)
    requires c.finishing ==> c.media.Outside?
    ensures var b := AudStep(c, a, step, g);
      && b.sent == a.sent && b.early == a.early && b.late == a.late
      && (c.finishing ==> b.deq == a.deq && b.pre == a.pre && b.todo == a.todo)
  {
    hide WorkAud, Handed, Bytes, Concat, Stamps, Excess;
  }

  lemma OtherClose(c: Ctl, a: Aud, step: Step, g: Cfg)
    requires CfgOk(g) && CtlReady(c, step, a.deq != [], a.local != [], a.todo != [])
    requires !step.Work? && !step.Tear? && !FromMedia(step)
    requires SdkOk(c) && CloseOk(c, a) && Where(c, a)
    ensures CloseOk(CtlStep(c, step, a.deq != [], a.local != [], a.todo != []), AudStep(c, a, step, g))
  {
    hide Handed, Bytes, Concat, Excess, LogOk, AllAudio;
  }

  lemma StepClose(c: Ctl, a: Aud, step: Step, g: Cfg)
    requires CfgOk(g) && CtlReady(c, step, a.deq != [], a.local != [], a.todo != []) && !step.Work? && !step.Tear?
    requires SdkOk(c) && CloseOk(c, a) && Where(c, a)
    requires c.finishing ==> c.media.Outside?
    ensures CloseOk(CtlStep(c, step, a.deq != [], a.local != [], a.todo != []), AudStep(c, a, step, g))
  {
    hide CloseOk, Where, SdkOk, CtlStep, AudStep;
    if FromMedia(step) {
      MediaClose(c, a, step, g);
    } else {
      OtherClose(c, a, step, g);
    }
  }

  lemma TearClose(c: Ctl, a: Aud, t: Tid, g: Cfg)
    requires CfgOk(g) && TearReady(c, t) && CloseOk(c, a)
    ensures CloseOk(TearStep(c, t), AudStep(c, a, Tear(t), g))
  {
    hide TearStep, AudStep, TearChanges, TearNotes, CloseOk;
    TearFrame(c, t);
    TearAud(c, a, t, g);
    CloseByChanges(c, a, TearStep(c, t), AudStep(c, a, Tear(t), g), t);
  }

  lemma CloseByChanges(c: Ctl, a: Aud, d: Ctl, b: Aud, t: Tid)
    requires t in c.stops && TearChanges(c, d, t) && TearNotes(c, a, b, t) && CloseOk(c, a)
    ensures CloseOk(d, b)
  {
    hide LogOk, AllAudio;
  }

  // ---------------------------------------------------------------- every step, every run

  lemma FinishingOutside(c: Ctl)
    requires CtlInv(c)
    ensures c.finishing ==> c.media.Outside?
  {
    if !c.media.Outside? {
      OutsideWhenCharged(c);
    }
  }

  lemma NextKeeps(s: Sys, step: Step, g: Cfg)
    requires CfgOk(g) && Inv(s) && Possible(s, step)
    ensures Inv(Next(s, step, g))
  {
    var c, a := s.c, s.a;
    FinishingOutside(c);
    hide LockOk, ChargeOk, StopsOk, DoneOk, ObjOk, CloseOk, Accounted, Flow, AudStep, CtlStep;
    CtlKeeps(c, step, a.deq != [], a.local != [], a.todo != []);
    StepAccount(c, a, step, g);
    AudioParts(c, a, step, g);
  }

  lemma AudioParts(c: Ctl, a: Aud, step: Step, g: Cfg)
    requires CfgOk(g) && CtlReady(c, step, a.deq != [], a.local != [], a.todo != [])
    requires SdkOk(c) && CloseOk(c, a) && Where(c, a) && (c.finishing ==> c.media.Outside?)
    ensures var d, b := CtlStep(c, step, a.deq != [], a.local != [], a.todo != []), AudStep(c, a, step, g);
      Where(d, b) && CloseOk(d, b)
  {
    hide CloseOk, Where, SdkOk, WorkStep, TearStep;
    if step.Work? {
      WorkKeepsAudio(c, a);
    } else if step.Tear? {
      TearWhere(c, a, step.t, g);
      TearClose(c, a, step.t, g);
    } else {
      StepWhere(c, a, step, g);
      StepClose(c, a, step, g);
    }
  }

  lemma {:induction false} RunKeeps(s: Sys, run: seq<Step>, g: Cfg)
    requires CfgOk(g) && Inv(s) && ValidRun(s, run, g)
    ensures Inv(Exec(s, run, g))
    decreases |run|
  {
    hide Inv;
    if run != [] {
      NextKeeps(s, run[0], g);
      RunKeeps(Next(s, run[0], g), run[1..], g);
    }
  }

  // ---------------------------------------------------------------- main results

  /** A session from its start: with or without VAD, its bug attached or not. */
  ghost predicate Reachable(s: Sys, g: Cfg) {
    CfgOk(g) && exists vad: bool, attached: bool, run: seq<Step> :: FromStart(vad, attached, run, g, s)
  }

  predicate FromStart(vad: bool, attached: bool, run: seq<Step>, g: Cfg, s: Sys)
    requires CfgOk(g)
  {
    ValidRun(Sys(Initial(vad, attached), SILENT), run, g) && Exec(Sys(Initial(vad, attached), SILENT), run, g) == s
  }

  lemma ReachableInv(s: Sys, g: Cfg)
    requires Reachable(s, g)
    ensures Inv(s)
  {
    hide Inv;
    var vad: bool, attached: bool, run: seq<Step> :| FromStart(vad, attached, run, g, s);
    StartInv(vad, attached);
    RunKeeps(Sys(Initial(vad, attached), SILENT), run, g);
  }

  /** The worker returns only if the final outcome has arrived, or no start was ever issued
      and none can be issued any more. */
  lemma WorkerReturnsSafely(s: Sys, g: Cfg)
    requires Reachable(s, g) && s.c.worker.Done?
    ensures s.c.finished || (s.c.sdk.NotStarted? && s.c.media.Outside? && (s.c.obj.Freed? || SomeoneInCharge(s.c)))
  {
    ReachableInv(s, g);
    FinishingOutside(s.c);
  }

  /** When a teardown reaches the deletion, the worker is joined, the SDK has nothing
      outstanding, the media thread is outside, and this is the only deletion. */
  lemma DeletedLast(s: Sys, g: Cfg, t: Tid)
    requires Reachable(s, g) && t in s.c.stops && s.c.stops[t].at.Kill?
    ensures s.c.worker.Done? && s.c.joined && s.c.media.Outside? && (s.c.sdk.NotStarted? || s.c.sdk.Over?)
    ensures s.c.pub <==> s.c.obj.Built?
    ensures Alone(s.c, t)
  {
    ReachableInv(s, g);
    KillFacts(s.c, t);
    ActiveAlone(s.c, t);
  }

  /** No step of any thread or callback touches a streamer that is not there. */
  lemma NoUseAfterFree(s: Sys, g: Cfg, step: Step)
    requires Reachable(s, g) && Possible(s, step) && Touches(s.c, step)
    ensures s.c.obj.Built?
  {
    ReachableInv(s, g);
    TouchesBuilt(s.c, s.a, step);
  }

  lemma FreedIsOver(c: Ctl)
    requires CtlInv(c) && c.obj.Freed?
    ensures c.worker.Done? && c.media.Outside? && !c.pub && (c.sdk.NotStarted? || c.sdk.Over?)
  {
  }

  lemma UnbuiltIsEarly(c: Ctl)
    requires CtlInv(c) && c.obj.Unbuilt?
    ensures c.worker.Construct? && c.media.Outside? && c.sdk.NotStarted? && !c.pub
  {
  }

  lemma TouchesBuilt(c: Ctl, a: Aud, step: Step)
    requires CtlInv(c) && Where(c, a) && CtlReady(c, step, a.deq != [], a.local != [], a.todo != []) && Touches(c, step)
    ensures c.obj.Built?
  {
    hide CtlInv;
    if c.obj.Freed? {
      FreedIsOver(c);
      TearTouches(c, step);
    } else if c.obj.Unbuilt? {
      UnbuiltIsEarly(c);
      TearTouches(c, step);
    }
  }

  lemma TearTouches(c: Ctl, step: Step)
    requires CtlInv(c) && step.Tear? && Touches(c, step)
    ensures c.pub
  {
    assert StopOk(c, c.stops[step.t].at);
  }

  /** A stop request is never lost: a teardown that waits in the join waits for a worker that
      has seen the request or will see it before it first sleeps. */
  lemma StopNeverLost(s: Sys, g: Cfg, t: Tid)
    requires Reachable(s, g) && t in s.c.stops && s.c.stops[t].at.Join?
    ensures WillStop(s.c)
  {
    ReachableInv(s, g);
    assert StopOk(s.c, s.c.stops[t].at);
  }

  lemma PrefixIncreasing(x: seq<Stamp>, y: seq<Stamp>)
    requires Increasing(x + y)
    ensures Increasing(x)
  {
    forall i, j | 0 <= i < j < |x| ensures x[i] < x[j] {
      assert (x + y)[i] == x[i] && (x + y)[j] == x[j];
    }
  }

  /** What reaches the stream is in write order, without duplicates and without dropped
      bytes; and the stream gets audio events, then at most one empty event and one Close,
      and nothing after. */
  lemma AudioInOrder(s: Sys, g: Cfg)
    requires Reachable(s, g)
    ensures Increasing(Spoken(s.a.sent)) && LogOk(s.a.sent)
    ensures forall k :: k in Spoken(s.a.sent) ==> k < s.a.next && k !in s.a.dropped
  {
    ReachableInv(s, g);
    assert LogOk(s.a.sent);
    hide CtlInv, Where, CloseOk, LogOk, Reachable;
    var rest := Concat(s.a.local) + Behind(s.a);
    assert Flow(s.a) == Spoken(s.a.sent) + rest;
    PrefixIncreasing(Spoken(s.a.sent), rest);
    forall k | k in Spoken(s.a.sent) ensures k < s.a.next && k !in s.a.dropped {
      assert k in Spoken(s.a.sent) + rest;
    }
  }

  /** After Close the accepted bytes split into those sent, those dropped oldest-first, and
      those still in the prebuffer, the drain or the queue. */
  lemma ClosedSplit(s: Sys, g: Cfg)
    requires Reachable(s, g) && IsClosed(s.a)
    ensures forall k :: 0 <= k < s.a.next ==> k in Spoken(s.a.sent) || k in s.a.dropped || k in Behind(s.a)
    ensures forall k :: k in Behind(s.a) ==> k !in Spoken(s.a.sent) && k !in s.a.dropped
  {
    ReachableInv(s, g);
    var none: seq<seq<Stamp>> := [];
    assert s.a.local == [] && Concat(none) == [];
    assert Flow(s.a) == Spoken(s.a.sent) + Behind(s.a);
    Disjoint(Spoken(s.a.sent), Behind(s.a));
    hide CtlInv, Where, CloseOk, Reachable;
    forall k | k in Behind(s.a) ensures k !in s.a.dropped {
      assert k in Flow(s.a);
    }
  }

  lemma Disjoint(x: seq<Stamp>, y: seq<Stamp>)
    requires Increasing(x + y)
    ensures forall k :: k in y ==> k !in x
  {
    forall i, j | 0 <= i < |x| && 0 <= j < |y| ensures x[i] != y[j] {
      assert (x + y)[i] == x[i] && (x + y)[|x| + j] == y[j];
    }
  }

  // ---------------------------------------------------------------- the empty event is the only one

  predicate AllFull(q: seq<seq<Stamp>>) {
    forall i :: 0 <= i < |q| ==> q[i] != []
  }

  /** No frame and no audio event is empty. AWS reads an empty event as the end of the stream. */
  predicate Solid(c: Ctl, a: Aud) {
    && AllFull(a.todo) && AllFull(a.deq) && AllFull(a.local)
    && (forall i :: 0 <= i < |a.sent| && a.sent[i].Audio? ==> a.sent[i].bytes != [])
    && (c.media.Staging? || c.media.Pushing? ==> a.frame > 0)
  }

  lemma {:induction false} ChunksFull<T>(s: seq<T>, size: nat)
    requires size > 0
    ensures forall i :: 0 <= i < |Chunks(s, size)| ==> |Chunks(s, size)[i]| == size
    decreases |s|
  {
    if |s| >= size {
      ChunksFull(s[size..], size);
    }
  }

  lemma HandedFull(w: seq<Stamp>, size: nat, n: nat)
    requires size > 0
    ensures AllFull(Handed(w, size, n))
  {
    ChunksFull(w, size);
  }

  lemma WorkSolid(c: Ctl, a: Aud, d: Ctl)
    requires Solid(c, a) && d.media == c.media
    ensures Solid(d, WorkAud(c, a))
  {
  }

  lemma StepSolid(c: Ctl, a: Aud, step: Step, g: Cfg)
    requires CfgOk(g) && CtlReady(c, step, a.deq != [], a.local != [], a.todo != []) && Solid(c, a)
    requires !step.Work? && !step.Tear? && (step.Write? ==> step.n > 0)
    ensures Solid(CtlStep(c, step, a.deq != [], a.local != [], a.todo != []), AudStep(c, a, step, g))
  {
    HandedFull(a.pre, g.chunkSize, g.numChunks);
    hide Handed, Bytes, Concat, WorkAud, WorkStep, TearStep, WorkReady, TearReady, BeginOk;
  }

  lemma NextSolid(s: Sys, step: Step, g: Cfg)
    requires CfgOk(g) && Inv(s) && Possible(s, step) && Solid(s.c, s.a) && (step.Write? ==> step.n > 0)
    ensures var t := Next(s, step, g); Solid(t.c, t.a)
  {
    if step.Work? {
      WorkFacts(s.c, s.a.deq != [], s.a.local != []);
      hide WorkStep, Solid;
      WorkSolid(s.c, s.a, WorkStep(s.c, s.a.deq != [], s.a.local != []));
    } else if step.Tear? {
      TearFrame(s.c, step.t);
      hide TearStep;
    } else {
      StepSolid(s.c, s.a, step, g);
    }
  }

  lemma {:induction false} OneEmptyEvent(s: Sys, run: seq<Step>, g: Cfg)
    requires CfgOk(g) && Inv(s) && Solid(s.c, s.a) && ValidRun(s, run, g)
    requires forall i :: 0 <= i < |run| ==> run[i].Write? ==> run[i].n > 0
    ensures var t := Exec(s, run, g); Solid(t.c, t.a)
    decreases |run|
  {
    hide Inv, Solid;
    if run != [] {
      NextKeeps(s, run[0], g);
      NextSolid(s, run[0], g);
      OneEmptyEvent(Next(s, run[0], g), run[1..], g);
    }
  }
}
