/** How an AWS stream ends: when Close is issued, and exactly when every accepted byte has
    reached the stream by then. */
module AwsEnding {
  import opened Common
  import opened Prebuffer
  import opened AwsModel
  import opened AwsInv
  import opened AwsAudio
  import opened AwsSafety

  // ---------------------------------------------------------------- the invariant of the end

  /** The stream is published before anything that follows it, and given up only by Close. */
  predicate StreamOk(c: Ctl, a: Aud) {
    && (c.sdk.Ready? || c.sdk.Draining? || c.sdk.Streaming? || c.connected ==> c.stream || IsClosed(a))
    && (c.shutdown ==> c.finishing)
    && (Ending(c, a) ==> c.shutdown)
  }

  /** A shutdown of a connected stream has taken the queue, and goes on to the Close. */
  predicate ShutOk(c: Ctl, a: Aud) {
    a.early && c.shutdown ==> Ending(c, a)
  }

  /** After the last take, bytes are left behind if and only if there were some at the take. */
  predicate LateOk(c: Ctl, a: Aud) {
    Ending(c, a) ==> (a.late <==> Behind(a) != [])
  }

  predicate EndOk(c: Ctl, a: Aud) {
    StreamOk(c, a) && ShutOk(c, a) && LateOk(c, a)
  }

  // ---------------------------------------------------------------- the worker

  /** The worker's step as far as the end of the stream goes. */
  lemma WorkEnding(c: Ctl, a: Aud, d: Ctl)
    requires CloseOk(c, a) && Where(c, a) && Facts(c, d, a.deq != [], a.local != [])
    ensures Ending(d, WorkAud(c, a)) <==> Ending(c, a) || (Branches(c) && c.stream && c.finishing)
    ensures IsClosed(WorkAud(c, a)) <==> IsClosed(a) || (c.worker.Writing? && c.worker.last && a.local == [])
  {
    LogAfterWork(c, a);
    hide LogOk, AllAudio, IsClosed;
  }

  lemma WorkStream(c: Ctl, a: Aud, d: Ctl)
    requires CloseOk(c, a) && Where(c, a) && Facts(c, d, a.deq != [], a.local != []) && StreamOk(c, a)
    ensures StreamOk(d, WorkAud(c, a))
  {
    WorkEnding(c, a, d);
    hide CloseOk, IsClosed, LogOk, Ending;
  }

  lemma WorkShut(c: Ctl, a: Aud, d: Ctl)
    requires CloseOk(c, a) && Where(c, a) && Facts(c, d, a.deq != [], a.local != []) && StreamOk(c, a) && ShutOk(c, a)
    ensures ShutOk(d, WorkAud(c, a))
  {
    WorkEnding(c, a, d);
    hide LogOk, IsClosed;
  }

  lemma NoBytes(a: Aud)
    requires a.deq == []
    ensures Behind(a) == Concat(a.todo) + a.pre
  {
  }

  lemma WorkLate(c: Ctl, a: Aud, d: Ctl)
    requires CloseOk(c, a) && Where(c, a) && Facts(c, d, a.deq != [], a.local != []) && LateOk(c, a)
    ensures LateOk(d, WorkAud(c, a))
  {
    WorkEnding(c, a, d);
    if Branches(c) && c.stream && c.finishing {
      NoBytes(WorkAud(c, a));
    }
    hide LogOk, IsClosed, Ending;
  }

  lemma WorkEnds(c: Ctl, a: Aud)
    requires SdkOk(c) && CloseOk(c, a) && Where(c, a) && EndOk(c, a) && WorkReady(c, a.deq != [])
    ensures EndOk(WorkStep(c, a.deq != [], a.local != []), WorkAud(c, a))
  {
    WorkFacts(c, a.deq != [], a.local != []);
    hide WorkStep, WorkAud, Facts, CloseOk, Where, StreamOk, ShutOk, LateOk;
    WorkStream(c, a, WorkStep(c, a.deq != [], a.local != []));
    WorkShut(c, a, WorkStep(c, a.deq != [], a.local != []));
    WorkLate(c, a, WorkStep(c, a.deq != [], a.local != []));
  }

  // ---------------------------------------------------------------- everybody else

  /** A step that leaves the end of the stream alone. */
  lemma SameEnds(c: Ctl, a: Aud, d: Ctl, b: Aud)
    requires EndOk(c, a) && CloseOk(c, a) && b.sent == a.sent && b.early == a.early && b.late == a.late && d.worker == c.worker
    requires d.stream == c.stream && d.finishing == c.finishing && d.shutdown == c.shutdown && d.connected == c.connected
    requires d.sdk.Ready? || d.sdk.Draining? || d.sdk.Streaming? ==> c.sdk.Ready? || c.sdk.Draining? || c.sdk.Streaming?
    requires c.finishing ==> Behind(b) == Behind(a)
    ensures EndOk(d, b)
  {
    hide LogOk, AllAudio, Behind;
  }

  lemma MediaEnds(c: Ctl, a: Aud, step: Step, g: Cfg)
    requires CfgOk(g) && CtlReady(c, step, a.deq != [], a.local != [], a.todo != []) && FromMedia(step)
    requires SdkOk(c) && CloseOk(c, a) && EndOk(c, a) && (c.finishing ==> c.media.Outside?)
    ensures EndOk(CtlStep(c, step, a.deq != [], a.local != [], a.todo != []), AudStep(c, a, step, g))
  {
    hide CtlStep, AudStep, EndOk, CloseOk, CtlReady, Concat;
    MediaCtl(c, step, a.deq != [], a.local != [], a.todo != []);
    MediaAud(c, a, step, g);
    SameEnds(c, a, CtlStep(c, step, a.deq != [], a.local != [], a.todo != []), AudStep(c, a, step, g));
  }

  lemma EndByChanges(c: Ctl, a: Aud, d: Ctl, b: Aud, t: Tid)
    requires t in c.stops && TearChanges(c, d, t) && TearNotes(c, a, b, t) && CloseOk(c, a) && EndOk(c, a)
    ensures EndOk(d, b)
  {
    hide LogOk, AllAudio, Concat;
  }

  lemma TearEnds(c: Ctl, a: Aud, t: Tid, g: Cfg)
    requires CfgOk(g) && TearReady(c, t) && CloseOk(c, a) && EndOk(c, a)
    ensures EndOk(TearStep(c, t), AudStep(c, a, Tear(t), g))
  {
    hide TearStep, AudStep, TearChanges, TearNotes, CloseOk, EndOk;
    TearFrame(c, t);
    TearAud(c, a, t, g);
    EndByChanges(c, a, TearStep(c, t), AudStep(c, a, Tear(t), g), t);
  }

  // ---------------------------------------------------------------- the SDK's callbacks

  lemma HandedSome(w: seq<Stamp>, size: nat, n: nat)
    requires size > 0 && n > 0
    ensures Concat(Handed(w, size, n)) != [] <==> w != []
  {
    DrainIsSuffix(w, size, n);
    if w != [] {
      ChunksRest(w, size);
      HandedFull(w, size, n);
      var q := Handed(w, size, n);
      assert q != [];
      ConcatHead(q);
    }
  }

  /** Beginning the drain moves the prebuffered bytes; overwritten ones go, but never all. */
  lemma DrainBehind(a: Aud, g: Cfg)
    requires CfgOk(g) && a.todo == []
    ensures var kept := Handed(a.pre, g.chunkSize, g.numChunks);
      Behind(a.(todo := kept, pre := [])) != [] <==> Behind(a) != []
  {
    HandedSome(a.pre, g.chunkSize, g.numChunks);
    var none: seq<seq<Stamp>> := [];
    assert Concat(none) == [];
    hide Handed;
  }

  lemma NextBehind(a: Aud)
    requires a.todo != []
    ensures Behind(a.(deq := a.deq + [a.todo[0]], todo := a.todo[1..])) == Behind(a)
  {
    ConcatSnoc(a.deq, a.todo[0]);
    ConcatHead(a.todo);
    var d, h, t := Concat(a.deq), a.todo[0], Concat(a.todo[1..]);
    assert (d + h) + t + a.pre == d + (h + t) + a.pre;
  }

  lemma BeginDrain(c: Ctl, a: Aud, g: Cfg)
    requires CfgOk(g) && c.sdk.Ready? && Where(c, a) && EndOk(c, a)
    ensures EndOk(c.(sdk := Draining), AudStep(c, a, DrainBegin, g))
  {
    var kept := Handed(a.pre, g.chunkSize, g.numChunks);
    DrainBehind(a, g);
    assert Behind(AudStep(c, a, DrainBegin, g)) == Behind(a.(todo := kept, pre := []));
    hide Handed, Behind, Bytes;
  }

  lemma GoOnDraining(c: Ctl, a: Aud)
    requires a.todo != [] && EndOk(c, a)
    ensures EndOk(c, a.(deq := a.deq + [a.todo[0]], todo := a.todo[1..]))
  {
    NextBehind(a);
    hide Behind;
  }

  lemma PublishEnds(c: Ctl, a: Aud, alive: bool)
    requires c.sdk.Started? && SdkOk(c) && CloseOk(c, a) && EndOk(c, a)
    ensures EndOk(c.(stream := true, sdk := if alive then Ready else Streaming), a)
  {
    hide Behind, LogOk, IsClosed;
  }

  lemma ConnectEnds(c: Ctl, a: Aud)
    requires c.sdk.Draining? && EndOk(c, a)
    ensures EndOk(c.(connected := true, sdk := Streaming), a)
  {
    hide Behind, IsClosed;
  }

  predicate FromSdk(step: Step) {
    step.OnReady? || step.DrainBegin? || step.DrainNext? || step.DrainEnd?
  }

  lemma SdkEnds(c: Ctl, a: Aud, step: Step, g: Cfg)
    requires CfgOk(g) && CtlReady(c, step, a.deq != [], a.local != [], a.todo != []) && FromSdk(step)
    requires SdkOk(c) && CloseOk(c, a) && Where(c, a) && EndOk(c, a)
    ensures EndOk(CtlStep(c, step, a.deq != [], a.local != [], a.todo != []), AudStep(c, a, step, g))
  {
    hide EndOk, CloseOk, Where, SdkOk, Handed, Bytes, Concat, WorkAud, WorkStep, TearStep, WorkReady, TearReady, BeginOk;
    match step {
      case OnReady(alive) => PublishEnds(c, a, alive);
      case DrainBegin => BeginDrain(c, a, g);
      case DrainNext => GoOnDraining(c, a);
      case DrainEnd => ConnectEnds(c, a);
    }
  }

  predicate FromElsewhere(step: Step) {
    step.Overdue? || step.OnTranscript? || step.OnOutcome? || step.Begin? || step.SlotTaken?
  }

  /** The steps that do not change the audio, nor what the end of the stream depends on. */
  lemma ElsewhereCtl(c: Ctl, step: Step, queued: bool, local: bool, todo: bool)
    requires CtlReady(c, step, queued, local, todo) && FromElsewhere(step)
    ensures var d := CtlStep(c, step, queued, local, todo);
      && d.worker == c.worker && d.stream == c.stream && d.finishing == c.finishing
      && d.shutdown == c.shutdown && d.connected == c.connected && (d.sdk == c.sdk || d.sdk.Over?)
  {
    hide WorkStep, TearStep, WorkReady, TearReady, BeginOk, Wakes;
    match step {
      case Begin(t, kind) => assert CtlStep(c, step, queued, local, todo) == c.(stops := c.stops[t := Stop(kind, WantLock)]);
      case OnOutcome => assert CtlStep(c, step, queued, local, todo) == c.(finished := true, sdk := Over);
      case OnTranscript => assert CtlStep(c, step, queued, local, todo) == c.(transcript := true);
      case _ =>
    }
  }

  lemma ElsewhereAud(c: Ctl, a: Aud, step: Step, g: Cfg)
    requires CfgOk(g) && CtlReady(c, step, a.deq != [], a.local != [], a.todo != []) && FromElsewhere(step)
    ensures AudStep(c, a, step, g) == a
  {
    hide WorkAud, Handed, Bytes, Concat, Stamps, Excess;
  }

  lemma ElsewhereEnds(c: Ctl, a: Aud, step: Step, g: Cfg)
    requires CfgOk(g) && CtlReady(c, step, a.deq != [], a.local != [], a.todo != []) && FromElsewhere(step)
    requires CloseOk(c, a) && EndOk(c, a)
    ensures EndOk(CtlStep(c, step, a.deq != [], a.local != [], a.todo != []), AudStep(c, a, step, g))
  {
    hide EndOk, CloseOk, CtlStep, AudStep, CtlReady;
    ElsewhereCtl(c, step, a.deq != [], a.local != [], a.todo != []);
    ElsewhereAud(c, a, step, g);
    SameEnds(c, a, CtlStep(c, step, a.deq != [], a.local != [], a.todo != []), a);
  }

  // ---------------------------------------------------------------- every run

  lemma NextEnds(s: Sys, step: Step, g: Cfg)
    requires CfgOk(g) && Inv(s) && EndOk(s.c, s.a) && Possible(s, step)
    ensures EndOk(Next(s, step, g).c, Next(s, step, g).a)
  {
    FinishingOutside(s.c);
    hide EndOk, CloseOk, Where, SdkOk, LockOk, ChargeOk, StopsOk, DoneOk, ObjOk, Accounted, Flow, WorkStep, TearStep;
    if step.Work? {
      WorkEnds(s.c, s.a);
    } else if step.Tear? {
      TearEnds(s.c, s.a, step.t, g);
    } else if FromMedia(step) {
      MediaEnds(s.c, s.a, step, g);
    } else if FromSdk(step) {
      SdkEnds(s.c, s.a, step, g);
    } else {
      ElsewhereEnds(s.c, s.a, step, g);
    }
  }

  lemma {:induction false} RunEnds(s: Sys, run: seq<Step>, g: Cfg)
    requires CfgOk(g) && Inv(s) && EndOk(s.c, s.a) && ValidRun(s, run, g)
    ensures EndOk(Exec(s, run, g).c, Exec(s, run, g).a)
    decreases |run|
  {
    hide Inv, EndOk;
    if run != [] {
      NextKeeps(s, run[0], g);
      NextEnds(s, run[0], g);
      RunEnds(Next(s, run[0], g), run[1..], g);
    }
  }

  lemma StartEnds(vad: bool, attached: bool)
    ensures EndOk(Initial(vad, attached), SILENT)
  {
  }

  lemma ReachableEnds(s: Sys, g: Cfg)
    requires Reachable(s, g)
    ensures Inv(s) && EndOk(s.c, s.a)
  {
    hide Inv, EndOk;
    var vad: bool, attached: bool, run: seq<Step> :| FromStart(vad, attached, run, g, s);
    StartInv(vad, attached);
    StartEnds(vad, attached);
    RunKeeps(Sys(Initial(vad, attached), SILENT), run, g);
    RunEnds(Sys(Initial(vad, attached), SILENT), run, g);
  }

  // ---------------------------------------------------------------- main results

  /** When the worker of a session that was connected before finish() has returned, Close was
      issued if and only if the shutdown began; and if it did not, the final outcome had
      arrived first. */
  lemma CloseIssuedExactly(s: Sys, g: Cfg)
    requires Reachable(s, g) && s.a.early && s.c.worker.Done?
    ensures IsClosed(s.a) <==> s.c.shutdown
    ensures !s.c.shutdown ==> s.c.finished
  {
    ReachableEnds(s, g);
    ConnectedReturns(s.c, s.a);
  }

  lemma ConnectedReturns(c: Ctl, a: Aud)
    requires SdkOk(c) && DoneOk(c) && CloseOk(c, a) && a.early && c.worker.Done?
    ensures c.finished
  {
  }

  /** At the Close every accepted byte has been sent or dropped oldest-first if and only if
      nothing was prebuffered or in the drain when the worker took the queue for the last time. */
  lemma CompleteExactly(s: Sys, g: Cfg)
    requires Reachable(s, g) && IsClosed(s.a)
    ensures (forall k :: 0 <= k < s.a.next ==> k in Spoken(s.a.sent) || k in s.a.dropped) <==> !s.a.late
  {
    ReachableEnds(s, g);
    assert Behind(s.a) != [] <==> s.a.late;
    ClosedSplit(s, g);
    hide Reachable, CtlInv, Where, CloseOk, StreamOk, ShutOk;
    if Behind(s.a) != [] {
      var k := Behind(s.a)[0];
      assert k in Behind(s.a);
      LeftIsAccepted(s.a, k);
      assert k !in Spoken(s.a.sent) && k !in s.a.dropped;
    }
  }

  lemma LeftIsAccepted(a: Aud, k: Stamp)
    requires Accounted(Flow(a), a.dropped, a.next) && k in Behind(a)
    ensures k < a.next
  {
    assert k in Flow(a);
  }

  /** If m_connected was published before finish() and the shutdown began before the final
      outcome ended the worker, Close was issued and the stream got exactly the accepted
      bytes minus the drop-oldest victims. */
  lemma CompleteWhenConnectedFirst(s: Sys, g: Cfg)
    requires Reachable(s, g) && s.a.early && s.c.worker.Done? && s.c.shutdown
    ensures IsClosed(s.a) && Behind(s.a) == []
    ensures forall k :: 0 <= k < s.a.next ==> (k in Spoken(s.a.sent) <==> k !in s.a.dropped)
  {
    CloseIssuedExactly(s, g);
    ReachableEnds(s, g);
    NothingBehind(s.c, s.a);
    ClosedSplit(s, g);
    AudioInOrder(s, g);
  }

  lemma NothingBehind(c: Ctl, a: Aud)
    requires SdkOk(c) && Where(c, a) && CloseOk(c, a) && a.early && IsClosed(a)
    ensures Behind(a) == []
  {
    var none: seq<seq<Stamp>> := [];
    assert Concat(none) == [];
    hide LogOk;
  }
}
