/** Nothing in an AWS session stands still: the worker alone sends what is queued on an open
    stream, and a teardown that has the session can always be brought to its end. */
module AwsProgress {
  import opened Common
  import opened Prebuffer
  import opened AwsModel
  import opened AwsInv
  import opened AwsAudio
  import opened AwsSafety
  import opened AwsHistory

  predicate InLoop(w: WorkerAt) {
    w.Loop? || w.Deliver? || w.Writing?
  }

  // ---------------------------------------------------------------- what is queued is sent

  predicate WorkOnly(run: seq<Step>) {
    forall i :: 0 <= i < |run| ==> run[i].Work?
  }

  /** The stream is open and nobody is ending the session. */
  predicate Sending(c: Ctl) {
    c.stream && !c.finishing && !c.finished && InLoop(c.worker)
  }

  predicate Settled(s: Sys) {
    s.c.worker.Loop? && s.a.deq == [] && !s.c.transcript
  }

  function SendRank(s: Sys): nat {
    |s.a.local| + 3 * |s.a.deq| + (if s.c.transcript then 2 else 0) + if s.c.worker.Loop? then 0 else 1
  }

  /** What has been sent, and then what the worker and the queue hold. */
  function Line(a: Aud): seq<Stamp> {
    Spoken(a.sent) + Concat(a.local) + Concat(a.deq)
  }

  /** What the worker's step leaves of an open stream, and where the worker goes on. */
  predicate Sends(c: Ctl, d: Ctl, queued: bool, local: bool) {
    && d.stream && !d.finishing && !d.finished
    && d.transcript == (c.transcript && !c.worker.Loop?)
    && d.worker == if c.worker.Loop? && c.transcript then Deliver
                   else if c.worker.Writing? then (if local then c.worker else Loop)
                   else if queued then Writing(false) else Loop
  }

  lemma SendingTurn(c: Ctl, queued: bool, local: bool)
    requires Sending(c) && c.connecting && c.worker.Loop?
    ensures Sends(c, Turn(c, queued), queued, local)
  {
  }

  lemma SendingBranch(c: Ctl, queued: bool, local: bool)
    requires Sending(c) && c.worker.Deliver?
    ensures Sends(c, Branch(c, queued), queued, local)
  {
  }

  lemma SendingWriting(c: Ctl, queued: bool, local: bool)
    requires Sending(c) && c.worker.Writing? && !c.worker.last
    ensures Sends(c, WorkStep(c, false, local), queued, local)
  {
  }

  lemma SendingWork(c: Ctl, queued: bool, local: bool)
    requires Sending(c) && c.connecting && (c.worker.Writing? ==> !c.worker.last)
    ensures Sends(c, WorkStep(c, queued, local), queued, local)
  {
    hide Sends, WorkStep, Turn, Branch;
    WorkCases(c, queued, local);
    match c.worker {
      case Loop => SendingTurn(c, queued, local);
      case Deliver => SendingBranch(c, queued, local);
      case _ => SendingWriting(c, queued, local);
    }
  }

  lemma TakeLine(a: Aud)
    requires a.local == []
    ensures Line(a.(local := a.deq, deq := [])) == Line(a)
  {
    var none: seq<seq<Stamp>> := [];
    assert Concat(none) == [];
  }

  lemma SendLine(a: Aud)
    requires a.local != []
    ensures Line(a.(sent := a.sent + [Audio(a.local[0])], local := a.local[1..])) == Line(a)
  {
    SpokenSnoc(a.sent, Audio(a.local[0]));
    ConcatHead(a.local);
    var x, h, t := Spoken(a.sent), a.local[0], Concat(a.local[1..]);
    assert (x + h) + t + Concat(a.deq) == x + (h + t) + Concat(a.deq);
  }

  /** What the worker's step does to the audio of an open stream. */
  lemma SendingAud(c: Ctl, a: Aud)
    requires Sending(c) && c.connecting && Where(c, a) && (c.worker.Writing? ==> !c.worker.last)
    ensures var b := WorkAud(c, a);
      b == if c.worker.Loop? && c.transcript then a
           else if c.worker.Writing?
           then (if a.local != [] then a.(sent := a.sent + [Audio(a.local[0])], local := a.local[1..]) else a)
           else if a.deq != [] then a.(local := a.deq, deq := []) else a
    ensures Line(WorkAud(c, a)) == Line(a)
  {
    hide Line;
    if c.worker.Writing? {
      if a.local != [] { SendLine(a); }
    } else if a.deq != [] {
      TakeLine(a);
    }
  }

  lemma SendingFacts(s: Sys)
    requires Inv(s) && Sending(s.c)
    ensures s.c.connecting && Where(s.c, s.a) && (s.c.worker.Writing? ==> !s.c.worker.last)
  {
  }

  lemma SendingReady(c: Ctl, a: Aud)
    requires Sending(c) && !(c.worker.Loop? && a.deq == [] && !c.transcript)
    ensures WorkReady(c, a.deq != [])
  {
  }

  lemma SendFalls(s: Sys, t: Sys)
    requires Sending(s.c) && s.c.connecting && Where(s.c, s.a) && !Settled(s) && (s.c.worker.Writing? ==> !s.c.worker.last)
    requires t.c == WorkStep(s.c, s.a.deq != [], s.a.local != []) && t.a == WorkAud(s.c, s.a)
    ensures Sending(t.c) && Line(t.a) == Line(s.a) && SendRank(t) < SendRank(s)
  {
    SendingReady(s.c, s.a);
    SendingWork(s.c, s.a.deq != [], s.a.local != []);
    SendingAud(s.c, s.a);
    hide WorkStep, WorkAud, WorkReady, Line;
  }

  lemma SendsOne(s: Sys, g: Cfg)
    requires CfgOk(g) && Inv(s) && Sending(s.c) && !Settled(s)
    ensures Possible(s, Work)
    ensures var t := Next(s, Work, g); Sending(t.c) && Line(t.a) == Line(s.a) && SendRank(t) < SendRank(s)
  {
    hide Inv, Line, WorkStep, WorkAud, WorkReady, Sending, SendRank;
    SendingFacts(s);
    SendingReady(s.c, s.a);
    SendFalls(s, Next(s, Work, g));
  }

  lemma SettledSent(s: Sys)
    requires Inv(s) && Settled(s)
    ensures s.a.local == [] && Spoken(s.a.sent) == Line(s.a)
  {
    var none: seq<seq<Stamp>> := [];
    assert Concat(none) == [];
    hide CtlInv, CloseOk, Accounted;
  }

  lemma {:induction false} SendsAll(s: Sys, g: Cfg) returns (run: seq<Step>)
    requires CfgOk(g) && Inv(s) && Sending(s.c)
    ensures ValidRun(s, run, g) && WorkOnly(run)
    ensures var t := Exec(s, run, g); t.a.deq == [] && t.a.local == [] && Spoken(t.a.sent) == Line(s.a)
    decreases SendRank(s)
  {
    hide Inv, Sending, Line, Next, Possible, SendRank;
    if Settled(s) {
      SettledSent(s);
      run := [];
    } else {
      SendsOne(s, g);
      NextKeeps(s, Work, g);
      var rest := SendsAll(Next(s, Work, g), g);
      run := [Work] + rest;
      assert run[1..] == rest;
    }
  }

  /** While the stream is open and nobody ends the session, the worker alone brings everything
      that is queued to the stream, in order, after what it has sent. */
  lemma QueueAlwaysSent(s: Sys, g: Cfg)
    requires Reachable(s, g) && Sending(s.c)
    ensures exists more ::
      && ValidRun(s, more, g) && WorkOnly(more)
      && Exec(s, more, g).a.deq == [] && Exec(s, more, g).a.local == []
      && Spoken(Exec(s, more, g).a.sent) == Spoken(s.a.sent) + Concat(s.a.local) + Concat(s.a.deq)
  {
    ReachableInv(s, g);
    var more := SendsAll(s, g);
  }

  /** A transcript that waits is what the worker takes next, as long as no outcome has come. */
  lemma TranscriptIsNext(s: Sys, g: Cfg)
    requires Reachable(s, g) && s.c.transcript && s.c.worker.Loop? && !s.c.finished
    ensures Possible(s, Work) && Next(s, Work, g).c.worker.Deliver? && !Next(s, Work, g).c.transcript
  {
    ReachableInv(s, g);
    assert s.c.connecting;
    hide CtlInv, Where, CloseOk, Accounted;
  }

  // ---------------------------------------------------------------- a teardown can always end

  function TearRank(at: StopAt): nat {
    match at
    case WantLock => 7
    case Flag => 6
    case Load => 5
    case Finish(_) => 4
    case Join => 3
    case Kill => 2
    case Release => 1
    case Returned => 0
  }

  function StartRank(w: WorkerAt): nat {
    match w
    case Construct => 6
    case MaybeConnect => 5
    case Publish => 4
    case CheckStop => 3
    case SelfFinish => 2
    case Done => 0
    case _ => 1
  }

  function SdkRank(k: SdkAt): nat {
    match k
    case NotStarted => 5
    case Started => 4
    case Ready => 3
    case Draining => 2
    case Streaming => 1
    case Over => 0
  }

  function OpenRank(c: Ctl): nat {
    (if c.shutdown then 0 else 2) + if c.stream then 1 else 0
  }

  function LoopRank(s: Sys): nat {
    |s.a.local| + 3 * |s.a.deq| + (if s.c.transcript then 2 else 0)
    + (if s.c.worker.Loop? then 0 else 1) + if s.c.stream && !(s.c.worker.Writing? && s.c.worker.last) then 4 else 0
  }

  predicate Ends(step: Step, t: Tid) {
    step == Tear(t) || step.Work? || SdkStep(step)
  }

  predicate EndsOnly(run: seq<Step>, t: Tid) {
    forall i :: 0 <= i < |run| ==> Ends(run[i], t)
  }

  /** Lexicographically: the teardown, the worker's start, the SDK, the drain, the stream, the loop. */
  predicate Lower(s': Sys, s: Sys, t: Tid)
    requires t in s.c.stops && t in s'.c.stops
  {
    var a, a' := TearRank(s.c.stops[t].at), TearRank(s'.c.stops[t].at);
    var b, b' := StartRank(s.c.worker), StartRank(s'.c.worker);
    var k, k' := SdkRank(s.c.sdk), SdkRank(s'.c.sdk);
    var d, d' := |s.a.todo|, |s'.a.todo|;
    var o, o' := OpenRank(s.c), OpenRank(s'.c);
    a' < a || (a' == a && (b' < b || (b' == b && (k' < k || (k' == k && (d' < d || (d' == d && (o' < o
      || (o' == o && LoopRank(s') < LoopRank(s))))))))))
  }

  ghost predicate Helps(s: Sys, step: Step, t: Tid, g: Cfg)
    requires CfgOk(g)
  {
    Possible(s, step) && Ends(step, t) && t in s.c.stops && t in Next(s, step, g).c.stops && Lower(Next(s, step, g), s, t)
  }

  predicate Underway(at: StopAt) {
    !at.WantLock? && !at.Returned?
  }

  lemma TearHelps(s: Sys, t: Tid, g: Cfg)
    requires CfgOk(g) && t in s.c.stops && Underway(s.c.stops[t].at) && TearReady(s.c, t)
    ensures Helps(s, Tear(t), t, g)
  {
    TearTears(s.c, t);
    assert Next(s, Tear(t), g).c == TearStep(s.c, t);
    hide TearStep, AudStep, OpenRank, LoopRank, StartRank, SdkRank;
  }

  /** The worker's start, up to its loop. */
  lemma StartingHelps(s: Sys, t: Tid, g: Cfg)
    requires CfgOk(g) && Inv(s) && t in s.c.stops && Starting(s.c.worker)
    ensures Helps(s, Work, t, g)
  {
    SdkHolds(s);
    if s.c.worker.MaybeConnect? { NotDraining(s.c); }
    WorkFlags(s.c, s.a.deq != [], s.a.local != []);
    StartFalls(s.c, s.a.deq != [], s.a.local != []);
    hide Inv, WorkStep, WorkAud, OpenRank, LoopRank, SdkRank, TearRank;
  }

  lemma StartFalls(c: Ctl, queued: bool, local: bool)
    requires Starting(c.worker)
    ensures StartRank(WorkStep(c, queued, local).worker) < StartRank(c.worker)
  {
    WorkCases(c, queued, local);
    hide WorkStep;
    match c.worker {
      case Construct => ConstructsWith(c);
      case MaybeConnect => ConnectsWith(c);
      case Publish => PublishesWith(c);
      case CheckStop => ChecksWith(c);
      case SelfFinish => ChecksWith(c);
    }
  }

  lemma ConstructsWith(c: Ctl)
    requires c.worker.Construct?
    ensures WorkStep(c, false, false).worker == MaybeConnect
  {
  }

  lemma ConnectsWith(c: Ctl)
    requires c.worker.MaybeConnect?
    ensures WorkStep(c, false, false).worker == Publish
  {
  }

  lemma PublishesWith(c: Ctl)
    requires c.worker.Publish?
    ensures WorkStep(c, false, false).worker == CheckStop
  {
  }

  lemma ChecksWith(c: Ctl)
    requires c.worker.CheckStop? || c.worker.SelfFinish?
    ensures StartRank(WorkStep(c, false, false).worker) < StartRank(c.worker)
  {
  }

  /** What a step of the worker in its loop leaves alone. */
  predicate Looped(c: Ctl, d: Ctl) {
    && d.stops == c.stops && d.sdk == c.sdk && d.finishing == c.finishing && (c.shutdown ==> d.shutdown)
    && (d.stream ==> c.stream)
  }

  lemma StoppingTurn(c: Ctl, queued: bool)
    requires c.finishing && c.worker.Loop?
    ensures var d := Turn(c, queued);
      && Looped(c, d) && d.stream == c.stream
      && if c.finished || (!c.connected && !c.connecting) then d.worker.Done?
         else if c.transcript then !d.transcript && d.worker.Deliver?
         else d.transcript == c.transcript && d.shutdown && d.worker == if c.stream then Writing(true) else Loop
  {
  }

  lemma StoppingBranch(c: Ctl, queued: bool)
    requires c.finishing
    ensures var d := Branch(c, queued);
      && Looped(c, d) && d.stream == c.stream && d.transcript == c.transcript && d.shutdown
      && d.worker == if c.stream then Writing(true) else Loop
  {
  }

  lemma StoppingWriting(c: Ctl, local: bool)
    requires c.worker.Writing?
    ensures var d := WorkStep(c, false, local);
      && Looped(c, d) && d.transcript == c.transcript && d.shutdown == c.shutdown
      && (local ==> d.worker == c.worker && d.stream == c.stream)
      && (!local ==> d.worker.Loop? && d.stream == (c.stream && !c.worker.last))
  {
  }

  /** And what it does to the audio. */
  lemma StoppingAud(c: Ctl, a: Aud)
    requires c.finishing && InLoop(c.worker) && Where(c, a)
    ensures var b := WorkAud(c, a);
      && b.todo == a.todo
      && (Branches(c) && c.stream ==> |b.local| == |a.deq| && b.deq == [])
      && (Branches(c) && !c.stream ==> b == a)
      && (c.worker.Writing? && a.local != [] ==> |b.local| == |a.local| - 1 && b.deq == a.deq)
      && (c.worker.Writing? && a.local == [] ==> b.local == a.local && b.deq == a.deq)
      && (c.worker.Loop? && !Branches(c) ==> b == a)
  {
    hide Concat;
  }

  /** A step of the loop lowers what comes last in the order, and touches nothing before it. */
  lemma LoopLowers(s: Sys, s': Sys, t: Tid)
    requires t in s.c.stops && Looped(s.c, s'.c) && s'.a.todo == s.a.todo
    requires InLoop(s.c.worker) && (InLoop(s'.c.worker) || s'.c.worker.Done?)
    requires InLoop(s'.c.worker) ==> OpenRank(s'.c) < OpenRank(s.c) || LoopRank(s') < LoopRank(s)
    ensures t in s'.c.stops && Lower(s', s, t)
  {
    hide LoopRank, SdkRank, TearRank;
  }

  lemma LoopHelps(s: Sys, t: Tid, g: Cfg)
    requires CfgOk(g) && Inv(s) && t in s.c.stops && s.c.finishing && s.c.worker.Loop? && WorkReady(s.c, s.a.deq != [])
    ensures Helps(s, Work, t, g)
  {
    NothingLocal(s);
    hide Inv, Lower, WorkStep, WorkAud, Turn;
    WorkCases(s.c, s.a.deq != [], s.a.local != []);
    StoppingTurn(s.c, s.a.deq != []);
    StoppingAud(s.c, s.a);
    LoopLowers(s, Next(s, Work, g), t);
  }

  lemma NothingLocal(s: Sys)
    requires Inv(s)
    ensures Where(s.c, s.a) && (!s.c.worker.Writing? ==> s.a.local == [])
    ensures s.c.worker.Writing? ==> s.c.stream
  {
  }

  lemma DeliverHelps(s: Sys, t: Tid, g: Cfg)
    requires CfgOk(g) && Inv(s) && t in s.c.stops && s.c.finishing && s.c.worker.Deliver?
    ensures Helps(s, Work, t, g)
  {
    NothingLocal(s);
    hide Inv, Lower, WorkStep, WorkAud, Branch;
    WorkCases(s.c, s.a.deq != [], s.a.local != []);
    StoppingBranch(s.c, s.a.deq != []);
    StoppingAud(s.c, s.a);
    LoopLowers(s, Next(s, Work, g), t);
  }

  lemma WritingHelps(s: Sys, t: Tid, g: Cfg)
    requires CfgOk(g) && Inv(s) && t in s.c.stops && s.c.finishing && s.c.worker.Writing?
    ensures Helps(s, Work, t, g)
  {
    NothingLocal(s);
    hide Inv, Lower, WorkStep, WorkAud;
    WorkCases(s.c, s.a.deq != [], s.a.local != []);
    StoppingWriting(s.c, s.a.local != []);
    StoppingAud(s.c, s.a);
    LoopLowers(s, Next(s, Work, g), t);
  }

  /** The worker sleeps: it has begun its shutdown and closed the stream, or there is none, and
      the SDK owes it the final outcome. */
  lemma AsleepOwes(c: Ctl, queued: bool)
    requires SdkOk(c) && c.finishing && c.worker.Loop? && !Wakes(c, queued)
    ensures c.shutdown && !c.stream && !c.finished && !c.sdk.NotStarted? && !c.sdk.Over?
  {
  }

  lemma SdkFalls(s: Sys, step: Step, g: Cfg)
    requires CfgOk(g) && Possible(s, step)
    requires step.OnOutcome? || step.DrainBegin? || step.DrainNext? || step.DrainEnd?
    ensures var s' := Next(s, step, g);
      && s'.c.stops == s.c.stops && s'.c.worker == s.c.worker
      && (SdkRank(s'.c.sdk) < SdkRank(s.c.sdk) || (s'.c.sdk == s.c.sdk && |s'.a.todo| < |s.a.todo|))
  {
    hide WorkAud, WorkStep, TearStep, Handed, Bytes, Concat, Excess;
  }

  lemma SdkHelps(s: Sys, t: Tid, g: Cfg) returns (step: Step)
    requires CfgOk(g) && t in s.c.stops && !s.c.sdk.NotStarted? && !s.c.sdk.Over?
    ensures Helps(s, step, t, g)
  {
    step := match s.c.sdk
      case Ready => DrainBegin
      case Draining => if s.a.todo != [] then DrainNext else DrainEnd
      case _ => OnOutcome;
    assert Possible(s, step);
    hide Next, Possible, OpenRank, LoopRank, TearRank, StartRank;
    SdkFalls(s, step, g);
  }

  lemma JoinFacts(s: Sys, t: Tid)
    requires Inv(s) && t in s.c.stops && s.c.stops[t].at.Join? && !s.c.joined && !s.c.worker.Done?
    ensures SdkOk(s.c) && (!Starting(s.c.worker) ==> InLoop(s.c.worker) && s.c.finishing)
  {
    assert StopOk(s.c, s.c.stops[t].at);
  }

  lemma Help(s: Sys, t: Tid, g: Cfg) returns (step: Step)
    requires CfgOk(g) && Inv(s) && t in s.c.stops && Underway(s.c.stops[t].at)
    ensures Helps(s, step, t, g)
  {
    hide Inv, Helps, SdkOk;
    if !s.c.stops[t].at.Join? || s.c.joined || s.c.worker.Done? {
      step := Tear(t);
      TearHelps(s, t, g);
    } else {
      JoinFacts(s, t);
      step := Work;
      if Starting(s.c.worker) {
        StartingHelps(s, t, g);
      } else if s.c.worker.Deliver? {
        DeliverHelps(s, t, g);
      } else if s.c.worker.Writing? {
        WritingHelps(s, t, g);
      } else if Wakes(s.c, s.a.deq != []) {
        LoopHelps(s, t, g);
      } else {
        AsleepOwes(s.c, s.a.deq != []);
        step := SdkHelps(s, t, g);
      }
    }
  }

  lemma StaysUnderway(s: Sys, step: Step, t: Tid, g: Cfg)
    requires CfgOk(g) && Inv(s) && Helps(s, step, t, g) && Underway(s.c.stops[t].at)
    ensures var at := Next(s, step, g).c.stops[t].at; Underway(at) || at.Returned?
  {
    hide Inv, Lower, AudStep;
    if step == Tear(t) {
      TearTears(s.c, t);
      hide TearStep;
    } else {
      assert s.a.deq != [] ==> s.c.connecting by { QueueConnecting(s); }
      CtlOf(s);
      hide CtlStep, CtlReady;
      FramingKeeps(s.c, step, s.a.deq != [], s.a.local != [], s.a.todo != []);
    }
  }

  lemma QueueConnecting(s: Sys)
    requires Inv(s)
    ensures s.a.deq != [] ==> s.c.connecting
  {
  }

  lemma CtlOf(s: Sys)
    requires Inv(s)
    ensures CtlInv(s.c)
  {
  }

  lemma {:induction false} Finish(s: Sys, t: Tid, g: Cfg) returns (run: seq<Step>)
    requires CfgOk(g) && Inv(s) && t in s.c.stops && (Underway(s.c.stops[t].at) || s.c.stops[t].at.Returned?)
    ensures ValidRun(s, run, g) && EndsOnly(run, t)
    ensures var e := Exec(s, run, g); t in e.c.stops && e.c.stops[t].at.Returned?
    decreases TearRank(if t in s.c.stops then s.c.stops[t].at else Returned), StartRank(s.c.worker), SdkRank(s.c.sdk),
              |s.a.todo|, OpenRank(s.c), LoopRank(s)
  {
    hide Inv, Next, Possible, Underway, TearRank, StartRank, SdkRank, OpenRank, LoopRank;
    if s.c.stops[t].at.Returned? {
      run := [];
    } else {
      var step := Help(s, t, g);
      StaysUnderway(s, step, t, g);
      NextKeeps(s, step, g);
      var rest := Finish(Next(s, step, g), t, g);
      run := [step] + rest;
      assert run[1..] == rest;
    }
  }

  /** Whatever state a run has reached, a teardown that has taken the session over can be brought
      to its end by its own steps, the worker's, and the callbacks the SDK still owes. */
  lemma TeardownAlwaysEnds(s: Sys, g: Cfg, t: Tid)
    requires Reachable(s, g) && t in s.c.stops && Underway(s.c.stops[t].at)
    ensures exists more ::
      && ValidRun(s, more, g) && EndsOnly(more, t)
      && t in Exec(s, more, g).c.stops && Exec(s, more, g).c.stops[t].at.Returned?
  {
    ReachableInv(s, g);
    var more := Finish(s, t, g);
  }
}
