/** What a run of an AWS session did, counted from the run itself: every byte write() was given
    while the session was neither finishing nor finished is accepted, the connect and the
    teardowns take place when they were asked for, and not otherwise. */
module AwsHistory {
  import opened Common
  import opened Prebuffer
  import opened AwsModel
  import opened AwsInv
  import opened AwsAudio
  import opened AwsSafety

  // ---------------------------------------------------------------- what write() was given

  /** The frame write() is at and has not queued yet. */
  function Pending(s: Sys): nat {
    if s.c.media.Staging? || s.c.media.Pushing? then s.a.frame else 0
  }

  function Offers(s: Sys, step: Step): nat {
    if step.Write? && !s.c.finishing && !s.c.finished then step.n else 0
  }

  function Accepted(s: Sys, run: seq<Step>, g: Cfg): nat
    requires CfgOk(g) && ValidRun(s, run, g)
    decreases |run|
  {
    if run == [] then 0 else Offers(s, run[0]) + Accepted(Next(s, run[0], g), run[1..], g)
  }

  predicate Accepts(s: Sys, step: Step, g: Cfg)
    requires CfgOk(g) && Possible(s, step)
  {
    Next(s, step, g).a.next + Pending(Next(s, step, g)) == s.a.next + Pending(s) + Offers(s, step)
  }

  lemma MediaAccepts(s: Sys, step: Step, g: Cfg)
    requires CfgOk(g) && Possible(s, step) && FromMedia(step)
    ensures Accepts(s, step, g)
  {
    hide WorkAud, WorkStep, TearStep, Handed, Bytes, Concat, Stamps, Excess, WorkReady, TearReady, BeginOk;
  }

  lemma WorkAccepts(s: Sys, g: Cfg)
    requires CfgOk(g) && Inv(s) && Possible(s, Work)
    ensures Accepts(s, Work, g)
  {
    hide CtlInv, CloseOk, Accounted;
    SdkHolds(s);
    WorkFacts(s.c, s.a.deq != [], s.a.local != []);
    TakenSame(s.c, s.a);
    hide WorkStep, WorkAud, Where;
  }

  lemma SdkHolds(s: Sys)
    requires Inv(s)
    ensures SdkOk(s.c)
  {
  }

  lemma TakenSame(c: Ctl, a: Aud)
    ensures WorkAud(c, a).next == a.next && WorkAud(c, a).frame == a.frame
  {
  }

  lemma TearAccepts(s: Sys, t: Tid, g: Cfg)
    requires CfgOk(g) && Possible(s, Tear(t))
    ensures Accepts(s, Tear(t), g)
  {
    TearFrame(s.c, t);
    TearAud(s.c, s.a, t, g);
    hide TearStep, AudStep;
  }

  lemma OtherAccepts(s: Sys, step: Step, g: Cfg)
    requires CfgOk(g) && Possible(s, step) && !FromMedia(step) && !step.Work? && !step.Tear?
    ensures Accepts(s, step, g)
  {
    hide WorkAud, WorkStep, TearStep, Handed, Bytes, Concat, Stamps, Excess, WorkReady, TearReady, BeginOk;
  }

  lemma StepAccepts(s: Sys, step: Step, g: Cfg)
    requires CfgOk(g) && Inv(s) && Possible(s, step)
    ensures Accepts(s, step, g)
  {
    hide Inv, Accepts, Possible;
    if FromMedia(step) {
      MediaAccepts(s, step, g);
    } else if step.Work? {
      WorkAccepts(s, g);
    } else if step.Tear? {
      TearAccepts(s, step.t, g);
    } else {
      OtherAccepts(s, step, g);
    }
  }

  lemma {:induction false} RunAccepts(s: Sys, run: seq<Step>, g: Cfg)
    requires CfgOk(g) && Inv(s) && ValidRun(s, run, g)
    ensures Exec(s, run, g).a.next + Pending(Exec(s, run, g)) == s.a.next + Pending(s) + Accepted(s, run, g)
    decreases |run|
  {
    hide Inv, Next, Possible, Pending, Offers;
    if run != [] {
      NextKeeps(s, run[0], g);
      StepAccepts(s, run[0], g);
      RunAccepts(Next(s, run[0], g), run[1..], g);
    }
  }

  /** The bytes accepted are exactly those of the frames write() was given while the session was
      neither finishing nor finished, but for the one it is still at. */
  lemma AcceptedExactly(vad: bool, attached: bool, run: seq<Step>, g: Cfg)
    requires CfgOk(g) && ValidRun(Sys(Initial(vad, attached), SILENT), run, g)
    ensures var s := Exec(Sys(Initial(vad, attached), SILENT), run, g);
      s.a.next + Pending(s) == Accepted(Sys(Initial(vad, attached), SILENT), run, g)
  {
    StartInv(vad, attached);
    RunAccepts(Sys(Initial(vad, attached), SILENT), run, g);
  }

  // ---------------------------------------------------------------- who got in, and what was started

  function One(b: bool): nat {
    if b then 1 else 0
  }

  /** aws_transcribe_frame wins the trylock and finds a streamer. */
  function Entries(s: Sys, run: seq<Step>, g: Cfg): nat
    requires CfgOk(g) && ValidRun(s, run, g)
    decreases |run|
  {
    if run == [] then 0 else One(run[0].Enter? && s.c.pub) + Entries(Next(s, run[0], g), run[1..], g)
  }

  function Leaves(run: seq<Step>): nat {
    if run == [] then 0 else One(run[0].Leave?) + Leaves(run[1..])
  }

  /** connect(): by the worker, or when VAD hears speech before the session is over. */
  predicate Starts(c: Ctl, step: Step) {
    (step.Work? && c.worker.MaybeConnect? && !c.vad) || (step.VadConnect? && !c.finished)
  }

  predicate WasStarted(s: Sys, run: seq<Step>, g: Cfg)
    requires CfgOk(g) && ValidRun(s, run, g)
    decreases |run|
  {
    run != [] && (Starts(s.c, run[0]) || WasStarted(Next(s, run[0], g), run[1..], g))
  }

  /** A transcript has come that no turn of the worker has taken since. */
  predicate Untaken(s: Sys, run: seq<Step>, g: Cfg, before: bool)
    requires CfgOk(g) && ValidRun(s, run, g)
    decreases |run|
  {
    if run == [] then before
    else Untaken(Next(s, run[0], g), run[1..], g, run[0].OnTranscript? || (before && !Takes(s.c, run[0])))
  }

  predicate Takes(c: Ctl, step: Step) {
    step.Work? && c.worker.Loop? && (c.finished || c.connected || c.connecting)
  }

  /** The channel's slot is lost to another start, or given back by a stop by name. */
  predicate Unnames(c: Ctl, step: Step) {
    step.SlotTaken? || (step.Tear? && step.t in c.stops && c.stops[step.t].at.Release? && c.stops[step.t].kind.ByName?)
  }

  predicate Unnamed(s: Sys, run: seq<Step>, g: Cfg)
    requires CfgOk(g) && ValidRun(s, run, g)
    decreases |run|
  {
    run != [] && (Unnames(s.c, run[0]) || Unnamed(Next(s, run[0], g), run[1..], g))
  }

  /** The drain is under way, or due. */
  predicate Draining(c: Ctl) {
    c.sdk.Ready? || c.sdk.Draining?
  }

  /** OnStreamReady has found the session alive, and no drain has ended since. */
  predicate DrainDue(run: seq<Step>, before: bool) {
    if run == [] then before else DrainDue(run[1..], run[0] == OnReady(true) || (before && !run[0].DrainEnd?))
  }

  predicate Follows(s: Sys, step: Step, s': Sys) {
    && One(!s'.c.media.Outside?) + One(step.Leave?) == One(!s.c.media.Outside?) + One(step.Enter? && s.c.pub)
    && (s'.c.connecting <==> s.c.connecting || Starts(s.c, step))
    && (s'.c.connected <==> s.c.connected || step.DrainEnd?)
    && (s'.c.finished <==> s.c.finished || step.OnOutcome?)
    && (s'.c.transcript <==> step.OnTranscript? || (s.c.transcript && !Takes(s.c, step)))
    && (s'.c.named <==> s.c.named && !Unnames(s.c, step))
    && (Draining(s'.c) <==> step == OnReady(true) || (Draining(s.c) && !step.DrainEnd?))
    && s'.c.stops.Keys == s.c.stops.Keys + if step.Begin? then {step.t} else {}
  }

  /** What the worker's step does to the flags. */
  predicate Flags(c: Ctl, d: Ctl, starts: bool, takes: bool) {
    && d.media == c.media && d.connected == c.connected && d.finished == c.finished && d.stops == c.stops
    && d.connecting == (c.connecting || starts) && d.transcript == (c.transcript && !takes)
    && d.named == c.named && Draining(d) == Draining(c)
  }

  lemma TurnFlags(c: Ctl, queued: bool)
    ensures Flags(c, Turn(c, queued), false, c.finished || c.connected || c.connecting)
  {
  }

  lemma BranchFlags(c: Ctl, queued: bool)
    ensures Flags(c, Branch(c, queued), false, false)
  {
  }

  lemma ConstructFlags(c: Ctl)
    requires c.worker.Construct? || c.worker.Publish?
    ensures Flags(c, WorkStep(c, false, false), false, false)
  {
  }

  lemma ConnectFlags(c: Ctl)
    requires c.worker.MaybeConnect? && !Draining(c)
    ensures Flags(c, WorkStep(c, false, false), !c.vad, false)
  {
  }

  lemma CheckFlags(c: Ctl)
    requires c.worker.CheckStop? || c.worker.SelfFinish?
    ensures Flags(c, WorkStep(c, false, false), false, false)
  {
  }

  lemma WritingFlags(c: Ctl, local: bool)
    requires c.worker.Writing?
    ensures Flags(c, WorkStep(c, false, local), false, false)
  {
  }

  lemma WorkFlags(c: Ctl, queued: bool, local: bool)
    requires !c.worker.Done? && (c.worker.MaybeConnect? ==> !Draining(c))
    ensures Flags(c, WorkStep(c, queued, local), Starts(c, Work), Takes(c, Work))
  {
    WorkCases(c, queued, local);
    hide Flags, WorkStep, Turn, Branch;
    match c.worker {
      case Loop => TurnFlags(c, queued);
      case Deliver => BranchFlags(c, queued);
      case Writing(_) => WritingFlags(c, local);
      case CheckStop => CheckFlags(c);
      case SelfFinish => CheckFlags(c);
      case MaybeConnect => ConnectFlags(c);
      case _ => ConstructFlags(c);
    }
  }

  lemma NotDraining(c: Ctl)
    requires SdkOk(c) && c.worker.MaybeConnect?
    ensures !Draining(c)
  {
  }

  lemma WorkFollows(s: Sys, s': Sys)
    requires Possible(s, Work) && SdkOk(s.c) && s'.c == WorkStep(s.c, s.a.deq != [], s.a.local != [])
    ensures Follows(s, Work, s')
  {
    hide WorkStep, Starts, Takes, SdkOk;
    if s.c.worker.MaybeConnect? { NotDraining(s.c); }
    WorkFlags(s.c, s.a.deq != [], s.a.local != []);
    assert s.c.stops.Keys + {} == s.c.stops.Keys;
  }

  /** A teardown at its first step takes the session over, unless the slot is no longer its. */
  predicate TakesOver(c: Ctl, s: Stop) {
    !s.kind.ByName? || c.named
  }

  /** Where a teardown goes on. */
  function NextAt(c: Ctl, s: Stop): StopAt {
    match s.at
    case WantLock => if TakesOver(c, s) then Flag else Returned
    case Flag => Load
    case Load => Finish(c.pub)
    case Finish(_) => Join
    case Join => Kill
    case Kill => Release
    case _ => Returned
  }

  predicate Tears(c: Ctl, d: Ctl, t: Tid)
    requires t in c.stops
  {
    && d.stops == c.stops[t := c.stops[t].(at := NextAt(c, c.stops[t]))]
    && d.finished == c.finished && d.transcript == c.transcript && d.named == (c.named && !Unnames(c, Tear(t)))
    && d.obj == if c.stops[t].at.Kill? && c.pub then Freed else c.obj
  }

  lemma TakeExactly(c: Ctl, t: Tid)
    requires TearReady(c, t) && c.stops[t].at.WantLock?
    ensures var s := c.stops[t];
      && (!TakesOver(c, s) ==> TearStep(c, t) == Pc(c, t, s, Returned))
      && (s.kind.Orphan? ==> TearStep(c, t) == Pc(c, t, s, Flag))
      && (TakesOver(c, s) && !s.kind.Orphan? ==> TearStep(c, t) == Pc(c, t, s, Flag).(lock := Stopper(t)))
  {
  }

  lemma PcTears(c: Ctl, t: Tid, at: StopAt)
    requires t in c.stops && at == NextAt(c, c.stops[t]) && c.stops[t].at.WantLock?
    ensures Tears(c, Pc(c, t, c.stops[t], at), t)
  {
  }

  lemma LockTears(c: Ctl, d: Ctl, t: Tid, lock: Holder)
    requires t in c.stops
    ensures Tears(c, d, t) ==> Tears(c, d.(lock := lock), t)
  {
  }

  lemma TakeTears(c: Ctl, t: Tid)
    requires TearReady(c, t) && c.stops[t].at.WantLock?
    ensures Tears(c, TearStep(c, t), t)
  {
    hide TearStep, Pc, Tears;
    TakeExactly(c, t);
    PcTears(c, t, NextAt(c, c.stops[t]));
    LockTears(c, Pc(c, t, c.stops[t], Flag), t, Stopper(t));
  }

  lemma ActTears(c: Ctl, t: Tid)
    requires TearReady(c, t) && (c.stops[t].at.Flag? || c.stops[t].at.Load?)
    ensures Tears(c, TearStep(c, t), t)
  {
    hide TearStep;
    TearCases(c, t);
  }

  lemma EndTears(c: Ctl, t: Tid)
    requires TearReady(c, t) && (c.stops[t].at.Finish? || c.stops[t].at.Join?)
    ensures Tears(c, TearStep(c, t), t)
  {
    hide TearStep;
    TearCases(c, t);
  }

  lemma LeaveTears(c: Ctl, t: Tid)
    requires TearReady(c, t) && (c.stops[t].at.Kill? || c.stops[t].at.Release?)
    ensures Tears(c, TearStep(c, t), t)
  {
    hide TearStep;
    LeaveCases(c, t);
  }

  lemma TearTears(c: Ctl, t: Tid)
    requires TearReady(c, t)
    ensures Tears(c, TearStep(c, t), t)
  {
    hide TearStep, Tears;
    if c.stops[t].at.WantLock? {
      TakeTears(c, t);
    } else if c.stops[t].at.Flag? || c.stops[t].at.Load? {
      ActTears(c, t);
    } else if c.stops[t].at.Finish? || c.stops[t].at.Join? {
      EndTears(c, t);
    } else {
      LeaveTears(c, t);
    }
  }

  lemma TearFollows(s: Sys, t: Tid, s': Sys)
    requires TearReady(s.c, t) && s'.c == TearStep(s.c, t)
    ensures Follows(s, Tear(t), s')
  {
    TearFrame(s.c, t);
    TearTears(s.c, t);
    hide TearStep, NextAt;
    assert s.c.stops.Keys + {t} == s.c.stops.Keys && s.c.stops.Keys + {} == s.c.stops.Keys;
  }

  lemma OtherFollows(s: Sys, step: Step, s': Sys)
    requires SdkOk(s.c) && Possible(s, step) && !step.Work? && !step.Tear?
    requires s'.c == CtlStep(s.c, step, s.a.deq != [], s.a.local != [], s.a.todo != [])
    ensures Follows(s, step, s')
  {
    hide WorkStep, TearStep, WorkReady, TearReady, Wakes;
  }

  lemma StepFollows(s: Sys, step: Step, g: Cfg)
    requires CfgOk(g) && SdkOk(s.c) && Possible(s, step)
    ensures Follows(s, step, Next(s, step, g))
  {
    hide SdkOk, Follows, AudStep, WorkStep, TearStep;
    if step.Work? {
      WorkFollows(s, Next(s, step, g));
    } else if step.Tear? {
      TearFollows(s, step.t, Next(s, step, g));
    } else {
      OtherFollows(s, step, Next(s, step, g));
    }
  }

  lemma {:induction false} RunFollows(s: Sys, run: seq<Step>, g: Cfg)
    requires CfgOk(g) && Inv(s) && ValidRun(s, run, g)
    ensures var e := Exec(s, run, g);
      && One(!e.c.media.Outside?) + Leaves(run) == One(!s.c.media.Outside?) + Entries(s, run, g)
      && (e.c.connecting <==> s.c.connecting || WasStarted(s, run, g))
      && (e.c.connected <==> s.c.connected || DrainEnd in run)
      && (e.c.finished <==> s.c.finished || OnOutcome in run)
      && (e.c.transcript <==> Untaken(s, run, g, s.c.transcript))
      && (e.c.named <==> s.c.named && !Unnamed(s, run, g))
      && (Draining(e.c) <==> DrainDue(run, Draining(s.c)))
      && forall t :: t in e.c.stops <==> t in s.c.stops || exists kind :: Begin(t, kind) in run
    decreases |run|
  {
    hide Inv, Next, Possible, Starts, Takes, Unnames, Draining;
    if run != [] {
      assert run == [run[0]] + run[1..];
      SdkHolds(s);
      NextKeeps(s, run[0], g);
      StepFollows(s, run[0], g);
      RunFollows(Next(s, run[0], g), run[1..], g);
    }
  }

  /** The media thread is inside exactly between finding a streamer and leaving; the session is
      connecting, connected and finished exactly if it was started, drained and told its
      outcome; a transcript waits exactly if one has come since the worker last took any; the
      slot is the session's until it is taken or given back; a drain is due from OnStreamReady
      on a live session to its end; and the teardowns are those that were begun. */
  lemma SessionExact(vad: bool, attached: bool, run: seq<Step>, g: Cfg)
    requires CfgOk(g) && ValidRun(Sys(Initial(vad, attached), SILENT), run, g)
    ensures var i := Sys(Initial(vad, attached), SILENT); var c := Exec(i, run, g).c;
      && One(!c.media.Outside?) + Leaves(run) == Entries(i, run, g)
      && (c.connecting <==> WasStarted(i, run, g))
      && (c.connected <==> DrainEnd in run)
      && (c.finished <==> OnOutcome in run)
      && (c.transcript <==> Untaken(i, run, g, false))
      && (c.named <==> attached && !Unnamed(i, run, g))
      && (c.sdk.Ready? || c.sdk.Draining? <==> DrainDue(run, false))
      && forall t :: t in c.stops <==> exists kind :: Begin(t, kind) in run
  {
    StartInv(vad, attached);
    RunFollows(Sys(Initial(vad, attached), SILENT), run, g);
  }

  // ---------------------------------------------------------------- teardowns

  /** What `t` found at its first step. */
  function FirstTear(s: Sys, run: seq<Step>, t: Tid, g: Cfg): Option<bool>
    requires CfgOk(g) && ValidRun(s, run, g)
    decreases |run|
  {
    if run == [] then None
    else if run[0] == Tear(t) then Some(TakesOver(s.c, s.c.stops[t]))
    else FirstTear(Next(s, run[0], g), run[1..], t, g)
  }

  predicate Stands(c: Ctl, t: Tid, found: Option<bool>) {
    t in c.stops &&
    match found
    case None => c.stops[t].at.WantLock?
    case Some(over) =>
      if over then !c.stops[t].at.WantLock? && (c.stops[t].at.Release? || c.stops[t].at.Returned? ==> c.obj.Freed?)
      else c.stops[t].at.Returned?
  }

  lemma TearStands(c: Ctl, t: Tid, found: Option<bool>)
    requires CtlInv(c) && TearReady(c, t) && Stands(c, t, found)
    ensures Stands(TearStep(c, t), t, if found.Some? then found else Some(TakesOver(c, c.stops[t])))
  {
    hide CtlInv, TearStep;
    if c.stops[t].at.Kill? { KillFacts(c, t); }
    TearTears(c, t);
  }

  lemma OtherStands(c: Ctl, d: Ctl, t: Tid, found: Option<bool>)
    requires Stands(c, t, found) && t in d.stops && d.stops[t] == c.stops[t] && (c.obj.Freed? ==> d.obj.Freed?)
    ensures Stands(d, t, found)
  {
  }

  lemma StepLeavesStop(c: Ctl, step: Step, queued: bool, local: bool, todo: bool, t: Tid)
    requires CtlReady(c, step, queued, local, todo) && !Framing(step) && !step.Tear? && t in c.stops
    ensures var d := CtlStep(c, step, queued, local, todo);
      t in d.stops && d.stops[t] == c.stops[t] && (c.obj.Freed? ==> d.obj.Freed?)
  {
    hide WorkStep, TearStep, WorkReady, TearReady, Wakes;
    match step {
      case Enter =>
      case Leave =>
      case SlotTaken =>
      case Begin(_, _) =>
      case _ =>
    }
  }

  lemma NextStands(s: Sys, step: Step, t: Tid, g: Cfg, found: Option<bool>)
    requires CfgOk(g) && Inv(s) && Possible(s, step) && Stands(s.c, t, found)
    ensures Stands(Next(s, step, g).c, t,
                   if step == Tear(t) && found.None? then Some(TakesOver(s.c, s.c.stops[t])) else found)
  {
    assert s.a.deq != [] ==> s.c.connecting;
    hide CtlInv, Where, CloseOk, Accounted, Stands, CtlStep, CtlReady, AudStep, TakesOver;
    StandsThere(s.c, t, found);
    if step == Tear(t) {
      TearStands(s.c, t, found);
      IsTear(s, step, g);
    } else {
      if Framing(step) {
        FramingKeeps(s.c, step, s.a.deq != [], s.a.local != [], s.a.todo != []);
      } else if step.Tear? {
        IsTear(s, step, g);
        TearTears(s.c, step.t);
      } else {
        StepLeavesStop(s.c, step, s.a.deq != [], s.a.local != [], s.a.todo != [], t);
      }
      OtherStands(s.c, Next(s, step, g).c, t, found);
    }
  }

  lemma IsTear(s: Sys, step: Step, g: Cfg)
    requires CfgOk(g) && Possible(s, step) && step.Tear?
    ensures TearReady(s.c, step.t) && Next(s, step, g).c == TearStep(s.c, step.t)
  {
  }

  lemma StandsThere(c: Ctl, t: Tid, found: Option<bool>)
    requires Stands(c, t, found)
    ensures t in c.stops
  {
  }

  lemma {:induction false} RunStands(s: Sys, run: seq<Step>, t: Tid, g: Cfg, found: Option<bool>)
    requires CfgOk(g) && Inv(s) && ValidRun(s, run, g) && Stands(s.c, t, found)
    ensures Stands(Exec(s, run, g).c, t, if found.Some? then found else FirstTear(s, run, t, g))
    decreases |run|
  {
    hide Inv, Next, Possible, Stands, TakesOver;
    if run != [] {
      StandsThere(s.c, t, found);
      NextStands(s, run[0], t, g, found);
      NextKeeps(s, run[0], g);
      var now := if run[0] == Tear(t) && found.None? then Some(TakesOver(s.c, s.c.stops[t])) else found;
      RunStands(Next(s, run[0], g), run[1..], t, g, now);
    }
  }

  lemma NotBegun(s: Sys, step: Step, t: Tid, g: Cfg)
    requires CfgOk(g) && SdkOk(s.c) && Possible(s, step) && t !in s.c.stops
    ensures step != Tear(t)
    ensures t in Next(s, step, g).c.stops ==> Stands(Next(s, step, g).c, t, None)
  {
    StepFollows(s, step, g);
    hide SdkOk, WorkStep, TearStep, AudStep, WorkReady;
  }

  lemma {:induction false} RunTears(s: Sys, run: seq<Step>, t: Tid, g: Cfg)
    requires CfgOk(g) && Inv(s) && ValidRun(s, run, g) && t !in s.c.stops
    ensures t in Exec(s, run, g).c.stops ==> Stands(Exec(s, run, g).c, t, FirstTear(s, run, t, g))
    decreases |run|
  {
    hide Inv, Next, Possible, Stands, TakesOver;
    if run != [] {
      SdkHolds(s);
      NotBegun(s, run[0], t, g);
      NextKeeps(s, run[0], g);
      if t in Next(s, run[0], g).c.stops {
        RunStands(Next(s, run[0], g), run[1..], t, g, None);
      } else {
        RunTears(Next(s, run[0], g), run[1..], t, g);
      }
    }
  }

  /** A teardown is turned away exactly if it is a stop by name that found the slot taken; any
      other that has returned leaves the streamer deleted, its worker joined and the SDK out. */
  lemma TeardownExact(vad: bool, attached: bool, run: seq<Step>, g: Cfg, t: Tid)
    requires CfgOk(g) && ValidRun(Sys(Initial(vad, attached), SILENT), run, g)
    requires var c := Exec(Sys(Initial(vad, attached), SILENT), run, g).c; t in c.stops && c.stops[t].at.Returned?
    ensures var i := Sys(Initial(vad, attached), SILENT); var c := Exec(i, run, g).c;
      && FirstTear(i, run, t, g).Some?
      && (FirstTear(i, run, t, g) == Some(true) ==>
            c.obj.Freed? && c.joined && c.worker.Done? && !c.pub && (c.sdk.NotStarted? || c.sdk.Over?))
  {
    var i := Sys(Initial(vad, attached), SILENT);
    StartInv(vad, attached);
    RunTears(i, run, t, g);
    RunKeeps(i, run, g);
    if FirstTear(i, run, t, g) == Some(true) { FreedIsOver(Exec(i, run, g).c); }
    assert Exec(i, run, g).c.obj.Freed? ==> Exec(i, run, g).c.joined;
  }
}
