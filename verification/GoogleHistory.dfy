/** What gRPC was asked over a run of a Google stream, counted from the calls in the run. */
module GoogleHistory {
  import opened Common
  import opened GoogleStream

  function Count(rpcs: seq<Rpc>, r: Rpc): nat {
    if rpcs == [] then 0 else Count(rpcs[..|rpcs| - 1], r) + if rpcs[|rpcs| - 1] == r then 1 else 0
  }

  lemma CountSnoc(rpcs: seq<Rpc>, x: Rpc, r: Rpc)
    ensures Count(rpcs + [x], r) == Count(rpcs, r) + if x == r then 1 else 0
  {
    assert (rpcs + [x])[..|rpcs|] == rpcs;
  }

  function Times(run: seq<Step>, f: Step -> bool): nat {
    if run == [] then 0 else (if f(run[0]) then 1 else 0) + Times(run[1..], f)
  }

  predicate IsConfig(step: Step) { step.WriteConfig? }
  predicate IsLocked(step: Step) { step.WriteLocked? }
  predicate IsFinish(step: Step) { step.CallFinish? }
  predicate IsHalfClose(step: Step) { step.HalfClose? }
  predicate IsNoMore(step: Step) { step.NoMore? }
  predicate IsUtteranceEnd(step: Step) { step.Response? && step.endOfUtterance }
  predicate IsLeave(step: Step) { step.Leave? }

  function One(b: bool): nat {
    if b then 1 else 0
  }

  /** A call of writesDone() on a connected stream: a cleanup that finds the stream, or the end
      of a single utterance. */
  predicate Requests(s: Sys, step: Step) {
    step.HalfClose? || (step.Go? && step.t in s.cleanups && s.cleanups[step.t].Entered? && s.live && s.connected)
  }

  /** Such a call comes before Finish. */
  predicate AskedFirst(s: Sys, run: seq<Step>)
    requires ValidRun(s, run)
    decreases |run|
  {
    run != [] && (Requests(s, run[0]) || (!run[0].CallFinish? && AskedFirst(Apply(s, run[0]), run[1..])))
  }

  /** There is such a call. */
  predicate Asked(s: Sys, run: seq<Step>)
    requires ValidRun(s, run)
    decreases |run|
  {
    run != [] && (Requests(s, run[0]) || Asked(Apply(s, run[0]), run[1..]))
  }

  /** How many frames write() hands over before the first such call and before Finish. */
  function FramesFirst(s: Sys, run: seq<Step>): nat
    requires ValidRun(s, run)
    decreases |run|
  {
    if run == [] || Requests(s, run[0]) || run[0].CallFinish? then 0
    else (if run[0].WriteLocked? then 1 else 0) + FramesFirst(Apply(s, run[0]), run[1..])
  }

  /** How many frames come to write() on a connected stream. */
  function FramesOffered(s: Sys, run: seq<Step>): nat
    requires ValidRun(s, run)
    decreases |run|
  {
    if run == [] then 0
    else (if run[0].Write? && s.connected then 1 else 0) + FramesOffered(Apply(s, run[0]), run[1..])
  }

  /** How often a frame wins the trylock and finds the stream. */
  function Entries(s: Sys, run: seq<Step>): nat
    requires ValidRun(s, run)
    decreases |run|
  {
    if run == [] then 0 else One(run[0].Enter? && s.live) + Entries(Apply(s, run[0]), run[1..])
  }

  // ---------------------------------------------------------------- one step

  /** The one call a step makes. */
  function Calls(s: Sys, step: Step): seq<Rpc> {
    if step.WriteConfig? then [Config]
    else if step.CallFinish? then [Finish]
    else if s.writesDone then []
    else if Requests(s, step) then [WritesDone]
    else if step.WriteLocked? then [Audio]
    else []
  }

  lemma GoCalls(s: Sys, t: Tid)
    requires Enabled(s, Go(t))
    ensures Apply(s, Go(t)).rpcs == s.rpcs + Calls(s, Go(t))
    ensures Apply(s, Go(t)).writesDone == (s.writesDone || Requests(s, Go(t)))
  {
    assert s.rpcs + [] == s.rpcs;
  }

  lemma OtherCalls(s: Sys, step: Step)
    requires Enabled(s, step) && !step.Go?
    ensures Apply(s, step).rpcs == s.rpcs + Calls(s, step)
    ensures Apply(s, step).writesDone == (s.writesDone || Requests(s, step) || step.CallFinish?)
  {
    assert s.rpcs + [] == s.rpcs;
    hide Advance;
  }

  lemma StepCalls(s: Sys, step: Step)
    requires Enabled(s, step)
    ensures Apply(s, step).rpcs == s.rpcs + Calls(s, step)
    ensures Apply(s, step).writesDone == (s.writesDone || Requests(s, step) || step.CallFinish?)
  {
    hide Apply, Enabled, Requests, Calls;
    if step.Go? { GoCalls(s, step.t); } else { OtherCalls(s, step); }
  }

  lemma StepCounts(s: Sys, step: Step, r: Rpc)
    requires Enabled(s, step)
    ensures Count(Apply(s, step).rpcs, r) == Count(s.rpcs, r) + if Calls(s, step) == [r] then 1 else 0
  {
    StepCalls(s, step);
    if Calls(s, step) != [] {
      CountSnoc(s.rpcs, Calls(s, step)[0], r);
    } else {
      assert s.rpcs + [] == s.rpcs;
    }
    hide Apply, Enabled;
  }

  // ---------------------------------------------------------------- any run

  lemma {:induction false} RunCloses(s: Sys, run: seq<Step>)
    requires ValidRun(s, run)
    ensures Count(Exec(s, run).rpcs, WritesDone) ==
      Count(s.rpcs, WritesDone) + if !s.writesDone && AskedFirst(s, run) then 1 else 0
    ensures Exec(s, run).writesDone <==> s.writesDone || Asked(s, run) || Times(run, IsFinish) > 0
    decreases |run|
  {
    hide Apply, Enabled, Count;
    if run != [] {
      StepCalls(s, run[0]);
      StepCounts(s, run[0], WritesDone);
      RunCloses(Apply(s, run[0]), run[1..]);
    }
  }

  lemma {:induction false} RunWrites(s: Sys, run: seq<Step>)
    requires ValidRun(s, run)
    ensures Count(Exec(s, run).rpcs, Audio) == Count(s.rpcs, Audio) + if s.writesDone then 0 else FramesFirst(s, run)
    ensures Count(Exec(s, run).rpcs, Config) == Count(s.rpcs, Config) + Times(run, IsConfig)
    ensures Count(Exec(s, run).rpcs, Finish) == Count(s.rpcs, Finish) + Times(run, IsFinish)
    decreases |run|
  {
    hide Apply, Enabled, Requests, Count;
    if run != [] {
      StepCalls(s, run[0]);
      StepCounts(s, run[0], Audio);
      StepCounts(s, run[0], Config);
      StepCounts(s, run[0], Finish);
      RunWrites(Apply(s, run[0]), run[1..]);
    }
  }

  predicate Passes(s: Sys, step: Step, s': Sys) {
    && One(s'.media.Writing?) + One(IsLocked(step)) == One(s.media.Writing?) + One(step.Write? && s.connected)
    && One(s'.reader.HalfClosing?) + One(IsHalfClose(step)) == One(s.reader.HalfClosing?) + One(IsUtteranceEnd(step))
    && One(s'.reader.Finishing?) + One(IsFinish(step)) == One(s.reader.Finishing?) + One(IsNoMore(step))
    && One(!s'.media.Outside?) + One(step.Leave?) == One(!s.media.Outside?) + One(step.Enter? && s.live)
    && (s'.connected <==> s.connected || step.VadConnect?)
    && (s'.reader.Waiting? <==> s.reader.Waiting? && !step.Wake?)
    && s'.cleanups.Keys == s.cleanups.Keys + if step.Begin? then {step.t} else {}
  }

  lemma EnteredLeaves(s: Sys, t: Tid)
    requires t in s.cleanups && s.cleanups[t].Entered?
    ensures var s' := Advance(s, t); s'.media == s.media && s'.reader == s.reader && s'.connected == s.connected
  {
  }

  lemma AdvanceLeaves(s: Sys, t: Tid)
    requires t in s.cleanups
    ensures var s' := Advance(s, t); s'.media == s.media && s'.reader == s.reader && s'.connected == s.connected
  {
    if s.cleanups[t].Entered? { EnteredLeaves(s, t); }
    hide HalfClosed;
  }

  lemma HalfClosedLeaves(s: Sys)
    ensures var s' := HalfClosed(s); s'.cleanups == s.cleanups && s'.lock == s.lock && s'.reader == s.reader
  {
  }

  lemma ToKeys(s: Sys, t: Tid, at: Cleanup)
    requires t in s.cleanups
    ensures To(s, t, at).cleanups.Keys == s.cleanups.Keys
  {
    assert s.cleanups.Keys + {t} == s.cleanups.Keys;
  }

  lemma AdvanceKeys(s: Sys, t: Tid)
    requires t in s.cleanups
    ensures Advance(s, t).cleanups.Keys == s.cleanups.Keys
  {
    HalfClosedLeaves(s);
    forall at { ToKeys(s, t, at); }
    ToKeys(HalfClosed(s), t, Joining);
    hide HalfClosed, To;
  }

  lemma GoPasses(s: Sys, t: Tid)
    requires Enabled(s, Go(t))
    ensures Passes(s, Go(t), Apply(s, Go(t)))
  {
    AdvanceLeaves(s, t);
    AdvanceKeys(s, t);
    hide Advance, GoReady;
  }

  lemma OtherPasses(s: Sys, step: Step)
    requires Enabled(s, step) && !step.Go?
    ensures Passes(s, step, Apply(s, step))
  {
    hide Advance;
  }

  lemma StepPasses(s: Sys, step: Step)
    requires Enabled(s, step)
    ensures Passes(s, step, Apply(s, step))
  {
    hide Passes, Apply, Enabled;
    if step.Go? { GoPasses(s, step.t); } else { OtherPasses(s, step); }
  }

  lemma {:induction false} RunPasses(s: Sys, run: seq<Step>)
    requires ValidRun(s, run)
    ensures var e := Exec(s, run);
      && One(e.media.Writing?) + Times(run, IsLocked) == One(s.media.Writing?) + FramesOffered(s, run)
      && One(e.reader.HalfClosing?) + Times(run, IsHalfClose) == One(s.reader.HalfClosing?) + Times(run, IsUtteranceEnd)
      && One(e.reader.Finishing?) + Times(run, IsFinish) == One(s.reader.Finishing?) + Times(run, IsNoMore)
      && One(!e.media.Outside?) + Times(run, IsLeave) == One(!s.media.Outside?) + Entries(s, run)
      && (e.connected <==> s.connected || VadConnect in run)
      && (e.reader.Waiting? <==> s.reader.Waiting? && Wake !in run)
      && forall t :: t in e.cleanups <==> t in s.cleanups || Begin(t) in run
    decreases |run|
  {
    hide Apply, Enabled;
    if run != [] {
      assert run == [run[0]] + run[1..];
      StepPasses(s, run[0]);
      RunPasses(Apply(s, run[0]), run[1..]);
    }
  }

  // ---------------------------------------------------------------- main results

  /** Over any run WritesDone was issued exactly once if writesDone() was called on the connected
      stream before Finish, and not at all otherwise; and once it was called, or Finish, the write
      side is closed. */
  lemma HalfCloseExact(vad: bool, run: seq<Step>)
    requires ValidRun(Initial(vad), run)
    ensures var s := Exec(Initial(vad), run);
      && Count(s.rpcs, WritesDone) == (if AskedFirst(Initial(vad), run) then 1 else 0)
      && Count(s.rpcs, Finish) == Times(run, IsFinish)
      && (Asked(Initial(vad), run) || Times(run, IsFinish) > 0 <==> !NoClose(s.rpcs))
  {
    InitialInv(vad);
    RunKeeps(Initial(vad), run);
    RunCloses(Initial(vad), run);
    RunWrites(Initial(vad), run);
    CountSnoc([], Config, WritesDone);
    CountSnoc([], Config, Finish);
    assert [] + [Config] == [Config];
    hide Count;
  }

  /** Every frame offered on the connected stream comes to m_write_mutex, and each one that does
      so before the write side is closed is written; the config is written at the start, or
      when VAD connects. */
  lemma AudioExact(vad: bool, run: seq<Step>)
    requires ValidRun(Initial(vad), run)
    ensures var s := Exec(Initial(vad), run);
      && Count(s.rpcs, Audio) == FramesFirst(Initial(vad), run)
      && Times(run, IsLocked) + One(s.media.Writing?) == FramesOffered(Initial(vad), run)
      && Count(s.rpcs, Config) == One(!vad) + Times(run, IsConfig)
  {
    RunWrites(Initial(vad), run);
    RunPasses(Initial(vad), run);
    CountSnoc([], Config, Audio);
    CountSnoc([], Config, Config);
    assert [] + [Config] == [Config];
    hide Count;
  }

  /** Each end of an utterance is followed by a writesDone(), and the end of the reads by a
      Finish, unless the reader is just about to; a frame that wins the trylock and finds the
      stream is inside until it leaves; the stream is connected exactly if it was so from the
      start or VAD connected it; and every cleanup begun is there. */
  lemma CallsExact(vad: bool, run: seq<Step>)
    requires ValidRun(Initial(vad), run)
    ensures var s := Exec(Initial(vad), run);
      && Times(run, IsHalfClose) + One(s.reader.HalfClosing?) == Times(run, IsUtteranceEnd)
      && Times(run, IsFinish) + One(s.reader.Finishing?) == Times(run, IsNoMore)
      && Times(run, IsLeave) + One(!s.media.Outside?) == Entries(Initial(vad), run)
      && (s.connected <==> !vad || VadConnect in run)
      && (s.reader.Waiting? <==> Wake !in run)
      && forall t :: t in s.cleanups <==> Begin(t) in run
  {
    RunPasses(Initial(vad), run);
  }

  // ---------------------------------------------------------------- a cleanup can always end

  function ReaderRank(r: Reader): nat {
    match r
    case Waiting => 5
    case HalfClosing => 4
    case Reading => 3
    case Finishing => 2
    case Ended => 0
  }

  function CleanupRank(at: Cleanup): nat {
    match at
    case Want => 5
    case Entered => 4
    case Joining => 3
    case Deleting => 2
    case Leaving => 1
    case Gone => 0
  }

  /** The steps of the cleanup and of the reader it joins, whose reads end. */
  predicate Ends(step: Step, t: Tid) {
    step == Go(t) || step.Wake? || step.HalfClose? || step.NoMore? || step.CallFinish?
  }

  predicate EndsOnly(run: seq<Step>, t: Tid) {
    forall i :: 0 <= i < |run| ==> Ends(run[i], t)
  }

  predicate Nearer(s: Sys, step: Step, t: Tid)
    requires t in s.cleanups
  {
    Enabled(s, step) && Ends(step, t) && t in Apply(s, step).cleanups
    && var s' := Apply(s, step);
       CleanupRank(s'.cleanups[t]) + ReaderRank(s'.reader) < CleanupRank(s.cleanups[t]) + ReaderRank(s.reader)
       && (s'.lock == Cleaner(t) || (s'.lock.Nobody? && s'.cleanups[t].Gone?))
  }

  lemma ToAt(s: Sys, t: Tid, at: Cleanup)
    ensures var s' := To(s, t, at); t in s'.cleanups && s'.cleanups[t] == at && s'.lock == s.lock && s'.reader == s.reader
  {
  }

  lemma GoNearer(s: Sys, t: Tid)
    requires t in s.cleanups && s.lock == Cleaner(t) && InReap(s.cleanups[t]) && GoReady(s, s.cleanups[t])
    ensures Nearer(s, Go(t), t)
  {
    hide HalfClosed, To;
    HalfClosedLeaves(s);
    forall at { ToAt(s, t, at); }
    ToAt(HalfClosed(s), t, Joining);
  }

  lemma ReaderLeaves(s: Sys, step: Step)
    requires Enabled(s, step) && (step.Wake? || step.HalfClose? || step.NoMore? || step.CallFinish?)
    ensures var s' := Apply(s, step);
      s'.cleanups == s.cleanups && s'.lock == s.lock && ReaderRank(s'.reader) < ReaderRank(s.reader)
  {
    hide Advance;
  }

  lemma ReaderNearer(s: Sys, t: Tid) returns (step: Step)
    requires t in s.cleanups && s.lock == Cleaner(t) && s.promises > 0 && !s.reader.Ended?
    ensures Nearer(s, step, t)
  {
    step := match s.reader
      case Waiting => Wake
      case HalfClosing => HalfClose
      case Reading => NoMore
      case _ => CallFinish;
    ReaderLeaves(s, step);
    hide Apply, InReap;
  }

  /** The cleanup's own step, or while it joins, the reader's. */
  lemma EndsOne(s: Sys, t: Tid) returns (step: Step)
    requires Inv(s) && t in s.cleanups && s.lock == Cleaner(t)
    ensures Nearer(s, step, t)
  {
    hide RpcsOk, Nearer;
    assert CleanupOk(s, t, s.cleanups[t]);
    if s.cleanups[t].Joining? && !s.joined && !s.reader.Ended? {
      step := ReaderNearer(s, t);
    } else {
      step := Go(t);
      GoNearer(s, t);
    }
  }

  lemma {:induction false} CleanupEnds(s: Sys, t: Tid) returns (run: seq<Step>)
    requires Inv(s) && t in s.cleanups && (s.lock == Cleaner(t) || (s.lock.Nobody? && s.cleanups[t].Gone?))
    ensures ValidRun(s, run) && EndsOnly(run, t) && t in Exec(s, run).cleanups
    ensures Exec(s, run).cleanups[t].Gone? && Exec(s, run).lock.Nobody?
    decreases CleanupRank(s.cleanups[t]) + ReaderRank(s.reader)
  {
    hide Inv, Apply, Enabled;
    if s.lock.Nobody? {
      run := [];
    } else {
      var step := EndsOne(s, t);
      StepKeeps(s, step);
      var rest := CleanupEnds(Apply(s, step), t);
      run := [step] + rest;
      assert run[1..] == rest;
    }
  }

  /** A cleanup that has cb->mutex can always end, with the stream deleted and the mutex given
      back, as soon as gRPC ends the reads. */
  lemma CleanupAlwaysEnds(vad: bool, run: seq<Step>, t: Tid)
    requires ValidRun(Initial(vad), run)
    requires var s := Exec(Initial(vad), run); t in s.cleanups && s.lock == Cleaner(t)
    ensures var s := Exec(Initial(vad), run);
      exists more :: ValidRun(s, more) && EndsOnly(more, t) && t in Exec(s, more).cleanups
                     && Exec(s, more).cleanups[t].Gone? && Exec(s, more).lock.Nobody? && !Exec(s, more).live
  {
    InitialInv(vad);
    RunKeeps(Initial(vad), run);
    var s := Exec(Initial(vad), run);
    var more := CleanupEnds(s, t);
    RunKeeps(s, more);
    assert CleanupOk(Exec(s, more), t, Exec(s, more).cleanups[t]);
    hide RpcsOk, PromiseOk;
  }
}
