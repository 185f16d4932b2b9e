/** The write side and the teardown of one mod_google_transcribe stream: media thread, gRPC
    read thread, and any number of cleanups. gRPC allows no Write after WritesDone, no
    second WritesDone, and nothing on the write side after Finish. */
module GoogleStream {
  import opened Common

  type Tid = nat

  datatype Rpc = Config | Audio | WritesDone | Finish

  datatype Media =
    | Outside
    | Inside                    // holds cb->mutex, streamer re-read and not null
    | Promising                 // connect(): m_connected stored, promise to be set
    | Configuring               // connect(): the config Write
    | Writing                   // write() saw m_connected

  datatype Reader = Waiting | Reading | HalfClosing | Finishing | Ended

  datatype Cleanup = Want | Entered | Joining | Deleting | Leaving | Gone

  datatype Holder = Nobody | MediaThread | Cleaner(t: Tid)

  /** `vad`: the connect waits for speech. `rpcs` is what gRPC has been asked, in order. */
  datatype Sys = Sys(
    vad: bool, connected: bool, writesDone: bool, promises: nat, live: bool, joined: bool,
    lock: Holder, media: Media, reader: Reader, cleanups: map<Tid, Cleanup>, rpcs: seq<Rpc>)

  /** After session_init: connected, with the config written, unless VAD delays it. */
  function Initial(vad: bool): Sys {
    Sys(vad, !vad, false, if vad then 0 else 1, true, false, Nobody, Outside, Waiting, map[], if vad then [] else [Config])
  }

  datatype Step =
    | Enter | Leave
    | VadConnect | SetPromise | WriteConfig
    | Write | WriteLocked
    | Wake                      // waitForConnect returns
    | Response(endOfUtterance: bool)
    | HalfClose
    | NoMore                    // Read returns false
    | CallFinish
    | Begin(t: Tid)
    | Go(t: Tid)

  predicate Enabled(s: Sys, step: Step) {
    match step
    case Enter => s.lock.Nobody? && s.media.Outside?
    case Leave => s.media.Inside?
    case VadConnect => s.media.Inside? && s.vad && !s.connected
    case SetPromise => s.media.Promising?
    case WriteConfig => s.media.Configuring?
    case Write => s.media.Inside?
    case WriteLocked => s.media.Writing?
    case Wake => s.reader.Waiting? && s.promises > 0
    case Response(_) => s.reader.Reading?
    case HalfClose => s.reader.HalfClosing?
    case NoMore => s.reader.Reading?
    case CallFinish => s.reader.Finishing?
    case Begin(t) => t !in s.cleanups
    case Go(t) => t in s.cleanups && GoReady(s, s.cleanups[t])
  }

  predicate GoReady(s: Sys, at: Cleanup) {
    match at
    case Want => s.lock.Nobody?
    case Joining => s.joined || s.reader.Ended?
    case Gone => false
    case _ => true
  }

  function To(s: Sys, t: Tid, at: Cleanup): Sys {
    s.(cleanups := s.cleanups[t := at])
  }

  /** writesDone() on a connected stream: the flag is checked under m_write_mutex. */
  function HalfClosed(s: Sys): Sys {
    if s.writesDone then s else s.(writesDone := true, rpcs := s.rpcs + [WritesDone])
  }

  /** reap_streamer under cb->mutex. */
  function Advance(s: Sys, t: Tid): Sys
    requires t in s.cleanups
  {
    match s.cleanups[t]
    case Want => To(s, t, Entered).(lock := Cleaner(t))
    case Entered =>
      if !s.live then To(s, t, Joining)
      else if s.connected then To(HalfClosed(s), t, Joining)
      else To(s, t, Joining).(promises := s.promises + 1)
    case Joining => To(s, t, Deleting).(joined := true)
    case Deleting => To(s, t, Leaving).(live := false)
    case Leaving => To(s, t, Gone).(lock := Nobody)
    case Gone => s
  }

  function Apply(s: Sys, step: Step): Sys
    requires Enabled(s, step)
  {
    match step
    case Enter => if s.live then s.(lock := MediaThread, media := Inside) else s
    case Leave => s.(lock := Nobody, media := Outside)
    case VadConnect => s.(connected := true, media := Promising)
    case SetPromise => s.(promises := s.promises + 1, media := Configuring)
    case WriteConfig => s.(rpcs := s.rpcs + [Config], media := Inside)
    case Write => if s.connected then s.(media := Writing) else s
    case WriteLocked => s.(media := Inside, rpcs := if s.writesDone then s.rpcs else s.rpcs + [Audio])
    case Wake => s.(reader := if s.connected then Reading else Ended)
    case Response(endOfUtterance) => s.(reader := if endOfUtterance then HalfClosing else Reading)
    case HalfClose => HalfClosed(s).(reader := Reading)
    case NoMore => s.(reader := Finishing)
    case CallFinish => s.(writesDone := true, rpcs := s.rpcs + [Finish], reader := Ended)
    case Begin(t) => To(s, t, Want)
    case Go(t) => Advance(s, t)
  }

  predicate ValidRun(s: Sys, run: seq<Step>)
    decreases |run|
  {
    run == [] || (Enabled(s, run[0]) && ValidRun(Apply(s, run[0]), run[1..]))
  }

  function Exec(s: Sys, run: seq<Step>): Sys
    requires ValidRun(s, run)
    decreases |run|
  {
    if run == [] then s else Exec(Apply(s, run[0]), run[1..])
  }

  // ---------------------------------------------------------------- the gRPC contract

  predicate Closing(r: Rpc) {
    r.WritesDone? || r.Finish?
  }

  /** At most one WritesDone and one Finish; after either, no audio and no WritesDone; audio
      only after the config, which is written at most once. */
  predicate Lawful(rpcs: seq<Rpc>) {
    && (forall i, j :: 0 <= i < j < |rpcs| && Closing(rpcs[i]) ==> !rpcs[j].Audio? && !rpcs[j].WritesDone?)
    && (forall i, j :: 0 <= i < j < |rpcs| && rpcs[i].Finish? ==> !rpcs[j].Finish?)
    && (forall i, j :: 0 <= i < j < |rpcs| && rpcs[j].Config? ==> !rpcs[i].Config? && !rpcs[i].Audio?)
  }

  predicate NoClose(rpcs: seq<Rpc>) {
    forall i :: 0 <= i < |rpcs| ==> !Closing(rpcs[i])
  }

  predicate Configured(rpcs: seq<Rpc>) {
    exists i :: 0 <= i < |rpcs| && rpcs[i].Config?
  }

  predicate NoneOfMedia(rpcs: seq<Rpc>) {
    forall i :: 0 <= i < |rpcs| ==> !rpcs[i].Config? && !rpcs[i].Audio?
  }

  predicate RpcsOk(s: Sys) {
    && Lawful(s.rpcs)
    && (s.writesDone <==> !NoClose(s.rpcs))
    && (Finish in s.rpcs ==> s.reader.Ended? && s.writesDone)
    && (s.connected && !s.media.Promising? && !s.media.Configuring? ==> Configured(s.rpcs))
    && (!s.connected || s.media.Promising? || s.media.Configuring? ==> NoneOfMedia(s.rpcs))
  }

  // ---------------------------------------------------------------- the promise, the lock and the streamer

  predicate InReap(at: Cleanup) {
    at.Entered? || at.Joining? || at.Deleting? || at.Leaving?
  }

  predicate CleanupOk(s: Sys, t: Tid, at: Cleanup) {
    && (InReap(at) <==> s.lock == Cleaner(t))
    && (at.Joining? || at.Deleting? ==> s.promises == 1)
    && (at.Deleting? || at.Leaving? ==> s.joined)
    && (at.Leaving? || at.Gone? ==> !s.live)
  }

  /** A cleanup has set the promise of a stream that never connected. */
  predicate Cancelled(s: Sys) {
    !s.connected && s.promises > 0
  }

  predicate PromiseOk(s: Sys) {
    && s.promises <= 1
    && (s.connected ==> s.promises == if s.media.Promising? then 0 else 1)
    && (s.media.Promising? || s.media.Configuring? || s.media.Writing? ==> s.connected)
    && (!s.live ==> s.joined && s.promises == 1)
    && (s.joined ==> s.reader.Ended?)
    && (s.reader.Reading? || s.reader.HalfClosing? || s.reader.Finishing? ==> s.connected && !s.media.Promising?)
    && (Cancelled(s) ==> !s.live || (s.lock.Cleaner? && s.lock.t in s.cleanups && !s.cleanups[s.lock.t].Entered?))
  }

  ghost predicate LockOk(s: Sys) {
    && (s.media.Outside? <==> !s.lock.MediaThread?)
    && (!s.media.Outside? ==> s.live)
    && (s.lock.Cleaner? ==> s.lock.t in s.cleanups)
    && (forall t :: t in s.cleanups ==> CleanupOk(s, t, s.cleanups[t]))
  }

  ghost predicate Inv(s: Sys) {
    RpcsOk(s) && PromiseOk(s) && LockOk(s)
  }

  // ---------------------------------------------------------------- each call keeps the contract

  lemma AddConfig(rpcs: seq<Rpc>)
    requires Lawful(rpcs) && NoneOfMedia(rpcs)
    ensures Lawful(rpcs + [Config]) && Configured(rpcs + [Config])
    ensures NoClose(rpcs) <==> NoClose(rpcs + [Config])
  {
    var longer := rpcs + [Config];
    assert longer[|rpcs|].Config?;
    forall i | 0 <= i < |rpcs| ensures longer[i] == rpcs[i] {
    }
  }

  lemma AddAudio(rpcs: seq<Rpc>)
    requires Lawful(rpcs) && NoClose(rpcs) && Configured(rpcs)
    ensures Lawful(rpcs + [Audio]) && NoClose(rpcs + [Audio]) && Configured(rpcs + [Audio])
  {
    var i :| 0 <= i < |rpcs| && rpcs[i].Config?;
    assert (rpcs + [Audio])[i].Config?;
  }

  lemma AddClosing(rpcs: seq<Rpc>, r: Rpc)
    requires Lawful(rpcs) && Closing(r) && (r.WritesDone? ==> NoClose(rpcs)) && (r.Finish? ==> Finish !in rpcs)
    ensures Lawful(rpcs + [r]) && (NoneOfMedia(rpcs) ==> NoneOfMedia(rpcs + [r]))
    ensures Configured(rpcs) ==> Configured(rpcs + [r])
    ensures r.WritesDone? ==> (Finish in rpcs + [r] <==> Finish in rpcs)
    ensures !NoClose(rpcs + [r])
  {
    assert Closing((rpcs + [r])[|rpcs|]);
    if Configured(rpcs) {
      var i :| 0 <= i < |rpcs| && rpcs[i].Config?;
      assert (rpcs + [r])[i].Config?;
    }
  }

  lemma HalfCloseOk(s: Sys)
    requires RpcsOk(s)
    ensures RpcsOk(HalfClosed(s))
  {
    if !s.writesDone {
      AddClosing(s.rpcs, WritesDone);
      hide Lawful, NoClose, NoneOfMedia, Configured;
    }
  }

  predicate MediaStep(step: Step) {
    step.Enter? || step.Leave? || step.VadConnect? || step.SetPromise? || step.WriteConfig? || step.Write? || step.WriteLocked?
  }

  lemma MediaRpcs(s: Sys, step: Step)
    requires Inv(s) && Enabled(s, step) && MediaStep(step)
    ensures RpcsOk(Apply(s, step))
  {
    if step.WriteConfig? {
      AddConfig(s.rpcs);
    } else if step.WriteLocked? && !s.writesDone {
      AddAudio(s.rpcs);
    }
    hide Lawful, NoClose, NoneOfMedia, Configured;
  }

  lemma MediaRest(s: Sys, step: Step)
    requires Inv(s) && Enabled(s, step) && MediaStep(step)
    ensures PromiseOk(Apply(s, step)) && LockOk(Apply(s, step))
  {
    hide RpcsOk;
  }

  lemma ReaderRpcs(s: Sys, step: Step)
    requires Inv(s) && Enabled(s, step) && (step.Wake? || step.Response? || step.HalfClose? || step.NoMore? || step.CallFinish?)
    ensures RpcsOk(Apply(s, step))
  {
    if step.HalfClose? {
      HalfCloseOk(s);
    } else if step.CallFinish? {
      AddClosing(s.rpcs, Finish);
    }
    hide Lawful, NoClose, NoneOfMedia, Configured;
  }

  lemma ReaderRest(s: Sys, step: Step)
    requires Inv(s) && Enabled(s, step) && (step.Wake? || step.Response? || step.HalfClose? || step.NoMore? || step.CallFinish?)
    ensures PromiseOk(Apply(s, step)) && LockOk(Apply(s, step))
  {
    hide RpcsOk;
  }

  lemma BeginKeeps(s: Sys, t: Tid)
    requires Inv(s) && t !in s.cleanups
    ensures Inv(To(s, t, Want))
  {
    hide Lawful, NoClose, NoneOfMedia, Configured;
  }

  lemma SameRpcs(s: Sys, s': Sys)
    requires s'.rpcs == s.rpcs && s'.writesDone == s.writesDone && s'.connected == s.connected
    requires s'.media == s.media && s'.reader == s.reader && RpcsOk(s)
    ensures RpcsOk(s')
  {
  }

  lemma CleanupRpcs(s: Sys, t: Tid)
    requires Inv(s) && t in s.cleanups
    ensures RpcsOk(Advance(s, t))
  {
    hide RpcsOk, HalfClosed;
    if s.cleanups[t].Entered? && s.live && s.connected {
      HalfCloseOk(s);
      SameRpcs(HalfClosed(s), Advance(s, t));
    } else {
      SameRpcs(s, Advance(s, t));
    }
  }

  lemma EnterRest(s: Sys, t: Tid)
    requires Inv(s) && t in s.cleanups && GoReady(s, s.cleanups[t]) && (s.cleanups[t].Want? || s.cleanups[t].Entered?)
    ensures PromiseOk(Advance(s, t)) && LockOk(Advance(s, t))
  {
    hide RpcsOk;
  }

  lemma LeaveRest(s: Sys, t: Tid)
    requires Inv(s) && t in s.cleanups && GoReady(s, s.cleanups[t]) && !s.cleanups[t].Want? && !s.cleanups[t].Entered?
    ensures PromiseOk(Advance(s, t)) && LockOk(Advance(s, t))
  {
    hide RpcsOk;
  }

  lemma StepKeeps(s: Sys, step: Step)
    requires Inv(s) && Enabled(s, step)
    ensures Inv(Apply(s, step))
  {
    if MediaStep(step) {
      MediaRpcs(s, step);
      MediaRest(s, step);
    } else if step.Begin? {
      BeginKeeps(s, step.t);
    } else if step.Go? {
      CleanupRpcs(s, step.t);
      if s.cleanups[step.t].Want? || s.cleanups[step.t].Entered? {
        EnterRest(s, step.t);
      } else {
        LeaveRest(s, step.t);
      }
    } else {
      ReaderRpcs(s, step);
      ReaderRest(s, step);
    }
    hide RpcsOk, PromiseOk, LockOk, Advance;
  }

  lemma InitialInv(vad: bool)
    ensures Inv(Initial(vad))
  {
    if !vad {
      assert [Config][0].Config?;
    }
  }

  lemma {:induction false} RunKeeps(s: Sys, run: seq<Step>)
    requires Inv(s) && ValidRun(s, run)
    ensures Inv(Exec(s, run))
    decreases |run|
  {
    hide Inv;
    if run != [] {
      StepKeeps(s, run[0]);
      RunKeeps(Apply(s, run[0]), run[1..]);
    }
  }

  // ---------------------------------------------------------------- main results

  /** Over all runs of media, read and cleanup threads: WritesDone and Finish are issued at
      most once each, WritesDone never after Finish, and no audio Write after either. */
  lemma WriteSideLawful(vad: bool, run: seq<Step>)
    requires ValidRun(Initial(vad), run)
    ensures Lawful(Exec(Initial(vad), run).rpcs)
  {
    InitialInv(vad);
    RunKeeps(Initial(vad), run);
  }

  /** The connect promise is set at most once, always before a join, and a deleted stream has
      an ended reader and nobody inside. */
  lemma PromiseBeforeJoin(vad: bool, run: seq<Step>, t: Tid)
    requires ValidRun(Initial(vad), run) && t in Exec(Initial(vad), run).cleanups
    ensures var s := Exec(Initial(vad), run);
      && s.promises <= 1
      && (s.cleanups[t].Joining? ==> s.promises == 1)
      && (s.cleanups[t].Deleting? ==> s.reader.Ended? && s.media.Outside?)
      && (s.cleanups[t].Gone? ==> !s.live)
      && (!s.live ==> s.reader.Ended? && s.media.Outside?)
  {
    InitialInv(vad);
    RunKeeps(Initial(vad), run);
    var s := Exec(Initial(vad), run);
    assert CleanupOk(s, t, s.cleanups[t]);
  }

  /** The reader of a joined stream can always get on: its wait is over. */
  lemma ReaderNotStuck(vad: bool, run: seq<Step>, t: Tid)
    requires ValidRun(Initial(vad), run)
    requires var s := Exec(Initial(vad), run); t in s.cleanups && s.cleanups[t].Joining? && s.reader.Waiting?
    ensures Enabled(Exec(Initial(vad), run), Wake)
  {
    PromiseBeforeJoin(vad, run, t);
  }

  // ---------------------------------------------------------------- the unguarded config write

  /** The config Write obeys the contract if and only if m_writesDone is still clear when it
      is made, which connect() does not check. */
  lemma ConfigLawfulIff(vad: bool, run: seq<Step>)
    requires ValidRun(Initial(vad), run) && Exec(Initial(vad), run).media.Configuring?
    ensures var s := Exec(Initial(vad), run); NoClose(s.rpcs) <==> !s.writesDone
  {
    InitialInv(vad);
    RunKeeps(Initial(vad), run);
  }

  predicate ConfigAfterFinish(rpcs: seq<Rpc>) {
    |rpcs| == 2 && rpcs[0].Finish? && rpcs[1].Config?
  }

  lemma TwoSteps(s: Sys, run: seq<Step>)
    requires |run| >= 2 && Enabled(s, run[0]) && Enabled(Apply(s, run[0]), run[1])
    ensures ValidRun(s, run) <==> ValidRun(Apply(Apply(s, run[0]), run[1]), run[2..])
    ensures ValidRun(s, run) ==> Exec(s, run) == Exec(Apply(Apply(s, run[0]), run[1]), run[2..])
  {
    assert run[1..][1..] == run[2..] && run[1..][0] == run[1];
  }

  /** The media thread has connected and set the promise, and is about to write the config. */
  const ABOUT_TO_CONFIGURE :=
    Initial(true).(lock := MediaThread, media := Configuring, connected := true, promises := 1, reader := Reading)

  lemma ConnectsFirst(rest: seq<Step>)
    requires ValidRun(ABOUT_TO_CONFIGURE, rest)
    ensures var run := [Enter, VadConnect, SetPromise, Wake] + rest;
      ValidRun(Initial(true), run) && Exec(Initial(true), run) == Exec(ABOUT_TO_CONFIGURE, rest)
  {
    var run := [Enter, VadConnect, SetPromise, Wake] + rest;
    var s0 := Initial(true);
    TwoSteps(s0, run);
    var s2 := Apply(Apply(s0, run[0]), run[1]);
    TwoSteps(s2, run[2..]);
    assert Apply(Apply(s2, run[2]), run[3]) == ABOUT_TO_CONFIGURE;
    assert run[2..][2..] == rest;
  }

  lemma EndsThenConfigures()
    ensures var run := [NoMore, CallFinish, WriteConfig];
      ValidRun(ABOUT_TO_CONFIGURE, run) && ConfigAfterFinish(Exec(ABOUT_TO_CONFIGURE, run).rpcs)
  {
    var run := [NoMore, CallFinish, WriteConfig];
    TwoSteps(ABOUT_TO_CONFIGURE, run);
    assert run[2..] == [WriteConfig] && [WriteConfig][1..] == [];
    var s := Apply(Apply(ABOUT_TO_CONFIGURE, NoMore), CallFinish);
    assert s.rpcs == [Finish];
    assert Exec(s, [WriteConfig]).rpcs == [Finish, Config];
  }

  /** connect() writes its config without looking at m_writesDone: if the stream ends between
      the promise and that Write, the config follows Finish. */
  lemma ConfigCanFollowFinish()
    ensures exists run :: ValidRun(Initial(true), run) && ConfigAfterFinish(Exec(Initial(true), run).rpcs)
  {
    EndsThenConfigures();
    ConnectsFirst([NoMore, CallFinish, WriteConfig]);
  }
}
