/** finish() of mod_deepgram_transcribe: any number of threads may call it, before, during
    or after the handshake, and CloseStream must be queued once. */
module DeepgramFinish {
  import opened Common

  type Tid = nat

  /** The service thread, when LWS_CALLBACK_CLIENT_ESTABLISHED calls finish(). */
  const SERVICE: Tid := 0

  datatype State = Early | Connected | Gone

  /** Where a call of finish() stands. */
  datatype At =
    | First                     // reads m_state
    | Store                     // m_gracefulShutdown = true
    | Recheck
    | Exchange                  // m_finished.exchange(true)
    | Gate                      // bufferForSending reads m_state
    | Append
    | Out

  datatype Svc = Idle | ReadFlag | InFinish

  datatype Pipe = Pipe(
    state: State, flag: bool, finished: bool, queued: nat, svc: Svc, calls: map<Tid, At>,
    winner: Option<Tid>)        // who won the exchange

  const FRESH := Pipe(Early, false, false, 0, Idle, map[], None)

  datatype Step =
    | Call(t: Tid)
    | Go(t: Tid)
    | Establish
    | ServiceReads
    | ServiceEnds
    | Lose                      // the connection fails, drops or is closed

  predicate Enabled(p: Pipe, step: Step) {
    match step
    case Call(t) => t !in p.calls && t != SERVICE
    case Go(t) => t in p.calls && !p.calls[t].Out?
    case Establish => p.state.Early? && p.svc.Idle?
    case ServiceReads => p.svc.ReadFlag?
    case ServiceEnds => p.svc.InFinish? && SERVICE in p.calls && p.calls[SERVICE].Out?
    case Lose => true
  }

  function To(p: Pipe, t: Tid, at: At): Pipe {
    p.(calls := p.calls[t := at])
  }

  function Advance(p: Pipe, t: Tid): Pipe
    requires t in p.calls
  {
    match p.calls[t]
    case First => To(p, t, if p.state.Connected? then Exchange else Store)
    case Store => To(p, t, Recheck).(flag := true)
    case Recheck => To(p, t, if p.state.Connected? then Exchange else Out)
    case Exchange => if p.finished then To(p, t, Out) else To(p, t, Gate).(finished := true, winner := Some(t))
    case Gate => if p.state.Connected? then To(p, t, Append) else To(p, t, Out)
    case Append => To(p, t, Out).(queued := p.queued + 1)
    case Out => p
  }

  function Apply(p: Pipe, step: Step): Pipe
    requires Enabled(p, step)
  {
    match step
    case Call(t) => To(p, t, First)
    case Go(t) => Advance(p, t)
    case Establish => p.(state := Connected, svc := ReadFlag)
    case ServiceReads => if p.flag then To(p, SERVICE, First).(svc := InFinish) else p.(svc := Idle)
    case ServiceEnds => p.(svc := Idle)
    case Lose => p.(state := Gone)
  }

  predicate ValidRun(p: Pipe, run: seq<Step>)
    decreases |run|
  {
    run == [] || (Enabled(p, run[0]) && ValidRun(Apply(p, run[0]), run[1..]))
  }

  function Exec(p: Pipe, run: seq<Step>): Pipe
    requires ValidRun(p, run)
    decreases |run|
  {
    if run == [] then p else Exec(Apply(p, run[0]), run[1..])
  }

  // ---------------------------------------------------------------- the invariant

  predicate Queueing(at: At) {
    at.Gate? || at.Append?
  }

  predicate WinnerOk(p: Pipe) {
    && (p.finished <==> p.winner.Some?)
    && (p.winner.Some? ==> p.winner.value in p.calls && (Queueing(p.calls[p.winner.value]) || p.calls[p.winner.value].Out?))
    && p.queued <= (if p.winner.Some? && p.calls[p.winner.value].Out? then 1 else 0)
    && (p.winner.Some? && p.calls[p.winner.value].Out? && !p.state.Gone? ==> p.queued == 1)
  }

  /** A returned call leaves its request either carried out or recorded where ESTABLISHED
      will still find it, unless the connection is over. */
  predicate Remembered(p: Pipe) {
    || p.finished || p.state.Gone?
    || (p.flag && (p.state.Early? || p.svc.ReadFlag? || (p.svc.InFinish? && SERVICE in p.calls && !p.calls[SERVICE].Out?)))
  }

  predicate CallOk(p: Pipe, t: Tid, at: At) {
    && (Queueing(at) ==> p.winner == Some(t))
    && (at.Recheck? ==> p.flag)
    && (at.Out? ==> Remembered(p))
    && (at.Exchange? || Queueing(at) ==> !p.state.Early?)
  }

  predicate SvcOk(p: Pipe) {
    && (!p.svc.Idle? ==> !p.state.Early?)
    && (SERVICE in p.calls ==> !p.state.Early? && !p.svc.ReadFlag?)
    && (p.svc.InFinish? ==> SERVICE in p.calls)
    && (SERVICE in p.calls && p.svc.Idle? ==> p.calls[SERVICE].Out?)
  }

  ghost predicate Inv(p: Pipe) {
    WinnerOk(p) && SvcOk(p) && forall t :: t in p.calls ==> CallOk(p, t, p.calls[t])
  }

  lemma ReadsKeeps(p: Pipe, t: Tid)
    requires Inv(p) && t in p.calls && (p.calls[t].First? || p.calls[t].Store? || p.calls[t].Recheck?)
    ensures Inv(Advance(p, t))
  {
  }

  lemma ExchangeKeeps(p: Pipe, t: Tid)
    requires Inv(p) && t in p.calls && p.calls[t].Exchange?
    ensures Inv(Advance(p, t))
  {
  }

  lemma QueueKeeps(p: Pipe, t: Tid)
    requires Inv(p) && t in p.calls && Queueing(p.calls[t])
    ensures Inv(Advance(p, t))
  {
  }

  lemma OthersKeep(p: Pipe, step: Step)
    requires Inv(p) && Enabled(p, step) && !step.Go?
    ensures Inv(Apply(p, step))
  {
  }

  lemma StepKeeps(p: Pipe, step: Step)
    requires Inv(p) && Enabled(p, step)
    ensures Inv(Apply(p, step))
  {
    if step.Go? {
      var at := p.calls[step.t];
      if Queueing(at) {
        QueueKeeps(p, step.t);
      } else if at.Exchange? {
        ExchangeKeeps(p, step.t);
      } else {
        ReadsKeeps(p, step.t);
      }
    } else {
      OthersKeep(p, step);
    }
  }

  lemma {:induction false} RunKeeps(p: Pipe, run: seq<Step>)
    requires Inv(p) && ValidRun(p, run)
    ensures Inv(Exec(p, run))
    decreases |run|
  {
    hide Inv;
    if run != [] {
      StepKeeps(p, run[0]);
      RunKeeps(Apply(p, run[0]), run[1..]);
    }
  }

  // ---------------------------------------------------------------- main results

  /** CloseStream is queued at most once, however many threads call finish(). */
  lemma NeverDoubled(run: seq<Step>)
    requires ValidRun(FRESH, run)
    ensures Exec(FRESH, run).queued <= 1
  {
    RunKeeps(FRESH, run);
  }

  /** Nobody is inside finish() or ESTABLISHED. */
  predicate Quiet(p: Pipe) {
    p.svc.Idle? && forall t :: t in p.calls ==> p.calls[t].Out?
  }

  /** Once every call has returned and the pipe is connected, CloseStream has been queued
      exactly once if finish() was ever called, and not at all otherwise. */
  lemma NeverLost(run: seq<Step>)
    requires ValidRun(FRESH, run) && Quiet(Exec(FRESH, run)) && Exec(FRESH, run).state.Connected?
    ensures var p := Exec(FRESH, run); p.queued == if p.calls == map[] then 0 else 1
  {
    RunKeeps(FRESH, run);
    var p := Exec(FRESH, run);
    if p.calls != map[] {
      var t :| t in p.calls;
      assert CallOk(p, t, p.calls[t]) && Remembered(p);
    }
  }

  // ---------------------------------------------------------------- the run decides

  /** The step is bufferForSending's read of the state, in some call or in ESTABLISHED. */
  predicate AtGate(p: Pipe, step: Step) {
    step.Go? && step.t in p.calls && p.calls[step.t].Gate?
  }

  /** Some call comes to its gate before the connection is lost. */
  predicate GatesBeforeLoss(p: Pipe, run: seq<Step>)
    requires ValidRun(p, run)
    decreases |run|
  {
    run != [] && !run[0].Lose? && (AtGate(p, run[0]) || GatesBeforeLoss(Apply(p, run[0]), run[1..]))
  }

  predicate Loses(run: seq<Step>) {
    exists i :: 0 <= i < |run| && run[i].Lose?
  }

  /** CloseStream is queued, or the call that is past its gate is about to queue it. */
  predicate Settled(p: Pipe) {
    p.queued == 1 || (p.winner.Some? && p.winner.value in p.calls && p.calls[p.winner.value].Append?)
  }

  /** The only step that settles the matter is a gate passed in the connected state, and
      nothing unsettles it. */
  lemma StepSettles(p: Pipe, step: Step)
    requires Inv(p) && Enabled(p, step)
    ensures Settled(Apply(p, step)) <==> Settled(p) || (AtGate(p, step) && !p.state.Gone?)
    ensures Apply(p, step).state.Gone? <==> p.state.Gone? || step.Lose?
  {
    if step.Go? {
      GoSettles(p, step.t);
    } else {
      OtherSettles(p, step);
    }
  }

  lemma GoSettles(p: Pipe, t: Tid)
    requires Inv(p) && Enabled(p, Go(t))
    ensures Settled(Advance(p, t)) <==> Settled(p) || (p.calls[t].Gate? && !p.state.Gone?)
    ensures Advance(p, t).state == p.state
  {
    assert CallOk(p, t, p.calls[t]);
  }

  lemma OtherSettles(p: Pipe, step: Step)
    requires Inv(p) && Enabled(p, step) && !step.Go?
    ensures Settled(Apply(p, step)) <==> Settled(p)
    ensures Apply(p, step).state.Gone? <==> p.state.Gone? || step.Lose?
  {
  }

  lemma {:induction false} RunSettles(p: Pipe, run: seq<Step>)
    requires Inv(p) && ValidRun(p, run)
    ensures Settled(Exec(p, run)) <==> Settled(p) || (!p.state.Gone? && GatesBeforeLoss(p, run))
    ensures Exec(p, run).state.Gone? <==> p.state.Gone? || Loses(run)
    decreases |run|
  {
    hide Inv, Settled, Enabled, Apply;
    if run != [] {
      StepSettles(p, run[0]);
      StepKeeps(p, run[0]);
      RunSettles(Apply(p, run[0]), run[1..]);
      LosesFirst(run);
    }
  }

  lemma LosesFirst(run: seq<Step>)
    requires run != []
    ensures Loses(run) <==> run[0].Lose? || Loses(run[1..])
  {
    if Loses(run) && !run[0].Lose? {
      var i :| 0 <= i < |run| && run[i].Lose?;
      assert run[1..][i - 1].Lose?;
    }
    if Loses(run[1..]) {
      var i :| 0 <= i < |run[1..]| && run[1..][i].Lose?;
      assert run[i + 1].Lose?;
    }
  }

  /** Over any run in which every call has returned: CloseStream was queued exactly once if some
      call came to its gate before the connection was lost, and not at all otherwise. */
  lemma QueuedExactly(run: seq<Step>)
    requires ValidRun(FRESH, run) && Quiet(Exec(FRESH, run))
    ensures Exec(FRESH, run).queued == if GatesBeforeLoss(FRESH, run) then 1 else 0
  {
    RunKeeps(FRESH, run);
    RunSettles(FRESH, run);
  }

  /** A loss after the queueing loses nothing: once a run has queued CloseStream, it stays
      queued, and is queued only that once, over every further run. */
  lemma LossComesTooLate(run: seq<Step>, more: seq<Step>)
    requires ValidRun(FRESH, run) && Exec(FRESH, run).queued == 1 && ValidRun(Exec(FRESH, run), more)
    ensures Exec(Exec(FRESH, run), more).queued == 1
  {
    RunKeeps(FRESH, run);
    StaysQueued(Exec(FRESH, run), more);
  }

  lemma {:induction false} StaysQueued(p: Pipe, run: seq<Step>)
    requires Inv(p) && p.queued == 1 && ValidRun(p, run)
    ensures Exec(p, run).queued == 1
    decreases |run|
  {
    hide Inv;
    if run != [] {
      StepKeeps(p, run[0]);
      QueuedOnce(p, run[0]);
      StaysQueued(Apply(p, run[0]), run[1..]);
    }
  }

  lemma QueuedOnce(p: Pipe, step: Step)
    requires Inv(p) && Enabled(p, step) && p.queued == 1
    ensures Apply(p, step).queued == 1
  {
    if step.Go? {
      assert CallOk(p, step.t, p.calls[step.t]);
    }
  }

  /** What a caller can rely on: finish() was called, the handshake succeeded, and every call
      has returned; then CloseStream is missing only if the connection was lost, and that
      before any call came to its gate. */
  lemma MissingExactly(run: seq<Step>)
    requires ValidRun(FRESH, run) && Quiet(Exec(FRESH, run))
    requires Exec(FRESH, run).calls != map[] && Establish in run
    ensures Exec(FRESH, run).queued == 0 <==> Loses(run) && !GatesBeforeLoss(FRESH, run)
  {
    QueuedExactly(run);
    RunKeeps(FRESH, run);
    RunSettles(FRESH, run);
    LeavesEarly(FRESH, run);
    if !Loses(run) {
      NeverLost(run);
    }
  }

  lemma {:induction false} LeavesEarly(p: Pipe, run: seq<Step>)
    requires ValidRun(p, run) && (Establish in run || !p.state.Early?)
    ensures !Exec(p, run).state.Early?
    decreases |run|
  {
    if run != [] {
      LeavesEarly(Apply(p, run[0]), run[1..]);
    }
  }

  // ---------------------------------------------------------------- the calls

  /** ESTABLISHED only calls finish() after somebody else did. */
  ghost predicate Asked(p: Pipe) {
    p.flag || p.calls != map[] ==> exists t :: t in p.calls && t != SERVICE
  }

  lemma StepAsked(p: Pipe, step: Step)
    requires Asked(p) && Enabled(p, step)
    ensures Asked(Apply(p, step))
  {
    if step.Call? {
      assert step.t in Apply(p, step).calls;
    } else if p.flag || p.calls != map[] {
      var t :| t in p.calls && t != SERVICE;
      assert t in Apply(p, step).calls;
    }
  }

  lemma StepCalls(p: Pipe, step: Step, t: Tid)
    requires Enabled(p, step) && t != SERVICE
    ensures t in Apply(p, step).calls <==> t in p.calls || step == Call(t)
  {
  }

  lemma {:induction false} RunCalls(p: Pipe, run: seq<Step>)
    requires Asked(p) && ValidRun(p, run)
    ensures Asked(Exec(p, run))
    ensures forall t :: t != SERVICE ==> (t in Exec(p, run).calls <==> t in p.calls || Call(t) in run)
    decreases |run|
  {
    hide Apply, Enabled, Asked;
    if run != [] {
      assert run == [run[0]] + run[1..];
      StepAsked(p, run[0]);
      forall t | t != SERVICE ensures t in Apply(p, run[0]).calls <==> t in p.calls || run[0] == Call(t) {
        StepCalls(p, run[0], t);
      }
      RunCalls(Apply(p, run[0]), run[1..]);
    }
  }

  /** Over any run after which all calls have returned on a connected pipe, CloseStream was queued
      exactly once if somebody called finish(), and not at all if nobody did: ESTABLISHED asks
      for none of its own. */
  lemma QueuedIffCalled(run: seq<Step>)
    requires ValidRun(FRESH, run) && Quiet(Exec(FRESH, run)) && Exec(FRESH, run).state.Connected?
    ensures Exec(FRESH, run).queued == if exists t :: Call(t) in run then 1 else 0
  {
    NeverLost(run);
    RunCalls(FRESH, run);
    var p := Exec(FRESH, run);
    if t :| Call(t) in run {
      CallsAreOthers(FRESH, run, t);
      assert t in p.calls;
    }
  }

  lemma {:induction false} CallsAreOthers(p: Pipe, run: seq<Step>, t: Tid)
    requires ValidRun(p, run) && Call(t) in run
    ensures t != SERVICE
    decreases |run|
  {
    if run[0] != Call(t) {
      CallsAreOthers(Apply(p, run[0]), run[1..], t);
    }
  }

  function AtRank(at: At): nat {
    match at
    case First => 6
    case Store => 5
    case Recheck => 4
    case Exchange => 3
    case Gate => 2
    case Append => 1
    case Out => 0
  }

  predicate GoOnly(run: seq<Step>, t: Tid) {
    forall i :: 0 <= i < |run| ==> run[i] == Go(t)
  }

  lemma GoFalls(p: Pipe, t: Tid)
    requires t in p.calls && !p.calls[t].Out?
    ensures t in Advance(p, t).calls && AtRank(Advance(p, t).calls[t]) < AtRank(p.calls[t])
  {
  }

  /** finish() never waits: whatever the others do, a call returns after at most six of its own
      steps. */
  lemma {:induction false} CallReturns(p: Pipe, t: Tid) returns (run: seq<Step>)
    requires t in p.calls
    ensures ValidRun(p, run) && GoOnly(run, t) && |run| <= AtRank(p.calls[t])
    ensures t in Exec(p, run).calls && Exec(p, run).calls[t].Out?
    decreases AtRank(p.calls[t])
  {
    hide Advance, AtRank;
    if p.calls[t].Out? {
      run := [];
    } else {
      GoFalls(p, t);
      var rest := CallReturns(Advance(p, t), t);
      run := [Go(t)] + rest;
      assert run[1..] == rest;
    }
  }
}
