/** The unload gate of mod_aws_transcribe: sessions are counted before anything is created
    for them, and the module unloads only when the count it reads is zero.

    "if (cb->gate_counted) { cb->gate_counted = 0; --g_activeStreamers; }" is three steps,
    here as in the code, and several threads may come to it for one session. */
module UnloadGate {
  import opened Common

  type Sid = nat
  type Tid = nat

  /** Where a thread stands that may release the count. */
  datatype At =
    | Want                      // a stop by name or a CLOSE waits for cb->mutex
    | Test                      // reads gate_counted
    | Clear                     // found it set
    | Decrement                 // has cleared it
    | Leave(done: bool)         // still inside; whether its release code has run to the end
    | Out(done: bool)

  datatype Phase =
    | Refused                   // the module was unloading
    | Counted                   // ++g_activeStreamers done, gate_counted not yet set
    | Starting                  // session_init goes on, alone with its cap_cb
    | Failing                   // a failure exit of session_init, still alone
    | Orphaned                  // the bug could not be attached: cleanup, alone
    | Attached                  // stops by name and the bug's CLOSE, through cb->mutex

  /** `flag` is gate_counted; `own` is where the thread stands that has the cap_cb to itself,
      and `again` says that it will test the flag once more, in the block at `done:`; `releases`
      counts the decrements made for the session. */
  datatype Session = Session(phase: Phase, flag: bool, releases: nat, own: At, again: bool,
                             lock: Option<Tid>, stops: map<Tid, At>)

  datatype Gate = Gate(accepting: bool, count: int, sessions: map<Sid, Session>)

  const CLOSED_START := Gate(true, 0, map[])

  datatype Step =
    | Init(s: Sid)              // the critical section of session_init
    | SetFlag(s: Sid)
    | Fail(s: Sid, killed: bool)      // a failure exit; whether it goes through killcb first
    | Succeed(s: Sid, attached: bool)
    | Own(s: Sid)               // the next step of the thread that is alone
    | Begin(s: Sid, t: Tid)     // a stop by name or a CLOSE
    | Go(s: Sid, t: Tid, lost: bool)  // its next step; `lost`: the slot no longer names its bug
    | ShutdownBegin

  function Blank(phase: Phase): Session {
    Session(phase, false, 0, Out(false), false, None, map[])
  }

  predicate Releasing(at: At) {
    at.Test? || at.Clear? || at.Decrement?
  }

  predicate Enabled(g: Gate, step: Step) {
    match step
    case Init(s) => s !in g.sessions
    case SetFlag(s) => s in g.sessions && g.sessions[s].phase.Counted?
    case Fail(s, _) => s in g.sessions && g.sessions[s].phase.Starting?
    case Succeed(s, _) => s in g.sessions && g.sessions[s].phase.Starting?
    case Own(s) => s in g.sessions && (Releasing(g.sessions[s].own) || g.sessions[s].own.Leave?)
    case Begin(s, t) => s in g.sessions && g.sessions[s].phase.Attached? && t !in g.sessions[s].stops
    case Go(s, t, _) => s in g.sessions && t in g.sessions[s].stops && GoReady(g.sessions[s], g.sessions[s].stops[t])
    case ShutdownBegin => true
  }

  predicate GoReady(x: Session, at: At) {
    !at.Out? && (at.Want? ==> x.lock.None?)
  }

  function Put(g: Gate, s: Sid, x: Session): Gate {
    g.(sessions := g.sessions[s := x])
  }

  /** One step of the three: where the thread goes on, and the flag, releases and count. */
  function Released(at: At, flag: bool): At {
    match at
    case Test => if flag then Clear else Leave(true)
    case Clear => Decrement
    case Decrement => Leave(true)
    case _ => at
  }

  /** The thread that is alone: killcb or the block at `done:`, and from the one to the other. */
  function OwnStep(x: Session): Session {
    match x.own
    case Leave(_) => if x.again then x.(own := Test, again := false) else x.(own := Out(true))
    case _ => x.(own := Released(x.own, x.flag), flag := x.flag && !x.own.Clear?,
                 releases := x.releases + if x.own.Decrement? then 1 else 0)
  }

  /** A stop by name or a CLOSE, inside cb->mutex from `Test` to `Leave`. */
  function StopStep(x: Session, t: Tid, lost: bool): Session
    requires t in x.stops
  {
    match x.stops[t]
    case Want => x.(lock := Some(t), stops := x.stops[t := if lost then Leave(false) else Test])
    case Leave(done) => x.(lock := None, stops := x.stops[t := Out(done)])
    case at => x.(stops := x.stops[t := Released(at, x.flag)], flag := x.flag && !at.Clear?,
                  releases := x.releases + if at.Decrement? then 1 else 0)
  }

  function Apply(g: Gate, step: Step): Gate
    requires Enabled(g, step)
  {
    match step
    case Init(s) =>
      if !g.accepting then Put(g, s, Blank(Refused)) else Put(g, s, Blank(Counted)).(count := g.count + 1)
    case SetFlag(s) => Put(g, s, g.sessions[s].(flag := true, phase := Starting))
    case Fail(s, killed) => Put(g, s, g.sessions[s].(phase := Failing, own := Test, again := killed))
    case Succeed(s, attached) =>
      Put(g, s, if attached then g.sessions[s].(phase := Attached) else g.sessions[s].(phase := Orphaned, own := Test))
    case Own(s) =>
      Put(g, s, OwnStep(g.sessions[s])).(count := g.count - if g.sessions[s].own.Decrement? then 1 else 0)
    case Begin(s, t) => Put(g, s, g.sessions[s].(stops := g.sessions[s].stops[t := Want]))
    case Go(s, t, lost) =>
      Put(g, s, StopStep(g.sessions[s], t, lost)).(count := g.count - if g.sessions[s].stops[t].Decrement? then 1 else 0)
    case ShutdownBegin => g.(accepting := false)
  }

  predicate ValidRun(g: Gate, run: seq<Step>)
    decreases |run|
  {
    run == [] || (Enabled(g, run[0]) && ValidRun(Apply(g, run[0]), run[1..]))
  }

  function Exec(g: Gate, run: seq<Step>): Gate
    requires ValidRun(g, run)
    decreases |run|
  {
    if run == [] then g else Exec(Apply(g, run[0]), run[1..])
  }

  // ---------------------------------------------------------------- one session

  /** Some thread has cleared the flag and not yet decremented. */
  predicate Decrementing(x: Session) {
    x.own.Decrement? || exists t :: t in x.stops && x.stops[t].Decrement?
  }

  predicate InLines(x: Session) {
    x.phase.Counted? || Decrementing(x)
  }

  predicate Holds(at: At) {
    Releasing(at) || at.Leave?
  }

  /** A stop or CLOSE that found the slot naming its bug: it is in the release code or past it. */
  predicate Entitled(at: At) {
    Releasing(at) || at == Leave(true) || at == Out(true)
  }

  /** The flag as a thread between its test and its decrement knows it. */
  predicate Knows(x: Session, at: At) {
    && (at.Clear? ==> x.flag)
    && (at.Decrement? ==> !x.flag && x.releases == 0)
    && ((at.Leave? || at.Out?) && at.done ==> !x.flag && x.releases == 1)
  }

  /** Nobody is between the clearing of the flag and the decrement. */
  predicate Steady(x: Session) {
    x.releases == if x.flag then 0 else 1
  }

  predicate AloneOk(x: Session) {
    && x.stops == map[] && x.lock.None? && (Holds(x.own) || x.own == Out(true)) && x.own != Leave(false)
    && Knows(x, x.own) && (!x.own.Decrement? ==> Steady(x)) && (x.own.Out? ==> !x.again)
  }

  ghost predicate StopsOk(x: Session) {
    && x.own == Out(false)
    && (forall t :: t in x.stops && Holds(x.stops[t]) ==> x.lock == Some(t) && Knows(x, x.stops[t]))
    && (x.lock.Some? ==> x.lock.value in x.stops && Holds(x.stops[x.lock.value]))
    && ((x.lock.Some? ==> !x.stops[x.lock.value].Decrement?) ==> Steady(x))
    && (forall t :: t in x.stops && x.stops[t] == Out(true) ==> !x.flag && x.releases == 1)
    && (!x.flag ==> exists t :: t in x.stops && Entitled(x.stops[t]))
  }

  ghost predicate SessionOk(x: Session) {
    match x.phase
    case Refused => x == Blank(Refused)
    case Counted => x == Blank(Counted)
    case Starting => x == Blank(Starting).(flag := true)
    case Failing => AloneOk(x)
    case Orphaned => AloneOk(x)
    case Attached => StopsOk(x)
  }

  lemma OwnKeeps(x: Session)
    requires AloneOk(x) && Holds(x.own)
    ensures AloneOk(OwnStep(x)) && OwnStep(x).phase == x.phase
  {
  }

  /** Here cb->mutex matters: it makes `t` the only thread between a test and a decrement. */
  lemma StopKeeps(x: Session, t: Tid, lost: bool)
    requires StopsOk(x) && t in x.stops && GoReady(x, x.stops[t])
    ensures StopsOk(StopStep(x, t, lost)) && StopStep(x, t, lost).phase == x.phase
  {
    SourceStays(x, t, lost);
  }

  lemma SourceStays(x: Session, t: Tid, lost: bool)
    requires StopsOk(x) && t in x.stops && GoReady(x, x.stops[t])
    ensures var y := StopStep(x, t, lost); !y.flag ==> exists u :: u in y.stops && Entitled(y.stops[u])
  {
    var y := StopStep(x, t, lost);
    if !x.flag {
      var u :| u in x.stops && Entitled(x.stops[u]);
      assert Entitled(y.stops[u]);
    } else if !y.flag {
      assert Entitled(y.stops[t]);
    }
  }

  /** Whom the count counts: a session in bookkeeping or with its flag set, never both. */
  lemma OneReason(x: Session)
    requires SessionOk(x)
    ensures !(x.flag && InLines(x))
    ensures x.flag || InLines(x) <==> !x.phase.Refused? && x.releases == 0
    ensures x.releases <= 1 && (x.phase.Refused? ==> x.releases == 0)
  {
    if x.phase.Attached? {
      DecrementingIsHolder(x);
    }
  }

  lemma DecrementingIsHolder(x: Session)
    requires StopsOk(x)
    ensures Decrementing(x) <==> x.lock.Some? && x.stops[x.lock.value].Decrement?
  {
    if Decrementing(x) {
      var t :| t in x.stops && x.stops[t].Decrement?;
      assert Holds(x.stops[t]);
    }
  }

  // ---------------------------------------------------------------- the invariant

  function Flagged(g: Gate): set<Sid> {
    set s | s in g.sessions && g.sessions[s].flag
  }

  /** Sessions inside the few lines that change the count and the flag one after the other. */
  function InBookkeeping(g: Gate): set<Sid> {
    set s | s in g.sessions && InLines(g.sessions[s])
  }

  ghost predicate Inv(g: Gate) {
    && g.count == |Flagged(g)| + |InBookkeeping(g)|
    && Flagged(g) !! InBookkeeping(g)
    && forall s :: s in g.sessions ==> SessionOk(g.sessions[s])
  }

  function With(a: set<Sid>, s: Sid, on: bool): set<Sid> {
    if on then a + {s} else a - {s}
  }

  lemma Sizes(a: set<Sid>, s: Sid, on: bool)
    ensures |With(a, s, on)| == |a| + (if on then 1 else 0) - (if s in a then 1 else 0)
  {
    if s in a {
      assert a + {s} == a;
    } else {
      assert a - {s} == a;
    }
  }

  lemma SumOfSizes(f: set<Sid>, b: set<Sid>, s: Sid, inF: bool, inB: bool)
    requires f !! b && !(inF && inB)
    ensures With(f, s, inF) !! With(b, s, inB)
    ensures |With(f, s, inF)| + |With(b, s, inB)|
         == |f| + |b| + (if inF || inB then 1 else 0) - (if s in f + b then 1 else 0)
  {
    Sizes(f, s, inF);
    Sizes(b, s, inB);
  }

  lemma FlaggedPut(g: Gate, s: Sid, x: Session)
    ensures Flagged(Put(g, s, x)) == With(Flagged(g), s, x.flag)
  {
  }

  lemma BookkeepingPut(g: Gate, s: Sid, x: Session)
    ensures InBookkeeping(Put(g, s, x)) == With(InBookkeeping(g), s, InLines(x))
  {
  }

  /** One session moves between "flagged", "in bookkeeping" and neither; the count follows. */
  lemma Moved(g: Gate, s: Sid, x: Session, count: int)
    requires Inv(g) && SessionOk(x)
    requires var was := if s in Flagged(g) + InBookkeeping(g) then 1 else 0;
      var now := if x.flag || InLines(x) then 1 else 0;
      count == g.count + now - was
    ensures Inv(Put(g, s, x).(count := count))
  {
    hide SessionOk, InLines;
    var g' := Put(g, s, x).(count := count);
    OneReason(x);
    FlaggedPut(g, s, x);
    BookkeepingPut(g, s, x);
    assert Flagged(g') == Flagged(Put(g, s, x)) && InBookkeeping(g') == InBookkeeping(Put(g, s, x));
    SumOfSizes(Flagged(g), InBookkeeping(g), s, x.flag, InLines(x));
    hide Flagged, InBookkeeping, With;
  }

  /** A known session's move changes the count by what it changes the releases. */
  lemma MovedOn(g: Gate, s: Sid, x: Session)
    requires Inv(g) && s in g.sessions && SessionOk(x)
    requires g.sessions[s].phase.Refused? == x.phase.Refused? && g.sessions[s].releases <= x.releases
    ensures Inv(Put(g, s, x).(count := g.count - (x.releases - g.sessions[s].releases)))
  {
    hide SessionOk, InLines;
    OneReason(x);
    OneReason(g.sessions[s]);
    Weight(g, s);
    Moved(g, s, x, g.count - (x.releases - g.sessions[s].releases));
  }

  lemma Weight(g: Gate, s: Sid)
    requires s in g.sessions
    ensures s in Flagged(g) + InBookkeeping(g) <==> g.sessions[s].flag || InLines(g.sessions[s])
  {
  }

  lemma InitKeeps(g: Gate, s: Sid)
    requires Inv(g) && s !in g.sessions
    ensures Inv(Apply(g, Init(s)))
  {
    Unknown(g, s);
    if g.accepting {
      Moved(g, s, Blank(Counted), g.count + 1);
    } else {
      Moved(g, s, Blank(Refused), g.count);
    }
  }

  lemma Unknown(g: Gate, s: Sid)
    requires s !in g.sessions
    ensures s !in Flagged(g) + InBookkeeping(g)
  {
  }

  lemma StartKeeps(g: Gate, step: Step)
    requires Inv(g) && Enabled(g, step) && (step.SetFlag? || step.Fail? || step.Succeed?)
    ensures Inv(Apply(g, step))
  {
    assert SessionOk(g.sessions[step.s]);
    MovedOn(g, step.s, Apply(g, step).sessions[step.s]);
    hide SessionOk, InLines;
  }

  lemma OwnerKeeps(g: Gate, s: Sid)
    requires Inv(g) && Enabled(g, Own(s))
    ensures Inv(Apply(g, Own(s)))
  {
    assert SessionOk(g.sessions[s]);
    OwnKeeps(g.sessions[s]);
    MovedOn(g, s, OwnStep(g.sessions[s]));
    hide SessionOk, InLines;
  }

  lemma BegunOk(x: Session, t: Tid)
    requires StopsOk(x) && t !in x.stops
    ensures StopsOk(x.(stops := x.stops[t := Want]))
  {
    if !x.flag {
      var u :| u in x.stops && Entitled(x.stops[u]);
      assert Entitled(x.stops[t := Want][u]);
    }
  }

  lemma BeginKeeps(g: Gate, s: Sid, t: Tid)
    requires Inv(g) && Enabled(g, Begin(s, t))
    ensures Inv(Apply(g, Begin(s, t)))
  {
    assert SessionOk(g.sessions[s]);
    BegunOk(g.sessions[s], t);
    MovedOn(g, s, g.sessions[s].(stops := g.sessions[s].stops[t := Want]));
    hide SessionOk, InLines;
  }

  lemma GoKeeps(g: Gate, s: Sid, t: Tid, lost: bool)
    requires Inv(g) && Enabled(g, Go(s, t, lost))
    ensures Inv(Apply(g, Go(s, t, lost)))
  {
    assert SessionOk(g.sessions[s]) && g.sessions[s].phase.Attached?;
    StopKeeps(g.sessions[s], t, lost);
    MovedOn(g, s, StopStep(g.sessions[s], t, lost));
    hide SessionOk, InLines;
  }

  lemma ShutdownKeeps(g: Gate)
    requires Inv(g)
    ensures Inv(g.(accepting := false))
  {
    assert Flagged(g.(accepting := false)) == Flagged(g);
    assert InBookkeeping(g.(accepting := false)) == InBookkeeping(g);
  }

  lemma StepKeeps(g: Gate, step: Step)
    requires Inv(g) && Enabled(g, step)
    ensures Inv(Apply(g, step))
  {
    hide Inv;
    match step {
      case Init(s) => InitKeeps(g, s);
      case SetFlag(_) => StartKeeps(g, step);
      case Fail(_, _) => StartKeeps(g, step);
      case Succeed(_, _) => StartKeeps(g, step);
      case Own(s) => OwnerKeeps(g, s);
      case Begin(s, t) => BeginKeeps(g, s, t);
      case Go(s, t, lost) => GoKeeps(g, s, t, lost);
      case ShutdownBegin => ShutdownKeeps(g);
    }
  }

  lemma {:induction false} RunKeeps(g: Gate, run: seq<Step>)
    requires Inv(g) && ValidRun(g, run)
    ensures Inv(Exec(g, run))
    decreases |run|
  {
    if run != [] {
      StepKeeps(g, run[0]);
      RunKeeps(Apply(g, run[0]), run[1..]);
    }
  }

  lemma StartInv()
    ensures Inv(CLOSED_START)
  {
    assert Flagged(CLOSED_START) == {} && InBookkeeping(CLOSED_START) == {};
  }

  // ---------------------------------------------------------------- main results

  /** In every reachable state the count is the number of sessions with gate_counted set,
      give or take those inside the bookkeeping lines, and never negative. */
  lemma CountExact(run: seq<Step>)
    requires ValidRun(CLOSED_START, run)
    ensures var g := Exec(CLOSED_START, run);
      g.count >= 0 && g.count == |Flagged(g)| + |InBookkeeping(g)|
      && (InBookkeeping(g) == {} ==> g.count == |Flagged(g)|)
  {
    StartInv();
    RunKeeps(CLOSED_START, run);
  }

  /** Some release path has run to its end: the failure exit or the cleanup of the thread that
      is alone, or a stop or CLOSE that got into killcb. */
  predicate Finished(x: Session) {
    x.own == Out(true) || exists t :: t in x.stops && x.stops[t] == Out(true)
  }

  /** The count of a session is released at most once over any interleaving of failure exits,
      `done:`, cleanup, stops and CLOSEs; a path that has run to its end has released it, or
      found it released; and until then exactly one of these holds: it is still counted
      without a flag, it is flagged, some thread is about to decrement, it is released. */
  lemma ReleasedOnce(run: seq<Step>, s: Sid)
    requires ValidRun(CLOSED_START, run) && s in Exec(CLOSED_START, run).sessions
    ensures var x := Exec(CLOSED_START, run).sessions[s];
      && x.releases <= 1
      && (Finished(x) ==> x.releases == 1)
      && (x.phase.Refused? ==> x.releases == 0)
      && (!x.phase.Refused? ==> (x.releases == 0 <==> x.flag || InLines(x)) && !(x.flag && InLines(x)))
  {
    StartInv();
    RunKeeps(CLOSED_START, run);
    var x := Exec(CLOSED_START, run).sessions[s];
    assert SessionOk(x);
    OneReason(x);
  }

  /** It was refused, or its count is released. */
  predicate Over(x: Session) {
    x.phase.Refused? || x.releases == 1
  }

  predicate Drained(g: Gate) {
    !g.accepting && g.count == 0
  }

  lemma EmptySets(g: Gate)
    requires Inv(g) && g.count == 0
    ensures forall s :: s in g.sessions ==> Over(g.sessions[s])
  {
    assert Flagged(g) == {} && InBookkeeping(g) == {};
    forall s | s in g.sessions ensures Over(g.sessions[s]) {
      assert s !in Flagged(g) && s !in InBookkeeping(g);
      OneReason(g.sessions[s]);
    }
    hide SessionOk;
  }

  lemma DrainedStays(g: Gate, step: Step)
    requires Inv(g) && Drained(g) && Enabled(g, step)
    ensures Drained(Apply(g, step))
  {
    EmptySets(g);
    StepKeeps(g, step);
    if step.Own? || step.Go? {
      OneReason(g.sessions[step.s]);
      NoneDecrements(g.sessions[step.s], step);
    }
  }

  lemma NoneDecrements(x: Session, step: Step)
    requires !Decrementing(x)
    ensures !x.own.Decrement? && forall t :: t in x.stops ==> !x.stops[t].Decrement?
  {
  }

  /** Once shutdown_begin has returned 0 the count stays 0 for ever: no session is alive, and
      no later start is counted. */
  lemma {:induction false} ZeroIsFinal(g: Gate, run: seq<Step>)
    requires Inv(g) && Drained(g) && ValidRun(g, run)
    ensures Drained(Exec(g, run))
    decreases |run|
  {
    if run != [] {
      DrainedStays(g, run[0]);
      StepKeeps(g, run[0]);
      ZeroIsFinal(Apply(g, run[0]), run[1..]);
    }
  }

  /** What the caller of shutdown_begin learns from a zero. */
  lemma ZeroMeansNobody(run: seq<Step>, more: seq<Step>)
    requires ValidRun(CLOSED_START, run + [ShutdownBegin]) && Exec(CLOSED_START, run + [ShutdownBegin]).count == 0
    requires ValidRun(Exec(CLOSED_START, run + [ShutdownBegin]), more)
    ensures var g := Exec(Exec(CLOSED_START, run + [ShutdownBegin]), more);
      g.count == 0 && forall s :: s in g.sessions ==> Over(g.sessions[s])
  {
    StartInv();
    RunKeeps(CLOSED_START, run + [ShutdownBegin]);
    EndsClosed(CLOSED_START, run);
    var g := Exec(CLOSED_START, run + [ShutdownBegin]);
    ZeroIsFinal(g, more);
    RunKeeps(g, more);
    EmptySets(Exec(g, more));
  }

  lemma {:induction false} EndsClosed(g: Gate, run: seq<Step>)
    requires ValidRun(g, run + [ShutdownBegin])
    ensures !Exec(g, run + [ShutdownBegin]).accepting
    decreases |run|
  {
    if run == [] {
      assert (run + [ShutdownBegin])[1..] == [];
    } else {
      assert (run + [ShutdownBegin])[1..] == run[1..] + [ShutdownBegin];
      EndsClosed(Apply(g, run[0]), run[1..]);
    }
  }
}
