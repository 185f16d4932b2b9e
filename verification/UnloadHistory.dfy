/** What a run of the unload gate did, read off the run itself: which sessions were refused,
    which stops came to the release code, and that every release path can be run to its end. */
module UnloadHistory {
  import opened Common
  import opened UnloadGate

  /** What `t` found at its first step, under cb->mutex: whether its slot was lost. */
  function FirstGo(run: seq<Step>, s: Sid, t: Tid): Option<bool> {
    if run == [] then None
    else if run[0].Go? && run[0].s == s && run[0].t == t then Some(run[0].lost)
    else FirstGo(run[1..], s, t)
  }

  /** The session's start came after a shutdown had begun. */
  predicate Late(run: seq<Step>, s: Sid, closed: bool) {
    run != []
    && if run[0] == Init(s) then closed else Late(run[1..], s, closed || run[0].ShutdownBegin?)
  }

  // ---------------------------------------------------------------- stops and CLOSEs

  /** Where `t` stands, given what it found. */
  predicate Stands(at: At, found: Option<bool>) {
    match found
    case None => at.Want?
    case Some(lost) => if lost then at == Leave(false) || at == Out(false) else Entitled(at)
  }

  function Found(at: At): Option<bool> {
    if at.Want? then None else Some(!Entitled(at))
  }

  function Later(found: Option<bool>, run: seq<Step>, s: Sid, t: Tid): Option<bool> {
    if found.Some? then found else FirstGo(run, s, t)
  }

  predicate Known(g: Gate, s: Sid, t: Tid) {
    s in g.sessions && t in g.sessions[s].stops
  }

  lemma StopStands(x: Session, t: Tid, lost: bool, found: Option<bool>)
    requires t in x.stops && !x.stops[t].Out? && Stands(x.stops[t], found)
    ensures Stands(StopStep(x, t, lost).stops[t], if found.Some? then found else Some(lost))
    ensures StopStep(x, t, lost).stops.Keys == x.stops.Keys
    ensures forall u :: u in x.stops && u != t ==> StopStep(x, t, lost).stops[u] == x.stops[u]
  {
  }

  lemma StepStands(g: Gate, step: Step, s: Sid, t: Tid, found: Option<bool>)
    requires Enabled(g, step) && Known(g, s, t) && Stands(g.sessions[s].stops[t], found)
    ensures Known(Apply(g, step), s, t)
    ensures Stands(Apply(g, step).sessions[s].stops[t],
                   if step.Go? && step.s == s && step.t == t && found.None? then Some(step.lost) else found)
  {
    if step.Go? && step.s == s && step.t in g.sessions[s].stops {
      StopStands(g.sessions[s], step.t, step.lost, if step.t == t then found else Found(g.sessions[s].stops[step.t]));
    }
  }

  lemma {:induction false} RunStands(g: Gate, run: seq<Step>, s: Sid, t: Tid, found: Option<bool>)
    requires ValidRun(g, run) && Known(g, s, t) && Stands(g.sessions[s].stops[t], found)
    ensures Known(Exec(g, run), s, t) && Stands(Exec(g, run).sessions[s].stops[t], Later(found, run, s, t))
    decreases |run|
  {
    hide Stands, Apply, Enabled;
    if run != [] {
      StepStands(g, run[0], s, t, found);
      var now := if run[0].Go? && run[0].s == s && run[0].t == t && found.None? then Some(run[0].lost) else found;
      RunStands(Apply(g, run[0]), run[1..], s, t, now);
    }
  }

  /** Only Begin brings a stop or CLOSE to a session. */
  lemma StepBegins(g: Gate, step: Step, s: Sid, t: Tid)
    requires Enabled(g, step) && !Known(g, s, t) && (forall x :: x in g.sessions ==> SessionOk(g.sessions[x]))
    ensures Known(Apply(g, step), s, t) <==> step == Begin(s, t)
    ensures step == Begin(s, t) ==> Apply(g, step).sessions[s].stops[t] == Want
    ensures !(step.Go? && step.s == s && step.t == t)
  {
    hide SessionOk;
  }

  lemma {:induction false} RunBegins(g: Gate, run: seq<Step>, s: Sid, t: Tid)
    requires Inv(g) && ValidRun(g, run) && !Known(g, s, t)
    ensures Known(Exec(g, run), s, t) <==> Begin(s, t) in run
    ensures Known(Exec(g, run), s, t) ==> Stands(Exec(g, run).sessions[s].stops[t], FirstGo(run, s, t))
    decreases |run|
  {
    hide SessionOk, Stands, Apply, Enabled;
    if run != [] {
      assert run == [run[0]] + run[1..];
      StepBegins(g, run[0], s, t);
      StepKeeps(g, run[0]);
      if run[0] == Begin(s, t) {
        BegunStands(Apply(g, run[0]).sessions[s].stops[t]);
        RunStands(Apply(g, run[0]), run[1..], s, t, None);
      } else {
        RunBegins(Apply(g, run[0]), run[1..], s, t);
      }
    }
  }

  lemma BegunStands(at: At)
    requires at.Want?
    ensures Stands(at, None)
  {
  }

  /** A stop or CLOSE is there exactly if one was begun; it ran the release code exactly if it
      found its slot under the mutex, and when it is over, the session's count is released. */
  lemma StopReleases(run: seq<Step>, s: Sid, t: Tid)
    requires ValidRun(CLOSED_START, run)
    ensures var g := Exec(CLOSED_START, run);
      && (Known(g, s, t) <==> Begin(s, t) in run)
      && (Known(g, s, t) && g.sessions[s].stops[t].Out? ==>
            && FirstGo(run, s, t).Some?
            && (g.sessions[s].stops[t].done <==> FirstGo(run, s, t) == Some(false))
            && (FirstGo(run, s, t) == Some(false) ==> g.sessions[s].releases == 1 && !g.sessions[s].flag))
  {
    StartInv();
    RunKeeps(CLOSED_START, run);
    RunBegins(CLOSED_START, run, s, t);
    var g := Exec(CLOSED_START, run);
    if Known(g, s, t) { assert SessionOk(g.sessions[s]); }
  }

  /** A session whose stops and CLOSEs all lost their slot keeps its count and its flag. */
  lemma LostStopsKeepCount(run: seq<Step>, s: Sid)
    requires ValidRun(CLOSED_START, run)
    requires var g := Exec(CLOSED_START, run); s in g.sessions && g.sessions[s].phase.Attached?
    requires forall t :: t in Exec(CLOSED_START, run).sessions[s].stops ==> FirstGo(run, s, t) != Some(false)
    ensures var x := Exec(CLOSED_START, run).sessions[s]; x.flag && x.releases == 0
  {
    StartInv();
    RunKeeps(CLOSED_START, run);
    var g := Exec(CLOSED_START, run);
    var x := g.sessions[s];
    assert SessionOk(x);
    if !x.flag {
      var t :| t in x.stops && Entitled(x.stops[t]);
      RunBegins(CLOSED_START, run, s, t);
      assert Known(g, s, t) && Stands(x.stops[t], FirstGo(run, s, t));
    }
    OneReason(x);
    NotDecrementing(x);
  }

  lemma NotDecrementing(x: Session)
    requires StopsOk(x) && x.flag
    ensures x.releases == 0
  {
  }

  // ---------------------------------------------------------------- starts

  lemma StepDecides(g: Gate, step: Step, s: Sid)
    requires Enabled(g, step) && s in g.sessions
    ensures s in Apply(g, step).sessions
    ensures Apply(g, step).sessions[s].phase ==
      if step == SetFlag(s) then Starting
      else if step == Succeed(s, true) then Attached
      else if step == Succeed(s, false) then Orphaned
      else if step == Fail(s, true) || step == Fail(s, false) then Failing
      else g.sessions[s].phase
    ensures step == SetFlag(s) ==> g.sessions[s].phase.Counted?
    ensures step in {Succeed(s, true), Succeed(s, false), Fail(s, true), Fail(s, false)} ==> g.sessions[s].phase.Starting?
  {
  }

  /** The phases a session goes through, from one it is in. */
  predicate Goes(from: Phase, run: seq<Step>, s: Sid, to: Phase) {
    && (to.Attached? <==> from.Attached? || Succeed(s, true) in run)
    && (to.Orphaned? <==> from.Orphaned? || Succeed(s, false) in run)
    && (to.Failing? <==> from.Failing? || Fail(s, true) in run || Fail(s, false) in run)
    && (to.Refused? <==> from.Refused?)
    && (to.Counted? <==> from.Counted? && SetFlag(s) !in run)
  }

  lemma {:induction false} RunGoes(g: Gate, run: seq<Step>, s: Sid)
    requires ValidRun(g, run) && s in g.sessions
    ensures s in Exec(g, run).sessions && Goes(g.sessions[s].phase, run, s, Exec(g, run).sessions[s].phase)
    decreases |run|
  {
    hide Apply, Enabled;
    if run != [] {
      assert run == [run[0]] + run[1..];
      StepDecides(g, run[0], s);
      RunGoes(Apply(g, run[0]), run[1..], s);
    }
  }

  lemma StepKnows(g: Gate, step: Step, s: Sid)
    requires Enabled(g, step) && s !in g.sessions
    ensures s in Apply(g, step).sessions <==> step == Init(s)
    ensures step == Init(s) ==> Apply(g, step).sessions[s].phase == if g.accepting then Counted else Refused
    ensures Apply(g, step).accepting <==> g.accepting && !step.ShutdownBegin?
    ensures step !in {Succeed(s, true), Succeed(s, false), Fail(s, true), Fail(s, false), SetFlag(s)}
  {
  }

  lemma {:induction false} RunDecides(g: Gate, run: seq<Step>, s: Sid)
    requires ValidRun(g, run) && s !in g.sessions
    ensures s in Exec(g, run).sessions <==> Init(s) in run
    ensures s in Exec(g, run).sessions ==>
      var phase := Exec(g, run).sessions[s].phase;
      (phase.Refused? <==> Late(run, s, !g.accepting)) && Goes(if phase.Refused? then Refused else Counted, run, s, phase)
    decreases |run|
  {
    hide Apply, Enabled;
    if run != [] {
      assert run == [run[0]] + run[1..];
      StepKnows(g, run[0], s);
      if run[0] == Init(s) {
        RunGoes(Apply(g, run[0]), run[1..], s);
      } else {
        RunDecides(Apply(g, run[0]), run[1..], s);
      }
    }
  }

  /** A start is refused if and only if a shutdown had begun before it; any other is counted, and
      its phase is the one the run took it to. */
  lemma StartExact(run: seq<Step>, s: Sid)
    requires ValidRun(CLOSED_START, run)
    ensures var g := Exec(CLOSED_START, run);
      && (s in g.sessions <==> Init(s) in run)
      && (s in g.sessions ==>
            && (g.sessions[s].phase.Refused? <==> Late(run, s, false))
            && (g.sessions[s].phase.Attached? <==> Succeed(s, true) in run)
            && (g.sessions[s].phase.Orphaned? <==> Succeed(s, false) in run)
            && (g.sessions[s].phase.Failing? <==> Fail(s, true) in run || Fail(s, false) in run))
  {
    RunDecides(CLOSED_START, run, s);
  }

  // ---------------------------------------------------------------- how often the flag is looked at

  function One(b: bool): nat {
    if b then 1 else 0
  }

  /** How often the thread that is alone with the session tests gate_counted. */
  function Looks(g: Gate, run: seq<Step>, s: Sid): nat
    requires ValidRun(g, run)
    decreases |run|
  {
    if run == [] then 0 else One(run[0] == Own(s) && g.sessions[s].own.Test?) + Looks(Apply(g, run[0]), run[1..], s)
  }

  /** How often it will have to. */
  function Due(step: Step, s: Sid): nat {
    if step == Fail(s, true) then 2 else One(step == Fail(s, false) || step == Succeed(s, false))
  }

  function LooksDue(run: seq<Step>, s: Sid): nat {
    if run == [] then 0 else Due(run[0], s) + LooksDue(run[1..], s)
  }

  function LooksLeft(g: Gate, s: Sid): nat {
    if s in g.sessions then One(g.sessions[s].own.Test?) + One(g.sessions[s].again) else 0
  }

  predicate LooksOn(g: Gate, step: Step, s: Sid)
    requires Enabled(g, step)
  {
    LooksLeft(Apply(g, step), s) + One(step == Own(s) && s in g.sessions && g.sessions[s].own.Test?)
    == LooksLeft(g, s) + Due(step, s)
  }

  lemma GoLooks(g: Gate, s: Sid, t: Tid, lost: bool, u: Sid)
    requires Enabled(g, Go(s, t, lost))
    ensures LooksOn(g, Go(s, t, lost), u)
  {
  }

  lemma OwnLooks(g: Gate, s: Sid, u: Sid)
    requires Enabled(g, Own(s))
    ensures LooksOn(g, Own(s), u)
  {
  }

  lemma OtherLooks(g: Gate, step: Step, s: Sid)
    requires Inv(g) && Enabled(g, step) && !step.Go? && !step.Own?
    ensures LooksOn(g, step, s)
  {
    if s in g.sessions { assert SessionOk(g.sessions[s]); }
    hide AloneOk, StopsOk;
  }

  lemma StepLooks(g: Gate, step: Step, s: Sid)
    requires Inv(g) && Enabled(g, step)
    ensures LooksOn(g, step, s)
  {
    hide Inv, LooksOn, Enabled, Apply;
    if step.Go? {
      GoLooks(g, step.s, step.t, step.lost, s);
    } else if step.Own? {
      OwnLooks(g, step.s, s);
    } else {
      OtherLooks(g, step, s);
    }
  }

  lemma {:induction false} RunLooks(g: Gate, run: seq<Step>, s: Sid)
    requires Inv(g) && ValidRun(g, run)
    ensures LooksLeft(Exec(g, run), s) + Looks(g, run, s) == LooksLeft(g, s) + LooksDue(run, s)
    decreases |run|
  {
    hide Inv, LooksLeft, Apply;
    if run != [] {
      StepKeeps(g, run[0]);
      StepLooks(g, run[0], s);
      RunLooks(Apply(g, run[0]), run[1..], s);
    }
  }

  /** A failure exit that goes through killcb looks at the flag again in the block at `done:`, any
      other and a cleanup once. */
  lemma LooksExact(run: seq<Step>, s: Sid)
    requires ValidRun(CLOSED_START, run) && s in Exec(CLOSED_START, run).sessions
    requires Exec(CLOSED_START, run).sessions[s].own == Out(true)
    ensures var x := Exec(CLOSED_START, run).sessions[s];
      !x.again && Looks(CLOSED_START, run, s) == LooksDue(run, s)
  {
    StartInv();
    RunKeeps(CLOSED_START, run);
    RunLooks(CLOSED_START, run, s);
    assert SessionOk(Exec(CLOSED_START, run).sessions[s]);
  }

  // ---------------------------------------------------------------- every release path ends

  function AtRank(at: At): nat {
    match at
    case Want => 6
    case Test => 5
    case Clear => 4
    case Decrement => 3
    case Leave(_) => 1
    case Out(_) => 0
  }

  function OwnRank(x: Session): nat {
    AtRank(x.own) + if x.again then 10 else 0
  }

  predicate OwnOnly(run: seq<Step>, s: Sid) {
    forall i :: 0 <= i < |run| ==> run[i] == Own(s)
  }

  predicate StopOnly(run: seq<Step>, s: Sid, t: Tid) {
    forall i :: 0 <= i < |run| ==> run[i] == Go(s, t, false)
  }

  lemma {:induction false} OwnerEnds(g: Gate, s: Sid) returns (run: seq<Step>)
    requires s in g.sessions && AloneOk(g.sessions[s])
    ensures ValidRun(g, run) && OwnOnly(run, s) && s in Exec(g, run).sessions
    ensures var x := Exec(g, run).sessions[s]; x.own == Out(true) && AloneOk(x)
    decreases OwnRank(g.sessions[s])
  {
    var x := g.sessions[s];
    if x.own == Out(true) {
      run := [];
    } else {
      OwnKeeps(x);
      assert Apply(g, Own(s)).sessions[s] == OwnStep(x);
      var rest := OwnerEnds(Apply(g, Own(s)), s);
      run := [Own(s)] + rest;
      assert run[1..] == rest;
    }
  }

  /** A failure exit or a cleanup can always go on, alone, to where the count is released. */
  lemma AloneReleases(run: seq<Step>, s: Sid)
    requires ValidRun(CLOSED_START, run)
    requires var g := Exec(CLOSED_START, run);
      s in g.sessions && (g.sessions[s].phase.Failing? || g.sessions[s].phase.Orphaned?)
    ensures var g := Exec(CLOSED_START, run);
      exists more :: ValidRun(g, more) && OwnOnly(more, s) && s in Exec(g, more).sessions
                     && Exec(g, more).sessions[s].releases == 1 && Exec(g, more).sessions[s].own == Out(true)
  {
    StartInv();
    RunKeeps(CLOSED_START, run);
    var g := Exec(CLOSED_START, run);
    assert SessionOk(g.sessions[s]);
    var more := OwnerEnds(g, s);
  }

  lemma {:induction false} StopEnds(g: Gate, s: Sid, t: Tid) returns (run: seq<Step>)
    requires Known(g, s, t) && StopsOk(g.sessions[s])
    requires var x := g.sessions[s]; x.stops[t].Out? || x.lock == Some(t) || (x.lock.None? && x.stops[t].Want?)
    ensures ValidRun(g, run) && StopOnly(run, s, t) && Known(Exec(g, run), s, t)
    ensures var x := Exec(g, run).sessions[s]; x.stops[t].Out? && StopsOk(x)
    ensures var x := g.sessions[s]; !x.stops[t].Out? ==> Exec(g, run).sessions[s].lock.None?
    decreases AtRank(g.sessions[s].stops[t])
  {
    var x := g.sessions[s];
    if x.stops[t].Out? {
      run := [];
    } else {
      StopKeeps(x, t, false);
      assert Apply(g, Go(s, t, false)).sessions[s] == StopStep(x, t, false);
      var rest := StopEnds(Apply(g, Go(s, t, false)), s, t);
      run := [Go(s, t, false)] + rest;
      assert run[1..] == rest;
    }
  }

  /** A stop or CLOSE that has the mutex, or finds it free, can always go on, alone, to its end,
      and gives the mutex back. */
  lemma StopAlwaysEnds(run: seq<Step>, s: Sid, t: Tid)
    requires ValidRun(CLOSED_START, run)
    requires var g := Exec(CLOSED_START, run); Known(g, s, t) && g.sessions[s].phase.Attached?
    requires var x := Exec(CLOSED_START, run).sessions[s]; x.lock == Some(t) || (x.lock.None? && x.stops[t].Want?)
    ensures var g := Exec(CLOSED_START, run);
      exists more :: ValidRun(g, more) && StopOnly(more, s, t) && Known(Exec(g, more), s, t)
                     && Exec(g, more).sessions[s].stops[t].Out? && Exec(g, more).sessions[s].lock.None?
  {
    StartInv();
    RunKeeps(CLOSED_START, run);
    var g := Exec(CLOSED_START, run);
    assert SessionOk(g.sessions[s]);
    var more := StopEnds(g, s, t);
  }
}
