/** Teardown in mod_azure_transcribe: starts that overwrite one another's channel slot, stops
    by name, each bug's own CLOSE, and media frames, over any number of bugs. A step is one
    access to the channel's slot, to cb->mutex or to cb->streamer. */
module AzureTeardown {
  import opened Common

  type Bug = nat
  type Tid = nat

  /** One cap_cb: its mutex, whether cb->streamer is set, how often its recognizer was handed
      to a reaper, how often killcb deleted it in place, and how many CLOSE callbacks have run
      to their end. */
  datatype Cb = Cb(lock: Option<Tid>, present: bool, reaped: nat, deleted: nat, closes: nat)

  /** A stop by name or a CLOSE; `b` is the bug it works on. */
  datatype At =
    | Want(b: Bug, byName: bool)
    | Check(b: Bug)                   // stop, under b's mutex: does the slot still name b?
    | Forget(b: Bug)                  // stop: the slot is cleared
    | Load(b: Bug, byName: bool)      // is cb->streamer set?
    | Take(b: Bug, byName: bool)      // reaper(): the pointer goes to the reaper's thread
    | Clear(b: Bug, byName: bool)     // reaper(): cb->streamer = nullptr
    | Reread(b: Bug, byName: bool)    // killcb: is cb->streamer set?
    | Delete(b: Bug, byName: bool)    // killcb: finish, delete, clear
    | Unlock(b: Bug, byName: bool)
    | Lost(b: Bug)                    // stop: another one won, only the mutex is given back
    | Frame(b: Bug)                   // media thread inside the trylock, streamer loaded
    | Out

  datatype Sys = Sys(slot: Option<Bug>, cbs: map<Bug, Cb>, threads: map<Tid, At>)

  const EMPTY := Sys(None, map[], map[])

  datatype Step =
    | Start(b: Bug)             // session_init: a recognizer in a new cap_cb
    | Store(b: Bug)             // switch_channel_set_private(channel, bugname, bug)
    | StopByName(t: Tid)        // reads the slot
    | Close(t: Tid, b: Bug)
    | MediaFrame(t: Tid, b: Bug)
    | Go(t: Tid)

  predicate Enabled(s: Sys, step: Step) {
    match step
    case Start(b) => b !in s.cbs
    case Store(b) => b in s.cbs
    case StopByName(t) => t !in s.threads && (s.slot.Some? ==> s.slot.value in s.cbs)
    case Close(t, b) => t !in s.threads && b in s.cbs
    case MediaFrame(t, b) => t !in s.threads && b in s.cbs
    case Go(t) => t in s.threads && GoReady(s, s.threads[t])
  }

  predicate GoReady(s: Sys, at: At) {
    !at.Out? && at.b in s.cbs && (at.Want? ==> s.cbs[at.b].lock.None?)
  }

  function Move(s: Sys, t: Tid, at: At): Sys {
    s.(threads := s.threads[t := at])
  }

  function PutCb(s: Sys, b: Bug, c: Cb): Sys {
    s.(cbs := s.cbs[b := c])
  }

  function Advance(s: Sys, t: Tid): Sys
    requires t in s.threads && GoReady(s, s.threads[t])
  {
    var at := s.threads[t];
    var c := s.cbs[at.b];
    match at
    case Want(b, byName) => PutCb(Move(s, t, if byName then Check(b) else Load(b, false)), b, c.(lock := Some(t)))
    case Check(b) => Move(s, t, if s.slot == Some(b) then Forget(b) else Lost(b))
    case Forget(b) => Move(s, t, Load(b, true)).(slot := None)
    case Load(b, byName) => Move(s, t, if c.present then Take(b, byName) else Reread(b, byName))
    case Take(b, byName) => PutCb(Move(s, t, Clear(b, byName)), b, c.(reaped := c.reaped + 1))
    case Clear(b, byName) => PutCb(Move(s, t, Reread(b, byName)), b, c.(present := false))
    case Reread(b, byName) => Move(s, t, if c.present then Delete(b, byName) else Unlock(b, byName))
    case Delete(b, byName) => PutCb(Move(s, t, Unlock(b, byName)), b, c.(present := false, deleted := c.deleted + 1))
    case Unlock(b, byName) =>
      PutCb(Move(s, t, Out), b, c.(lock := None, closes := c.closes + if byName then 0 else 1))
    case Lost(b) => PutCb(Move(s, t, Out), b, c.(lock := None))
    case Frame(b) => PutCb(Move(s, t, Out), b, c.(lock := None))
    case Out => s
  }

  function Apply(s: Sys, step: Step): Sys
    requires Enabled(s, step)
  {
    match step
    case Start(b) => PutCb(s, b, Cb(None, true, 0, 0, 0))
    case Store(b) => s.(slot := Some(b))
    case StopByName(t) => if s.slot.Some? then Move(s, t, Want(s.slot.value, true)) else Move(s, t, Out)
    case Close(t, b) => Move(s, t, Want(b, false))
    case MediaFrame(t, b) =>
      if s.cbs[b].lock.None? && s.cbs[b].present
      then PutCb(Move(s, t, Frame(b)), b, s.cbs[b].(lock := Some(t)))
      else Move(s, t, Out)
    case Go(t) => Advance(s, t)
  }

  predicate ValidRun(s: Sys, run: seq<Step>)
    decreases |run|
  {
    run == [] || (Enabled(s, run[0]) && ValidRun(Apply(s, run[0]), run[1..]))
  }

  function Exec(s: Sys, run: seq<Step>): Sys
    requires ValidRun(s, run)
    decreases |run|
  {
    if run == [] then s else Exec(Apply(s, run[0]), run[1..])
  }

  // ---------------------------------------------------------------- the invariant

  /** The thread is between the lock and the unlock of b's mutex. */
  predicate Holds(at: At, b: Bug) {
    !at.Want? && !at.Out? && at.b == b
  }

  /** Nobody is inside a hand-over. */
  predicate Settled(c: Cb) {
    c.deleted == 0 && c.reaped == (if c.present then 0 else 1) && (c.closes > 0 ==> !c.present)
  }

  /** What b's cap_cb looks like to the thread that holds its mutex. */
  predicate HolderOk(c: Cb, at: At) {
    match at
    case Take(_, _) => Settled(c) && c.present
    case Clear(_, _) => c.present && c.reaped == 1 && c.deleted == 0 && c.closes == 0
    case Reread(_, _) => Settled(c) && !c.present
    case Delete(_, _) => false
    case Unlock(_, _) => Settled(c) && !c.present
    case Frame(_) => Settled(c) && c.present
    case _ => Settled(c)
  }

  ghost predicate Inv(s: Sys) {
    && (s.slot.Some? ==> s.slot.value in s.cbs)
    && (forall t :: t in s.threads && !s.threads[t].Out? ==> s.threads[t].b in s.cbs)
    && (forall t :: t in s.threads && !s.threads[t].Out? && Holds(s.threads[t], s.threads[t].b) ==>
          s.cbs[s.threads[t].b].lock == Some(t) && HolderOk(s.cbs[s.threads[t].b], s.threads[t]))
    && (forall b :: b in s.cbs ==> (s.cbs[b].lock.None? ==> Settled(s.cbs[b])))
    && (forall b :: b in s.cbs && s.cbs[b].lock.Some? ==>
          s.cbs[b].lock.value in s.threads && Holds(s.threads[s.cbs[b].lock.value], b))
  }

  lemma EntryKeeps(s: Sys, step: Step)
    requires Inv(s) && Enabled(s, step) && !step.Go? && !step.MediaFrame?
    ensures Inv(Apply(s, step))
  {
  }

  lemma FrameKeeps(s: Sys, t: Tid, b: Bug)
    requires Inv(s) && Enabled(s, MediaFrame(t, b))
    ensures Inv(Apply(s, MediaFrame(t, b)))
  {
  }

  lemma OneHolder(s: Sys, t: Tid, u: Tid, b: Bug)
    requires Inv(s) && t in s.threads && u in s.threads && !s.threads[t].Out? && !s.threads[u].Out?
    requires Holds(s.threads[t], b) && Holds(s.threads[u], b)
    ensures t == u
  {
    assert s.cbs[b].lock == Some(t);
  }

  /** The holder of b's mutex moves to another point inside it, or gives it back. */
  lemma HolderMoves(s: Sys, t: Tid, at: At, c: Cb, slot: Option<Bug>)
    requires Inv(s) && t in s.threads && !s.threads[t].Out? && Holds(s.threads[t], s.threads[t].b)
    requires slot == s.slot || slot == None
    requires var b := s.threads[t].b;
      (Holds(at, b) && !at.Out? && c.lock == Some(t) && HolderOk(c, at)) || (at.Out? && c.lock.None? && Settled(c))
    ensures Inv(PutCb(Move(s, t, at), s.threads[t].b, c).(slot := slot))
  {
    var b := s.threads[t].b;
    var s' := PutCb(Move(s, t, at), b, c).(slot := slot);
    hide Settled, HolderOk;
    forall u | u in s'.threads && !s'.threads[u].Out? && Holds(s'.threads[u], s'.threads[u].b)
      ensures s'.cbs[s'.threads[u].b].lock == Some(u) && HolderOk(s'.cbs[s'.threads[u].b], s'.threads[u])
    {
      if u != t && s.threads[u].b == b {
        OneHolder(s, t, u, b);
      }
    }
  }

  lemma TakeKeeps(s: Sys, t: Tid)
    requires Inv(s) && Enabled(s, Go(t)) && s.threads[t].Want?
    ensures Inv(Advance(s, t))
  {
  }

  lemma InsideKeeps(s: Sys, t: Tid)
    requires Inv(s) && Enabled(s, Go(t)) && !s.threads[t].Want?
    ensures Inv(Advance(s, t))
  {
    var at := s.threads[t];
    var c := s.cbs[at.b];
    var s' := Advance(s, t);
    assert Holds(at, at.b) && c.lock == Some(t) && HolderOk(c, at);
    assert s' == PutCb(Move(s, t, s'.threads[t]), at.b, s'.cbs[at.b]).(slot := s'.slot);
    InsideStep(s, t);
    hide Inv, Advance;
    HolderMoves(s, t, s'.threads[t], s'.cbs[at.b], s'.slot);
  }

  /** What the holder's own step does to it and to its cap_cb: here the mutex, through
      HolderOk, is what rules out a second hand-over and the deletion in killcb. */
  lemma InsideStep(s: Sys, t: Tid)
    requires Enabled(s, Go(t)) && !s.threads[t].Want?
    requires s.cbs[s.threads[t].b].lock == Some(t) && HolderOk(s.cbs[s.threads[t].b], s.threads[t])
    ensures var s' := Advance(s, t); var b := s.threads[t].b;
      && (s'.slot == s.slot || s'.slot == None)
      && ((Holds(s'.threads[t], b) && !s'.threads[t].Out? && s'.cbs[b].lock == Some(t) && HolderOk(s'.cbs[b], s'.threads[t]))
          || (s'.threads[t].Out? && s'.cbs[b].lock.None? && Settled(s'.cbs[b])))
  {
  }

  lemma StepKeeps(s: Sys, step: Step)
    requires Inv(s) && Enabled(s, step)
    ensures Inv(Apply(s, step))
  {
    hide Inv, Advance;
    if step.Go? {
      if s.threads[step.t].Want? { TakeKeeps(s, step.t); } else { InsideKeeps(s, step.t); }
    } else if step.MediaFrame? {
      FrameKeeps(s, step.t, step.b);
    } else {
      EntryKeeps(s, step);
    }
  }

  lemma {:induction false} RunKeeps(s: Sys, run: seq<Step>)
    requires Inv(s) && ValidRun(s, run)
    ensures Inv(Exec(s, run))
    decreases |run|
  {
    hide Inv;
    if run != [] {
      StepKeeps(s, run[0]);
      RunKeeps(Apply(s, run[0]), run[1..]);
    }
  }

  // ---------------------------------------------------------------- main results

  /** In every state a cap_cb is settled, or its mutex is held by the thread between the
      hand-over and the clearing of cb->streamer. */
  lemma CbStates(s: Sys, b: Bug)
    requires Inv(s) && b in s.cbs
    ensures Settled(s.cbs[b]) || (s.cbs[b].present && s.cbs[b].reaped == 1 && s.cbs[b].deleted == 0 && s.cbs[b].closes == 0
      && s.cbs[b].lock.Some? && s.cbs[b].lock.value in s.threads && s.threads[s.cbs[b].lock.value].Clear?)
  {
    var c := s.cbs[b];
    if c.lock.Some? {
      assert HolderOk(c, s.threads[c.lock.value]);
    }
  }

  /** However stops, closes, frames and overwritten slots interleave, a recognizer is handed to
      a reaper at most once and never deleted under the reaper's hands by killcb; once its
      bug's CLOSE has completed it was handed over exactly once; and while nobody holds the
      mutex, it was handed over if and only if cb->streamer is null. */
  lemma ReapedExactlyOnce(run: seq<Step>, b: Bug)
    requires ValidRun(EMPTY, run) && b in Exec(EMPTY, run).cbs
    ensures var c := Exec(EMPTY, run).cbs[b];
      && c.reaped <= 1 && c.deleted == 0
      && (c.lock.None? ==> (c.reaped == 1 <==> !c.present))
      && (c.closes > 0 ==> c.reaped == 1 && !c.present)
  {
    RunKeeps(EMPTY, run);
    CbStates(Exec(EMPTY, run), b);
  }

  /** A frame works on a recognizer only while it is in place: never after it was handed over,
      and nobody else is inside its mutex. */
  lemma FrameTouchesLive(run: seq<Step>, t: Tid, u: Tid)
    requires ValidRun(EMPTY, run)
    requires var s := Exec(EMPTY, run); t in s.threads && s.threads[t].Frame? && u in s.threads && u != t
    ensures var s := Exec(EMPTY, run); var b := s.threads[t].b;
      b in s.cbs && s.cbs[b].present && s.cbs[b].reaped == 0 && (s.threads[u].Out? || !Holds(s.threads[u], b))
  {
    RunKeeps(EMPTY, run);
    var s := Exec(EMPTY, run);
    assert HolderOk(s.cbs[s.threads[t].b], s.threads[t]);
  }

  /** Handed over once is handed over for good: no later step of any thread hands it over
      again, and none deletes it or sets cb->streamer again. */
  lemma {:induction false} ReapedForGood(s: Sys, run: seq<Step>, b: Bug)
    requires Inv(s) && ValidRun(s, run) && b in s.cbs && s.cbs[b].reaped == 1
    ensures b in Exec(s, run).cbs && Exec(s, run).cbs[b].reaped == 1 && Exec(s, run).cbs[b].deleted == 0
    ensures !s.cbs[b].present ==> !Exec(s, run).cbs[b].present
    decreases |run|
  {
    hide Inv, Apply, Enabled;
    if run != [] {
      StepKeeps(s, run[0]);
      StaysReaped(s, run[0], b);
      ReapedForGood(Apply(s, run[0]), run[1..], b);
    } else {
      CbStates(s, b);
    }
  }

  lemma StaysReaped(s: Sys, step: Step, b: Bug)
    requires Inv(s) && Enabled(s, step) && b in s.cbs && s.cbs[b].reaped == 1
    ensures b in Apply(s, step).cbs && Apply(s, step).cbs[b].reaped == 1
    ensures !s.cbs[b].present ==> !Apply(s, step).cbs[b].present
  {
    if step.Go? && !s.threads[step.t].Want? {
      assert HolderOk(s.cbs[s.threads[step.t].b], s.threads[step.t]);
    }
  }

  // ---------------------------------------------------------------- exactly what a stop by name reaps

  /** In some step of the run `t` hands b's recognizer to a reaper. */
  predicate Reaps(s: Sys, run: seq<Step>, t: Tid, b: Bug)
    requires ValidRun(s, run)
    decreases |run|
  {
    run != [] && ((run[0] == Go(t) && s.threads[t] == Take(b, true)) || Reaps(Apply(s, run[0]), run[1..], t, b))
  }

  /** In some step of the run `t`, a stop by name, reads b from the slot. */
  predicate ReadsSlot(s: Sys, run: seq<Step>, t: Tid, b: Bug)
    requires ValidRun(s, run)
    decreases |run|
  {
    run != [] && ((run[0] == StopByName(t) && s.slot == Some(b)) || ReadsSlot(Apply(s, run[0]), run[1..], t, b))
  }

  /** In some step of the run `t`, holding b's mutex, finds that the slot still names b while
      b's recognizer is in place. */
  predicate FindsAgain(s: Sys, run: seq<Step>, t: Tid, b: Bug)
    requires ValidRun(s, run)
    decreases |run|
  {
    run != [] && (FoundBy(s, run[0], t, b) || FindsAgain(Apply(s, run[0]), run[1..], t, b))
  }

  predicate FoundBy(s: Sys, step: Step, t: Tid, b: Bug)
    requires Enabled(s, step)
  {
    step == Go(t) && s.threads[t] == Check(b) && s.slot == Some(b) && s.cbs[b].present
  }

  /** `t` has found b again and has not handed it over yet. */
  predicate Bound(s: Sys, t: Tid, b: Bug) {
    t in s.threads && b in s.cbs
    && (s.threads[t] == Take(b, true) || (s.cbs[b].present && (s.threads[t] == Forget(b) || s.threads[t] == Load(b, true))))
  }

  /** `t` is a stop by name on its way to b's mutex. */
  predicate Heading(s: Sys, t: Tid, b: Bug) {
    t in s.threads && (s.threads[t] == Want(b, true) || s.threads[t] == Check(b))
  }

  lemma BoundStep(s: Sys, step: Step, t: Tid, b: Bug)
    requires Inv(s) && Enabled(s, step) && !(step == Go(t) && s.threads[t] == Take(b, true))
    ensures Bound(Apply(s, step), t, b) <==> Bound(s, t, b) || FoundBy(s, step, t, b)
  {
    if step == Go(t) {
      BoundOwn(s, t, b);
    } else {
      BoundOther(s, step, t, b);
    }
  }

  lemma BoundOwn(s: Sys, t: Tid, b: Bug)
    requires Inv(s) && Enabled(s, Go(t)) && s.threads[t] != Take(b, true)
    ensures Bound(Advance(s, t), t, b) <==> Bound(s, t, b) || FoundBy(s, Go(t), t, b)
  {
  }

  /** While `t` is bound nobody else can take b's recognizer: `t` holds its mutex. */
  lemma BoundOther(s: Sys, step: Step, t: Tid, b: Bug)
    requires Inv(s) && Enabled(s, step) && step != Go(t)
    ensures Bound(Apply(s, step), t, b) <==> Bound(s, t, b)
  {
    if step.Go? {
      BoundBeside(s, step.t, t, b);
    }
  }

  lemma BoundBeside(s: Sys, u: Tid, t: Tid, b: Bug)
    requires Inv(s) && Enabled(s, Go(u)) && u != t
    ensures Bound(Advance(s, u), t, b) <==> Bound(s, t, b)
  {
    hide Settled, HolderOk;
    if t in s.threads && !s.threads[t].Out? && Holds(s.threads[t], b) && Holds(s.threads[u], b) {
      OneHolder(s, t, u, b);
    }
  }

  lemma {:induction false} ReapsIff(s: Sys, run: seq<Step>, t: Tid, b: Bug)
    requires Inv(s) && ValidRun(s, run)
    requires t in Exec(s, run).threads ==> Exec(s, run).threads[t].Out?
    ensures Reaps(s, run, t, b) <==> Bound(s, t, b) || FindsAgain(s, run, t, b)
    decreases |run|
  {
    hide Inv, Apply, Enabled, FoundBy;
    if run == [] {
    } else if run[0] == Go(t) && t in s.threads && s.threads[t] == Take(b, true) {
      TakesOnItsWay(s, t, b);
    } else {
      StepKeeps(s, run[0]);
      GoKnows(s, run[0]);
      BoundStep(s, run[0], t, b);
      ReapsIff(Apply(s, run[0]), run[1..], t, b);
    }
  }

  lemma GoKnows(s: Sys, step: Step)
    requires Enabled(s, step)
    ensures step.Go? ==> step.t in s.threads
  {
  }

  lemma TakesOnItsWay(s: Sys, t: Tid, b: Bug)
    requires Inv(s) && t in s.threads && s.threads[t] == Take(b, true)
    ensures Bound(s, t, b)
  {
  }

  /** Only a stop that read b from the slot ever checks for b. */
  lemma {:induction false} FoundWasRead(s: Sys, run: seq<Step>, t: Tid, b: Bug)
    requires ValidRun(s, run) && FindsAgain(s, run, t, b)
    ensures Heading(s, t, b) || ReadsSlot(s, run, t, b)
    decreases |run|
  {
    hide Apply, Enabled, FoundBy;
    if FoundBy(s, run[0], t, b) {
      FoundHeads(s, run[0], t, b);
    } else {
      FoundWasRead(Apply(s, run[0]), run[1..], t, b);
      if Heading(Apply(s, run[0]), t, b) { HeadingStep(s, run[0], t, b); }
    }
  }

  lemma FoundHeads(s: Sys, step: Step, t: Tid, b: Bug)
    requires Enabled(s, step) && FoundBy(s, step, t, b)
    ensures Heading(s, t, b)
  {
  }

  lemma HeadingStep(s: Sys, step: Step, t: Tid, b: Bug)
    requires Enabled(s, step) && Heading(Apply(s, step), t, b)
    ensures Heading(s, t, b) || (step == StopByName(t) && s.slot == Some(b))
  {
  }

  /** Over any run: a stop by name that has returned handed b's recognizer to a reaper if and
      only if it read b from the slot, and found the slot still naming b, with the recognizer
      still in place, when it held b's mutex. The second implies the first. */
  lemma StopReapsExactly(run: seq<Step>, t: Tid, b: Bug)
    requires ValidRun(EMPTY, run) && t in Exec(EMPTY, run).threads && Exec(EMPTY, run).threads[t].Out?
    ensures Reaps(EMPTY, run, t, b) <==> ReadsSlot(EMPTY, run, t, b) && FindsAgain(EMPTY, run, t, b)
  {
    ReapsIff(EMPTY, run, t, b);
    if FindsAgain(EMPTY, run, t, b) {
      FoundWasRead(EMPTY, run, t, b);
    }
  }

  /** In no step of the run does `t` change another bug's cap_cb than b's. */
  ghost predicate Spares(s: Sys, run: seq<Step>, t: Tid, b: Bug)
    requires ValidRun(s, run)
    decreases |run|
  {
    run == [] || (
      && (run[0] == Go(t) ==> forall x :: x in s.cbs && x != b ==> Unchanged(s, run[0], x))
      && Spares(Apply(s, run[0]), run[1..], t, b))
  }

  predicate Unchanged(s: Sys, step: Step, x: Bug)
    requires Enabled(s, step) && x in s.cbs
  {
    x in Apply(s, step).cbs && Apply(s, step).cbs[x] == s.cbs[x]
  }

  predicate WorksOn(s: Sys, t: Tid, b: Bug) {
    t in s.threads && (s.threads[t].Out? || s.threads[t].b == b)
  }

  lemma SparesStep(s: Sys, step: Step, t: Tid, b: Bug)
    requires Enabled(s, step) && WorksOn(s, t, b)
    ensures WorksOn(Apply(s, step), t, b)
    ensures step == Go(t) ==> forall x :: x in s.cbs && x != b ==> Unchanged(s, step, x)
  {
  }

  lemma {:induction false} SparesOthers(s: Sys, run: seq<Step>, t: Tid, b: Bug)
    requires ValidRun(s, run) && WorksOn(s, t, b)
    ensures Spares(s, run, t, b)
    decreases |run|
  {
    hide Enabled, Apply, Unchanged, WorksOn;
    if run != [] {
      SparesStep(s, run[0], t, b);
      SparesOthers(Apply(s, run[0]), run[1..], t, b);
    }
  }

  /** Over any run after it has begun on b, a stop by name or a CLOSE changes no other bug's
      state: the first of two starts on one slot is left to its own CLOSE. */
  lemma StopLeavesOthers(s: Sys, begin: Step, run: seq<Step>, b: Bug)
    requires Enabled(s, begin) && ((begin.Close? && begin.b == b) || (begin.StopByName? && s.slot == Some(b)))
    requires ValidRun(Apply(s, begin), run)
    ensures Spares(Apply(s, begin), run, begin.t, b)
  {
    SparesOthers(Apply(s, begin), run, begin.t, b);
  }

  // ---------------------------------------------------------------- why CLOSE does not go by name

  predicate Missed(s: Sys) {
    0 in s.cbs && 1 in s.cbs && s.cbs[0].present && s.cbs[0].reaped == 0 && s.cbs[1].reaped == 1 && s.slot.None?
  }

  lemma {:induction false} TeardownRunExtends(s: Sys, run: seq<Step>, step: Step)
    requires ValidRun(s, run) && Enabled(Exec(s, run), step)
    ensures ValidRun(s, run + [step]) && Exec(s, run + [step]) == Apply(Exec(s, run), step)
    decreases |run|
  {
    hide Apply, Enabled;
    if run == [] {
      assert (run + [step])[0] == step && (run + [step])[1..] == [];
    } else {
      assert (run + [step])[0] == run[0] && (run + [step])[1..] == run[1..] + [step];
      TeardownRunExtends(Apply(s, run[0]), run[1..], step);
    }
  }

  lemma On(run: seq<Step>, step: Step, t: Sys) returns (longer: seq<Step>)
    requires ValidRun(EMPTY, run) && Enabled(Exec(EMPTY, run), step) && Apply(Exec(EMPTY, run), step) == t
    ensures ValidRun(EMPTY, longer) && Exec(EMPTY, longer) == t
  {
    TeardownRunExtends(EMPTY, run, step);
    longer := run + [step];
  }

  const PLACED := Cb(None, true, 0, 0, 0)
  const TAKEN := Cb(Some(9), true, 0, 0, 0)

  /** Bug 0 is in place, bug 1 as given, and thread 9 stops by name. */
  function Pair(slot: Option<Bug>, c: Cb, at: At): Sys {
    Sys(slot, map[0 := PLACED, 1 := c], map[9 := at])
  }

  lemma Overwrites() returns (run: seq<Step>)
    ensures ValidRun(EMPTY, run) && Exec(EMPTY, run) == Sys(Some(1), map[0 := PLACED, 1 := PLACED], map[])
  {
    run := On([], Start(0), Sys(None, map[0 := PLACED], map[]));
    run := On(run, Store(0), Sys(Some(0), map[0 := PLACED], map[]));
    run := On(run, Start(1), Sys(Some(0), map[0 := PLACED, 1 := PLACED], map[]));
    run := On(run, Store(1), Sys(Some(1), map[0 := PLACED, 1 := PLACED], map[]));
  }

  lemma Finds() returns (run: seq<Step>)
    ensures ValidRun(EMPTY, run) && Exec(EMPTY, run) == Pair(Some(1), TAKEN, Forget(1))
  {
    run := Overwrites();
    run := On(run, StopByName(9), Pair(Some(1), PLACED, Want(1, true)));
    run := On(run, Go(9), Pair(Some(1), TAKEN, Check(1)));
    run := On(run, Go(9), Pair(Some(1), TAKEN, Forget(1)));
  }

  lemma HandsOver() returns (run: seq<Step>)
    ensures ValidRun(EMPTY, run) && Exec(EMPTY, run) == Pair(None, TAKEN.(reaped := 1), Clear(1, true))
  {
    run := Finds();
    run := On(run, Go(9), Pair(None, TAKEN, Load(1, true)));
    run := On(run, Go(9), Pair(None, TAKEN, Take(1, true)));
    run := On(run, Go(9), Pair(None, TAKEN.(reaped := 1), Clear(1, true)));
  }

  const GONE := TAKEN.(reaped := 1, present := false)

  lemma Clears() returns (run: seq<Step>)
    ensures ValidRun(EMPTY, run) && Exec(EMPTY, run) == Pair(None, GONE, Reread(1, true))
  {
    run := HandsOver();
    run := On(run, Go(9), Pair(None, GONE, Reread(1, true)));
  }

  /** Two starts: the second overwrites the slot, and a stop by name reaches only the second.
      The first recognizer is left to its own bug's CLOSE. */
  lemma StopByNameMissesTheFirst()
    ensures exists run :: ValidRun(EMPTY, run) && Missed(Exec(EMPTY, run)) && Exec(EMPTY, run).threads == map[9 := Out]
  {
    var run := Clears();
    run := On(run, Go(9), Pair(None, GONE, Unlock(1, true)));
    run := On(run, Go(9), Pair(None, GONE.(lock := None), Out));
  }

  // ---------------------------------------------------------------- every bug and every CLOSE

  /** `t` is a CLOSE of b on its way, or one that has completed. */
  predicate Closing(s: Sys, t: Tid, b: Bug) {
    t in s.threads && b in s.cbs &&
    match s.threads[t]
    case Out => s.cbs[b].closes > 0
    case Want(x, byName) => x == b && !byName
    case Load(x, byName) => x == b && !byName
    case Take(x, byName) => x == b && !byName
    case Clear(x, byName) => x == b && !byName
    case Reread(x, byName) => x == b && !byName
    case Delete(x, byName) => x == b && !byName
    case Unlock(x, byName) => x == b && !byName
    case _ => false
  }

  lemma ClosingStep(s: Sys, step: Step, t: Tid, b: Bug)
    requires Enabled(s, step) && Closing(s, t, b)
    ensures Closing(Apply(s, step), t, b)
  {
    if step.Go? {
      if step.t == t { ClosingGoes(s, t, b); } else { ClosingWaits(s, step.t, t, b); }
    }
  }

  lemma ClosingGoes(s: Sys, t: Tid, b: Bug)
    requires Enabled(s, Go(t)) && Closing(s, t, b)
    ensures Closing(Advance(s, t), t, b)
  {
  }

  lemma ClosingWaits(s: Sys, u: Tid, t: Tid, b: Bug)
    requires Enabled(s, Go(u)) && Closing(s, t, b) && u != t
    ensures Closing(Advance(s, u), t, b)
  {
    AdvanceLeaves(s, u, t, b);
    hide Advance;
  }

  lemma AdvanceLeaves(s: Sys, u: Tid, t: Tid, b: Bug)
    requires Enabled(s, Go(u)) && u != t && t in s.threads && b in s.cbs
    ensures var s' := Advance(s, u);
      t in s'.threads && s'.threads[t] == s.threads[t] && b in s'.cbs && s'.cbs[b].closes >= s.cbs[b].closes
  {
  }

  /** What is there, and since when. */
  lemma StepBegins(s: Sys, step: Step, t: Tid, b: Bug)
    requires Enabled(s, step)
    ensures b in Apply(s, step).cbs <==> b in s.cbs || step == Start(b)
    ensures t in Apply(s, step).threads <==> t in s.threads || step == StopByName(t) || (step.Close? && step.t == t)
                                             || (step.MediaFrame? && step.t == t)
    ensures step == Close(t, b) ==> Closing(Apply(s, step), t, b)
    ensures (step == StopByName(t) || (step.Close? && step.t == t) || (step.MediaFrame? && step.t == t)) ==> t !in s.threads
  {
    if step.Go? { AdvanceKeys(s, step.t); }
  }

  lemma AdvanceKeys(s: Sys, t: Tid)
    requires Enabled(s, Go(t))
    ensures Advance(s, t).cbs.Keys == s.cbs.Keys && Advance(s, t).threads.Keys == s.threads.Keys
  {
    assert s.threads.Keys + {t} == s.threads.Keys && s.cbs.Keys + {s.threads[t].b} == s.cbs.Keys;
  }

  lemma {:induction false} RunStarts(s: Sys, run: seq<Step>, b: Bug)
    requires ValidRun(s, run)
    ensures b in Exec(s, run).cbs <==> b in s.cbs || Start(b) in run
    decreases |run|
  {
    hide Apply, Enabled, Closing;
    if run != [] {
      assert run == [run[0]] + run[1..];
      StepBegins(s, run[0], 0, b);
      RunStarts(Apply(s, run[0]), run[1..], b);
    }
  }

  lemma {:induction false} RunCloses(s: Sys, run: seq<Step>, t: Tid, b: Bug)
    requires ValidRun(s, run) && (Closing(s, t, b) || Close(t, b) in run)
    ensures Closing(Exec(s, run), t, b)
    decreases |run|
  {
    hide Apply, Enabled, Closing;
    if run != [] {
      StepBegins(s, run[0], t, b);
      if Closing(s, t, b) { ClosingStep(s, run[0], t, b); }
      RunCloses(Apply(s, run[0]), run[1..], t, b);
    }
  }

  /** A bug is there exactly if it was started; and a CLOSE of it that has returned leaves its
      recognizer handed over, exactly once, and nothing in place. */
  lemma ClosedIsReaped(run: seq<Step>, t: Tid, b: Bug)
    requires ValidRun(EMPTY, run)
    ensures b in Exec(EMPTY, run).cbs <==> Start(b) in run
    ensures Close(t, b) in run ==> var s := Exec(EMPTY, run);
      && t in s.threads && b in s.cbs
      && (s.threads[t].Out? ==> s.cbs[b].closes > 0 && s.cbs[b].reaped == 1 && !s.cbs[b].present)
  {
    RunStarts(EMPTY, run, b);
    if Close(t, b) in run {
      RunCloses(EMPTY, run, t, b);
      ReapedExactlyOnce(run, b);
    }
  }

  /** A frame is let in to work on the recognizer exactly if nobody is inside its bug's mutex and
      it has not been handed over. */
  lemma FrameGetsIn(run: seq<Step>, t: Tid, b: Bug)
    requires ValidRun(EMPTY, run) && Enabled(Exec(EMPTY, run), MediaFrame(t, b))
    ensures var s := Exec(EMPTY, run);
      Apply(s, MediaFrame(t, b)).threads[t] == Frame(b)
      <==> s.cbs[b].reaped == 0 && forall u :: u in s.threads && !s.threads[u].Out? ==> !Holds(s.threads[u], b)
  {
    RunKeeps(EMPTY, run);
    CbStates(Exec(EMPTY, run), b);
  }

  // ---------------------------------------------------------------- and each of them ends

  function AtRank(at: At): nat {
    match at
    case Want(_, _) => 9
    case Check(_) => 8
    case Forget(_) => 7
    case Load(_, _) => 6
    case Take(_, _) => 5
    case Clear(_, _) => 4
    case Reread(_, _) => 3
    case Delete(_, _) => 2
    case Out => 0
    case _ => 1
  }

  predicate GoOnly(run: seq<Step>, t: Tid) {
    forall i :: 0 <= i < |run| ==> run[i] == Go(t)
  }

  /** Nothing is in `t`'s way. */
  predicate Free(s: Sys, t: Tid) {
    t in s.threads && (s.threads[t].Out? || (s.threads[t].b in s.cbs && (s.threads[t].Want? ==> s.cbs[s.threads[t].b].lock.None?)))
  }

  lemma GoFalls(s: Sys, t: Tid)
    requires Free(s, t) && !s.threads[t].Out?
    ensures Enabled(s, Go(t)) && Free(Advance(s, t), t) && AtRank(Advance(s, t).threads[t]) < AtRank(s.threads[t])
  {
  }

  /** A stop, a CLOSE or a frame that has the mutex, or finds it free, ends by its own steps. */
  lemma {:induction false} FreeEnds(s: Sys, t: Tid) returns (run: seq<Step>)
    requires Free(s, t)
    ensures ValidRun(s, run) && GoOnly(run, t) && t in Exec(s, run).threads && Exec(s, run).threads[t].Out?
    decreases if t in s.threads then AtRank(s.threads[t]) else 0
  {
    hide AtRank, Free, Advance, Enabled;
    assert t in s.threads by { FreeThere(s, t); }
    if s.threads[t].Out? {
      run := [];
    } else {
      GoFalls(s, t);
      FreeThere(Advance(s, t), t);
      assert Apply(s, Go(t)) == Advance(s, t);
      var rest := FreeEnds(Advance(s, t), t);
      run := [Go(t)] + rest;
      assert run[1..] == rest;
    }
  }

  lemma FreeThere(s: Sys, t: Tid)
    requires Free(s, t)
    ensures t in s.threads
  {
  }
}
