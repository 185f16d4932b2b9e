/** Runs of LockModel into the circles there would be if readers queued behind a waiting
    writer, or if the bug were removed before cb->mutex is released. */
module LockWitness {
  import opened LockModel
  import opened LockOrder

  // ---------------------------------------------------------------- runs that get there

  predicate Reached(run: seq<Step>, s: Sys, safe: bool) {
    ValidRun(START, run, safe) && Exec(START, run, safe) == s
  }

  lemma {:induction false} LockRunExtends(s: Sys, run: seq<Step>, step: Step, safe: bool)
    requires ValidRun(s, run, safe) && Enabled(Exec(s, run, safe), step, safe)
    ensures ValidRun(s, run + [step], safe) && Exec(s, run + [step], safe) == Apply(Exec(s, run, safe), step, safe)
    decreases |run|
  {
    hide Apply, Enabled;
    if run == [] {
      assert (run + [step])[0] == step && (run + [step])[1..] == [];
    } else {
      assert (run + [step])[0] == run[0] && (run + [step])[1..] == run[1..] + [step];
      LockRunExtends(Apply(s, run[0], safe), run[1..], step, safe);
    }
  }

  lemma Go(run: seq<Step>, s: Sys, step: Step, t: Sys, safe: bool) returns (longer: seq<Step>)
    requires Reached(run, s, safe) && Enabled(s, step, safe) && Apply(s, step, safe) == t
    ensures Reached(longer, t, safe)
  {
    LockRunExtends(START, run, step, safe);
    longer := run + [step];
  }

  /** Thread `t` does its next action, which nothing is in the way of. */
  lemma Acts(run: seq<Step>, s: Sys, t: Tid, rest: seq<Act>, held: set<Held>, safe: bool)
      returns (longer: seq<Step>, after: Sys)
    requires Reached(run, s, safe) && t in s.threads && CanRun(s, s.threads[t])
    requires rest == s.threads[t].todo[1..] && held == After(s.threads[t].held, s.threads[t].todo[0])
    ensures after == Put(s, t, s.threads[t].(todo := rest, held := held))
      .(asked := if s.threads[t].todo[0].Raise? then s.asked + {s.threads[t].todo[0].k} else s.asked)
    ensures Reached(longer, after, safe)
  {
    after := Apply(s, Run(t), safe);
    longer := Go(run, s, Run(t), after, safe);
  }

  const EXIT: set<Held> := {Held(WorkerExit(0), false)}
  const OWED: set<Held> := {Held(Outcome(0), false)}
  const TORN: set<Held> := {Held(SessionRwlock, true), Held(CbMutex(0), false)}

  /** Transcription 0: its worker is thread 0, a teardown thread 1, the end of the session or a
      hangup thread 2, its request thread 3. */
  function Scene(threads: map<Tid, Thread>, asked: bool, waits: bool, quit: bool): Sys {
    Sys(threads, {0}, if asked then {0} else {}, if waits then {0} else {}, if waits then {0} else {}, if quit then {0} else {})
  }

  const WORKING := Thread(Worker(0), DELIVER, EXIT)
  const SLEEPING := Thread(Worker(0), [], EXIT)
  const ENDED := Thread(Worker(0), [], {})

  lemma WorkerBegins(safe: bool) returns (run: seq<Step>)
    ensures Reached(run, Scene(map[0 := WORKING], false, false, false), safe)
  {
    assert Base(Worker(0)) == EXIT && {} + {0} == {0};
    run := Go([], START, Begin(0, 0), Scene(map[0 := WORKING], false, false, false), safe);
  }

  lemma WorkerSleeps(safe: bool) returns (run: seq<Step>)
    ensures Reached(run, Scene(map[0 := SLEEPING], false, false, false), safe)
  {
    run := WorkerBegins(safe);
    var a := Scene(map[0 := WORKING], false, false, false);
    var inside := EXIT + {Held(SessionRwlock, true)};
    run, a := Acts(run, a, 0, [Release(SessionRwlock)], inside, safe);
    assert Without(inside, SessionRwlock) == EXIT;
    run, a := Acts(run, a, 0, [], EXIT, safe);
    assert a == Scene(map[0 := SLEEPING], false, false, false);
  }

  /** Nobody has `r`. */
  predicate Untouched(s: Sys, r: Res) {
    forall u :: u in s.threads ==> Held(r, false) !in s.threads[u].held && Held(r, true) !in s.threads[u].held
  }

  lemma CallReads(run: seq<Step>, s: Sys, call: Call, safe: bool) returns (longer: seq<Step>)
    requires Reached(run, s, safe) && 1 !in s.threads && (safe ==> !call.UnsafeStop?)
    requires Code(call) != [] && Code(call)[0] == LOCATE && Untouched(s, SessionRwlock)
    ensures Reached(longer, Put(s, 1, Thread(Caller, Code(call)[1..], READS)), safe)
  {
    var code := Code(call);
    hide Code;
    var a := Put(s, 1, Thread(Caller, code, {}));
    longer := Go(run, s, Spawn(1, call), a, safe);
    assert {} + {Held(SessionRwlock, true)} == READS;
    longer, a := Acts(longer, a, 1, code[1..], READS, safe);
    assert a == Put(s, 1, Thread(Caller, code[1..], READS));
  }

  /** A call by thread 1 reads the session and takes cb->mutex. */
  lemma CallEnters(run: seq<Step>, s: Sys, call: Call, rest: seq<Act>, safe: bool) returns (longer: seq<Step>)
    requires Reached(run, s, safe) && 1 !in s.threads && (safe ==> !call.UnsafeStop?)
    requires Code(call) == [LOCATE, Lock(CbMutex(0))] + rest
    requires Untouched(s, SessionRwlock) && Untouched(s, CbMutex(0))
    ensures Reached(longer, Put(s, 1, Thread(Caller, rest, TORN)), safe)
  {
    var code := Code(call);
    longer := CallReads(run, s, call, safe);
    hide Code;
    var inner := [Lock(CbMutex(0))] + rest;
    assert code[1..] == inner && inner[1..] == rest && READS + {Held(CbMutex(0), false)} == TORN;
    var a := Put(s, 1, Thread(Caller, inner, READS));
    longer, a := Acts(longer, a, 1, rest, TORN, safe);
    assert a == Put(s, 1, Thread(Caller, rest, TORN));
  }

  /** finish() by thread 1. */
  lemma CallFinishes(run: seq<Step>, s: Sys, rest: seq<Act>, safe: bool) returns (longer: seq<Step>)
    requires var todo := [Lock(StreamerMutex(0)), Raise(0), Release(StreamerMutex(0))] + rest;
      Reached(run, Put(s, 1, Thread(Caller, todo, TORN)), safe)
    requires Untouched(s, StreamerMutex(0)) && s.asked == {}
    ensures Reached(longer, Put(s, 1, Thread(Caller, rest, TORN)).(asked := {0}), safe)
  {
    var todo := [Lock(StreamerMutex(0)), Raise(0), Release(StreamerMutex(0))] + rest;
    assert todo[1..] == [Raise(0), Release(StreamerMutex(0))] + rest;
    assert todo[1..][1..] == [Release(StreamerMutex(0))] + rest && todo[1..][1..][1..] == rest;
    var inside := TORN + {Held(StreamerMutex(0), false)};
    assert Without(inside, StreamerMutex(0)) == TORN && {} + {0} == {0};
    var a := Put(s, 1, Thread(Caller, todo, TORN));
    longer, a := Acts(run, a, 1, todo[1..], inside, safe);
    longer, a := Acts(longer, a, 1, todo[1..][1..], inside, safe);
    longer, a := Acts(longer, a, 1, todo[1..][1..][1..], TORN, safe);
    assert a == Put(s, 1, Thread(Caller, rest, TORN)).(asked := {0});
  }

  /** What a stop still has to do from the join on. */
  function FromJoin(): seq<Act> {
    [Lock(WorkerExit(0)), Release(WorkerExit(0)), Release(CbMutex(0))]
    + ([Lock(BugRwlock)] + Close(Closing(0, false, false)) + [Release(BugRwlock), Release(SessionRwlock)])
  }

  const JOINING := Thread(Caller, FromJoin(), TORN)
  const ENDING := Thread(Caller, Code(Destroy), {})

  /** A stop that finds no streamer yet comes to its join. */
  lemma EarlyStopJoins() returns (run: seq<Step>)
    ensures Reached(run, Scene(map[0 := WORKING, 1 := JOINING], true, false, false), true)
  {
    run := WorkerBegins(true);
    var c := Closing(0, false, true);
    assert Code(Stop(c)) == [LOCATE, Lock(CbMutex(0))] + ([Raise(0)] + FromJoin());
    hide Code, FromJoin;
    var s := Scene(map[0 := WORKING], false, false, false);
    run := CallEnters(run, s, Stop(c), [Raise(0)] + FromJoin(), true);
    assert ([Raise(0)] + FromJoin())[1..] == FromJoin();
    var a := Put(s, 1, Thread(Caller, [Raise(0)] + FromJoin(), TORN));
    run, a := Acts(run, a, 1, FromJoin(), TORN, true);
    assert a == Scene(map[0 := WORKING, 1 := JOINING], true, false, false);
  }

  /** The order of the locks is not enough by itself. A stop joins the worker while its API call
      reads the session, and the worker reads the session. If a writer that waits kept new
      readers out, the three would wait for one another. */
  lemma QueueingReadersDeadlock()
    ensures exists run :: ValidRun(START, run, true) && WorkerMeets(Exec(START, run, true), 0, 0, 1, 2)
  {
    var run := EarlyStopJoins();
    var a := Scene(map[0 := WORKING, 1 := JOINING], true, false, false);
    var b := Scene(map[0 := WORKING, 1 := JOINING, 2 := ENDING], true, false, false);
    run := Go(run, a, Spawn(2, Destroy), b, true);
    assert WorkerMeets(b, 0, 0, 1, 2);
  }

  const AWAITING := Thread(Worker(0), Leave(0, false), EXIT)
  const CALLING := Thread(Sdk(0), Final(0), OWED)

  /** The request is issued, the worker waits for its outcome, and the outcome is called back. */
  lemma OutcomeIsCalled() returns (run: seq<Step>)
    ensures Reached(run, Scene(map[0 := AWAITING, 3 := CALLING], false, true, false), true)
  {
    hide Leave, Final;
    run := WorkerSleeps(true);
    assert Base(Sdk(0)) == OWED && Base(Worker(0)) == EXIT && {} + {0} == {0};
    var idle := Thread(Sdk(0), [], OWED);
    var a := Scene(map[0 := SLEEPING], false, false, false);
    var b := Scene(map[0 := SLEEPING, 3 := idle], false, true, false).(turned := {});
    run := Go(run, a, Issue(3, 0), b, true);
    var c := Scene(map[0 := AWAITING, 3 := idle], false, true, false);
    run := Go(run, b, Leaves(0, false), c, true);
    run := Go(run, c, Ends(3), Scene(map[0 := AWAITING, 3 := CALLING], false, true, false), true);
  }

  lemma LateStopCode()
    ensures Code(Stop(Closing(0, true, true)))
         == [LOCATE, Lock(CbMutex(0))] + ([Lock(StreamerMutex(0)), Raise(0), Release(StreamerMutex(0))] + FromJoin())
  {
  }

  lemma LateStopJoins() returns (run: seq<Step>)
    ensures Reached(run, Scene(map[0 := AWAITING, 1 := JOINING, 3 := CALLING], true, true, false), true)
  {
    run := OutcomeIsCalled();
    var c := Closing(0, true, true);
    var flag := [Lock(StreamerMutex(0)), Raise(0), Release(StreamerMutex(0))] + FromJoin();
    LateStopCode();
    hide Leave, Final, Code, FromJoin;
    var s := Scene(map[0 := AWAITING, 3 := CALLING], false, true, false);
    run := CallEnters(run, s, Stop(c), flag, true);
    run := CallFinishes(run, s, FromJoin(), true);
    assert Put(s, 1, JOINING).(asked := {0}) == Scene(map[0 := AWAITING, 1 := JOINING, 3 := CALLING], true, true, false);
  }

  /** The same through the outcome: the worker, awake again only once m_finished is set, waits
      for a callback that would be behind the writer. */
  lemma QueueingOutcomeDeadlock()
    ensures exists run :: ValidRun(START, run, true) && OutcomeMeets(Exec(START, run, true), 0, 3, 0, 1, 2)
  {
    var run := LateStopJoins();
    var a := Scene(map[0 := AWAITING, 1 := JOINING, 3 := CALLING], true, true, false);
    var b := Scene(map[0 := AWAITING, 1 := JOINING, 2 := ENDING, 3 := CALLING], true, true, false);
    run := Go(run, a, Spawn(2, Destroy), b, true);
    assert Leave(0, false)[0] == Lock(Outcome(0)) && Final(0)[0] == LOCATE;
    assert OutcomeMeets(b, 0, 3, 0, 1, 2);
  }

  // ---------------------------------------------------------------- why the removal comes after the unlock

  const LAST: seq<Act> := [Lock(BugRwlock), Release(BugRwlock), Release(CbMutex(0)), Release(SessionRwlock)]
  const UNSAFE_JOIN: seq<Act> := [Lock(WorkerExit(0)), Release(WorkerExit(0))] + LAST
  const UNSAFE := Thread(Caller, UNSAFE_JOIN, TORN)
  const REMOVING := Thread(Caller, LAST, TORN)

  lemma UnsafeAsks() returns (run: seq<Step>)
    ensures Reached(run, Scene(map[0 := SLEEPING, 1 := UNSAFE], true, false, false), false)
  {
    run := WorkerSleeps(false);
    var flag := [Lock(StreamerMutex(0)), Raise(0), Release(StreamerMutex(0))] + UNSAFE_JOIN;
    assert Code(UnsafeStop(0)) == [LOCATE, Lock(CbMutex(0))] + flag;
    hide Code;
    var s := Scene(map[0 := SLEEPING], false, false, false);
    run := CallEnters(run, s, UnsafeStop(0), flag, false);
    run := CallFinishes(run, s, UNSAFE_JOIN, false);
    assert Put(s, 1, UNSAFE).(asked := {0}) == Scene(map[0 := SLEEPING, 1 := UNSAFE], true, false, false);
  }

  lemma WorkerQuits() returns (run: seq<Step>)
    ensures Reached(run, Scene(map[0 := ENDED, 1 := UNSAFE], true, false, true), false)
  {
    run := UnsafeAsks();
    var a := Scene(map[0 := SLEEPING, 1 := UNSAFE], true, false, false);
    var b := Scene(map[0 := Thread(Worker(0), [Release(WorkerExit(0))], EXIT), 1 := UNSAFE], true, false, true);
    run := Go(run, a, Quits(0), b, false);
    run := WorkerGone(run);
  }

  lemma WorkerGone(run: seq<Step>) returns (longer: seq<Step>)
    requires Reached(run, Scene(map[0 := Thread(Worker(0), [Release(WorkerExit(0))], EXIT), 1 := UNSAFE], true, false, true), false)
    ensures Reached(longer, Scene(map[0 := ENDED, 1 := UNSAFE], true, false, true), false)
  {
    hide Free;
    var b := Scene(map[0 := Thread(Worker(0), [Release(WorkerExit(0))], EXIT), 1 := UNSAFE], true, false, true);
    assert Without(EXIT, WorkerExit(0)) == {};
    longer, b := Acts(run, b, 0, [], {}, false);
    assert b == Scene(map[0 := ENDED, 1 := UNSAFE], true, false, true);
  }

  lemma UnsafeJoins() returns (run: seq<Step>)
    ensures Reached(run, Scene(map[0 := ENDED, 1 := REMOVING], true, false, true), false)
  {
    run := WorkerQuits();
    var b := Scene(map[0 := ENDED, 1 := UNSAFE], true, false, true);
    var joined := TORN + {Held(WorkerExit(0), false)};
    assert UNSAFE_JOIN[1..] == [Release(WorkerExit(0))] + LAST && UNSAFE_JOIN[1..][1..] == LAST;
    assert Without(joined, WorkerExit(0)) == TORN;
    run, b := Acts(run, b, 1, UNSAFE_JOIN[1..], joined, false);
    run, b := Acts(run, b, 1, UNSAFE_JOIN[1..][1..], TORN, false);
    assert b == Scene(map[0 := ENDED, 1 := REMOVING], true, false, true);
  }

  lemma HangupBegins() returns (run: seq<Step>)
    ensures var code := Code(Hangup([Closing(0, true, true)]));
      Reached(run, Scene(map[0 := ENDED, 1 := REMOVING, 2 := Thread(Caller, code, {})], true, false, true), false)
  {
    run := UnsafeJoins();
    var call := Hangup([Closing(0, true, true)]);
    hide Code;
    run := Go(run, Scene(map[0 := ENDED, 1 := REMOVING], true, false, true), Spawn(2, call),
              Scene(map[0 := ENDED, 1 := REMOVING, 2 := Thread(Caller, Code(call), {})], true, false, true), false);
  }

  /** The order matters: were the bug removed before the unlock, a stop and a hangup could wait
      for each other for ever. */
  lemma RemovalUnderLockDeadlocks()
    ensures exists run, ts :: ValidRun(START, run, false) && Deadlocked(Exec(START, run, false), ts)
  {
    var run := HangupBegins();
    var code := Code(Hangup([Closing(0, true, true)]));
    var rest := code[1..][1..];
    assert code[0] == LOCATE && code[1..][0] == Lock(BugRwlock) && rest != [];
    assert rest[0] == Lock(CbMutex(0));
    hide Code;
    var b := Scene(map[0 := ENDED, 1 := REMOVING, 2 := Thread(Caller, code, {})], true, false, true);
    assert {} + {Held(SessionRwlock, true)} == READS && READS + {Held(BugRwlock, false)} == REMOVES;
    run, b := Acts(run, b, 2, code[1..], READS, false);
    run, b := Acts(run, b, 2, rest, REMOVES, false);
    assert b.threads[1] == REMOVING && b.threads[2] == Thread(Caller, rest, REMOVES);
    assert Deadlocked(b, [1, 2, 1]);
  }
}
