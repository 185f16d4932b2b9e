/** Stops against hangup in mod_aws_transcribe: who may wait for whom, over any number of
    transcriptions of one session. FreeSWITCH holds the session's bug_rwlock across a bug's
    CLOSE callback, and switch_core_media_bug_remove takes it for writing. Whoever uses the
    session holds its rwlock for reading: the API call that stops, the hangup, the SDK's
    callbacks and the delivery of a transcript; who destroys the session takes it for writing. */
module LockModel {
  /** One transcription: its cap_cb, streamer, worker and SDK request. */
  type Key = nat

  datatype Res =
    | SessionRwlock
    | BugRwlock
    | CbMutex(k: Key)           // cb->mutex
    | WorkerExit(k: Key)        // switch_thread_join: held by the worker while it runs
    | Outcome(k: Key)           // m_finished: held by the SDK's request until it has delivered its outcome
    | BufferMutex(k: Key)       // m_audioBufferMutex
    | StreamerMutex(k: Key)     // m_mutex

  /** One action of a thread. A `Try` that finds the lock taken skips the next `skip` actions;
      `Raise` raises cb->stop_requested or m_finishing. */
  datatype Act = Acquire(r: Res, shared: bool) | Try(r: Res, skip: nat) | Release(r: Res) | Raise(k: Key)

  function Lock(r: Res): Act {
    Acquire(r, false)
  }

  const LOCATE := Acquire(SessionRwlock, true)

  // ---------------------------------------------------------------- the programs

  /** A teardown of one cap_cb: whether it finds the streamer published, and the worker not joined. */
  datatype Closing = Closing(k: Key, streamer: bool, worker: bool)

  /** The flag, finish(), and the join. */
  function Finish(c: Closing): seq<Act> {
    (if c.streamer then [Lock(StreamerMutex(c.k)), Raise(c.k), Release(StreamerMutex(c.k))] else [Raise(c.k)])
    + if c.worker then [Lock(WorkerExit(c.k)), Release(WorkerExit(c.k))] else []
  }

  /** The same under cb->mutex. */
  function Close(c: Closing): seq<Act> {
    [Lock(CbMutex(c.k))] + Finish(c) + [Release(CbMutex(c.k))]
  }

  function Closes(cs: seq<Closing>): seq<Act> {
    if cs == [] then [] else Close(cs[0]) + Closes(cs[1..])
  }

  /** One bug's share of a frame: try cb->mutex, and write. */
  function Feed(k: Key): seq<Act> {
    [Try(CbMutex(k), 5), Lock(BufferMutex(k)), Release(BufferMutex(k)), Lock(StreamerMutex(k)), Release(StreamerMutex(k)),
     Release(CbMutex(k))]
  }

  function Feeds(ks: seq<Key>): seq<Act> {
    if ks == [] then [] else Feed(ks[0]) + Feeds(ks[1..])
  }

  /** Threads that come and go. */
  datatype Call =
    | Stop(c: Closing)          // session_stop: teardown, then the bug is removed, whose CLOSE runs under bug_rwlock
    | LostStop(k: Key)          // session_stop that finds the slot naming another bug
    | Orphan(c: Closing)        // session_cleanup: the bug could not be attached
    | Hangup(cs: seq<Closing>)  // all bugs are removed, each CLOSE under bug_rwlock
    | Frame(ks: seq<Key>)       // the media thread reads the bug list
    | Destroy                   // the end of the session
    | UnsafeStop(k: Key)        // session_stop with the bug removed before cb->mutex is released

  function Code(call: Call): seq<Act> {
    match call
    case Stop(c) =>
      [LOCATE] + Close(c) + [Lock(BugRwlock)] + Close(Closing(c.k, false, false)) + [Release(BugRwlock), Release(SessionRwlock)]
    case LostStop(k) => [LOCATE, Lock(CbMutex(k)), Release(CbMutex(k)), Release(SessionRwlock)]
    case Orphan(c) => [LOCATE] + Finish(c) + [Release(SessionRwlock)]
    case Hangup(cs) => [LOCATE, Lock(BugRwlock)] + Closes(cs) + [Release(BugRwlock), Release(SessionRwlock)]
    case Frame(ks) => [Acquire(BugRwlock, true)] + Feeds(ks) + [Release(BugRwlock)]
    case Destroy => [Lock(SessionRwlock), Release(SessionRwlock)]
    case UnsafeStop(k) =>
      [LOCATE, Lock(CbMutex(k)), Lock(StreamerMutex(k)), Raise(k), Release(StreamerMutex(k)), Lock(WorkerExit(k)),
       Release(WorkerExit(k)), Lock(BugRwlock), Release(BugRwlock), Release(CbMutex(k)), Release(SessionRwlock)]
  }

  /** The constructor, and the delivery of a transcript with m_mutex released. */
  const DELIVER: seq<Act> := [LOCATE, Release(SessionRwlock)]

  /** A turn of processData. */
  function Turn(k: Key, deliver: bool): seq<Act> {
    [Lock(StreamerMutex(k)), Release(StreamerMutex(k))] + if deliver then DELIVER else []
  }

  /** A worker whose start was issued leaves processData only once m_finished is set; it
      delivers what the outcome raced ahead of. */
  function Leave(k: Key, deliver: bool): seq<Act> {
    [Lock(Outcome(k)), Release(Outcome(k))] + Turn(k, deliver) + [Release(WorkerExit(k))]
  }

  /** OnStreamReady: the drain pushes under both mutexes. */
  function StreamReady(k: Key): seq<Act> {
    [LOCATE, Lock(BufferMutex(k)), Lock(StreamerMutex(k)), Release(StreamerMutex(k)), Release(BufferMutex(k)),
     Release(SessionRwlock), Lock(StreamerMutex(k)), Release(StreamerMutex(k))]
  }

  function Transcript(k: Key): seq<Act> {
    [Lock(StreamerMutex(k)), Release(StreamerMutex(k))]
  }

  /** OnResponseCallback sets m_finished under m_mutex, inside its SessionLock. */
  function Final(k: Key): seq<Act> {
    [LOCATE, Lock(StreamerMutex(k)), Release(Outcome(k)), Release(StreamerMutex(k)), Release(SessionRwlock)]
  }

  // ---------------------------------------------------------------- runs

  type Tid = nat

  datatype Role = Caller | Worker(k: Key) | Sdk(k: Key)

  datatype Held = Held(r: Res, shared: bool)

  /** What the thread still has to do, and what it holds. */
  datatype Thread = Thread(role: Role, todo: seq<Act>, held: set<Held>)

  /** `made`: workers that were created; `asked`: stops that were raised; `started`: requests
      that were issued; `turned`: workers that have come to processData; `quit`: workers that
      left it without a request. */
  datatype Sys = Sys(threads: map<Tid, Thread>, made: set<Key>, asked: set<Key>, started: set<Key>, turned: set<Key>,
                     quit: set<Key>)

  const START := Sys(map[], {}, {}, {}, {}, {})

  function Base(role: Role): set<Held> {
    match role
    case Caller => {}
    case Worker(k) => {Held(WorkerExit(k), false)}
    case Sdk(k) => {Held(Outcome(k), false)}
  }

  datatype Step =
    | Spawn(t: Tid, call: Call)
    | Begin(t: Tid, k: Key)               // session_init creates the worker
    | Issue(t: Tid, k: Key)               // connect(): the SDK's request
    | Run(t: Tid)                         // the thread's next action
    | GiveUp(t: Tid)                      // its try fails
    | Turns(t: Tid, deliver: bool, last: bool)  // the worker wakes up for a transcript, audio, or the shutdown
    | Leaves(t: Tid, last: bool)          // it finds, or waits for, the outcome
    | Quits(t: Tid)                       // asked to stop, and no request was ever issued
    | Ready(t: Tid)
    | Hears(t: Tid)
    | Ends(t: Tid)

  /** `u` holds `r` in a way that keeps out whoever wants it (shared or not). */
  predicate Blocks(u: Thread, r: Res, shared: bool) {
    Held(r, false) in u.held || (!shared && Held(r, true) in u.held)
  }

  predicate Free(s: Sys, r: Res, shared: bool) {
    forall u :: u in s.threads ==> !Blocks(s.threads[u], r, shared)
  }

  predicate CanRun(s: Sys, t: Thread) {
    t.todo != [] && match t.todo[0]
    case Acquire(r, shared) => Free(s, r, shared)
    case Try(r, _) => Free(s, r, false)
    case _ => true
  }

  /** The worker is at the wait in processData: with nothing to do yet, or, once it has begun the
      shutdown of a request, for its outcome. */
  predicate Asleep(t: Thread) {
    t.role.Worker? && t.held == Base(t.role) && (t.todo == [] || t.todo[0] == Lock(Outcome(t.role.k)))
  }

  predicate Resting(t: Thread) {
    t.role.Sdk? && t.held == Base(t.role) && t.todo == []
  }

  predicate Enabled(s: Sys, step: Step, safe: bool) {
    match step
    case Spawn(t, call) => t !in s.threads && (safe ==> !call.UnsafeStop?)
    case Begin(t, k) => t !in s.threads && k !in s.made
    case Issue(t, k) =>
      t !in s.threads && k in s.made && k !in s.started && k !in s.quit && (k in s.asked ==> k !in s.turned)
    case Run(t) => t in s.threads && CanRun(s, s.threads[t])
    case GiveUp(t) => t in s.threads && s.threads[t].todo != [] && s.threads[t].todo[0].Try?
    case Turns(t, _, _) => t in s.threads && Asleep(s.threads[t])
    case Leaves(t, _) => t in s.threads && Asleep(s.threads[t]) && s.threads[t].role.k in s.started
    case Quits(t) =>
      && t in s.threads && Asleep(s.threads[t]) && s.threads[t].role.k in s.asked && s.threads[t].role.k !in s.started
    case Ready(t) => t in s.threads && Resting(s.threads[t])
    case Hears(t) => t in s.threads && Resting(s.threads[t])
    case Ends(t) => t in s.threads && Resting(s.threads[t])
  }

  function Without(held: set<Held>, r: Res): set<Held> {
    held - {Held(r, false), Held(r, true)}
  }

  function After(held: set<Held>, a: Act): set<Held> {
    match a
    case Acquire(r, shared) => held + {Held(r, shared)}
    case Try(r, _) => held + {Held(r, false)}
    case Release(r) => Without(held, r)
    case Raise(_) => held
  }

  function Skipped(todo: seq<Act>): seq<Act>
    requires todo != [] && todo[0].Try?
  {
    if todo[0].skip < |todo| then todo[1 + todo[0].skip..] else []
  }

  function Put(s: Sys, t: Tid, x: Thread): Sys {
    s.(threads := s.threads[t := x])
  }

  function Does(s: Sys, t: Tid, todo: seq<Act>): Sys
    requires t in s.threads
  {
    Put(s, t, s.threads[t].(todo := todo))
  }

  function Apply(s: Sys, step: Step, safe: bool): Sys
    requires Enabled(s, step, safe)
  {
    match step
    case Spawn(t, call) => Put(s, t, Thread(Caller, Code(call), {}))
    case Begin(t, k) => Put(s, t, Thread(Worker(k), DELIVER, Base(Worker(k)))).(made := s.made + {k})
    case Issue(t, k) => Put(s, t, Thread(Sdk(k), [], Base(Sdk(k)))).(started := s.started + {k})
    case Run(t) =>
      var x := s.threads[t];
      Put(s, t, x.(todo := x.todo[1..], held := After(x.held, x.todo[0])))
        .(asked := if x.todo[0].Raise? then s.asked + {x.todo[0].k} else s.asked)
    case GiveUp(t) => Does(s, t, Skipped(s.threads[t].todo))
    case Turns(t, deliver, last) =>
      var k := s.threads[t].role.k;
      Does(s, t, Turn(k, deliver) + if k in s.asked && k in s.started then Leave(k, last) else [])
        .(turned := s.turned + {k})
    case Leaves(t, last) =>
      Does(s, t, Leave(s.threads[t].role.k, last)).(turned := s.turned + {s.threads[t].role.k})
    case Quits(t) => Does(s, t, [Release(WorkerExit(s.threads[t].role.k))]).(quit := s.quit + {s.threads[t].role.k})
    case Ready(t) => Does(s, t, StreamReady(s.threads[t].role.k))
    case Hears(t) => Does(s, t, Transcript(s.threads[t].role.k))
    case Ends(t) => Does(s, t, Final(s.threads[t].role.k))
  }

  predicate ValidRun(s: Sys, run: seq<Step>, safe: bool)
    decreases |run|
  {
    run == [] || (Enabled(s, run[0], safe) && ValidRun(Apply(s, run[0], safe), run[1..], safe))
  }

  function Exec(s: Sys, run: seq<Step>, safe: bool): Sys
    requires ValidRun(s, run, safe)
    decreases |run|
  {
    if run == [] then s else Exec(Apply(s, run[0], safe), run[1..], safe)
  }

  // ---------------------------------------------------------------- waiting

  predicate Waits(s: Sys, t: Tid) {
    t in s.threads && s.threads[t].todo != [] && s.threads[t].todo[0].Acquire?
  }

  function Wanted(s: Sys, t: Tid): (a: Act)
    requires Waits(s, t)
    ensures a.Acquire?
  {
    s.threads[t].todo[0]
  }

  predicate WaitsFor(s: Sys, t: Tid, u: Tid) {
    Waits(s, t) && u in s.threads && Blocks(s.threads[u], Wanted(s, t).r, Wanted(s, t).shared)
  }

  predicate Chain(s: Sys, ts: seq<Tid>) {
    forall i :: 0 <= i < |ts| - 1 ==> WaitsFor(s, ts[i], ts[i + 1])
  }

  /** Threads that wait for each other in a circle. */
  predicate Deadlocked(s: Sys, ts: seq<Tid>) {
    |ts| > 1 && ts[0] == ts[|ts| - 1] && Chain(s, ts)
  }

  // ---------------------------------------------------------------- a rank on the resources

  /** Every lock has one place in the order, but the session's: wanting it for reading comes
      last, since only one who holds it for writing is in the way; wanting it for writing
      comes first. */
  function Rank(r: Res, shared: bool): nat {
    match r
    case SessionRwlock => if shared then 7 else 0
    case BugRwlock => 1
    case CbMutex(_) => 2
    case WorkerExit(_) => 3
    case Outcome(_) => 4
    case BufferMutex(_) => 5
    case StreamerMutex(_) => 6
  }

  function RankOf(a: Act): nat
    requires a.Acquire?
  {
    Rank(a.r, a.shared)
  }

  /** The highest rank among the wishes that the holder is in the way of. */
  function Height(h: Held): nat {
    Rank(h.r, !h.shared)
  }

  /** What a thread may wait for, given what it holds: something above all of that; the session
      for reading only with nothing but its own base; the outcome only as the worker; the join
      only as a caller that reads the session, and after raising the flag. */
  predicate MayWait(role: Role, a: Act, held: set<Held>, asked: set<Key>)
    requires a.Acquire?
  {
    && (forall h :: h in held ==> Height(h) < RankOf(a))
    && (a == LOCATE ==> held == Base(role))
    && (a.r.Outcome? ==> !a.shared && role == Worker(a.r.k) && held == Base(role))
    && (a.r.WorkerExit? ==> !a.shared && role.Caller? && Held(SessionRwlock, true) in held && a.r.k in asked)
  }

  /** The rest of a program keeps to that, whichever of its tries fail, and gives back all it took. */
  predicate Ordered(role: Role, todo: seq<Act>, held: set<Held>, asked: set<Key>)
    decreases |todo|
  {
    if todo == [] then held == {} || held == Base(role)
    else match todo[0]
      case Acquire(_, _) => MayWait(role, todo[0], held, asked) && Ordered(role, todo[1..], After(held, todo[0]), asked)
      case Try(_, skip) =>
        && skip < |todo| && Ordered(role, todo[1..], After(held, todo[0]), asked)
        && Ordered(role, todo[1 + skip..], held, asked)
      case Release(_) => Ordered(role, todo[1..], After(held, todo[0]), asked)
      case Raise(k) => Ordered(role, todo[1..], held, asked + {k})
  }
}
