/** Why stops, hangups, frames, callbacks and workers of mod_aws_transcribe cannot wait for one
    another in a circle, and exactly when they could if a waiting writer kept readers out. */
module LockOrder {
  import opened LockModel

  // ---------------------------------------------------------------- programs that keep to it

  lemma Enter(role: Role, r: Res, shared: bool, rest: seq<Act>, held: set<Held>, asked: set<Key>)
    requires MayWait(role, Acquire(r, shared), held, asked) && Ordered(role, rest, held + {Held(r, shared)}, asked)
    ensures Ordered(role, [Acquire(r, shared)] + rest, held, asked)
  {
    assert ([Acquire(r, shared)] + rest)[1..] == rest;
  }

  lemma Give(role: Role, r: Res, shared: bool, rest: seq<Act>, held: set<Held>, asked: set<Key>)
    requires Held(r, false) !in held && Held(r, true) !in held && Ordered(role, rest, held, asked)
    ensures Ordered(role, [Release(r)] + rest, held + {Held(r, shared)}, asked)
  {
    assert ([Release(r)] + rest)[1..] == rest;
    assert Without(held + {Held(r, shared)}, r) == held;
  }

  lemma Ask(role: Role, k: Key, rest: seq<Act>, held: set<Held>, asked: set<Key>)
    requires Ordered(role, rest, held, asked + {k})
    ensures Ordered(role, [Raise(k)] + rest, held, asked)
  {
    assert ([Raise(k)] + rest)[1..] == rest;
  }

  /** A lock taken and given back at once. */
  lemma Pass(role: Role, r: Res, rest: seq<Act>, held: set<Held>, asked: set<Key>)
    requires MayWait(role, Lock(r), held, asked) && Held(r, false) !in held && Held(r, true) !in held
    requires Ordered(role, rest, held, asked)
    ensures Ordered(role, [Lock(r), Release(r)] + rest, held, asked)
  {
    Give(role, r, false, rest, held, asked);
    Enter(role, r, false, [Release(r)] + rest, held, asked);
    assert [Lock(r), Release(r)] + rest == [Lock(r)] + ([Release(r)] + rest);
  }

  /** Everything held is below `n`. */
  predicate Under(held: set<Held>, n: nat) {
    forall h :: h in held ==> Height(h) < n
  }

  /** A lock between the session's two ends, where what it asks of the holder's role is not in play. */
  lemma PlainWait(role: Role, r: Res, shared: bool, held: set<Held>, asked: set<Key>)
    requires !r.SessionRwlock? && !r.Outcome? && !r.WorkerExit? && Under(held, Rank(r, shared))
    ensures MayWait(role, Acquire(r, shared), held, asked) && Held(r, false) !in held && (!shared ==> Held(r, true) !in held)
  {
    assert Height(Held(r, false)) == Rank(r, true) == Rank(r, shared);
    assert Height(Held(r, true)) == Rank(r, false) == Rank(r, shared);
  }

  lemma PlainPass(role: Role, r: Res, rest: seq<Act>, held: set<Held>, asked: set<Key>)
    requires !r.SessionRwlock? && !r.Outcome? && !r.WorkerExit? && Under(held, Rank(r, false)) && Ordered(role, rest, held, asked)
    ensures Ordered(role, [Lock(r), Release(r)] + rest, held, asked)
  {
    PlainWait(role, r, false, held, asked);
    Pass(role, r, rest, held, asked);
  }

  lemma JoinOrdered(k: Key, rest: seq<Act>, held: set<Held>, asked: set<Key>)
    requires Held(SessionRwlock, true) in held && Under(held, 3) && k in asked && Ordered(Caller, rest, held, asked)
    ensures Ordered(Caller, [Lock(WorkerExit(k)), Release(WorkerExit(k))] + rest, held, asked)
  {
    assert Height(Held(WorkerExit(k), false)) == 3 && Height(Held(WorkerExit(k), true)) == 3;
    Pass(Caller, WorkerExit(k), rest, held, asked);
  }

  lemma FlagOrdered(k: Key, rest: seq<Act>, held: set<Held>, asked: set<Key>)
    requires Under(held, 3) && Ordered(Caller, rest, held, asked + {k})
    ensures Ordered(Caller, [Lock(StreamerMutex(k)), Raise(k), Release(StreamerMutex(k))] + rest, held, asked)
  {
    var m := StreamerMutex(k);
    PlainWait(Caller, m, false, held, asked);
    Give(Caller, m, false, rest, held, asked + {k});
    Ask(Caller, k, [Release(m)] + rest, held + {Held(m, false)}, asked);
    Enter(Caller, m, false, [Raise(k)] + ([Release(m)] + rest), held, asked);
    assert [Lock(m), Raise(k), Release(m)] + rest == [Lock(m)] + ([Raise(k)] + ([Release(m)] + rest));
  }

  lemma FinishOrdered(c: Closing, rest: seq<Act>, held: set<Held>, asked: set<Key>)
    requires Held(SessionRwlock, true) in held && Under(held, 3) && Ordered(Caller, rest, held, asked + {c.k})
    ensures Ordered(Caller, Finish(c) + rest, held, asked)
  {
    var tail := if c.worker then [Lock(WorkerExit(c.k)), Release(WorkerExit(c.k))] + rest else rest;
    if c.worker { JoinOrdered(c.k, rest, held, asked + {c.k}); }
    if c.streamer {
      FlagOrdered(c.k, tail, held, asked);
      assert Finish(c) + rest == [Lock(StreamerMutex(c.k)), Raise(c.k), Release(StreamerMutex(c.k))] + tail;
    } else {
      Ask(Caller, c.k, tail, held, asked);
      assert Finish(c) + rest == [Raise(c.k)] + tail;
    }
  }

  lemma UnderMore(held: set<Held>, h: Held, n: nat, m: nat)
    requires Under(held, n) && n <= m && Height(h) < m
    ensures Under(held + {h}, m)
  {
  }

  lemma CloseOrdered(c: Closing, rest: seq<Act>, held: set<Held>, asked: set<Key>)
    requires Held(SessionRwlock, true) in held && Under(held, 2) && Ordered(Caller, rest, held, asked + {c.k})
    ensures Ordered(Caller, Close(c) + rest, held, asked)
  {
    var m := CbMutex(c.k);
    PlainWait(Caller, m, false, held, asked);
    Give(Caller, m, false, rest, held, asked + {c.k});
    UnderMore(held, Held(m, false), 2, 3);
    FinishOrdered(c, [Release(m)] + rest, held + {Held(m, false)}, asked);
    Enter(Caller, m, false, Finish(c) + ([Release(m)] + rest), held, asked);
    assert Close(c) + rest == [Lock(m)] + (Finish(c) + ([Release(m)] + rest));
  }

  lemma {:induction false} MoreAsked(role: Role, todo: seq<Act>, held: set<Held>, asked: set<Key>, more: set<Key>)
    requires Ordered(role, todo, held, asked) && asked <= more
    ensures Ordered(role, todo, held, more)
    decreases |todo|
  {
    if todo != [] {
      match todo[0] {
        case Acquire(_, _) => MoreAsked(role, todo[1..], After(held, todo[0]), asked, more);
        case Try(_, skip) =>
          MoreAsked(role, todo[1..], After(held, todo[0]), asked, more);
          MoreAsked(role, todo[1 + skip..], held, asked, more);
        case Release(_) => MoreAsked(role, todo[1..], After(held, todo[0]), asked, more);
        case Raise(k) => MoreAsked(role, todo[1..], held, asked + {k}, more + {k});
      }
    }
  }

  lemma {:induction false} ClosesOrdered(cs: seq<Closing>, rest: seq<Act>, held: set<Held>, asked: set<Key>)
    requires Held(SessionRwlock, true) in held && Under(held, 2) && Ordered(Caller, rest, held, asked)
    ensures Ordered(Caller, Closes(cs) + rest, held, asked)
    decreases |cs|
  {
    if cs == [] {
      assert Closes(cs) + rest == rest;
    } else {
      ClosesOrdered(cs[1..], rest, held, asked);
      MoreAsked(Caller, Closes(cs[1..]) + rest, held, asked, asked + {cs[0].k});
      CloseOrdered(cs[0], Closes(cs[1..]) + rest, held, asked);
      assert Closes(cs) + rest == Close(cs[0]) + (Closes(cs[1..]) + rest);
    }
  }

  lemma FeedOrdered(k: Key, rest: seq<Act>, held: set<Held>, asked: set<Key>)
    requires Under(held, 2) && Ordered(Caller, rest, held, asked)
    ensures Ordered(Caller, Feed(k) + rest, held, asked)
  {
    var m := CbMutex(k);
    var inside := held + {Held(m, false)};
    PlainWait(Caller, m, false, held, asked);
    UnderMore(held, Held(m, false), 2, 3);
    Give(Caller, m, false, rest, held, asked);
    PlainPass(Caller, StreamerMutex(k), [Release(m)] + rest, inside, asked);
    PlainPass(Caller, BufferMutex(k), [Lock(StreamerMutex(k)), Release(StreamerMutex(k))] + ([Release(m)] + rest), inside, asked);
    var todo := Feed(k) + rest;
    assert todo[1..] == [Lock(BufferMutex(k)), Release(BufferMutex(k))]
      + ([Lock(StreamerMutex(k)), Release(StreamerMutex(k))] + ([Release(m)] + rest));
    assert todo[1 + 5..] == rest;
  }

  lemma {:induction false} FeedsOrdered(ks: seq<Key>, rest: seq<Act>, held: set<Held>, asked: set<Key>)
    requires Under(held, 2) && Ordered(Caller, rest, held, asked)
    ensures Ordered(Caller, Feeds(ks) + rest, held, asked)
    decreases |ks|
  {
    if ks == [] {
      assert Feeds(ks) + rest == rest;
    } else {
      FeedsOrdered(ks[1..], rest, held, asked);
      FeedOrdered(ks[0], Feeds(ks[1..]) + rest, held, asked);
      assert Feeds(ks) + rest == Feed(ks[0]) + (Feeds(ks[1..]) + rest);
    }
  }

  const READS: set<Held> := {Held(SessionRwlock, true)}

  /** Inside the session, holding nothing else. */
  lemma ReadsOrdered(rest: seq<Act>, asked: set<Key>)
    requires Ordered(Caller, rest, READS, asked)
    ensures Ordered(Caller, [LOCATE] + rest, {}, asked)
  {
    assert {} + {Held(SessionRwlock, true)} == READS;
    Enter(Caller, SessionRwlock, true, rest, {}, asked);
  }

  lemma LeavesSession(asked: set<Key>)
    ensures Ordered(Caller, [Release(SessionRwlock)], READS, asked) && Under(READS, 1)
  {
    assert {} + {Held(SessionRwlock, true)} == READS && [Release(SessionRwlock)] + [] == [Release(SessionRwlock)];
    Give(Caller, SessionRwlock, true, [], {}, asked);
  }

  const REMOVES: set<Held> := {Held(SessionRwlock, true), Held(BugRwlock, false)}

  /** The end of a removal: bug_rwlock, then the session. */
  lemma RemovedOrdered(asked: set<Key>)
    ensures Ordered(Caller, [Release(BugRwlock), Release(SessionRwlock)], REMOVES, asked) && Under(REMOVES, 2)
  {
    LeavesSession(asked);
    Give(Caller, BugRwlock, false, [Release(SessionRwlock)], READS, asked);
    assert READS + {Held(BugRwlock, false)} == REMOVES;
    assert [Release(BugRwlock), Release(SessionRwlock)] == [Release(BugRwlock)] + [Release(SessionRwlock)];
  }

  lemma RemoveOrdered(rest: seq<Act>, asked: set<Key>)
    requires Ordered(Caller, rest, REMOVES, asked)
    ensures Ordered(Caller, [Lock(BugRwlock)] + rest, READS, asked)
  {
    assert READS + {Held(BugRwlock, false)} == REMOVES;
    PlainWait(Caller, BugRwlock, false, READS, asked);
    Enter(Caller, BugRwlock, false, rest, READS, asked);
  }

  /** The removal of the bug runs the CLOSE again, in the bug's own lock. */
  function Removal(k: Key): seq<Act> {
    [Lock(BugRwlock)] + (Close(Closing(k, false, false)) + [Release(BugRwlock), Release(SessionRwlock)])
  }

  lemma RemovalOrdered(k: Key, asked: set<Key>)
    ensures Ordered(Caller, Removal(k), READS, asked + {k})
  {
    hide Ordered, Close;
    var again, last := Closing(k, false, false), [Release(BugRwlock), Release(SessionRwlock)];
    RemovedOrdered(asked + {k} + {k});
    CloseOrdered(again, last, REMOVES, asked + {k});
    RemoveOrdered(Close(again) + last, asked + {k});
  }

  lemma StopOrdered(c: Closing, asked: set<Key>)
    ensures Ordered(Caller, Code(Stop(c)), {}, asked)
  {
    hide Ordered, Close;
    RemovalOrdered(c.k, asked);
    LeavesSession(asked);
    CloseOrdered(c, Removal(c.k), READS, asked);
    ReadsOrdered(Close(c) + Removal(c.k), asked);
    assert Code(Stop(c)) == [LOCATE] + (Close(c) + Removal(c.k));
  }

  lemma LostStopOrdered(k: Key, asked: set<Key>)
    ensures Ordered(Caller, Code(LostStop(k)), {}, asked)
  {
    LeavesSession(asked);
    PlainPass(Caller, CbMutex(k), [Release(SessionRwlock)], READS, asked);
    ReadsOrdered([Lock(CbMutex(k)), Release(CbMutex(k))] + [Release(SessionRwlock)], asked);
    assert Code(LostStop(k)) == [LOCATE] + ([Lock(CbMutex(k)), Release(CbMutex(k))] + [Release(SessionRwlock)]);
  }

  lemma OrphanOrdered(c: Closing, asked: set<Key>)
    ensures Ordered(Caller, Code(Orphan(c)), {}, asked)
  {
    LeavesSession(asked + {c.k});
    FinishOrdered(c, [Release(SessionRwlock)], READS, asked);
    ReadsOrdered(Finish(c) + [Release(SessionRwlock)], asked);
    assert Code(Orphan(c)) == [LOCATE] + (Finish(c) + [Release(SessionRwlock)]);
  }

  lemma HangupOrdered(cs: seq<Closing>, asked: set<Key>)
    ensures Ordered(Caller, Code(Hangup(cs)), {}, asked)
  {
    var last := [Release(BugRwlock), Release(SessionRwlock)];
    RemovedOrdered(asked);
    ClosesOrdered(cs, last, REMOVES, asked);
    RemoveOrdered(Closes(cs) + last, asked);
    ReadsOrdered([Lock(BugRwlock)] + (Closes(cs) + last), asked);
    assert Code(Hangup(cs)) == [LOCATE] + ([Lock(BugRwlock)] + (Closes(cs) + last));
  }

  lemma FrameOrdered(ks: seq<Key>, asked: set<Key>)
    ensures Ordered(Caller, Code(Frame(ks)), {}, asked)
  {
    var held := {} + {Held(BugRwlock, true)};
    Give(Caller, BugRwlock, true, [], {}, asked);
    assert [Release(BugRwlock)] + [] == [Release(BugRwlock)];
    FeedsOrdered(ks, [Release(BugRwlock)], held, asked);
    Enter(Caller, BugRwlock, true, Feeds(ks) + [Release(BugRwlock)], {}, asked);
    assert Code(Frame(ks)) == [Acquire(BugRwlock, true)] + (Feeds(ks) + [Release(BugRwlock)]);
  }

  lemma DestroyOrdered(asked: set<Key>)
    ensures Ordered(Caller, Code(Destroy), {}, asked)
  {
    Pass(Caller, SessionRwlock, [], {}, asked);
    assert Code(Destroy) == [Lock(SessionRwlock), Release(SessionRwlock)] + [];
  }

  lemma CallOrdered(call: Call, asked: set<Key>)
    requires !call.UnsafeStop?
    ensures Ordered(Caller, Code(call), {}, asked)
  {
    hide Ordered, Code;
    match call {
      case Stop(c) => StopOrdered(c, asked);
      case LostStop(k) => LostStopOrdered(k, asked);
      case Orphan(c) => OrphanOrdered(c, asked);
      case Hangup(cs) => HangupOrdered(cs, asked);
      case Frame(ks) => FrameOrdered(ks, asked);
      case Destroy => DestroyOrdered(asked);
    }
  }

  // ---------------------------------------------------------------- the worker and the SDK

  /** Reading the session with nothing but one's own base. */
  lemma VisitOrdered(role: Role, rest: seq<Act>, asked: set<Key>)
    requires Under(Base(role), 5) && Ordered(role, rest, Base(role), asked)
    requires Held(SessionRwlock, false) !in Base(role) && Held(SessionRwlock, true) !in Base(role)
    ensures Ordered(role, DELIVER + rest, Base(role), asked)
  {
    Give(role, SessionRwlock, true, rest, Base(role), asked);
    Enter(role, SessionRwlock, true, [Release(SessionRwlock)] + rest, Base(role), asked);
    assert DELIVER + rest == [LOCATE] + ([Release(SessionRwlock)] + rest);
  }

  lemma TurnOrdered(k: Key, deliver: bool, rest: seq<Act>, asked: set<Key>)
    requires Ordered(Worker(k), rest, Base(Worker(k)), asked)
    ensures Ordered(Worker(k), Turn(k, deliver) + rest, Base(Worker(k)), asked)
  {
    var tail := if deliver then DELIVER + rest else rest;
    if deliver { VisitOrdered(Worker(k), rest, asked); }
    PlainPass(Worker(k), StreamerMutex(k), tail, Base(Worker(k)), asked);
    assert Turn(k, deliver) + rest == [Lock(StreamerMutex(k)), Release(StreamerMutex(k))] + tail;
  }

  lemma ExitOrdered(k: Key, asked: set<Key>)
    ensures Ordered(Worker(k), [Release(WorkerExit(k))], Base(Worker(k)), asked)
  {
    assert {} + {Held(WorkerExit(k), false)} == Base(Worker(k)) && [Release(WorkerExit(k))] + [] == [Release(WorkerExit(k))];
    Give(Worker(k), WorkerExit(k), false, [], {}, asked);
  }

  lemma LeaveOrdered(k: Key, deliver: bool, asked: set<Key>)
    ensures Ordered(Worker(k), Leave(k, deliver), Base(Worker(k)), asked)
  {
    ExitOrdered(k, asked);
    TurnOrdered(k, deliver, [Release(WorkerExit(k))], asked);
    Pass(Worker(k), Outcome(k), Turn(k, deliver) + [Release(WorkerExit(k))], Base(Worker(k)), asked);
    assert Leave(k, deliver) == [Lock(Outcome(k)), Release(Outcome(k))] + (Turn(k, deliver) + [Release(WorkerExit(k))]);
  }

  lemma WorkerOrdered(k: Key, asked: set<Key>)
    ensures Ordered(Worker(k), DELIVER, Base(Worker(k)), asked)
  {
    VisitOrdered(Worker(k), [], asked);
    assert DELIVER + [] == DELIVER;
  }

  lemma TranscriptOrdered(k: Key, asked: set<Key>)
    ensures Ordered(Sdk(k), Transcript(k), Base(Sdk(k)), asked)
  {
    PlainPass(Sdk(k), StreamerMutex(k), [], Base(Sdk(k)), asked);
    assert Transcript(k) == [Lock(StreamerMutex(k)), Release(StreamerMutex(k))] + [];
  }

  /** The drain, inside the session. */
  lemma DrainOrdered(k: Key, rest: seq<Act>, held: set<Held>, asked: set<Key>)
    requires Under(held, 5) && Ordered(Sdk(k), rest, held, asked)
    ensures Ordered(Sdk(k), [Lock(BufferMutex(k)), Lock(StreamerMutex(k)), Release(StreamerMutex(k)), Release(BufferMutex(k))] + rest,
                    held, asked)
  {
    var b, m := BufferMutex(k), StreamerMutex(k);
    PlainWait(Sdk(k), b, false, held, asked);
    Give(Sdk(k), b, false, rest, held, asked);
    UnderMore(held, Held(b, false), 5, 6);
    PlainPass(Sdk(k), m, [Release(b)] + rest, held + {Held(b, false)}, asked);
    Enter(Sdk(k), b, false, [Lock(m), Release(m)] + ([Release(b)] + rest), held, asked);
    assert [Lock(b), Lock(m), Release(m), Release(b)] + rest == [Lock(b)] + ([Lock(m), Release(m)] + ([Release(b)] + rest));
  }

  lemma ReadyOrdered(k: Key, asked: set<Key>)
    ensures Ordered(Sdk(k), StreamReady(k), Base(Sdk(k)), asked)
  {
    var held := Base(Sdk(k)) + {Held(SessionRwlock, true)};
    TranscriptOrdered(k, asked);
    Give(Sdk(k), SessionRwlock, true, Transcript(k), Base(Sdk(k)), asked);
    UnderMore(Base(Sdk(k)), Held(SessionRwlock, true), 5, 5);
    var out := [Release(SessionRwlock)] + Transcript(k);
    DrainOrdered(k, out, held, asked);
    var drain := [Lock(BufferMutex(k)), Lock(StreamerMutex(k)), Release(StreamerMutex(k)), Release(BufferMutex(k))];
    Enter(Sdk(k), SessionRwlock, true, drain + out, Base(Sdk(k)), asked);
    assert StreamReady(k) == [LOCATE] + (drain + out);
  }

  lemma FinalOrdered(k: Key, asked: set<Key>)
    ensures Ordered(Sdk(k), Final(k), Base(Sdk(k)), asked)
  {
    var m, r := StreamerMutex(k), Sdk(k);
    var reading := {} + {Held(SessionRwlock, true)};
    Give(r, SessionRwlock, true, [], {}, asked);
    assert [Release(SessionRwlock)] + [] == [Release(SessionRwlock)];
    Give(r, m, false, [Release(SessionRwlock)], reading, asked);
    var both := reading + {Held(m, false)};
    Give(r, Outcome(k), false, [Release(m)] + [Release(SessionRwlock)], both, asked);
    var held := Base(r) + {Held(SessionRwlock, true)};
    assert held + {Held(m, false)} == both + {Held(Outcome(k), false)};
    PlainWait(r, m, false, held, asked);
    var out := [Release(Outcome(k))] + ([Release(m)] + [Release(SessionRwlock)]);
    Enter(r, m, false, out, held, asked);
    Enter(r, SessionRwlock, true, [Lock(m)] + out, Base(r), asked);
    assert Final(k) == [LOCATE] + ([Lock(m)] + out);
  }

  // ---------------------------------------------------------------- every run

  predicate ThreadOk(x: Thread, asked: set<Key>) {
    Ordered(x.role, x.todo, x.held, asked)
  }

  ghost predicate Inv(s: Sys) {
    forall t :: t in s.threads ==> ThreadOk(s.threads[t], s.asked)
  }

  /** One thread goes on with a program in order; the others at most see one more stop. */
  lemma PutKeeps(s: Sys, t: Tid, x: Thread, s': Sys)
    requires Inv(s) && s'.threads == s.threads[t := x] && s.asked <= s'.asked && ThreadOk(x, s'.asked)
    ensures Inv(s')
  {
    hide Ordered;
    forall u | u in s'.threads ensures ThreadOk(s'.threads[u], s'.asked) {
      if u != t {
        var y := s.threads[u];
        assert ThreadOk(y, s.asked);
        MoreAsked(y.role, y.todo, y.held, s.asked, s'.asked);
      }
    }
  }

  lemma RunOneKeeps(s: Sys, t: Tid, safe: bool)
    requires Inv(s) && Enabled(s, Run(t), safe)
    ensures Inv(Apply(s, Run(t), safe))
  {
    var s' := Apply(s, Run(t), safe);
    var x := s.threads[t];
    assert ThreadOk(x, s.asked);
    assert Ordered(x.role, x.todo[1..], After(x.held, x.todo[0]), s'.asked);
    PutKeeps(s, t, s'.threads[t], s');
  }

  lemma GiveUpKeeps(s: Sys, t: Tid, safe: bool)
    requires Inv(s) && Enabled(s, GiveUp(t), safe)
    ensures Inv(Apply(s, GiveUp(t), safe))
  {
    var s' := Apply(s, GiveUp(t), safe);
    assert ThreadOk(s.threads[t], s.asked);
    PutKeeps(s, t, s'.threads[t], s');
  }

  lemma CreateKeeps(s: Sys, step: Step)
    requires Inv(s) && Enabled(s, step, true) && (step.Spawn? || step.Begin? || step.Issue?)
    ensures Inv(Apply(s, step, true))
  {
    hide Ordered, Code, Inv;
    match step {
      case Spawn(_, call) => CallOrdered(call, s.asked);
      case Begin(_, k) => WorkerOrdered(k, s.asked);
      case Issue(_, k) => IdleOrdered(Sdk(k), s.asked);
    }
    PutKeeps(s, step.t, Apply(s, step, true).threads[step.t], Apply(s, step, true));
  }

  lemma IdleOrdered(role: Role, asked: set<Key>)
    ensures Ordered(role, [], Base(role), asked)
  {
  }

  lemma WorkerKeeps(s: Sys, step: Step, safe: bool)
    requires Inv(s) && Enabled(s, step, safe) && (step.Turns? || step.Leaves? || step.Quits?)
    ensures Inv(Apply(s, step, safe))
  {
    hide Ordered, Inv, Turn, Leave;
    var k := s.threads[step.t].role.k;
    match step {
      case Turns(_, deliver, last) =>
        LeaveOrdered(k, last, s.asked);
        IdleOrdered(Worker(k), s.asked);
        TurnOrdered(k, deliver, if k in s.asked && k in s.started then Leave(k, last) else [], s.asked);
      case Leaves(_, last) => LeaveOrdered(k, last, s.asked);
      case Quits(_) => ExitOrdered(k, s.asked);
    }
    PutKeeps(s, step.t, Apply(s, step, safe).threads[step.t], Apply(s, step, safe));
  }

  lemma SdkKeeps(s: Sys, step: Step, safe: bool)
    requires Inv(s) && Enabled(s, step, safe) && (step.Ready? || step.Hears? || step.Ends?)
    ensures Inv(Apply(s, step, safe))
  {
    hide Ordered, Inv, StreamReady, Transcript, Final;
    var k := s.threads[step.t].role.k;
    match step {
      case Ready(_) => ReadyOrdered(k, s.asked);
      case Hears(_) => TranscriptOrdered(k, s.asked);
      case Ends(_) => FinalOrdered(k, s.asked);
    }
    PutKeeps(s, step.t, Apply(s, step, safe).threads[step.t], Apply(s, step, safe));
  }

  lemma StepKeeps(s: Sys, step: Step)
    requires Inv(s) && Enabled(s, step, true)
    ensures Inv(Apply(s, step, true))
  {
    hide Inv, Apply, Enabled;
    if step.Run? {
      RunOneKeeps(s, step.t, true);
    } else if step.GiveUp? {
      GiveUpKeeps(s, step.t, true);
    } else if step.Spawn? || step.Begin? || step.Issue? {
      CreateKeeps(s, step);
    } else if step.Turns? || step.Leaves? || step.Quits? {
      WorkerKeeps(s, step, true);
    } else {
      SdkKeeps(s, step, true);
    }
  }

  lemma {:induction false} RunKeeps(s: Sys, run: seq<Step>)
    requires Inv(s) && ValidRun(s, run, true)
    ensures Inv(Exec(s, run, true))
    decreases |run|
  {
    hide Inv;
    if run != [] {
      StepKeeps(s, run[0]);
      RunKeeps(Apply(s, run[0], true), run[1..]);
    }
  }

  // ---------------------------------------------------------------- no circle, no standstill

  /** What the invariant says about a thread that waits. */
  lemma WaitingOk(s: Sys, t: Tid)
    requires Inv(s) && Waits(s, t)
    ensures MayWait(s.threads[t].role, Wanted(s, t), s.threads[t].held, s.asked)
  {
    assert ThreadOk(s.threads[t], s.asked);
  }

  lemma WaitClimbs(s: Sys, t: Tid, u: Tid)
    requires Inv(s) && WaitsFor(s, t, u) && Waits(s, u)
    ensures RankOf(Wanted(s, t)) < RankOf(Wanted(s, u))
  {
    WaitingOk(s, u);
    var a := Wanted(s, t);
    var h := if Held(a.r, false) in s.threads[u].held then Held(a.r, false) else Held(a.r, true);
    assert h in s.threads[u].held && RankOf(a) <= Height(h);
  }

  lemma {:induction false} ChainClimbs(s: Sys, ts: seq<Tid>)
    requires Inv(s) && |ts| > 1 && Waits(s, ts[0]) && Chain(s, ts) && Waits(s, ts[|ts| - 1])
    ensures RankOf(Wanted(s, ts[0])) < RankOf(Wanted(s, ts[|ts| - 1]))
    decreases |ts|
  {
    assert WaitsFor(s, ts[0], ts[1]);
    if |ts| > 2 {
      assert WaitsFor(s, ts[1], ts[2]);
      forall i | 0 <= i < |ts| - 2 ensures WaitsFor(s, ts[1..][i], ts[1..][i + 1]) {
        assert WaitsFor(s, ts[i + 1], ts[i + 2]);
      }
      ChainClimbs(s, ts[1..]);
    }
    WaitClimbs(s, ts[0], ts[1]);
  }

  lemma NoCircle(s: Sys, ts: seq<Tid>)
    requires Inv(s)
    ensures !Deadlocked(s, ts)
  {
    if Deadlocked(s, ts) {
      assert WaitsFor(s, ts[0], ts[1]);
      ChainClimbs(s, ts);
    }
  }

  /** No reachable state, with any number of transcriptions, stops, hangups, frames, callbacks
      and deliveries, has a circle of waiting threads. */
  lemma NoDeadlock(run: seq<Step>, ts: seq<Tid>)
    requires ValidRun(START, run, true)
    ensures !Deadlocked(Exec(START, run, true), ts)
  {
    RunKeeps(START, run);
    NoCircle(Exec(START, run, true), ts);
  }

  /** A failed try moves on too; a sleeping worker that does not wait for its outcome only if it
      was asked to stop; and the SDK owes the outcome of every request. */
  predicate CanMove(s: Sys, x: Thread) {
    || CanRun(s, x)
    || (x.todo != [] && x.todo[0].Try?)
    || (x.todo == [] && Asleep(x) && x.role.k in s.asked)
    || Resting(x)
  }

  /** Who keeps another thread waiting and does not wait itself can move. */
  lemma HolderMoves(s: Sys, t: Tid, u: Tid)
    requires Inv(s) && WaitsFor(s, t, u) && !Waits(s, u)
    ensures CanMove(s, s.threads[u])
  {
    var x := s.threads[u];
    assert ThreadOk(x, s.asked);
    WaitingOk(s, t);
    if x.todo == [] {
      assert x.held == Base(x.role);
    }
    hide Free;
  }

  /** Wherever a thread waits, some thread can move: the one found by following the waits. */
  lemma {:induction false} SomeoneMoves(s: Sys, t: Tid) returns (u: Tid)
    requires Inv(s) && Waits(s, t)
    ensures u in s.threads && CanMove(s, s.threads[u])
    decreases 7 - RankOf(Wanted(s, t))
  {
    hide Inv;
    if CanRun(s, s.threads[t]) {
      u := t;
    } else {
      var holder :| holder in s.threads && Blocks(s.threads[holder], Wanted(s, t).r, Wanted(s, t).shared);
      assert WaitsFor(s, t, holder);
      if Waits(s, holder) {
        WaitClimbs(s, t, holder);
        u := SomeoneMoves(s, holder);
      } else {
        HolderMoves(s, t, holder);
        u := holder;
      }
    }
  }

  /** In every reachable state in which some thread waits, some thread can move: one that has a
      next action, a worker that a stop wakes up, or a request whose outcome the SDK still owes. */
  lemma NoStandstill(run: seq<Step>, t: Tid)
    requires ValidRun(START, run, true) && Waits(Exec(START, run, true), t)
    ensures var s := Exec(START, run, true); exists u :: u in s.threads && CanMove(s, s.threads[u])
  {
    RunKeeps(START, run);
    var u := SomeoneMoves(Exec(START, run, true), t);
  }

  // ---------------------------------------------------------------- if readers queued behind a writer

  /** `t` waits to read the session while `u` waits to write it: `t` is behind `u` if the lock
      lets no reader pass a waiting writer. */
  predicate Queued(s: Sys, t: Tid, u: Tid) {
    Waits(s, t) && Waits(s, u) && Wanted(s, t) == LOCATE && Wanted(s, u) == Lock(SessionRwlock)
  }

  /** Who `t` waits for if a waiting writer keeps new readers out. */
  predicate WaitsBehind(s: Sys, t: Tid, u: Tid) {
    WaitsFor(s, t, u) || Queued(s, t, u)
  }

  predicate QueueCircle(s: Sys, ts: seq<Tid>) {
    |ts| > 1 && ts[0] == ts[|ts| - 1] && forall i :: 0 <= i < |ts| - 1 ==> WaitsBehind(s, ts[i], ts[i + 1])
  }

  predicate Locates(s: Sys, t: Tid, role: Role) {
    Waits(s, t) && Wanted(s, t) == LOCATE && s.threads[t].role == role
  }

  predicate Wants(s: Sys, t: Tid, r: Res) {
    Waits(s, t) && Wanted(s, t) == Lock(r)
  }

  /** The worker is about to read the session, somebody joins it, and somebody waits to destroy
      the session. */
  predicate WorkerMeets(s: Sys, k: Key, worker: Tid, joiner: Tid, writer: Tid) {
    Locates(s, worker, Worker(k)) && Wants(s, joiner, WorkerExit(k)) && Wants(s, writer, SessionRwlock)
  }

  /** Somebody joins the worker, the worker waits for the outcome, the SDK thread that owes it
      is about to read the session, and somebody waits to destroy the session. */
  predicate OutcomeMeets(s: Sys, k: Key, sdk: Tid, worker: Tid, joiner: Tid, writer: Tid) {
    && Locates(s, sdk, Sdk(k)) && Wants(s, worker, Outcome(k))
    && Wants(s, joiner, WorkerExit(k)) && Wants(s, writer, SessionRwlock)
  }

  ghost predicate Meeting(s: Sys) {
    || (exists k, worker, joiner, writer :: WorkerMeets(s, k, worker, joiner, writer))
    || (exists k, sdk, worker, joiner, writer :: OutcomeMeets(s, k, sdk, worker, joiner, writer))
  }

  /** Who joins reads the session, so the writer waits for it. */
  lemma WriterWaits(s: Sys, k: Key, joiner: Tid, writer: Tid)
    requires Inv(s) && Wants(s, joiner, WorkerExit(k)) && Wants(s, writer, SessionRwlock)
    ensures WaitsFor(s, writer, joiner)
  {
    WaitingOk(s, joiner);
  }

  /** Who waits to read the session holds its base and nothing else. */
  lemma LocaterHolds(s: Sys, t: Tid, role: Role)
    requires Inv(s) && Locates(s, t, role)
    ensures s.threads[t].held == Base(role)
  {
    WaitingOk(s, t);
  }

  lemma AwaiterHolds(s: Sys, t: Tid, k: Key)
    requires Inv(s) && Wants(s, t, Outcome(k))
    ensures s.threads[t].role == Worker(k) && s.threads[t].held == Base(Worker(k))
  {
    WaitingOk(s, t);
  }

  lemma WorkerCircles(s: Sys, k: Key, worker: Tid, joiner: Tid, writer: Tid)
    requires Inv(s) && WorkerMeets(s, k, worker, joiner, writer)
    ensures QueueCircle(s, [worker, writer, joiner, worker])
  {
    hide Inv;
    LocaterHolds(s, worker, Worker(k));
    WriterWaits(s, k, joiner, writer);
    var ts := [worker, writer, joiner, worker];
    assert WaitsBehind(s, ts[0], ts[1]) && WaitsBehind(s, ts[1], ts[2]) && WaitsBehind(s, ts[2], ts[3]);
  }

  lemma OutcomeCircles(s: Sys, k: Key, sdk: Tid, worker: Tid, joiner: Tid, writer: Tid)
    requires Inv(s) && OutcomeMeets(s, k, sdk, worker, joiner, writer)
    ensures QueueCircle(s, [sdk, writer, joiner, worker, sdk])
  {
    hide Inv;
    LocaterHolds(s, sdk, Sdk(k));
    AwaiterHolds(s, worker, k);
    WriterWaits(s, k, joiner, writer);
    var ts := [sdk, writer, joiner, worker, sdk];
    assert WaitsBehind(s, ts[0], ts[1]) && WaitsBehind(s, ts[1], ts[2]);
    assert WaitsBehind(s, ts[2], ts[3]) && WaitsBehind(s, ts[3], ts[4]);
  }

  /** The place before `i` in a circle. */
  function Before(ts: seq<Tid>, i: nat): (j: nat)
    requires |ts| > 1 && i < |ts| - 1 && ts[0] == ts[|ts| - 1]
    ensures j < |ts| - 1 && ts[j + 1] == ts[i]
  {
    if i == 0 then |ts| - 2 else i - 1
  }

  /** Somebody waits behind a writer; whoever is behind that one in turn waits for the base it holds. */
  lemma BehindLocater(s: Sys, t: Tid, v: Tid)
    requires Inv(s) && Waits(s, t) && Wanted(s, t) == LOCATE && WaitsBehind(s, v, t)
    ensures s.threads[t].role.Worker? ==> Wants(s, v, WorkerExit(s.threads[t].role.k))
    ensures s.threads[t].role.Sdk? ==> Wants(s, v, Outcome(s.threads[t].role.k))
    ensures !s.threads[t].role.Caller?
  {
    WaitingOk(s, t);
    WaitingOk(s, v);
    hide Inv;
  }

  lemma BehindAwaiter(s: Sys, v: Tid, w: Tid, k: Key)
    requires Inv(s) && Wants(s, v, Outcome(k)) && WaitsBehind(s, w, v)
    ensures Wants(s, w, WorkerExit(k))
  {
    AwaiterHolds(s, v, k);
    WaitingOk(s, w);
    hide Inv;
  }

  lemma CircleMeets(s: Sys, ts: seq<Tid>)
    requires Inv(s) && QueueCircle(s, ts)
    ensures Meeting(s)
  {
    if forall i :: 0 <= i < |ts| - 1 ==> WaitsFor(s, ts[i], ts[i + 1]) {
      NoCircle(s, ts);
    } else {
      var i :| 0 <= i < |ts| - 1 && !WaitsFor(s, ts[i], ts[i + 1]);
      assert WaitsBehind(s, ts[i], ts[i + 1]);
      LocaterMeets(s, ts, i);
    }
  }

  lemma LocaterMeets(s: Sys, ts: seq<Tid>, i: nat)
    requires Inv(s) && QueueCircle(s, ts) && i < |ts| - 1 && Queued(s, ts[i], ts[i + 1])
    ensures Meeting(s)
  {
    var j := Before(ts, i);
    var l := Before(ts, j);
    var t, u, v, w := ts[i], ts[i + 1], ts[j], ts[l];
    assert WaitsBehind(s, ts[j], ts[j + 1]) && WaitsBehind(s, ts[l], ts[l + 1]);
    hide Inv, QueueCircle, WaitsBehind;
    BehindLocater(s, t, v);
    if s.threads[t].role.Worker? {
      assert WorkerMeets(s, s.threads[t].role.k, t, v, u);
    } else {
      BehindAwaiter(s, v, w, s.threads[t].role.k);
      assert OutcomeMeets(s, s.threads[t].role.k, t, v, w, u);
    }
  }

  /** If a waiting writer kept new readers out, there would be a circle in a reachable state if
      and only if somebody joins a worker and somebody waits to destroy the session, while the
      worker is about to read the session, or it waits for an outcome and the SDK thread that
      owes it is about to. */
  lemma QueueingDeadlocksExactly(run: seq<Step>)
    requires ValidRun(START, run, true)
    ensures var s := Exec(START, run, true); (exists ts :: QueueCircle(s, ts)) <==> Meeting(s)
  {
    RunKeeps(START, run);
    var s := Exec(START, run, true);
    hide QueueCircle, Inv, WorkerMeets, OutcomeMeets;
    if ts :| QueueCircle(s, ts) {
      CircleMeets(s, ts);
    }
    if k, worker, joiner, writer :| WorkerMeets(s, k, worker, joiner, writer) {
      WorkerCircles(s, k, worker, joiner, writer);
    }
    if k, sdk, worker, joiner, writer :| OutcomeMeets(s, k, sdk, worker, joiner, writer) {
      OutcomeCircles(s, k, sdk, worker, joiner, writer);
    }
  }
}
