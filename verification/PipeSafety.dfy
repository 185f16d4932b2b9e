/** Safety of the pipe protocol over every run. */
module PipeSafety {
  import opened Common
  import opened PipeModel
  import opened PipeInv
  import opened PipeEvents

  lemma EmptyInv()
    ensures Inv(EMPTY)
  {
  }

  // ---------------------------------------------------------------- memory

  predicate Freed(s: Sys, p: PipeId) {
    p in s.pipes && s.pipes[p].client.Gone?
  }

  lemma FreedLocal(v: View)
    requires LocalInv(v) && Deleting(v.pipe.client)
    ensures v.pipe.client.Gone? ==> !v.inC && !v.inD && !v.inW
    ensures v.role.NoRole? || v.role == Clo(Detach)
    ensures v.pipe.closed || !v.pipe.issued
    ensures !Running(v)
  {
  }

  /** No list, and no local list of the service thread, names a freed pipe. */
  lemma NamedAlive(s: Sys, p: PipeId)
    requires Inv(s) && Freed(s, p)
    ensures p !in s.connects && p !in s.disconnects && p !in s.writes
    ensures p !in ServiceTouched(s)
  {
    hide LocalInv;
    FreedLocal(ViewOf(s, p));
  }

  /** No step of any run touches the memory of a pipe that has been deleted. */
  lemma NoUseAfterFree(run: seq<Step>, step: Step)
    requires ValidRun(EMPTY, run) && Enabled(Exec(EMPTY, run), step)
    ensures var s := Exec(EMPTY, run); forall p :: p in Touched(s, step) ==> p in s.pipes && !Freed(s, p)
  {
    EmptyInv();
    RunKeeps(EMPTY, run);
    var s := Exec(EMPTY, run);
    forall p | p in Touched(s, step) ensures p in s.pipes && !Freed(s, p) {
      TouchedAlive(s, step, p);
    }
  }

  lemma TouchedAlive(s: Sys, step: Step, p: PipeId)
    requires Inv(s) && Enabled(s, step) && p in Touched(s, step)
    ensures p in s.pipes && !Freed(s, p)
  {
    hide LocalInv;
    if Freed(s, p) {
      NamedAlive(s, p);
    }
    if step.OnReceive? {
      ReceiveAlive(s, step.w, p);
    }
  }

  lemma ReceiveAlive(s: Sys, w: Wsi, p: PipeId)
    requires Inv(s) && Enabled(s, OnReceive(w)) && p in Touched(s, OnReceive(w))
    ensures p in s.pipes && !Freed(s, p)
  {
    hide LocalInv;
    AttachedToOwner(s, w);
    if Freed(s, p) {
      FreedLocal(ViewOf(s, p));
    }
  }

  /** A pipe whose connect() was issued is deleted only after its close promise is set,
      and the three lists never name a deleted pipe. */
  lemma DeletedAfterPromise(run: seq<Step>, p: PipeId)
    requires ValidRun(EMPTY, run) && p in Exec(EMPTY, run).pipes
    ensures var s := Exec(EMPTY, run);
      && (Deleting(s.pipes[p].client) && s.pipes[p].issued ==> s.pipes[p].closed)
      && (Freed(s, p) ==> p !in s.connects && p !in s.disconnects && p !in s.writes)
  {
    EmptyInv();
    RunKeeps(EMPTY, run);
    var s := Exec(EMPTY, run);
    if Deleting(s.pipes[p].client) {
      FreedLocal(ViewOf(s, p));
    }
  }

  // ---------------------------------------------------------------- sockets

  /** The pipe whose socket the next step hands to lws_callback_on_writable. */
  function Asked(s: Sys): Option<PipeId> {
    match s.svc
    case DiscLoop(hits) => if hits != [] then Some(hits[0]) else None
    case WriteLoop(hits) => if hits != [] then Some(hits[0]) else None
    case _ => None
  }

  lemma HitLocal(v: View)
    requires LocalInv(v) && (v.role.DiscHit? || v.role.WriteHit?)
    ensures v.link.Linked? && v.link.attached && !v.link.phase.Shaking? && v.pipe.wsi.Some?
  {
  }

  /** lws_callback_on_writable is only ever called on a live socket: one that was
      established for this very pipe and whose CLOSED has not been delivered. */
  lemma AsksLiveSocket(run: seq<Step>)
    requires ValidRun(EMPTY, run) && Asked(Exec(EMPTY, run)).Some?
    ensures var s := Exec(EMPTY, run); var p := Asked(s).value;
      && p in s.pipes && s.pipes[p].wsi.Some? && s.pipes[p].wsi.value in s.socks
      && var k := s.socks[s.pipes[p].wsi.value];
         k.owner == p && k.attached == Some(p) && !k.phase.Shaking?
  {
    EmptyInv();
    RunKeeps(EMPTY, run);
    var s := Exec(EMPTY, run);
    var p := Asked(s).value;
    assert p in s.svc.hits;
    HitLocal(ViewOf(s, p));
  }

  lemma PushLocal(v: View, step: Step)
    requires LocalInv(v) && IsOwnerStep(step) && OwnerAt(v.pipe, step)
    requires var u := OwnerNext(v.pipe, step); u.d.Push? || u.w.Push?
    ensures v.pipe.vhd
  {
  }

  /** addPendingWrite and addPendingDisconnect never dereference a null m_vhd. */
  lemma PushesAdopted(run: seq<Step>, step: Step)
    requires ValidRun(EMPTY, run) && Enabled(Exec(EMPTY, run), step) && IsOwnerStep(step)
    requires var u := OwnerNext(Exec(EMPTY, run).pipes[step.p], step); u.d.Push? || u.w.Push?
    ensures Exec(EMPTY, run).pipes[step.p].vhd
  {
    EmptyInv();
    RunKeeps(EMPTY, run);
    PushLocal(ViewOf(Exec(EMPTY, run), step.p), step);
  }

  // ---------------------------------------------------------------- notifications

  /** CONNECT_FAIL alone, or CONNECT_SUCCESS, messages, and at most one terminal event. */
  predicate TraceShape(t: seq<Event>) {
    || t == []
    || t == [ConnectFail]
    || (&& t[0].ConnectSuccess?
        && (forall i :: 0 < i < |t| - 1 ==> t[i].Message?)
        && (|t| > 1 ==> t[|t| - 1].Message? || t[|t| - 1].Dropped? || t[|t| - 1].ClosedGracefully?))
  }

  predicate StillLive(t: seq<Event>) {
    t != [] && t[0].ConnectSuccess? && forall i :: 0 < i < |t| ==> t[i].Message?
  }

  lemma {:induction false} LiveShape(t: seq<Event>)
    ensures Classify(t) == Silent <==> t == []
    ensures Classify(t) == FailShown <==> t == [ConnectFail]
    ensures Classify(t) == Live <==> StillLive(t)
    decreases |t|
  {
    if t != [] {
      var h := t[..|t| - 1];
      LiveShape(h);
      assert t == h + [t[|t| - 1]];
      if StillLive(t) && h != [] {
        assert StillLive(h);
      }
    }
  }

  /** The automaton accepts exactly the traces of that shape. */
  lemma {:induction false} ShapeExact(t: seq<Event>)
    ensures Classify(t) != Malformed <==> TraceShape(t)
  {
    LiveShape(t);
    if t != [] {
      var h := t[..|t| - 1];
      LiveShape(h);
      assert t == h + [t[|t| - 1]];
      if TraceShape(t) && |t| > 1 {
        assert StillLive(h);
      }
    }
  }

  lemma NotMalformed(v: View)
    requires LocalInv(v)
    ensures v.shown != Malformed
  {
  }

  lemma TraceAlwaysWellShaped(run: seq<Step>, p: PipeId)
    requires ValidRun(EMPTY, run) && p in Exec(EMPTY, run).pipes
    ensures TraceShape(Exec(EMPTY, run).pipes[p].trace)
  {
    EmptyInv();
    RunKeeps(EMPTY, run);
    var s := Exec(EMPTY, run);
    NotMalformed(ViewOf(s, p));
    ShapeExact(s.pipes[p].trace);
  }

  // ---------------------------------------------------------------- the close handshake

  lemma WaitingLocal(v: View)
    requires LocalInv(v) && v.pipe.client.Waiting?
    ensures !v.role.Est? ==> !v.pipe.state.CONNECTED?
  {
  }

  /** Once the reaper's close() has returned and ESTABLISHED is not under way, the pipe is
      not left CONNECTED: neither order of close() and ESTABLISHED loses the request. */
  lemma CloseNeverLost(run: seq<Step>, p: PipeId)
    requires ValidRun(EMPTY, run)
    requires var s := Exec(EMPTY, run); p in s.pipes && s.pipes[p].client.Waiting? && !RoleOf(s.svc, p).Est?
    ensures !Exec(EMPTY, run).pipes[p].state.CONNECTED?
  {
    EmptyInv();
    RunKeeps(EMPTY, run);
    WaitingLocal(ViewOf(Exec(EMPTY, run), p));
  }

  lemma OwedLocal(v: View)
    requires LocalInv(v) && v.pipe.issued && !v.pipe.closed
    ensures v.inC || v.role.Todo? || v.link.Linked?
    ensures v.inC && !v.link.Linked? && !v.role.Todo? ==> v.pipe.state.IDLE? && v.covC
    ensures !v.inC && !v.role.Todo? ==> v.link.attached && !v.link.phase.Shaking?
  {
  }

  /** No reaper is orphaned: a pipe whose connect() was issued and whose promise is not set
      is in pendingConnects, or in the service thread's hands, or has an established
      socket that is owed a CLOSED callback; and one still IDLE will be looked at. */
  lemma NoOrphan(run: seq<Step>, p: PipeId)
    requires ValidRun(EMPTY, run)
    requires var s := Exec(EMPTY, run); p in s.pipes && s.pipes[p].issued && !s.pipes[p].closed
    ensures var s := Exec(EMPTY, run); var l := LinkOf(s, p);
      && (p in s.connects || RoleOf(s.svc, p).Todo? || (l.Linked? && l.attached && !l.phase.Shaking?))
      && (s.pipes[p].state.IDLE? ==> CoversConnect(s, p))
  {
    EmptyInv();
    RunKeeps(EMPTY, run);
    OwedLocal(ViewOf(Exec(EMPTY, run), p));
  }
}
