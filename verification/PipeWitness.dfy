/** A concrete run in which a connection ends without a terminal notification. */
module PipeWitness {
  import opened Common
  import opened PipeModel

  predicate Reached(run: seq<Step>, s: Sys) {
    ValidRun(EMPTY, run) && Exec(EMPTY, run) == s
  }

  lemma {:induction false} PipeRunExtends(s: Sys, run: seq<Step>, step: Step)
    requires ValidRun(s, run) && Enabled(Exec(s, run), step)
    ensures ValidRun(s, run + [step]) && Exec(s, run + [step]) == Apply(Exec(s, run), step)
    decreases |run|
  {
    if run == [] {
      assert (run + [step])[1..] == [];
    } else {
      assert (run + [step])[1..] == run[1..] + [step];
      PipeRunExtends(Apply(s, run[0]), run[1..], step);
    }
  }

  lemma Take(run: seq<Step>, s: Sys, step: Step, s': Sys) returns (longer: seq<Step>)
    requires Reached(run, s) && Enabled(s, step) && Apply(s, step) == s'
    ensures Reached(longer, s')
  {
    PipeRunExtends(EMPTY, run, step);
    longer := run + [step];
  }

  const PLAIN := Choice(None, true, None)
  const SOCKET := Choice(Some(7), true, None)

  /** Pipe 0 alone, nothing queued for disconnect or writing. */
  function One(q: Pipe, socks: map<Wsi, Sock>, connects: seq<PipeId>, svc: Svc, wake: bool): Sys {
    Sys(map[0 := q], socks, connects, [], [], svc, wake)
  }

  predicate PlainUpd(u: Upd) {
    (u.c.Same? || u.c.Push?) && u.d.Same? && u.w.Same?
  }

  lemma OwnerTake(run: seq<Step>, s: Sys, step: Step) returns (longer: seq<Step>)
    requires Reached(run, s) && s.pipes.Keys == {0} && IsOwnerStep(step) && step.p == 0
    requires OwnerAt(s.pipes[0], step) && Unlocked(s.svc, OwnerNext(s.pipes[0], step)) && PlainUpd(OwnerNext(s.pipes[0], step))
    ensures var u := OwnerNext(s.pipes[0], step);
      Reached(longer, One(u.pipe, s.socks, OnList(s.connects, 0, u.c), s.svc, s.wake || u.wake).(
        disconnects := s.disconnects, writes := s.writes))
  {
    var u := OwnerNext(s.pipes[0], step);
    longer := Take(run, s, step, Apply(s, step));
    assert Apply(s, step).pipes == map[0 := u.pipe];
  }

  lemma ServiceTake(run: seq<Step>, s: Sys, c: Choice, s': Sys) returns (longer: seq<Step>)
    requires Reached(run, s) && ServiceEnabled(s, c) && ServiceStep(s, c) == s'
    ensures Reached(longer, s')
  {
    longer := Take(run, s, Service(c), s');
  }

  const DIALING := FRESH_PIPE.(issued := true, client := Ready)
  const SHAKING := DIALING.(state := CONNECTING, vhd := true, wsi := Some(7))
  const UP := SHAKING.(state := CONNECTED)

  lemma Dial() returns (run: seq<Step>)
    ensures Reached(run, One(DIALING, map[], [0], SvcIdle, true))
  {
    run := Take([], EMPTY, Create(0), One(FRESH_PIPE, map[], [], SvcIdle, false));
    run := OwnerTake(run, One(FRESH_PIPE, map[], [], SvcIdle, false), Connect(0));
  }

  lemma Scan() returns (run: seq<Step>)
    ensures Reached(run, One(DIALING.(state := CONNECTING), map[], [0], ConnScan(1, [0]), false))
  {
    run := Dial();
    run := Take(run, One(DIALING, map[], [0], SvcIdle, true), WakeUp, One(DIALING, map[], [0], ConnScan(0, []), false));
    assert One(DIALING, map[], [0], ConnScan(0, []), false).pipes[0 := DIALING.(state := CONNECTING)]
        == map[0 := DIALING.(state := CONNECTING)];
    assert [] + [0] == [0];
    run := ServiceTake(run, One(DIALING, map[], [0], ConnScan(0, []), false), PLAIN,
      One(DIALING.(state := CONNECTING), map[], [0], ConnScan(1, [0]), false));
  }

  const SOCK := map[7 := Sock(0, Shaking, None, false)]

  lemma OpenSocket() returns (run: seq<Step>)
    ensures Reached(run, One(SHAKING, SOCK, [0], ConnLoop([]), false))
  {
    run := Scan();
    run := ServiceTake(run, One(DIALING.(state := CONNECTING), map[], [0], ConnScan(1, [0]), false), PLAIN,
      One(DIALING.(state := CONNECTING), map[], [0], ConnLoop([0]), false));
    assert One(DIALING.(state := CONNECTING), map[], [0], ConnLoop([0]), false).pipes[0 := SHAKING] == map[0 := SHAKING];
    assert [0][1..] == [];
    assert map[][7 := Sock(0, Shaking, None, false)] == SOCK;
    run := ServiceTake(run, One(DIALING.(state := CONNECTING), map[], [0], ConnLoop([0]), false), SOCKET,
      One(SHAKING, SOCK, [0], ConnLoop([]), false));
  }

  /** The rest of a pass with nothing to do. */
  lemma RestOfPass(run: seq<Step>, s: Sys) returns (longer: seq<Step>)
    requires Reached(run, s) && s.svc == ConnLoop([]) && s.disconnects == [] && s.writes == []
    ensures Reached(longer, s.(svc := SvcIdle))
  {
    longer := ServiceTake(run, s, PLAIN, s.(svc := DiscScan(0, [])));
    longer := ServiceTake(longer, s.(svc := DiscScan(0, [])), PLAIN, s.(svc := DiscLoop([])));
    longer := ServiceTake(longer, s.(svc := DiscLoop([])), PLAIN, s.(svc := WriteScan(0, [])));
    longer := ServiceTake(longer, s.(svc := WriteScan(0, [])), PLAIN, s.(svc := WriteLoop([])));
    longer := ServiceTake(longer, s.(svc := WriteLoop([])), PLAIN, s.(svc := SvcIdle));
  }

  const LIVE := map[7 := Sock(0, Open, Some(0), false)]

  lemma Accept() returns (run: seq<Step>)
    ensures Reached(run, One(UP, LIVE, [], EstCb(0, 7, ReadPending), false))
  {
    run := OpenSocket();
    run := RestOfPass(run, One(SHAKING, SOCK, [0], ConnLoop([]), false));
    var s := One(SHAKING, SOCK, [0], SvcIdle, false);
    assert FindAt(s.connects, s.pipes, 7) == 0;
    assert Scanned(s.connects, 0) == [0] && Purged([0], s.pipes) == {};
    assert Keep([0], {0}) == [];
    run := Take(run, s, OnEstablished(7), One(UP, LIVE, [], EstCb(0, 7, ReadPending), false));
  }

  lemma CallbackTake(run: seq<Step>, q: Pipe, svc: Svc, s': Sys) returns (longer: seq<Step>)
    requires Reached(run, One(q, LIVE, [], svc, false)) && ServiceEnabled(One(q, LIVE, [], svc, false), PLAIN)
    requires ServiceStep(One(q, LIVE, [], svc, false), PLAIN) == s'
    ensures Reached(longer, s')
  {
    longer := ServiceTake(run, One(q, LIVE, [], svc, false), PLAIN, s');
  }

  const TOLD := UP.(trace := [ConnectSuccess])

  lemma Announce() returns (run: seq<Step>)
    ensures Reached(run, One(TOLD, LIVE, [], SvcIdle, false))
  {
    run := Accept();
    run := CallbackTake(run, UP, EstCb(0, 7, ReadPending), One(UP, LIVE, [], EstCb(0, 7, ReadGraceful), false));
    run := CallbackTake(run, UP, EstCb(0, 7, ReadGraceful), One(UP, LIVE, [], EstCb(0, 7, NotifySuccess), false));
    assert UP.trace + [ConnectSuccess] == [ConnectSuccess];
    run := CallbackTake(run, UP, EstCb(0, 7, NotifySuccess), One(TOLD, LIVE, [], EstCb(0, 7, Metadata), false));
    run := CallbackTake(run, TOLD, EstCb(0, 7, Metadata), One(TOLD, LIVE, [], SvcIdle, false));
  }

  lemma AboutToSwap() returns (run: seq<Step>)
    ensures Reached(run, One(TOLD.(client := CloseSwap), LIVE, [], SvcIdle, false))
  {
    run := Announce();
    run := OwnerTake(run, One(TOLD, LIVE, [], SvcIdle, false), HandOff(0));
    run := OwnerTake(run, One(TOLD.(client := CloseRead), LIVE, [], SvcIdle, false), Continue(0));
  }

  const LEAVING := TOLD.(state := DISCONNECTING, client := CloseDue)

  lemma SwapBetween() returns (run: seq<Step>)
    ensures Reached(run, One(LEAVING, LIVE, [], ClosedCb(0, 7, ReadSecond), false))
  {
    run := AboutToSwap();
    var q := TOLD.(client := CloseSwap);
    run := Take(run, One(q, LIVE, [], SvcIdle, false), OnClosed(7), One(q, LIVE, [], ClosedCb(0, 7, ReadFirst), false));
    run := CallbackTake(run, q, ClosedCb(0, 7, ReadFirst), One(q, LIVE, [], ClosedCb(0, 7, ReadSecond), false));
    run := OwnerTake(run, One(q, LIVE, [], ClosedCb(0, 7, ReadSecond), false), Continue(0));
  }

  predicate EndsSilently(s: Sys) {
    0 in s.pipes && s.pipes[0].closed && s.pipes[0].state.DISCONNECTED? && s.pipes[0].trace == [ConnectSuccess]
  }

  /** "Exactly one terminal notification" fails: this run closes an established connection
      and fulfils its promise, and its trace is CONNECT_SUCCESS alone. */
  lemma ClosesSilently()
    ensures exists run :: ValidRun(EMPTY, run) && EndsSilently(Exec(EMPTY, run))
  {
    var run := SwapBetween();
    run := CallbackTake(run, LEAVING, ClosedCb(0, 7, ReadSecond),
      One(LEAVING, LIVE, [], ClosedCb(0, 7, StoreDisconnected), false));
    var q := LEAVING.(state := DISCONNECTED, closed := true);
    run := CallbackTake(run, LEAVING, ClosedCb(0, 7, StoreDisconnected), One(q, LIVE, [], ClosedCb(0, 7, Detach), false));
  }
}
