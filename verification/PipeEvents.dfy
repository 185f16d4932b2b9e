/** What lws delivers to an idle service thread keeps the invariant, and so does every
    step of every run. */
module PipeEvents {
  import opened Common
  import opened PipeModel
  import opened PipeInv
  import opened PipeClient
  import opened PipeCallbacks
  import opened PipeService

  // ---------------------------------------------------------------- creation and wake-ups

  lemma FreshLocal(covC: bool, covD: bool)
    ensures LocalInv(View(FRESH_PIPE, Silent, false, false, false, NoLink, NoRole, covC, covD))
  {
  }

  lemma NobodyKnows(s: Sys, p: PipeId)
    requires SvcOk(s) && p !in s.pipes
    ensures RoleOf(s.svc, p) == NoRole
  {
  }

  lemma CreateGlobals(s: Sys, p: PipeId)
    requires SocksOk(s) && ListsOk(s) && SvcOk(s) && p !in s.pipes
    ensures var s' := Put(s, p, FRESH_PIPE); SocksOk(s') && ListsOk(s') && SvcOk(s')
  {
  }

  lemma CreateKeeps(s: Sys, p: PipeId)
    requires Inv(s) && p !in s.pipes
    ensures Inv(Put(s, p, FRESH_PIPE))
  {
    hide LocalInv;
    var s' := Put(s, p, FRESH_PIPE);
    CreateGlobals(s, p);
    NobodyKnows(s, p);
    FreshLocal(CoversConnect(s, p), CoversDisconnects(s));
    forall x | x in s'.pipes ensures LocalInv(ViewOf(s', x)) {
      if x != p {
        assert ViewOf(s', x) == ViewOf(s, x);
      }
    }
  }

  lemma StrayWakeKeeps(s: Sys)
    requires Inv(s)
    ensures Inv(s.(wake := true))
  {
    forall x | x in s.pipes ensures LocalInv(ViewOf(s.(wake := true), x)) {
      CoverMono(ViewOf(s, x), true, true);
      assert ViewOf(s.(wake := true), x) == ViewOf(s, x).(covC := true, covD := true);
    }
  }

  lemma WakeUpLocal(v: View)
    requires LocalInv(v)
    ensures LocalInv(v.(covC := v.inC, covD := true))
  {
  }

  lemma WakeUpKeeps(s: Sys)
    requires Inv(s) && s.svc.SvcIdle?
    ensures Inv(s.(wake := false, svc := ConnScan(0, [])))
  {
    var s' := s.(wake := false, svc := ConnScan(0, []));
    forall x | x in s.pipes ensures LocalInv(ViewOf(s', x)) {
      WakeUpLocal(ViewOf(s, x));
      assert s.connects[0..] == s.connects;
      assert ViewOf(s', x) == ViewOf(s, x).(covC := x in s.connects, covD := true);
    }
  }

  // ---------------------------------------------------------------- the end of a handshake

  lemma ShakingLocal(v: View)
    requires LocalInv(v) && v.role.NoRole?
    ensures v.link.Linked? && v.link.phase.Shaking? ==> v.pipe.state.CONNECTING? && v.inC
    ensures v.pipe.state.CONNECTING? ==> v.link == Linked(Shaking, false, false)
  {
  }

  /** The scan of pendingConnects finds the pipe the socket was created for. */
  lemma LookupFinds(s: Sys, w: Wsi)
    requires Inv(s) && s.svc.SvcIdle? && w in s.socks && s.socks[w].phase.Shaking?
    ensures var i := FindAt(s.connects, s.pipes, w); i < |s.connects| && s.connects[i] == s.socks[w].owner
    ensures var p := s.socks[w].owner; p in s.pipes && s.pipes[p].state.CONNECTING? && s.pipes[p].wsi == Some(w)
  {
    var p := s.socks[w].owner;
    ShakingLocal(ViewOf(s, p));
    var j :| 0 <= j < |s.connects| && s.connects[j] == p;
    var i := FindAt(s.connects, s.pipes, w);
    var q := s.connects[i];
    ShakingLocal(ViewOf(s, q));
  }

  /** The scan takes out the pipe it found and entries whose connect failed at once. */
  lemma AfterFindMembers(s: Sys, w: Wsi, x: PipeId)
    requires x in s.pipes && FindAt(s.connects, s.pipes, w) < |s.connects|
    ensures var p := s.connects[FindAt(s.connects, s.pipes, w)];
      && (x == p ==> x !in AfterFind(s, w))
      && (x in AfterFind(s, w) ==> x in s.connects)
      && (x != p && x in s.connects && x !in AfterFind(s, w) ==> s.pipes[x].state.FAILED? && s.pipes[x].wsi.None?)
  {
  }

  lemma PurgedLocal(v: View)
    requires LocalInv(v) && v.role.NoRole? && v.pipe.state.FAILED?
    ensures LocalInv(v.(inC := false))
  {
  }

  lemma ErrorLocal(v: View)
    requires LocalInv(v) && v.role.NoRole? && v.pipe.state.CONNECTING?
    ensures LocalInv(v.(pipe := Fail(v.pipe), shown := FailShown, inC := false, link := NoLink))
  {
    ClassifyAppend(v.pipe.trace, ConnectFail);
  }

  lemma EstablishedLocal(v: View)
    requires LocalInv(v) && v.role.NoRole? && v.pipe.state.CONNECTING?
    ensures LocalInv(v.(pipe := v.pipe.(vhd := true, state := CONNECTED), inC := false,
                        link := Linked(Open, true, false), role := Est(ReadPending)))
  {
  }

  predicate Handshaking(s: Sys, w: Wsi, p: PipeId) {
    && s.svc.SvcIdle? && w in s.socks && p in s.pipes && s.socks[w].owner == p && s.pipes[p].wsi == Some(w)
    && var i := FindAt(s.connects, s.pipes, w); i < |s.connects| && s.connects[i] == p
  }

  lemma ErrorOther(s: Sys, w: Wsi, p: PipeId, x: PipeId)
    requires Handshaking(s, w, p) && x in s.pipes && x != p
    ensures var v' := ViewOf(ErrorStep(s, w), x);
      v' == ViewOf(s, x).(inC := v'.inC) && (v'.inC != ViewOf(s, x).inC ==> !v'.inC && s.pipes[x].state.FAILED?)
  {
    AfterFindMembers(s, w, x);
    assert LinkOf(ErrorStep(s, w), x) == LinkOf(s, x);
  }

  lemma ErrorView(s: Sys, w: Wsi, p: PipeId)
    requires Handshaking(s, w, p)
    ensures ViewOf(ErrorStep(s, w), p) == ViewOf(s, p).(pipe := Fail(s.pipes[p]),
      shown := Classify(s.pipes[p].trace + [ConnectFail]), inC := false, link := NoLink)
  {
    AfterFindMembers(s, w, p);
    assert LinkOf(ErrorStep(s, w), p) == NoLink;
  }

  lemma ErrorGlobals(s: Sys, w: Wsi, p: PipeId)
    requires Handshaking(s, w, p) && SocksOk(s) && ListsOk(s)
    ensures var s' := ErrorStep(s, w); SocksOk(s') && ListsOk(s') && SvcOk(s')
  {
    var s' := ErrorStep(s, w);
    forall x | x in s'.connects ensures x in s'.pipes {
    }
  }

  lemma ErrorKeeps(s: Sys, w: Wsi)
    requires Inv(s) && s.svc.SvcIdle? && w in s.socks && s.socks[w].phase.Shaking?
    ensures Inv(ErrorStep(s, w))
  {
    LookupFinds(s, w);
    var p, s' := s.socks[w].owner, ErrorStep(s, w);
    ErrorGlobals(s, w, p);
    forall x | x in s'.pipes ensures LocalInv(ViewOf(s', x)) {
      if x == p {
        ErrorView(s, w, p);
        ErrorLocal(ViewOf(s, p));
        ClassifyAppend(s.pipes[p].trace, ConnectFail);
      } else {
        ErrorOther(s, w, p, x);
        if s.pipes[x].state.FAILED? {
          PurgedLocal(ViewOf(s, x));
        }
      }
    }
  }

  lemma EstablishedOther(s: Sys, w: Wsi, p: PipeId, x: PipeId)
    requires Handshaking(s, w, p) && x in s.pipes && x != p
    ensures var v' := ViewOf(EstablishedStep(s, w), x);
      v' == ViewOf(s, x).(inC := v'.inC) && (v'.inC != ViewOf(s, x).inC ==> !v'.inC && s.pipes[x].state.FAILED?)
  {
    AfterFindMembers(s, w, x);
    assert LinkOf(EstablishedStep(s, w), x) == LinkOf(s, x);
  }

  lemma EstablishedView(s: Sys, w: Wsi, p: PipeId)
    requires Handshaking(s, w, p) && !s.socks[w].writable
    ensures ViewOf(EstablishedStep(s, w), p) == ViewOf(s, p).(pipe := s.pipes[p].(vhd := true, state := CONNECTED),
      inC := false, link := Linked(Open, true, false), role := Est(ReadPending))
  {
    AfterFindMembers(s, w, p);
    assert LinkOf(EstablishedStep(s, w), p) == Linked(Open, true, false);
  }

  lemma EstablishedGlobals(s: Sys, w: Wsi, p: PipeId)
    requires Handshaking(s, w, p) && SocksOk(s) && ListsOk(s)
    ensures var s' := EstablishedStep(s, w); SocksOk(s') && ListsOk(s') && SvcOk(s')
  {
    var s' := EstablishedStep(s, w);
    forall x | x in s'.connects ensures x in s'.pipes {
    }
  }

  lemma EstablishedKeeps(s: Sys, w: Wsi)
    requires Inv(s) && s.svc.SvcIdle? && w in s.socks && s.socks[w].phase.Shaking?
    ensures Inv(EstablishedStep(s, w))
  {
    LookupFinds(s, w);
    var p, s' := s.socks[w].owner, EstablishedStep(s, w);
    EstablishedGlobals(s, w, p);
    ShakingLocal(ViewOf(s, p));
    forall x | x in s'.pipes ensures LocalInv(ViewOf(s', x)) {
      if x == p {
        EstablishedView(s, w, p);
        EstablishedLocal(ViewOf(s, p));
      } else {
        EstablishedOther(s, w, p, x);
        if s.pipes[x].state.FAILED? {
          PurgedLocal(ViewOf(s, x));
        }
      }
    }
  }

  // ---------------------------------------------------------------- an established socket

  lemma UpLocal(v: View)
    requires LocalInv(v) && v.role.NoRole? && v.link.Linked? && !v.link.phase.Shaking?
    ensures v.link.attached && Running(v) && v.shown.Live?
  {
  }

  /** A socket past its handshake carries its pipe. */
  lemma AttachedToOwner(s: Sys, w: Wsi)
    requires Inv(s) && s.svc.SvcIdle? && w in s.socks && !s.socks[w].phase.Shaking?
    ensures s.socks[w].owner in s.pipes && s.socks[w].attached == Some(s.socks[w].owner)
    ensures var v := ViewOf(s, s.socks[w].owner); Running(v) && v.shown.Live? && v.role.NoRole?
  {
    UpLocal(ViewOf(s, s.socks[w].owner));
  }

  lemma BeginClosedLocal(v: View)
    requires LocalInv(v) && v.role.NoRole? && Running(v) && v.shown.Live?
    ensures LocalInv(v.(role := Clo(ReadFirst)))
  {
  }

  lemma BeginWritableLocal(v: View)
    requires LocalInv(v) && v.role.NoRole? && Running(v) && v.shown.Live? && v.link.phase.Open?
    ensures LocalInv(v.(role := Wr(ReadGracefulFlag), link := v.link.(writable := false)))
  {
  }

  lemma ReceiveLocal(v: View)
    requires LocalInv(v) && v.role.NoRole? && Running(v) && v.shown.Live?
    ensures LocalInv(v.(pipe := v.pipe.(trace := v.pipe.trace + [Message])))
  {
    ClassifyAppend(v.pipe.trace, Message);
  }

  lemma ClosedBegins(s: Sys, w: Wsi)
    requires Inv(s) && s.svc.SvcIdle? && w in s.socks && !s.socks[w].phase.Shaking?
    ensures Inv(s.(svc := ClosedCb(s.socks[w].owner, w, ReadFirst)))
  {
    hide LocalInv;
    AttachedToOwner(s, w);
    var p := s.socks[w].owner;
    var s' := s.(svc := ClosedCb(p, w, ReadFirst));
    BeginClosedLocal(ViewOf(s, p));
    assert ViewOf(s', p) == ViewOf(s, p).(role := Clo(ReadFirst));
    forall x | x in s.pipes && x != p ensures ViewOf(s', x) == ViewOf(s, x) {
    }
    OneChanged(s, s', p);
  }

  function BeginWritable(s: Sys, w: Wsi): Sys
    requires w in s.socks
  {
    s.(socks := s.socks[w := s.socks[w].(writable := false)], svc := WritableCb(s.socks[w].owner, w, ReadGracefulFlag))
  }

  lemma WritableView(s: Sys, w: Wsi, x: PipeId)
    requires SocksOk(s) && s.svc.SvcIdle? && w in s.socks && x in s.pipes
    ensures ViewOf(BeginWritable(s, w), x) ==
      if x == s.socks[w].owner
      then ViewOf(s, x).(role := Wr(ReadGracefulFlag), link := LinkOf(s, x).(writable := false))
      else ViewOf(s, x)
  {
    assert x != s.socks[w].owner ==> LinkOf(BeginWritable(s, w), x) == LinkOf(s, x);
  }

  lemma WritableGlobals(s: Sys, w: Wsi)
    requires SocksOk(s) && ListsOk(s) && s.svc.SvcIdle? && w in s.socks && s.socks[w].attached == Some(s.socks[w].owner)
    ensures var s' := BeginWritable(s, w); SocksOk(s') && ListsOk(s') && SvcOk(s') && s'.pipes == s.pipes
  {
  }

  lemma OwnerLink(s: Sys, w: Wsi)
    requires SocksOk(s) && w in s.socks
    ensures s.socks[w].owner in s.pipes
    ensures var l := LinkOf(s, s.socks[w].owner); l.Linked? && l.phase == s.socks[w].phase
  {
  }

  lemma WritableBegins(s: Sys, w: Wsi)
    requires Inv(s) && s.svc.SvcIdle? && w in s.socks && s.socks[w].phase.Open?
    ensures Inv(BeginWritable(s, w))
  {
    hide LocalInv, SocksOk, ListsOk, SvcOk, BeginWritable;
    AttachedToOwner(s, w);
    WritableGlobals(s, w);
    OwnerLink(s, w);
    var p := s.socks[w].owner;
    BeginWritableLocal(ViewOf(s, p));
    forall x | x in s.pipes ensures LocalInv(ViewOf(BeginWritable(s, w), x)) {
      WritableView(s, w, x);
    }
  }

  lemma ReceiveKeeps(s: Sys, w: Wsi)
    requires Inv(s) && s.svc.SvcIdle? && w in s.socks && s.socks[w].phase.Open?
    ensures var p := s.socks[w].owner;
      p in s.pipes && Inv(Put(s, p, s.pipes[p].(trace := s.pipes[p].trace + [Message])))
  {
    AttachedToOwner(s, w);
    var p := s.socks[w].owner;
    var u := Quietly(s.pipes[p].(trace := s.pipes[p].trace + [Message]));
    ReceiveLocal(ViewOf(s, p));
    ClassifyAppend(s.pipes[p].trace, Message);
    assert ActOn(ViewOf(s, p), u)
        == ViewOf(s, p).(pipe := u.pipe, shown := Classify(u.pipe.trace));
    ActKeeps(s, p, u);
    assert Act(s, p, u) == Put(s, p, u.pipe);
  }

  // ---------------------------------------------------------------- every step, every run

  /** The service thread is never stuck inside a callback, and each of its steps keeps the invariant. */
  lemma ServiceKeeps(s: Sys, c: Choice)
    requires Inv(s) && ServiceEnabled(s, c)
    ensures Inv(ServiceStep(s, c))
  {
    match s.svc {
      case SvcIdle =>
      case ConnScan(pos, todo) =>
        if pos == |s.connects| { ConnScanEnds(s, todo); } else { ConnScanKeeps(s, pos, todo); }
      case ConnLoop(todo) => if todo == [] { ConnLoopEnds(s, c); } else { ConnLoopKeeps(s, todo, c); }
      case DiscScan(pos, hits) => if s.disconnects == [] { DiscScanEnds(s, hits); } else { DiscScanKeeps(s, hits); }
      case DiscLoop(hits) =>
        if hits == [] { HitLoopEnds(s, WriteScan(0, [])); } else { AskKeeps(s, DiscLoop(hits[1..])); }
      case WriteScan(pos, hits) => if s.writes == [] { WriteScanEnds(s, hits); } else { WriteScanKeeps(s, hits); }
      case WriteLoop(hits) =>
        if hits == [] { HitLoopEnds(s, SvcIdle); } else { AskKeeps(s, WriteLoop(hits[1..])); }
      case EstCb(p, w, at) => EstStepKeeps(s, p, w, at, c);
      case ClosedCb(p, w, at) => ClosedStepKeeps(s, p, w, at, c);
      case WritableCb(p, w, at) => WritableStepKeeps(s, p, w, at, c);
    }
  }

  lemma OnErrorKeeps(s: Sys, w: Wsi)
    requires Inv(s) && Enabled(s, OnError(w))
    ensures Inv(Apply(s, OnError(w)))
  {
    ErrorKeeps(s, w);
  }

  lemma OnEstablishedKeeps(s: Sys, w: Wsi)
    requires Inv(s) && Enabled(s, OnEstablished(w))
    ensures Inv(Apply(s, OnEstablished(w)))
  {
    EstablishedKeeps(s, w);
  }

  lemma OnClosedKeeps(s: Sys, w: Wsi)
    requires Inv(s) && Enabled(s, OnClosed(w))
    ensures Inv(Apply(s, OnClosed(w)))
  {
    AttachedToOwner(s, w);
    ClosedBegins(s, w);
  }

  lemma OnReceiveKeeps(s: Sys, w: Wsi)
    requires Inv(s) && Enabled(s, OnReceive(w))
    ensures Inv(Apply(s, OnReceive(w)))
  {
    AttachedToOwner(s, w);
    ReceiveKeeps(s, w);
  }

  lemma OnWritableKeeps(s: Sys, w: Wsi)
    requires Inv(s) && Enabled(s, OnWritable(w))
    ensures Inv(Apply(s, OnWritable(w)))
  {
    AttachedToOwner(s, w);
    WritableBegins(s, w);
  }

  lemma StepKeeps(s: Sys, step: Step)
    requires Inv(s) && Enabled(s, step)
    ensures Inv(Apply(s, step))
  {
    hide Inv;
    if IsOwnerStep(step) {
      OwnerKeeps(s, step);
    } else {
      match step {
        case Create(p) => CreateKeeps(s, p);
        case StrayWake => StrayWakeKeeps(s);
        case WakeUp => WakeUpKeeps(s);
        case Service(c) => ServiceKeeps(s, c);
        case OnError(w) => OnErrorKeeps(s, w);
        case OnEstablished(w) => OnEstablishedKeeps(s, w);
        case OnClosed(w) => OnClosedKeeps(s, w);
        case OnReceive(w) => OnReceiveKeeps(s, w);
        case OnWritable(w) => OnWritableKeeps(s, w);
        case _ =>
      }
    }
  }

  lemma {:induction false} RunKeeps(s: Sys, run: seq<Step>)
    requires Inv(s) && ValidRun(s, run)
    ensures Inv(Exec(s, run))
    decreases |run|
  {
    if run != [] {
      StepKeeps(s, run[0]);
      RunKeeps(Apply(s, run[0]), run[1..]);
    }
  }
}
