/** The service thread's list passes and the callbacks' first steps keep the invariant. */
module PipeService {
  import opened Common
  import opened PipeModel
  import opened PipeInv
  import opened PipeClient

  /** All views but `p`'s are as before. */
  ghost predicate OthersKept(s: Sys, s': Sys, p: PipeId) {
    && s'.pipes.Keys == s.pipes.Keys
    && forall x :: x in s.pipes && x != p ==> ViewOf(s', x) == ViewOf(s, x)
  }

  lemma OneChanged(s: Sys, s': Sys, p: PipeId)
    requires PipesOk(s) && OthersKept(s, s', p) && p in s.pipes && LocalInv(ViewOf(s', p))
    ensures PipesOk(s')
  {
  }

  // ---------------------------------------------------------------- pendingConnects

  lemma ConnScanLocal(v: View, b: bool)
    requires LocalInv(v) && v.inC
    ensures v.pipe.state.IDLE? ==> !v.role.Todo?
    ensures v.pipe.state.IDLE? ==> LocalInv(v.(pipe := v.pipe.(state := CONNECTING), role := Todo, covC := b))
    ensures !v.pipe.state.IDLE? ==> LocalInv(v.(covC := b))
  {
  }

  lemma SliceMoves(l: seq<PipeId>, pos: nat, x: PipeId)
    requires pos < |l| && x != l[pos]
    ensures x in l[pos + 1..] <==> x in l[pos..]
  {
    assert l[pos..] == [l[pos]] + l[pos + 1..];
  }

  lemma ScanPrefix(s: Sys, pos: nat)
    requires pos < |s.connects|
    ensures forall x :: x in s.connects[..pos + 1] <==> x in s.connects[..pos] || x == s.connects[pos]
  {
    assert s.connects[..pos + 1] == s.connects[..pos] + [s.connects[pos]];
  }

  lemma ConnScanOther(s: Sys, pos: nat, todo: seq<PipeId>, x: PipeId)
    requires s.svc == ConnScan(pos, todo) && pos < |s.connects| && s.connects[pos] in s.pipes
    requires x in s.pipes && x != s.connects[pos]
    ensures ViewOf(ConnScanStep(s, pos, todo), x) == ViewOf(s, x)
  {
    SliceMoves(s.connects, pos, x);
    var s' := ConnScanStep(s, pos, todo);
    assert RoleOf(s'.svc, x) == RoleOf(s.svc, x);
    assert LinkOf(s', x) == LinkOf(s, x);
  }

  lemma ConnScanView(s: Sys, pos: nat, todo: seq<PipeId>)
    requires s.svc == ConnScan(pos, todo) && pos < |s.connects| && s.connects[pos] in s.pipes
    ensures var p, s' := s.connects[pos], ConnScanStep(s, pos, todo);
      var v, v' := ViewOf(s, p), ViewOf(s', p);
      v' == if v.pipe.state.IDLE? then v.(pipe := v.pipe.(state := CONNECTING), role := Todo, covC := v'.covC)
            else v.(covC := v'.covC)
  {
  }

  lemma ConnScanGlobals(s: Sys, pos: nat, todo: seq<PipeId>)
    requires s.svc == ConnScan(pos, todo) && pos < |s.connects| && s.connects[pos] in s.pipes
    requires SocksOk(s) && ListsOk(s) && SvcOk(s)
    requires s.pipes[s.connects[pos]].state.IDLE? ==> s.connects[pos] !in todo
    ensures var s' := ConnScanStep(s, pos, todo); SocksOk(s') && ListsOk(s') && SvcOk(s')
  {
    ScanPrefix(s, pos);
  }

  lemma ConnScanEnds(s: Sys, todo: seq<PipeId>)
    requires Inv(s) && s.svc == ConnScan(|s.connects|, todo)
    ensures Inv(ConnScanStep(s, |s.connects|, todo))
  {
    forall x | x in s.pipes ensures ViewOf(ConnScanStep(s, |s.connects|, todo), x) == ViewOf(s, x) {
    }
  }

  lemma ConnScanKeeps(s: Sys, pos: nat, todo: seq<PipeId>)
    requires Inv(s) && s.svc == ConnScan(pos, todo) && pos < |s.connects|
    ensures Inv(ConnScanStep(s, pos, todo))
  {
    hide LocalInv;
    var p, s' := s.connects[pos], ConnScanStep(s, pos, todo);
    assert p in s.connects;
    forall x | x in s.pipes && x != p ensures ViewOf(s', x) == ViewOf(s, x) {
      ConnScanOther(s, pos, todo, x);
    }
    ConnScanView(s, pos, todo);
    ConnScanLocal(ViewOf(s, p), ViewOf(s', p).covC);
    ConnScanGlobals(s, pos, todo);
    OneChanged(s, s', p);
  }

  // ---------------------------------------------------------------- connect_client

  lemma ConnLoopEnds(s: Sys, c: Choice)
    requires Inv(s) && s.svc == ConnLoop([])
    ensures Inv(ConnLoopStep(s, [], c))
  {
    forall x | x in s.pipes ensures ViewOf(ConnLoopStep(s, [], c), x) == ViewOf(s, x) {
    }
  }

  lemma AdoptLocal(v: View, w: Wsi)
    requires LocalInv(v) && v.role.Todo?
    ensures LocalInv(v.(pipe := v.pipe.(state := CONNECTING, vhd := true, wsi := Some(w)),
                        link := Linked(Shaking, false, false), role := NoRole))
  {
  }

  lemma SyncFailLocal(v: View)
    requires LocalInv(v) && v.role.Todo?
    ensures LocalInv(v.(pipe := Fail(v.pipe.(state := CONNECTING, vhd := true, wsi := None)),
                        shown := FailShown, role := NoRole))
  {
    ClassifyAppend(v.pipe.trace, ConnectFail);
  }

  predicate ConnLoopGoesOn(s: Sys, todo: seq<PipeId>, c: Choice) {
    && s.svc == ConnLoop(todo) && todo != [] && todo[0] in s.pipes && NoDup(todo)
    && (c.conn.Some? ==> c.conn.value !in s.socks)
  }

  lemma ConnLoopOther(s: Sys, todo: seq<PipeId>, c: Choice, x: PipeId)
    requires ConnLoopGoesOn(s, todo, c) && x in s.pipes && x != todo[0]
    ensures x in ConnLoopStep(s, todo, c).pipes && ViewOf(ConnLoopStep(s, todo, c), x) == ViewOf(s, x)
  {
    assert todo == [todo[0]] + todo[1..];
    var s' := ConnLoopStep(s, todo, c);
    assert RoleOf(s'.svc, x) == RoleOf(s.svc, x);
    assert LinkOf(s', x) == LinkOf(s, x);
  }

  function AfterConnect(v: View, c: Choice): View {
    match c.conn
    case Some(w) => v.(pipe := v.pipe.(state := CONNECTING, vhd := true, wsi := Some(w)),
                       link := Linked(Shaking, false, false), role := NoRole)
    case None => v.(pipe := Fail(v.pipe.(state := CONNECTING, vhd := true, wsi := None)),
                    shown := Classify(v.pipe.trace + [ConnectFail]), link := NoLink, role := NoRole)
  }

  lemma ConnLoopView(s: Sys, todo: seq<PipeId>, c: Choice)
    requires ConnLoopGoesOn(s, todo, c)
    ensures var p, s' := todo[0], ConnLoopStep(s, todo, c);
      s'.pipes.Keys == s.pipes.Keys && ViewOf(s', p) == AfterConnect(ViewOf(s, p), c)
  {
  }

  lemma ConnLoopSocks(s: Sys, todo: seq<PipeId>, c: Choice)
    requires ConnLoopGoesOn(s, todo, c) && SocksOk(s) && s.pipes[todo[0]].wsi.None?
    ensures SocksOk(ConnLoopStep(s, todo, c))
  {
    hide NoDup;
    if c.conn.Some? { ConnLoopNewSock(s, todo, c); }
  }

  lemma ConnLoopNewSock(s: Sys, todo: seq<PipeId>, c: Choice)
    requires ConnLoopGoesOn(s, todo, c) && SocksOk(s) && s.pipes[todo[0]].wsi.None? && c.conn.Some?
    ensures SocksOk(ConnLoopStep(s, todo, c))
  {
    var t := ConnLoopStep(s, todo, c);
    assert t.socks == s.socks[c.conn.value := Sock(todo[0], Shaking, None, false)];
    assert t.pipes.Keys == s.pipes.Keys && t.pipes[todo[0]].wsi == c.conn;
    assert forall p :: p in s.pipes && p != todo[0] ==> t.pipes[p] == s.pipes[p];
    hide ConnLoopStep;
  }

  lemma ConnLoopLists(s: Sys, todo: seq<PipeId>, c: Choice)
    requires ConnLoopGoesOn(s, todo, c) && ListsOk(s) && SvcOk(s)
    ensures var s' := ConnLoopStep(s, todo, c); ListsOk(s') && SvcOk(s')
  {
  }

  lemma ConnLoopGlobals(s: Sys, todo: seq<PipeId>, c: Choice)
    requires ConnLoopGoesOn(s, todo, c) && SocksOk(s) && ListsOk(s) && SvcOk(s) && s.pipes[todo[0]].wsi.None?
    ensures var s' := ConnLoopStep(s, todo, c); SocksOk(s') && ListsOk(s') && SvcOk(s')
  {
    hide SocksOk, ListsOk, SvcOk, ConnLoopStep;
    ConnLoopSocks(s, todo, c);
    ConnLoopLists(s, todo, c);
  }

  lemma TodoLocal(v: View)
    requires LocalInv(v) && v.role.Todo?
    ensures v.pipe.wsi.None?
  {
  }

  lemma AfterConnectLocal(v: View, c: Choice)
    requires LocalInv(v) && v.role.Todo?
    ensures LocalInv(AfterConnect(v, c))
  {
    TodoLocal(v);
    ClassifyAppend(v.pipe.trace, ConnectFail);
    SyncFailLocal(v);
    AdoptLocal(v, if c.conn.Some? then c.conn.value else 0);
    hide LocalInv, Classify;
  }

  lemma ConnLoopKeeps(s: Sys, todo: seq<PipeId>, c: Choice)
    requires Inv(s) && ConnLoopGoesOn(s, todo, c)
    ensures Inv(ConnLoopStep(s, todo, c))
  {
    hide LocalInv, SocksOk, ListsOk, ConnLoopStep, AfterConnect;
    var p, s' := todo[0], ConnLoopStep(s, todo, c);
    ConnLoopView(s, todo, c);
    forall x | x in s.pipes && x != p ensures ViewOf(s', x) == ViewOf(s, x) {
      ConnLoopOther(s, todo, c, x);
    }
    assert p in todo;
    TodoLocal(ViewOf(s, p));
    AfterConnectLocal(ViewOf(s, p), c);
    ConnLoopGlobals(s, todo, c);
    OneChanged(s, s', p);
  }

  // ---------------------------------------------------------------- pendingDisconnects, pendingWrites

  lemma Erased(l: seq<PipeId>, x: PipeId)
    requires l != [] && x != l[0]
    ensures x in Erase(l, 0) <==> x in l
  {
    assert l == [l[0]] + l[1..];
  }

  lemma QueuedLocal(v: View)
    requires LocalInv(v) && (v.inD || v.inW) && !v.role.Clo? && !v.role.Est? && !v.role.Wr?
    ensures v.pipe.vhd
    ensures v.pipe.state.CONNECTED? || v.pipe.state.DISCONNECTING? || v.pipe.state.DISCONNECTED?
  {
  }

  lemma DiscEntryLocal(v: View, inD: bool)
    requires LocalInv(v) && v.inD && (v.role.NoRole? || v.role.DiscHit?)
    ensures v.pipe.state.DISCONNECTING? ==> LocalInv(v.(inD := inD, role := DiscHit))
    ensures !v.pipe.state.DISCONNECTING? ==> LocalInv(v.(inD := inD))
  {
  }

  lemma WriteEntryLocal(v: View, inW: bool)
    requires LocalInv(v) && v.inW && (v.role.NoRole? || v.role.WriteHit?)
    ensures v.pipe.state.CONNECTED? ==> LocalInv(v.(inW := inW, role := WriteHit))
    ensures !v.pipe.state.CONNECTED? ==> LocalInv(v.(inW := inW))
  {
  }

  lemma AskLocal(v: View, role: Role)
    requires LocalInv(v) && (v.role.DiscHit? || v.role.WriteHit?) && (role == v.role || role.NoRole?)
    ensures v.link.Linked? && LocalInv(v.(link := v.link.(writable := true), role := role))
  {
  }

  lemma UncoveredLocal(v: View, covD: bool)
    requires LocalInv(v) && !v.inD
    ensures LocalInv(v.(covD := covD))
  {
  }

  lemma DiscScanEnds(s: Sys, hits: seq<PipeId>)
    requires Inv(s) && s.svc == DiscScan(0, hits) && s.disconnects == []
    ensures Inv(DiscScanStep(s, 0, hits))
  {
    var s' := DiscScanStep(s, 0, hits);
    forall x | x in s.pipes ensures LocalInv(ViewOf(s', x)) {
      UncoveredLocal(ViewOf(s, x), s.wake);
      assert ViewOf(s', x) == ViewOf(s, x).(covD := s.wake);
    }
  }

  lemma DiscScanView(s: Sys, hits: seq<PipeId>, x: PipeId)
    requires s.svc == DiscScan(0, hits) && s.disconnects != [] && s.disconnects[0] in s.pipes && x in s.pipes
    requires s.pipes[s.disconnects[0]].vhd
    ensures var p, v, v' := s.disconnects[0], ViewOf(s, x), ViewOf(DiscScanStep(s, 0, hits), x);
      v' == if x != p then v
            else if v.pipe.state.DISCONNECTING? then v.(inD := v'.inD, role := DiscHit)
            else v.(inD := v'.inD)
  {
    if x != s.disconnects[0] {
      Erased(s.disconnects, x);
    }
    assert LinkOf(DiscScanStep(s, 0, hits), x) == LinkOf(s, x);
  }

  lemma DiscScanGlobals(s: Sys, hits: seq<PipeId>)
    requires s.svc == DiscScan(0, hits) && s.disconnects != [] && s.disconnects[0] in s.pipes && SocksOk(s) && ListsOk(s) && SvcOk(s)
    requires s.pipes[s.disconnects[0]].vhd
    ensures var s' := DiscScanStep(s, 0, hits); SocksOk(s') && ListsOk(s') && SvcOk(s') && s'.pipes == s.pipes
  {
  }

  lemma DiscScanKeeps(s: Sys, hits: seq<PipeId>)
    requires Inv(s) && s.svc == DiscScan(0, hits) && s.disconnects != []
    ensures Inv(DiscScanStep(s, 0, hits))
  {
    hide LocalInv;
    var p, s' := s.disconnects[0], DiscScanStep(s, 0, hits);
    assert p in s.disconnects;
    var v := ViewOf(s, p);
    QueuedLocal(v);
    DiscScanGlobals(s, hits);
    hide SocksOk, ListsOk, SvcOk, DiscScanStep;
    forall x | x in s.pipes && x != p ensures ViewOf(s', x) == ViewOf(s, x) {
      DiscScanView(s, hits, x);
    }
    DiscScanView(s, hits, p);
    DiscEntryLocal(v, ViewOf(s', p).inD);
    OneChanged(s, s', p);
  }

  lemma WriteScanEnds(s: Sys, hits: seq<PipeId>)
    requires Inv(s) && s.svc == WriteScan(0, hits) && s.writes == []
    ensures Inv(WriteScanStep(s, 0, hits))
  {
    forall x | x in s.pipes ensures ViewOf(WriteScanStep(s, 0, hits), x) == ViewOf(s, x) {
      WriteScanSame(s, hits, x);
    }
    hide LocalInv, ViewOf;
  }

  lemma WriteScanSame(s: Sys, hits: seq<PipeId>, x: PipeId)
    requires s.svc == WriteScan(0, hits) && s.writes == [] && x in s.pipes
    ensures ViewOf(WriteScanStep(s, 0, hits), x) == ViewOf(s, x)
  {
  }

  lemma WriteScanView(s: Sys, hits: seq<PipeId>, x: PipeId)
    requires s.svc == WriteScan(0, hits) && s.writes != [] && s.writes[0] in s.pipes && x in s.pipes
    requires s.pipes[s.writes[0]].vhd
    ensures var p, v, v' := s.writes[0], ViewOf(s, x), ViewOf(WriteScanStep(s, 0, hits), x);
      v' == if x != p then v
            else if v.pipe.state.CONNECTED? then v.(inW := v'.inW, role := WriteHit)
            else v.(inW := v'.inW)
  {
    if x != s.writes[0] {
      Erased(s.writes, x);
    }
    assert LinkOf(WriteScanStep(s, 0, hits), x) == LinkOf(s, x);
  }

  lemma WriteScanGlobals(s: Sys, hits: seq<PipeId>)
    requires s.svc == WriteScan(0, hits) && s.writes != [] && s.writes[0] in s.pipes && SocksOk(s) && ListsOk(s) && SvcOk(s)
    requires s.pipes[s.writes[0]].vhd
    ensures var s' := WriteScanStep(s, 0, hits); SocksOk(s') && ListsOk(s') && SvcOk(s') && s'.pipes == s.pipes
  {
  }

  lemma WriteScanKeeps(s: Sys, hits: seq<PipeId>)
    requires Inv(s) && s.svc == WriteScan(0, hits) && s.writes != []
    ensures Inv(WriteScanStep(s, 0, hits))
  {
    hide LocalInv;
    var p, s' := s.writes[0], WriteScanStep(s, 0, hits);
    assert p in s.writes;
    var v := ViewOf(s, p);
    QueuedLocal(v);
    WriteScanGlobals(s, hits);
    hide SocksOk, ListsOk, SvcOk, WriteScanStep;
    forall x | x in s.pipes && x != p ensures ViewOf(s', x) == ViewOf(s, x) {
      WriteScanView(s, hits, x);
    }
    WriteScanView(s, hits, p);
    WriteEntryLocal(v, ViewOf(s', p).inW);
    OneChanged(s, s', p);
  }

  // ---------------------------------------------------------------- lws_callback_on_writable

  /** The rest of a loop over hits, and the loop's end. */
  predicate HitLoop(svc: Svc, next: Svc) {
    || (svc.DiscLoop? && svc.hits == [] && next == WriteScan(0, []))
    || (svc.WriteLoop? && svc.hits == [] && next == SvcIdle)
  }

  lemma HitLoopEnds(s: Sys, next: Svc)
    requires Inv(s) && HitLoop(s.svc, next)
    ensures Inv(s.(svc := next))
  {
    forall x | x in s.pipes ensures ViewOf(s.(svc := next), x) == ViewOf(s, x) {
    }
  }

  predicate HitNext(svc: Svc, next: Svc) {
    || (svc.DiscLoop? && svc.hits != [] && next == DiscLoop(svc.hits[1..]))
    || (svc.WriteLoop? && svc.hits != [] && next == WriteLoop(svc.hits[1..]))
  }

  lemma AskView(s: Sys, next: Svc, x: PipeId)
    requires HitNext(s.svc, next) && s.svc.hits[0] in s.pipes && x in s.pipes && LinkOf(s, s.svc.hits[0]).Linked?
    ensures var p, v, v' := s.svc.hits[0], ViewOf(s, x), ViewOf(AskWritable(s, s.svc.hits[0]).(svc := next), x);
      v' == if x != p then v else v.(link := v.link.(writable := true), role := v'.role)
    ensures x == s.svc.hits[0] ==> RoleOf(next, x) == RoleOf(s.svc, x) || RoleOf(next, x) == NoRole
  {
    var hits := s.svc.hits;
    assert hits == [hits[0]] + hits[1..];
    assert x != hits[0] ==> RoleOf(next, x) == RoleOf(s.svc, x);
    assert x != hits[0] ==> LinkOf(AskWritable(s, hits[0]).(svc := next), x) == LinkOf(s, x);
  }

  lemma AskGlobals(s: Sys, next: Svc)
    requires HitNext(s.svc, next) && s.svc.hits[0] in s.pipes && SocksOk(s) && ListsOk(s) && SvcOk(s)
    ensures var s' := AskWritable(s, s.svc.hits[0]).(svc := next); SocksOk(s') && ListsOk(s') && SvcOk(s')
  {
  }

  lemma AskKeeps(s: Sys, next: Svc)
    requires Inv(s) && HitNext(s.svc, next)
    ensures s.svc.hits[0] in s.pipes && Inv(AskWritable(s, s.svc.hits[0]).(svc := next))
  {
    var p := s.svc.hits[0];
    assert p in s.svc.hits;
    var s' := AskWritable(s, p).(svc := next);
    AskLocal(ViewOf(s, p), NoRole);
    AskLocal(ViewOf(s, p), ViewOf(s, p).role);
    AskGlobals(s, next);
    AskView(s, next, p);
    forall x | x in s.pipes && x != p ensures ViewOf(s', x) == ViewOf(s, x) {
      AskView(s, next, x);
    }
    OneChanged(s, s', p);
  }
}
