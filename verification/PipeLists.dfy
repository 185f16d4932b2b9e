/** The three pending lists as the code keeps them: members of AudioPipe, edited in place by
    loops that hold one mutex at a time. The protocol's steps use what these loops compute. */
module PipeLists {
  import opened Common
  import opened PipeModel

  /** The entries of `l` that satisfy the scan's test, in order. */
  function Picked(l: seq<PipeId>, pipes: map<PipeId, Pipe>, st: LwsState): seq<PipeId> {
    if l == [] then []
    else if l[0] in pipes && pipes[l[0]].vhd && pipes[l[0]].state == st then [l[0]] + Picked(l[1..], pipes, st)
    else Picked(l[1..], pipes, st)
  }

  /** The entries no service thread has adopted. */
  function Unadopted(l: seq<PipeId>, pipes: map<PipeId, Pipe>): seq<PipeId> {
    if l == [] then []
    else if l[0] in pipes && pipes[l[0]].vhd then Unadopted(l[1..], pipes)
    else [l[0]] + Unadopted(l[1..], pipes)
  }

  /** The entries still idle when the scan comes to them, and the pipes once they are started. */
  function Idle(l: seq<PipeId>, pipes: map<PipeId, Pipe>): seq<PipeId> {
    if l == [] then []
    else if l[0] in pipes && pipes[l[0]].state.IDLE?
    then [l[0]] + Idle(l[1..], pipes[l[0] := pipes[l[0]].(state := CONNECTING)])
    else Idle(l[1..], pipes)
  }

  function Started(l: seq<PipeId>, pipes: map<PipeId, Pipe>): map<PipeId, Pipe> {
    if l == [] then pipes
    else if l[0] in pipes && pipes[l[0]].state.IDLE?
    then Started(l[1..], pipes[l[0] := pipes[l[0]].(state := CONNECTING)])
    else Started(l[1..], pipes)
  }

  /** Every idle pipe on the list is started, once, and no other pipe changes. */
  lemma {:induction false} StartsIdleOnce(l: seq<PipeId>, pipes: map<PipeId, Pipe>)
    ensures Started(l, pipes).Keys == pipes.Keys && NoDup(Idle(l, pipes))
    ensures forall p :: p in Idle(l, pipes) <==> p in l && p in pipes && pipes[p].state.IDLE?
    ensures forall p :: p in pipes ==>
      Started(l, pipes)[p] == if p in l && pipes[p].state.IDLE? then pipes[p].(state := CONNECTING) else pipes[p]
    decreases |l|
  {
    if l != [] {
      var next := if l[0] in pipes && pipes[l[0]].state.IDLE?
        then pipes[l[0] := pipes[l[0]].(state := CONNECTING)] else pipes;
      StartsIdleOnce(l[1..], next);
      assert l == [l[0]] + l[1..];
    }
  }

  lemma {:induction false} KeepTwice(l: seq<PipeId>, a: set<PipeId>, b: set<PipeId>)
    ensures Keep(Keep(l, a), b) == Keep(l, a + b)
  {
    if l != [] {
      KeepTwice(l[1..], a, b);
      if l[0] !in a {
        assert Keep(l, a) == [l[0]] + Keep(l[1..], a);
      }
    }
  }

  lemma {:induction false} KeepAll(l: seq<PipeId>)
    ensures Keep(l, {}) == l
  {
    if l != [] {
      KeepAll(l[1..]);
    }
  }

  /** A scan that has not stopped yet has not passed a match. */
  lemma {:induction false} FindUnique(l: seq<PipeId>, pipes: map<PipeId, Pipe>, w: Wsi, i: nat)
    requires i <= |l| && (forall p :: p in l ==> p in pipes)
    requires forall j :: 0 <= j < i ==> !Matches(pipes[l[j]], w)
    requires i < |l| ==> Matches(pipes[l[i]], w)
    ensures FindAt(l, pipes, w) == i
  {
    var k := FindAt(l, pipes, w);
    assert !(k < i) && !(i < k);
  }

  function Members(l: seq<PipeId>): set<PipeId> {
    set p | p in l
  }

  lemma PurgedSnoc(l: seq<PipeId>, p: PipeId, pipes: map<PipeId, Pipe>)
    requires p in pipes
    ensures Purged(l + [p], pipes)
         == Purged(l, pipes) + if pipes[p].wsi.None? && pipes[p].state.FAILED? then {p} else {}
  {
  }

  class Pending {
    var connects: seq<PipeId>
    var disconnects: seq<PipeId>
    var writes: seq<PipeId>

    constructor ()
      ensures connects == [] && disconnects == [] && writes == []
    {
      connects, disconnects, writes := [], [], [];
    }

    /** findAndRemovePendingConnect: the first pass stops at the pipe it looks for and notes the
        connects that failed at once; the second takes those out, then the pipe it found. */
    method FindAndRemovePendingConnect(pipes: map<PipeId, Pipe>, w: Wsi) returns (ap: Option<PipeId>)
      requires forall p :: p in connects ==> p in pipes
      modifies this`connects
      ensures var l := old(connects); var i := FindAt(l, pipes, w);
        && ap == (if i < |l| then Some(l[i]) else None)
        && connects == Keep(l, Purged(Scanned(l, i), pipes) + if i < |l| then {l[i]} else {})
    {
      var toRemove: seq<PipeId> := [];
      var it := 0;
      ap := None;
      while it < |connects| && ap.None?
        invariant it <= |connects| && connects == old(connects)
        invariant Members(toRemove) == Purged(connects[..it], pipes)
        invariant ap.None? ==> forall j :: 0 <= j < it ==> !Matches(pipes[connects[j]], w)
        invariant ap.Some? ==> it > 0 && ap.value == connects[it - 1] && Matches(pipes[ap.value], w)
        invariant ap.Some? ==> forall j :: 0 <= j < it - 1 ==> !Matches(pipes[connects[j]], w)
      {
        var p := connects[it];
        assert connects[..it + 1] == connects[..it] + [p];
        PurgedSnoc(connects[..it], p, pipes);
        if pipes[p].wsi.None? && pipes[p].state.FAILED? {
          toRemove := toRemove + [p];
        }
        if pipes[p].state.CONNECTING? && pipes[p].wsi == Some(w) {
          ap := Some(p);
        }
        it := it + 1;
      }
      FindUnique(connects, pipes, w, if ap.Some? then it - 1 else it);
      assert Scanned(connects, FindAt(connects, pipes, w)) == connects[..it];
      assert Members(toRemove) + {} == Members(toRemove);
      Remove(toRemove);
      if ap.Some? {
        KeepTwice(old(connects), Members(toRemove), {ap.value});
        connects := Keep(connects, {ap.value});
      }
    }

    /** pendingConnects.remove, for each pipe noted. */
    method Remove(toRemove: seq<PipeId>)
      modifies this`connects
      ensures connects == Keep(old(connects), Members(toRemove))
    {
      KeepAll(connects);
      assert Members(toRemove[..0]) == {};
      for i := 0 to |toRemove|
        invariant connects == Keep(old(connects), Members(toRemove[..i]))
      {
        KeepTwice(old(connects), Members(toRemove[..i]), {toRemove[i]});
        assert Members(toRemove[..i + 1]) == Members(toRemove[..i]) + {toRemove[i]};
        connects := Keep(connects, {toRemove[i]});
      }
      assert toRemove[..|toRemove|] == toRemove;
    }

    /** The locked part of processPendingConnects: the list stays, idle pipes are started. */
    method TakeConnects(pipes: map<PipeId, Pipe>) returns (todo: seq<PipeId>, after: map<PipeId, Pipe>)
      requires forall p :: p in connects ==> p in pipes
      ensures todo == Idle(connects, pipes) && after == Started(connects, pipes)
    {
      todo, after := [], pipes;
      var it := 0;
      assert connects[0..] == connects;
      while it < |connects|
        invariant it <= |connects| && after.Keys == pipes.Keys
        invariant todo + Idle(connects[it..], after) == Idle(connects, pipes)
        invariant Started(connects[it..], after) == Started(connects, pipes)
      {
        var p := connects[it];
        assert connects[it..][1..] == connects[it + 1..];
        if after[p].state.IDLE? {
          todo := todo + [p];
          after := after[p := after[p].(state := CONNECTING)];
        }
        it := it + 1;
      }
      assert connects[it..] == [];
    }

    /** The locked part of processPendingDisconnects. */
    method TakeDisconnects(pipes: map<PipeId, Pipe>) returns (hits: seq<PipeId>)
      requires forall p :: p in disconnects ==> p in pipes
      modifies this`disconnects
      ensures hits == Picked(old(disconnects), pipes, DISCONNECTING)
      ensures disconnects == Unadopted(old(disconnects), pipes)
    {
      hits, disconnects := TakeAdopted(disconnects, pipes, DISCONNECTING);
    }

    /** The locked part of processPendingWrites. */
    method TakeWrites(pipes: map<PipeId, Pipe>) returns (hits: seq<PipeId>)
      requires forall p :: p in writes ==> p in pipes
      modifies this`writes
      ensures hits == Picked(old(writes), pipes, CONNECTED)
      ensures writes == Unadopted(old(writes), pipes)
    {
      hits, writes := TakeAdopted(writes, pipes, CONNECTED);
    }

    /** removeFromPending. */
    method RemoveFromPending(p: PipeId)
      modifies this
      ensures connects == Keep(old(connects), {p})
      ensures disconnects == Keep(old(disconnects), {p})
      ensures writes == Keep(old(writes), {p})
      ensures p !in connects && p !in disconnects && p !in writes
    {
      connects := Keep(connects, {p});
      disconnects := Keep(disconnects, {p});
      writes := Keep(writes, {p});
    }
  }

  lemma PickedMoves(pending: seq<PipeId>, seen: nat, pipes: map<PipeId, Pipe>, st: LwsState, hits: seq<PipeId>)
    requires seen < |pending| && pending[seen] in pipes
    requires hits + Picked(pending[seen..], pipes, st) == Picked(pending, pipes, st)
    ensures var p := pending[seen];
      (if pipes[p].vhd && pipes[p].state == st then hits + [p] else hits) + Picked(pending[seen + 1..], pipes, st)
      == Picked(pending, pipes, st)
  {
    assert pending[seen..][0] == pending[seen] && pending[seen..][1..] == pending[seen + 1..];
  }

  lemma UnadoptedMoves(pending: seq<PipeId>, seen: nat, pipes: map<PipeId, Pipe>, kept: seq<PipeId>)
    requires seen < |pending| && pending[seen] in pipes
    requires kept + Unadopted(pending[seen..], pipes) == Unadopted(pending, pipes)
    ensures (if pipes[pending[seen]].vhd then kept else kept + [pending[seen]]) + Unadopted(pending[seen + 1..], pipes)
         == Unadopted(pending, pipes)
  {
    assert pending[seen..][0] == pending[seen] && pending[seen..][1..] == pending[seen + 1..];
  }

  lemma NothingLeft(pipes: map<PipeId, Pipe>, st: LwsState)
    ensures Picked([], pipes, st) == [] && Unadopted([], pipes) == []
  {
  }

  /** Erase while iterating: an adopted entry leaves the list, and is a hit if its state is `st`. */
  method TakeAdopted(pending: seq<PipeId>, pipes: map<PipeId, Pipe>, st: LwsState)
      returns (hits: seq<PipeId>, rest: seq<PipeId>)
    requires forall p :: p in pending ==> p in pipes
    ensures hits == Picked(pending, pipes, st) && rest == Unadopted(pending, pipes)
  {
    hide Picked, Unadopted;
    hits, rest := [], pending;
    var it := 0;
    ghost var seen := 0;
    assert pending[0..] == pending;
    while it < |rest|
      invariant it <= |rest| && seen + (|rest| - it) == |pending|
      invariant rest[it..] == pending[seen..]
      invariant rest[..it] + Unadopted(pending[seen..], pipes) == Unadopted(pending, pipes)
      invariant hits + Picked(pending[seen..], pipes, st) == Picked(pending, pipes, st)
      decreases |rest| - it
    {
      var p := rest[it];
      assert p == rest[it..][0] == pending[seen..][0];
      assert pending[seen..][1..] == pending[seen + 1..] && rest[it..][1..] == rest[it + 1..];
      PickedMoves(pending, seen, pipes, st, hits);
      UnadoptedMoves(pending, seen, pipes, rest[..it]);
      if pipes[p].vhd {
        if pipes[p].state == st {
          hits := hits + [p];
        }
        assert Erase(rest, it)[..it] == rest[..it] && Erase(rest, it)[it..] == rest[it + 1..];
        rest := Erase(rest, it);
      } else {
        assert rest[..it + 1] == rest[..it] + [p];
        it := it + 1;
      }
      seen := seen + 1;
    }
    assert pending[seen..] == [] && rest[..it] == rest;
    NothingLeft(pipes, st);
  }

  // ---------------------------------------------------------------- what the protocol's scans add up to

  const ALONE := Service(Choice(None, true, None))

  predicate Undisturbed(run: seq<Step>) {
    forall i :: 0 <= i < |run| ==> run[i] == ALONE
  }

  lemma ScanStep(s: Sys, pos: nat, hits: seq<PipeId>)
    requires s.svc == DiscScan(pos, hits) && pos <= |s.disconnects|
    requires pos < |s.disconnects| ==> s.disconnects[pos] in s.pipes
    ensures Enabled(s, ALONE) && Apply(s, ALONE) == DiscScanStep(s, pos, hits)
  {
  }

  lemma ExecFirst(s: Sys, step: Step, rest: seq<Step>)
    requires Enabled(s, step) && ValidRun(Apply(s, step), rest)
    ensures ValidRun(s, [step] + rest) && Exec(s, [step] + rest) == Exec(Apply(s, step), rest)
  {
    assert ([step] + rest)[1..] == rest;
  }

  /** What the loop over pendingDisconnects makes of the state, from `pos` on. */
  function Swept(s: Sys, pos: nat, hits: seq<PipeId>): Sys
    requires pos <= |s.disconnects|
  {
    var todo := s.disconnects[pos..];
    s.(disconnects := s.disconnects[..pos] + Unadopted(todo, s.pipes),
       svc := DiscLoop(hits + Picked(todo, s.pipes, DISCONNECTING)))
  }

  lemma SweptStep(s: Sys, pos: nat, hits: seq<PipeId>)
    requires pos < |s.disconnects| && s.disconnects[pos] in s.pipes
    ensures var t := DiscScanStep(s, pos, hits);
      && t.svc.DiscScan? && t.svc.pos <= |t.disconnects|
      && Swept(t, t.svc.pos, t.svc.hits) == Swept(s, pos, hits)
  {
    var t := DiscScanStep(s, pos, hits);
    var todo := s.disconnects[pos..];
    assert todo[1..] == s.disconnects[pos + 1..];
    if s.pipes[todo[0]].vhd {
      assert t.disconnects[..pos] == s.disconnects[..pos] && t.disconnects[pos..] == todo[1..];
      assert hits + Picked(todo, s.pipes, DISCONNECTING) == t.svc.hits + Picked(todo[1..], s.pipes, DISCONNECTING);
    } else {
      assert s.disconnects[..pos] + Unadopted(todo, s.pipes)
          == s.disconnects[..pos + 1] + Unadopted(todo[1..], s.pipes);
    }
  }

  /** Entry by entry, an undisturbed scan of pendingDisconnects comes to what the loop does at once. */
  lemma {:induction false} DisconnectScan(s: Sys, pos: nat, hits: seq<PipeId>) returns (run: seq<Step>)
    requires s.svc == DiscScan(pos, hits) && pos <= |s.disconnects| && (forall p :: p in s.disconnects ==> p in s.pipes)
    ensures Undisturbed(run) && ValidRun(s, run) && Exec(s, run) == Swept(s, pos, hits)
    decreases |s.disconnects| - pos
  {
    ScanStep(s, pos, hits);
    var t := Apply(s, ALONE);
    var rest: seq<Step> := [];
    if pos == |s.disconnects| {
      assert s.disconnects[..pos] + [] == s.disconnects && hits + [] == hits;
    } else {
      SweptStep(s, pos, hits);
      rest := DisconnectScan(t, t.svc.pos, t.svc.hits);
    }
    hide Swept, Enabled, Apply, DiscScanStep;
    ExecFirst(s, ALONE, rest);
    run := [ALONE] + rest;
  }

  lemma WriteStep(s: Sys, pos: nat, hits: seq<PipeId>)
    requires s.svc == WriteScan(pos, hits) && pos <= |s.writes|
    requires pos < |s.writes| ==> s.writes[pos] in s.pipes
    ensures Enabled(s, ALONE) && Apply(s, ALONE) == WriteScanStep(s, pos, hits)
  {
  }

  /** What the loop over pendingWrites makes of the state, from `pos` on. */
  function Flushed(s: Sys, pos: nat, hits: seq<PipeId>): Sys
    requires pos <= |s.writes|
  {
    var todo := s.writes[pos..];
    s.(writes := s.writes[..pos] + Unadopted(todo, s.pipes), svc := WriteLoop(hits + Picked(todo, s.pipes, CONNECTED)))
  }

  lemma FlushedStep(s: Sys, pos: nat, hits: seq<PipeId>)
    requires pos < |s.writes| && s.writes[pos] in s.pipes
    ensures var t := WriteScanStep(s, pos, hits);
      && t.svc.WriteScan? && t.svc.pos <= |t.writes|
      && Flushed(t, t.svc.pos, t.svc.hits) == Flushed(s, pos, hits)
  {
    var t := WriteScanStep(s, pos, hits);
    var todo := s.writes[pos..];
    assert todo[1..] == s.writes[pos + 1..];
    if s.pipes[todo[0]].vhd {
      assert t.writes[..pos] == s.writes[..pos] && t.writes[pos..] == todo[1..];
      assert hits + Picked(todo, s.pipes, CONNECTED) == t.svc.hits + Picked(todo[1..], s.pipes, CONNECTED);
    } else {
      assert s.writes[..pos] + Unadopted(todo, s.pipes) == s.writes[..pos + 1] + Unadopted(todo[1..], s.pipes);
    }
  }

  /** The same for pendingWrites. */
  lemma {:induction false} WritesScan(s: Sys, pos: nat, hits: seq<PipeId>) returns (run: seq<Step>)
    requires s.svc == WriteScan(pos, hits) && pos <= |s.writes| && (forall p :: p in s.writes ==> p in s.pipes)
    ensures Undisturbed(run) && ValidRun(s, run) && Exec(s, run) == Flushed(s, pos, hits)
    decreases |s.writes| - pos
  {
    WriteStep(s, pos, hits);
    var t := Apply(s, ALONE);
    var rest: seq<Step> := [];
    if pos == |s.writes| {
      assert s.writes[..pos] + [] == s.writes && hits + [] == hits;
    } else {
      FlushedStep(s, pos, hits);
      rest := WritesScan(t, t.svc.pos, t.svc.hits);
    }
    hide Flushed, Enabled, Apply, WriteScanStep;
    ExecFirst(s, ALONE, rest);
    run := [ALONE] + rest;
  }

  lemma ConnectStep(s: Sys, pos: nat, todo: seq<PipeId>)
    requires s.svc == ConnScan(pos, todo) && pos <= |s.connects|
    requires pos < |s.connects| ==> s.connects[pos] in s.pipes
    ensures Enabled(s, ALONE) && Apply(s, ALONE) == ConnScanStep(s, pos, todo)
  {
  }

  /** What the loop over pendingConnects makes of the state, from `pos` on. */
  function Opened(s: Sys, pos: nat, todo: seq<PipeId>): Sys
    requires pos <= |s.connects|
  {
    s.(pipes := Started(s.connects[pos..], s.pipes), svc := ConnLoop(todo + Idle(s.connects[pos..], s.pipes)))
  }

  lemma OpenedStep(s: Sys, pos: nat, todo: seq<PipeId>)
    requires pos < |s.connects| && s.connects[pos] in s.pipes
    ensures var t := ConnScanStep(s, pos, todo);
      && t.svc.ConnScan? && t.svc.pos == pos + 1 && t.connects == s.connects && t.pipes.Keys == s.pipes.Keys
      && Opened(t, pos + 1, t.svc.todo) == Opened(s, pos, todo)
  {
    var l := s.connects[pos..];
    assert l[1..] == s.connects[pos + 1..];
    var t := ConnScanStep(s, pos, todo);
    assert todo + Idle(l, s.pipes) == t.svc.todo + Idle(l[1..], t.pipes);
  }

  /** The same for pendingConnects. */
  lemma {:induction false} ConnectScan(s: Sys, pos: nat, todo: seq<PipeId>) returns (run: seq<Step>)
    requires s.svc == ConnScan(pos, todo) && pos <= |s.connects| && (forall p :: p in s.connects ==> p in s.pipes)
    ensures Undisturbed(run) && ValidRun(s, run) && Exec(s, run) == Opened(s, pos, todo)
    decreases |s.connects| - pos
  {
    ConnectStep(s, pos, todo);
    var t := Apply(s, ALONE);
    var rest: seq<Step> := [];
    if pos == |s.connects| {
      assert s.connects[pos..] == [] && todo + [] == todo;
    } else {
      OpenedStep(s, pos, todo);
      rest := ConnectScan(t, pos + 1, t.svc.todo);
    }
    hide Opened, Enabled, Apply, ConnScanStep;
    ExecFirst(s, ALONE, rest);
    run := [ALONE] + rest;
  }
}
