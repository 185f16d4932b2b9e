/** The connect-time drain of mod_azure_transcribe against the media thread's writer. A byte
    is named by its position among all bytes write() has taken. */
module AzureDrain {
  import opened Common
  import opened Prebuffer

  datatype Writer = Idle | Staging | Sending

  datatype Drain = Waiting | Draining | Finished

  /** `frame` is the length of the frame in write(); `rest` the staged bytes the drain ends with;
      `held` the bytes taken when the drain began; `failed` says that the push stream threw,
      or that the session was over when the staged bytes came to be flushed. */
  datatype Stream = Stream(
    next: nat, frame: nat, pre: seq<Stamp>, todo: seq<seq<Stamp>>, rest: seq<Stamp>, pushed: seq<Stamp>,
    connected: bool, finished: bool, failed: bool, held: nat, writer: Writer, drain: Drain)

  const FRESH := Stream(0, 0, [], [], [], [], false, false, false, 0, Idle, Waiting)

  datatype Step =
    | Write(n: nat)
    | Stage
    | Send(ok: bool)            // whether the push stream takes the bytes or throws
    | SessionStarted
    | DrainNext(ok: bool)
    | DrainRest(ok: bool)
    | DrainEnd
    | Canceled                  // any other handler finishes the session

  predicate Enabled(s: Stream, step: Step) {
    match step
    case Write(_) => s.writer.Idle?
    case Stage => s.writer.Staging? && !s.drain.Draining?
    case Send(_) => s.writer.Sending?
    case SessionStarted => s.drain.Waiting? && !s.finished
    case DrainNext(_) => s.drain.Draining? && s.todo != []
    case DrainRest(_) => s.drain.Draining? && s.todo == [] && s.rest != []
    case DrainEnd => s.drain.Draining? && s.todo == [] && s.rest == []
    case Canceled => true
  }

  function Apply(s: Stream, step: Step, size: nat, n: nat): Stream
    requires size > 0 && Enabled(s, step)
  {
    match step
    case Write(k) => if s.finished then s else s.(frame := k, writer := if s.connected then Sending else Staging)
    case Stage =>
      if s.connected then s.(writer := Sending)
      else s.(pre := s.pre + Stamps(s.next, s.frame), next := s.next + s.frame, writer := Idle)
    case Send(ok) =>
      if ok then s.(pushed := s.pushed + Stamps(s.next, s.frame), next := s.next + s.frame, writer := Idle)
      else s.(finished := true, failed := true, writer := Idle)
    case SessionStarted =>
      s.(todo := Last(Chunks(s.pre, size), n), rest := Rest(s.pre, size), pre := [], held := s.next, drain := Draining)
    case DrainNext(ok) =>
      if ok then s.(pushed := s.pushed + s.todo[0], todo := s.todo[1..])
      else s.(finished := true, failed := true, todo := [])
    case DrainRest(ok) =>
      if !s.finished && ok then s.(pushed := s.pushed + s.rest, rest := [])
      else s.(finished := true, failed := true, rest := [])
    case DrainEnd => s.(connected := true, drain := Finished)
    case Canceled => s.(finished := true)
  }

  predicate ValidRun(s: Stream, run: seq<Step>, size: nat, n: nat)
    requires size > 0
    decreases |run|
  {
    run == [] || (Enabled(s, run[0]) && ValidRun(Apply(s, run[0], size, n), run[1..], size, n))
  }

  function Exec(s: Stream, run: seq<Step>, size: nat, n: nat): Stream
    requires size > 0 && ValidRun(s, run, size, n)
    decreases |run|
  {
    if run == [] then s else Exec(Apply(s, run[0], size, n), run[1..], size, n)
  }

  // ---------------------------------------------------------------- the invariant

  /** Whole chunks overwritten before the drain. */
  function Lost(s: Stream, size: nat, n: nat): nat
    requires size > 0
  {
    if s.drain.Waiting? then 0 else ChunksLost(s.held, size, n)
  }

  function Flow(s: Stream): seq<Stamp> {
    s.pushed + Concat(s.todo) + s.rest + s.pre
  }

  predicate Inv(s: Stream, size: nat, n: nat)
    requires size > 0
  {
    && (s.drain.Waiting? ==> s.pushed == [] && s.todo == [] && s.rest == [] && !s.connected)
    && (s.drain.Draining? ==> s.pre == [] && !s.connected)
    && (s.drain.Finished? ==> s.pre == [] && s.todo == [] && s.rest == [] && s.connected)
    && (s.writer.Sending? ==> s.connected)
    && (!s.failed ==> Lost(s, size, n) * size <= s.next
                      && Flow(s) == Stamps(Lost(s, size, n) * size, s.next - Lost(s, size, n) * size))
  }

  lemma StampsMore(from: nat, k: nat, n: nat)
    ensures Stamps(from, k) + Stamps(from + k, n) == Stamps(from, k + n)
  {
  }

  lemma StampsTail(from: nat, k: nat, drop: nat)
    requires drop <= k
    ensures Stamps(from, k)[drop..] == Stamps(from + drop, k - drop)
  {
  }

  lemma NoChunks<T>(q: seq<seq<T>>)
    requires q == []
    ensures Concat(q) == []
  {
  }

  lemma StageKeeps(s: Stream, size: nat, n: nat)
    requires size > 0 && Inv(s, size, n) && Enabled(s, Stage)
    ensures Inv(Apply(s, Stage, size, n), size, n)
  {
    var lost := Lost(s, size, n) * size;
    if !s.failed && !s.connected {
      StampsMore(lost, s.next - lost, s.frame);
      NoChunks(s.todo);
    }
  }

  lemma SendKeeps(s: Stream, ok: bool, size: nat, n: nat)
    requires size > 0 && Inv(s, size, n) && Enabled(s, Send(ok))
    ensures Inv(Apply(s, Send(ok), size, n), size, n)
  {
    var lost := Lost(s, size, n) * size;
    NoChunks(s.todo);
    if !s.failed && ok {
      StampsMore(lost, s.next - lost, s.frame);
    }
  }

  lemma HandedParts<T>(w: seq<T>, size: nat, n: nat)
    requires size > 0
    ensures Concat(Handed(w, size, n)) == Concat(Last(Chunks(w, size), n)) + Rest(w, size)
  {
    var c, r := Last(Chunks(w, size), n), Rest(w, size);
    if r == [] {
      assert c + [] == c;
    } else {
      ConcatAppend(c, [r]);
      assert Concat([r]) == r + Concat([r][1..]);
    }
  }

  lemma DrainKeepsSuffix(held: nat, size: nat, n: nat)
    requires size > 0
    ensures var w, lost := Stamps(0, held), ChunksLost(held, size, n) * size;
      lost <= held && Concat(Last(Chunks(w, size), n)) + Rest(w, size) == Stamps(lost, held - lost)
  {
    hide Handed, Last, Rest, Chunks;
    var w := Stamps(0, held);
    DrainIsSuffix(w, size, n);
    HandedParts(w, size, n);
    StampsTail(0, held, ChunksLost(held, size, n) * size);
  }

  lemma StartKeeps(s: Stream, size: nat, n: nat)
    requires size > 0 && Inv(s, size, n) && Enabled(s, SessionStarted)
    ensures Inv(Apply(s, SessionStarted, size, n), size, n)
  {
    hide Last, Rest, Chunks;
    if !s.failed {
      NoChunks(s.todo);
      assert s.pre == Flow(s) == Stamps(0, s.next);
      DrainKeepsSuffix(s.next, size, n);
      var t := Apply(s, SessionStarted, size, n);
      assert Flow(t) == Concat(t.todo) + t.rest;
    }
  }

  lemma DrainKeeps(s: Stream, ok: bool, size: nat, n: nat)
    requires size > 0 && Inv(s, size, n) && Enabled(s, DrainNext(ok))
    ensures Inv(Apply(s, DrainNext(ok), size, n), size, n)
  {
    if !s.failed && ok {
      assert Concat(s.todo) == s.todo[0] + Concat(s.todo[1..]);
      assert s.pushed + (s.todo[0] + Concat(s.todo[1..])) == (s.pushed + s.todo[0]) + Concat(s.todo[1..]);
    }
  }

  lemma RestKeeps(s: Stream, ok: bool, size: nat, n: nat)
    requires size > 0 && Inv(s, size, n) && Enabled(s, DrainRest(ok))
    ensures Inv(Apply(s, DrainRest(ok), size, n), size, n)
  {
    NoChunks(s.todo);
  }

  lemma StepKeeps(s: Stream, step: Step, size: nat, n: nat)
    requires size > 0 && Inv(s, size, n) && Enabled(s, step)
    ensures Inv(Apply(s, step, size, n), size, n)
  {
    match step {
      case Stage => StageKeeps(s, size, n);
      case Send(ok) => SendKeeps(s, ok, size, n);
      case SessionStarted => StartKeeps(s, size, n);
      case DrainNext(ok) => DrainKeeps(s, ok, size, n);
      case DrainRest(ok) => RestKeeps(s, ok, size, n);
      case _ =>
    }
  }

  lemma {:induction false} RunKeeps(s: Stream, run: seq<Step>, size: nat, n: nat)
    requires size > 0 && Inv(s, size, n) && ValidRun(s, run, size, n)
    ensures Inv(Exec(s, run, size, n), size, n)
    decreases |run|
  {
    hide Inv;
    if run != [] {
      StepKeeps(s, run[0], size, n);
      RunKeeps(Apply(s, run[0], size, n), run[1..], size, n);
    }
  }

  /** For every interleaving of the writer with the drain, without a stream failure: what the
      push stream has got and what is still to come are one unbroken stretch of the bytes
      written, in order, that leaves out only whole overwritten chunks at its beginning;
      once the drain is over nothing is left behind. */
  lemma DrainExact(run: seq<Step>, size: nat, n: nat)
    requires size > 0 && ValidRun(FRESH, run, size, n) && !Exec(FRESH, run, size, n).failed
    ensures var s := Exec(FRESH, run, size, n); var lost := Lost(s, size, n) * size;
      && lost <= s.next && Flow(s) == Stamps(lost, s.next - lost)
      && (s.connected ==> s.pushed == Stamps(lost, s.next - lost))
  {
    var none: seq<seq<Stamp>> := [];
    NoChunks(none);
    assert Flow(FRESH) == Stamps(0, 0);
    RunKeeps(FRESH, run, size, n);
    NoChunks(Exec(FRESH, run, size, n).todo[|Exec(FRESH, run, size, n).todo|..]);
  }

  // ---------------------------------------------------------------- what write() was given

  /** The frame write() is at. */
  function Pending(s: Stream): nat {
    if s.writer.Idle? then 0 else s.frame
  }

  /** The lengths of the frames write() was given while the session was not finished. */
  function Given(s: Stream, run: seq<Step>, size: nat, n: nat): nat
    requires size > 0 && ValidRun(s, run, size, n)
    decreases |run|
  {
    if run == [] then 0
    else (if run[0].Write? && !s.finished then run[0].n else 0) + Given(Apply(s, run[0], size, n), run[1..], size, n)
  }

  lemma StepTakes(s: Stream, step: Step, size: nat, n: nat)
    requires size > 0 && Enabled(s, step)
    ensures var t := Apply(s, step, size, n);
      && (s.failed ==> t.failed)
      && (!t.failed ==> t.next + Pending(t) == s.next + Pending(s) + if step.Write? && !s.finished then step.n else 0)
      && (t.connected <==> s.connected || step.DrainEnd?)
      && ((s.failed ==> s.finished) ==> (t.finished <==> s.finished || step.Canceled? || t.failed))
  {
    hide Last, Chunks, Rest;
  }

  lemma {:induction false} RunTakes(s: Stream, run: seq<Step>, size: nat, n: nat)
    requires size > 0 && ValidRun(s, run, size, n) && (s.failed ==> s.finished)
    ensures var t := Exec(s, run, size, n);
      && (s.failed ==> t.failed) && (t.finished <==> s.finished || Canceled in run || t.failed)
      && (!t.failed ==> t.next + Pending(t) == s.next + Pending(s) + Given(s, run, size, n))
      && (t.connected <==> s.connected || DrainEnd in run)
    decreases |run|
  {
    hide Apply, Enabled, Pending;
    if run != [] {
      assert run == [run[0]] + run[1..];
      StepTakes(s, run[0], size, n);
      RunTakes(Apply(s, run[0], size, n), run[1..], size, n);
    }
  }

  /** Without a stream failure every frame write() was given before the session was finished is
      taken, before and after the connect, but for the one it is still at; the session is connected
      exactly if its drain has ended, and finished exactly if a handler finished it. */
  lemma TakenExactly(run: seq<Step>, size: nat, n: nat)
    requires size > 0 && ValidRun(FRESH, run, size, n) && !Exec(FRESH, run, size, n).failed
    ensures var s := Exec(FRESH, run, size, n);
      && s.next + Pending(s) == Given(FRESH, run, size, n)
      && (s.connected <==> DrainEnd in run) && (s.finished <==> Canceled in run)
  {
    RunTakes(FRESH, run, size, n);
  }

  // ---------------------------------------------------------------- the drain and write() always end

  function DrainRank(s: Stream): nat {
    |s.todo| + (if s.rest == [] then 0 else 1) + (if s.drain.Draining? then 1 else 0)
    + match s.writer case Idle => 0 case Sending => 1 case Staging => 2
  }

  predicate Onward(step: Step) {
    step.Stage? || step == Send(true) || step == DrainNext(true) || step == DrainRest(true) || step.DrainEnd?
  }

  predicate OnwardOnly(run: seq<Step>) {
    forall i :: 0 <= i < |run| ==> Onward(run[i])
  }

  lemma OneOnward(s: Stream, size: nat, n: nat) returns (step: Step)
    requires size > 0 && (s.drain.Draining? || !s.writer.Idle?) && (!s.drain.Draining? ==> s.todo == [] && s.rest == [])
    ensures Enabled(s, step) && Onward(step) && DrainRank(Apply(s, step, size, n)) < DrainRank(s)
    ensures var t := Apply(s, step, size, n); !t.drain.Draining? ==> t.todo == [] && t.rest == []
    ensures step.DrainEnd? ==> s.drain.Draining?
    ensures Apply(s, step, size, n).drain == if step.DrainEnd? then Finished else s.drain
  {
    step := if s.drain.Draining? then
              (if s.todo != [] then DrainNext(true) else if s.rest != [] then DrainRest(true) else DrainEnd)
            else if s.writer.Sending? then Send(true) else Stage;
    hide Last, Chunks, Rest;
  }

  /** A drain that has begun, and a frame in write(), always come to their end by their own steps;
      in particular the frame that waits for the drain is not stranded. */
  lemma {:induction false} AlwaysEnds(s: Stream, size: nat, n: nat) returns (run: seq<Step>)
    requires size > 0 && (!s.drain.Draining? ==> s.todo == [] && s.rest == [])
    ensures ValidRun(s, run, size, n) && OnwardOnly(run)
    ensures var t := Exec(s, run, size, n);
      t.writer.Idle? && t.drain == (if s.drain.Draining? then Finished else s.drain)
    decreases DrainRank(s)
  {
    hide Apply, Enabled, DrainRank;
    if !s.drain.Draining? && s.writer.Idle? {
      run := [];
    } else {
      var step := OneOnward(s, size, n);
      var rest := AlwaysEnds(Apply(s, step, size, n), size, n);
      run := [step] + rest;
      assert run[1..] == rest;
    }
  }
}
