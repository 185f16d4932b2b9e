/** A finish() that races the drain: OnStreamReady publishes m_pStream before it drains, the
    worker closes the stream in between, and an accepted byte never reaches it. */
module AwsWitness {
  import opened Common
  import opened Prebuffer
  import opened AwsModel
  import opened AwsInv
  import opened AwsAudio
  import opened AwsSafety

  const G := Cfg(640, 15, 500)
  const START := Sys(Initial(false, true), SILENT)

  predicate Reached(run: seq<Step>, s: Sys) {
    ValidRun(START, run, G) && Exec(START, run, G) == s
  }

  lemma {:induction false} SessionRunExtends(s: Sys, run: seq<Step>, step: Step)
    requires ValidRun(s, run, G) && Possible(Exec(s, run, G), step)
    ensures ValidRun(s, run + [step], G) && Exec(s, run + [step], G) == Next(Exec(s, run, G), step, G)
    decreases |run|
  {
    hide Next, Possible;
    if run == [] {
      assert (run + [step])[0] == step && (run + [step])[1..] == [];
    } else {
      assert (run + [step])[0] == run[0] && (run + [step])[1..] == run[1..] + [step];
      SessionRunExtends(Next(s, run[0], G), run[1..], step);
    }
  }

  lemma Go(run: seq<Step>, s: Sys, step: Step, t: Sys) returns (longer: seq<Step>)
    requires Reached(run, s) && Possible(s, step) && Next(s, step, G) == t
    ensures Reached(longer, t)
  {
    SessionRunExtends(START, run, step);
    longer := run + [step];
  }

  const C0 := Initial(false, true)
  const C1 := C0.(obj := Built, worker := MaybeConnect)
  const C2 := C1.(connecting := true, sdk := Started, worker := Publish)
  const C3 := C2.(pub := true, worker := CheckStop)
  const C4 := C3.(worker := Loop)

  lemma Starts() returns (run: seq<Step>)
    ensures Reached(run, Sys(C2, SILENT))
  {
    assert Reached([], START);
    run := Go([], START, Work, Sys(C1, SILENT));
    run := Go(run, Sys(C1, SILENT), Work, Sys(C2, SILENT));
  }

  lemma Connects() returns (run: seq<Step>)
    ensures Reached(run, Sys(C4, SILENT))
  {
    run := Starts();
    run := Go(run, Sys(C2, SILENT), Work, Sys(C3, SILENT));
    run := Go(run, Sys(C3, SILENT), Work, Sys(C4, SILENT));
  }

  const WITH_FRAME := SILENT.(frame := 1)
  const HELD := SILENT.(frame := 1, next := 1, pre := [0])

  /** The media thread writes one byte before the connection is up. */
  lemma Writes() returns (run: seq<Step>)
    ensures Reached(run, Sys(C4, HELD))
  {
    run := Connects();
    var inside := C4.(lock := MediaThread, media := Inside);
    run := Go(run, Sys(C4, SILENT), Enter, Sys(inside, SILENT));
    run := Go(run, Sys(inside, SILENT), Write(1), Sys(inside.(media := Staging), WITH_FRAME));
    assert [] + Stamps(0, 1) == [0];
    run := Go(run, Sys(inside.(media := Staging), WITH_FRAME), Stage, Sys(inside, HELD));
    run := Go(run, Sys(inside, HELD), Leave, Sys(C4, HELD));
  }

  const C5 := C4.(stream := true, sdk := Ready)
  const C6 := C5.(stops := map[0 := Stop(OwnClose, WantLock)])
  const C7 := C5.(stops := map[0 := Stop(OwnClose, Flag)], lock := Stopper(0))
  const C8 := C7.(stops := map[0 := Stop(OwnClose, Load)], stopReq := true)

  lemma Announces() returns (run: seq<Step>)
    ensures Reached(run, Sys(C6, HELD))
  {
    run := Writes();
    run := Go(run, Sys(C4, HELD), OnReady(true), Sys(C5, HELD));
    assert C5.stops[0 := Stop(OwnClose, WantLock)] == map[0 := Stop(OwnClose, WantLock)];
    run := Go(run, Sys(C5, HELD), Begin(0, OwnClose), Sys(C6, HELD));
  }

  /** OnStreamReady publishes the stream; before the drain, CLOSE raises the flag. */
  lemma Raises() returns (run: seq<Step>)
    ensures Reached(run, Sys(C8, HELD))
  {
    run := Announces();
    assert C6.stops[0 := Stop(OwnClose, Flag)] == map[0 := Stop(OwnClose, Flag)];
    run := Go(run, Sys(C6, HELD), Tear(0), Sys(C7, HELD));
    assert C7.stops[0 := Stop(OwnClose, Load)] == map[0 := Stop(OwnClose, Load)];
    run := Go(run, Sys(C7, HELD), Tear(0), Sys(C8, HELD));
  }

  const C9 := C8.(stops := map[0 := Stop(OwnClose, Finish(true))])
  const C10 := C8.(stops := map[0 := Stop(OwnClose, Join)], finishing := true)
  const C11 := C10.(shutdown := true, worker := Writing(true))
  const C12 := C11.(stream := false, worker := Loop)

  lemma Finishes() returns (run: seq<Step>)
    ensures Reached(run, Sys(C10, HELD))
  {
    run := Raises();
    assert C8.stops[0 := Stop(OwnClose, Finish(true))] == map[0 := Stop(OwnClose, Finish(true))];
    run := Go(run, Sys(C8, HELD), Tear(0), Sys(C9, HELD));
    assert C9.stops[0 := Stop(OwnClose, Join)] == map[0 := Stop(OwnClose, Join)];
    run := Go(run, Sys(C9, HELD), Tear(0), Sys(C10, HELD));
  }

  const LEFT := HELD.(late := true)

  lemma ShutsDown() returns (run: seq<Step>)
    ensures Reached(run, Sys(C11, LEFT))
  {
    run := Finishes();
    run := Go(run, Sys(C10, HELD), Work, Sys(C11, LEFT));
  }

  lemma Closes() returns (run: seq<Step>)
    ensures Reached(run, Sys(C12, LEFT.(sent := [Eos, Closed])))
  {
    run := ShutsDown();
    assert LEFT.sent + [Eos, Closed] == [Eos, Closed];
    run := Go(run, Sys(C11, LEFT), Work, Sys(C12, LEFT.(sent := [Eos, Closed])));
  }

  predicate Loses(s: Sys) {
    IsClosed(s.a) && s.a.next == 1 && 0 !in Spoken(s.a.sent) && 0 !in s.a.dropped
  }

  /** "Exactly the accepted bytes minus the drop-oldest victims" fails when finish() comes
      between the publishing of m_pStream and the drain. */
  lemma FinishRacesDrain()
    ensures exists s :: Reachable(s, G) && Loses(s)
  {
    var run := Closes();
    var s := Sys(C12, LEFT.(sent := [Eos, Closed]));
    assert FromStart(false, true, run, G, s);
    assert [Eos, Closed][..1] == [Eos] && [Eos][..0] == [];
    assert Spoken([Eos]) == Spoken([]) && Spoken([Eos, Closed]) == Spoken([Eos]);
    assert Loses(s);
  }
}
