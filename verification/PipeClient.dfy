/** The owner's steps keep the invariant. */
module PipeClient {
  import opened Common
  import opened PipeModel
  import opened PipeInv

  function Member(b: bool, op: ListOp): bool {
    op.Push? || (b && !op.Drop?)
  }

  /** The local view after an update, as long as socket and service role stay. */
  function ActOn(v: View, u: Upd): View {
    v.(pipe := u.pipe, shown := Classify(u.pipe.trace),
       inC := Member(v.inC, u.c), inD := Member(v.inD, u.d), inW := Member(v.inW, u.w),
       covC := v.covC || u.wake, covD := v.covD || u.wake)
  }

  // ---------------------------------------------------------------- locally

  lemma GracefulStoreKeeps(v: View)
    requires LocalInv(v) && v.pipe.client.GracefulStore?
    ensures LocalInv(ActOn(v, Continued(v.pipe)))
  {
  }

  lemma GracefulRecheckKeeps(v: View)
    requires LocalInv(v) && v.pipe.client.GracefulRecheck?
    ensures LocalInv(ActOn(v, Continued(v.pipe)))
  {
  }

  lemma CloseReadKeeps(v: View)
    requires LocalInv(v) && v.pipe.client.CloseRead?
    ensures LocalInv(ActOn(v, Continued(v.pipe)))
  {
  }

  lemma CloseStoreKeeps(v: View)
    requires LocalInv(v) && v.pipe.client.CloseStore?
    ensures LocalInv(ActOn(v, Continued(v.pipe)))
  {
  }

  lemma CloseRecheckKeeps(v: View)
    requires LocalInv(v) && v.pipe.client.CloseRecheck?
    ensures LocalInv(ActOn(v, Continued(v.pipe)))
  {
  }

  lemma SwapWonKeeps(v: View)
    requires LocalInv(v) && v.pipe.client.CloseSwap? && v.pipe.state.CONNECTED?
    ensures LocalInv(ActOn(v, Continued(v.pipe)))
  {
  }

  lemma SwapLostKeeps(v: View)
    requires LocalInv(v) && v.pipe.client.CloseSwap? && !v.pipe.state.CONNECTED?
    ensures LocalInv(ActOn(v, Continued(v.pipe)))
  {
  }

  lemma CloseDueKeeps(v: View)
    requires LocalInv(v) && v.pipe.client.CloseDue?
    ensures LocalInv(ActOn(v, Continued(v.pipe)))
  {
  }

  lemma ReapKeeps(v: View)
    requires LocalInv(v) && v.pipe.client.Waiting? && v.pipe.closed
    ensures LocalInv(ActOn(v, Continued(v.pipe)))
  {
  }

  lemma DropConnectsKeeps(v: View)
    requires LocalInv(v) && v.pipe.client.DropConnects?
    ensures LocalInv(ActOn(v, Continued(v.pipe)))
  {
  }

  lemma DropDisconnectsKeeps(v: View)
    requires LocalInv(v) && v.pipe.client.DropDisconnects?
    ensures LocalInv(ActOn(v, Continued(v.pipe)))
  {
  }

  lemma DropWritesKeeps(v: View)
    requires LocalInv(v) && v.pipe.client.DropWrites?
    ensures LocalInv(ActOn(v, Continued(v.pipe)))
  {
  }

  lemma ConnectKeeps(v: View, step: Step)
    requires LocalInv(v) && step.Connect? && OwnerAt(v.pipe, step)
    ensures LocalInv(ActOn(v, OwnerNext(v.pipe, step)))
  {
  }

  lemma ConnectNoContextKeeps(v: View, step: Step)
    requires LocalInv(v) && step.ConnectNoContext? && OwnerAt(v.pipe, step)
    ensures LocalInv(ActOn(v, OwnerNext(v.pipe, step)))
  {
    ClassifyAppend(v.pipe.trace, ConnectFail);
  }

  lemma DiscardUnattachedKeeps(v: View, step: Step)
    requires LocalInv(v) && step.DiscardUnattached? && OwnerAt(v.pipe, step)
    ensures LocalInv(ActOn(v, OwnerNext(v.pipe, step)))
  {
  }

  lemma GateKeeps(v: View, step: Step)
    requires LocalInv(v) && (step.Gate? || step.NoAudio?) && OwnerAt(v.pipe, step)
    ensures LocalInv(ActOn(v, OwnerNext(v.pipe, step)))
  {
  }

  lemma QueueKeeps(v: View, step: Step)
    requires LocalInv(v) && (step.QueueText? || step.QueueAudio?) && OwnerAt(v.pipe, step)
    ensures LocalInv(ActOn(v, OwnerNext(v.pipe, step)))
  {
  }

  lemma GracefulKeeps(v: View, step: Step)
    requires LocalInv(v) && step.Graceful? && OwnerAt(v.pipe, step)
    ensures LocalInv(ActOn(v, OwnerNext(v.pipe, step)))
  {
  }

  lemma HandOffKeeps(v: View, step: Step)
    requires LocalInv(v) && step.HandOff? && OwnerAt(v.pipe, step)
    ensures LocalInv(ActOn(v, OwnerNext(v.pipe, step)))
  {
  }

  lemma ContinuedKeeps(v: View)
    requires LocalInv(v) && OwnerAt(v.pipe, Continue(0))
    ensures LocalInv(ActOn(v, Continued(v.pipe)))
  {
    match v.pipe.client {
      case GracefulStore => GracefulStoreKeeps(v);
      case GracefulRecheck => GracefulRecheckKeeps(v);
      case CloseRead => CloseReadKeeps(v);
      case CloseStore => CloseStoreKeeps(v);
      case CloseRecheck => CloseRecheckKeeps(v);
      case CloseSwap => if v.pipe.state.CONNECTED? { SwapWonKeeps(v); } else { SwapLostKeeps(v); }
      case CloseDue => CloseDueKeeps(v);
      case Waiting => ReapKeeps(v);
      case DropConnects => DropConnectsKeeps(v);
      case DropDisconnects => DropDisconnectsKeeps(v);
      case DropWrites => DropWritesKeeps(v);
      case _ =>
    }
  }

  lemma OwnerKeepsLocally(v: View, step: Step)
    requires LocalInv(v) && IsOwnerStep(step) && OwnerAt(v.pipe, step)
    ensures LocalInv(ActOn(v, OwnerNext(v.pipe, step)))
  {
    match step {
      case Connect(_) => ConnectKeeps(v, step);
      case ConnectNoContext(_) => ConnectNoContextKeeps(v, step);
      case DiscardUnattached(_) => DiscardUnattachedKeeps(v, step);
      case Gate(_) => GateKeeps(v, step);
      case NoAudio(_) => GateKeeps(v, step);
      case QueueText(_, _) => QueueKeeps(v, step);
      case QueueAudio(_) => QueueKeeps(v, step);
      case Graceful(_) => GracefulKeeps(v, step);
      case HandOff(_) => HandOffKeeps(v, step);
      case Continue(_) => ContinuedKeeps(v);
      case _ =>
    }
  }

  // ---------------------------------------------------------------- globally

  lemma CoverMono(v: View, covC: bool, covD: bool)
    requires LocalInv(v) && (v.covC ==> covC) && (v.covD ==> covD)
    ensures LocalInv(v.(covC := covC, covD := covD))
  {
  }

  /** An update of `p` leaves the other views alone, except that waking helps everyone. */
  lemma ActView(s: Sys, p: PipeId, u: Upd, x: PipeId)
    requires p in s.pipes && x in s.pipes && Unlocked(s.svc, u) && u.pipe.wsi == s.pipes[p].wsi
    ensures ViewOf(Act(s, p, u), x) ==
      if x == p then ActOn(ViewOf(s, p), u)
      else ViewOf(s, x).(covC := ViewOf(s, x).covC || u.wake, covD := ViewOf(s, x).covD || u.wake)
  {
  }

  lemma ActGlobals(s: Sys, p: PipeId, u: Upd)
    requires SocksOk(s) && ListsOk(s) && SvcOk(s) && p in s.pipes && Unlocked(s.svc, u)
    requires u.pipe.wsi == s.pipes[p].wsi && (u.pipe.state.IDLE? ==> s.pipes[p].state.IDLE?)
    ensures SocksOk(Act(s, p, u)) && ListsOk(Act(s, p, u)) && SvcOk(Act(s, p, u))
  {
  }

  lemma ActKeeps(s: Sys, p: PipeId, u: Upd)
    requires Inv(s) && p in s.pipes && Unlocked(s.svc, u)
    requires u.pipe.wsi == s.pipes[p].wsi && (u.pipe.state.IDLE? ==> s.pipes[p].state.IDLE?)
    requires LocalInv(ActOn(ViewOf(s, p), u))
    ensures Inv(Act(s, p, u))
  {
    ActGlobals(s, p, u);
    forall x | x in s.pipes ensures LocalInv(ViewOf(Act(s, p, u), x)) {
      ActView(s, p, u, x);
      if x != p {
        CoverMono(ViewOf(s, x), ViewOf(s, x).covC || u.wake, ViewOf(s, x).covD || u.wake);
      }
    }
  }

  /** Every step of a pipe's owner keeps the invariant. */
  lemma OwnerKeeps(s: Sys, step: Step)
    requires Inv(s) && IsOwnerStep(step) && Enabled(s, step)
    ensures Inv(Apply(s, step))
  {
    var q := s.pipes[step.p];
    OwnerKeepsLocally(ViewOf(s, step.p), step);
    ActKeeps(s, step.p, OwnerNext(q, step));
  }
}
