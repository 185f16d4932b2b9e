/** The service thread's callbacks on an established socket keep the invariant. */
module PipeCallbacks {
  import opened Common
  import opened PipeModel
  import opened PipeInv
  import opened PipeClient

  function LinkAfter(l: Link, op: SockOp): Link {
    if l.NoLink? then l
    else match op
      case Leave => l
      case Rearm => l.(writable := true)
      case End => l.(phase := Ending)
      case Remove => NoLink
  }

  function CbView(v: View, u: Upd, op: SockOp, role: Role): View {
    ActOn(v, u).(link := LinkAfter(v.link, op), role := role)
  }

  function EstView(v: View, n: CbUpd<EstAt>): View {
    CbView(v, n.upd, n.sock, if n.next.Some? then Est(n.next.value) else NoRole)
  }

  function CloView(v: View, n: CbUpd<CloAt>): View {
    CbView(v, n.upd, n.sock, if n.next.Some? then Clo(n.next.value) else NoRole)
  }

  function WrView(v: View, n: CbUpd<WriteAt>): View {
    CbView(v, n.upd, n.sock, if n.next.Some? then Wr(n.next.value) else NoRole)
  }

  // ---------------------------------------------------------------- locally

  lemma EstReadPendingKeeps(v: View, at: EstAt, c: Choice)
    requires LocalInv(v) && v.role == Est(at) && at.ReadPending?
    ensures LocalInv(EstView(v, EstNext(v.pipe, at, c)))
  {
  }

  lemma EstCloseReadKeeps(v: View, at: EstAt, c: Choice)
    requires LocalInv(v) && v.role == Est(at) && at.EstCloseRead?
    ensures LocalInv(EstView(v, EstNext(v.pipe, at, c)))
  {
  }

  lemma EstSwapWonKeeps(v: View, at: EstAt, c: Choice)
    requires LocalInv(v) && v.role == Est(at) && at.EstCloseSwap? && v.pipe.state.CONNECTED?
    ensures LocalInv(EstView(v, EstNext(v.pipe, at, c)))
  {
  }

  lemma EstSwapLostKeeps(v: View, at: EstAt, c: Choice)
    requires LocalInv(v) && v.role == Est(at) && at.EstCloseSwap? && !v.pipe.state.CONNECTED?
    ensures LocalInv(EstView(v, EstNext(v.pipe, at, c)))
  {
  }

  lemma EstCloseDueKeeps(v: View, at: EstAt, c: Choice)
    requires LocalInv(v) && v.role == Est(at) && at.EstCloseDue?
    ensures LocalInv(EstView(v, EstNext(v.pipe, at, c)))
  {
  }

  lemma EstGracefulKeeps(v: View, at: EstAt, c: Choice)
    requires LocalInv(v) && v.role == Est(at) && at.ReadGraceful?
    ensures LocalInv(EstView(v, EstNext(v.pipe, at, c)))
  {
  }

  lemma EstNotifyKeeps(v: View, at: EstAt, c: Choice)
    requires LocalInv(v) && v.role == Est(at) && at.NotifySuccess?
    ensures LocalInv(EstView(v, EstNext(v.pipe, at, c)))
  {
    ClassifyAppend(v.pipe.trace, ConnectSuccess);
  }

  lemma EstMetadataKeeps(v: View, at: EstAt, c: Choice)
    requires LocalInv(v) && v.role == Est(at) && at.Metadata?
    ensures LocalInv(EstView(v, EstNext(v.pipe, at, c)))
  {
  }

  lemma EstMetadataTextKeeps(v: View, at: EstAt, c: Choice)
    requires LocalInv(v) && v.role == Est(at) && at.MetadataText?
    ensures LocalInv(EstView(v, EstNext(v.pipe, at, c)))
  {
  }

  lemma EstKeeps(v: View, at: EstAt, c: Choice)
    requires LocalInv(v) && v.role == Est(at)
    ensures LocalInv(EstView(v, EstNext(v.pipe, at, c)))
  {
    match at {
      case ReadPending => EstReadPendingKeeps(v, at, c);
      case EstCloseRead => EstCloseReadKeeps(v, at, c);
      case EstCloseSwap => if v.pipe.state.CONNECTED? { EstSwapWonKeeps(v, at, c); } else { EstSwapLostKeeps(v, at, c); }
      case EstCloseDue => EstCloseDueKeeps(v, at, c);
      case ReadGraceful => EstGracefulKeeps(v, at, c);
      case NotifySuccess => EstNotifyKeeps(v, at, c);
      case Metadata => EstMetadataKeeps(v, at, c);
      case MetadataText => EstMetadataTextKeeps(v, at, c);
    }
  }

  lemma CloReadFirstKeeps(v: View, at: CloAt)
    requires LocalInv(v) && v.role == Clo(at) && at.ReadFirst?
    ensures LocalInv(CloView(v, ClosedNext(v.pipe, at)))
  {
    ClassifyAppend(v.pipe.trace, ClosedGracefully);
  }

  lemma CloDroppedKeeps(v: View, at: CloAt)
    requires LocalInv(v) && v.role == Clo(at) && at.ReadSecond? && v.pipe.state.CONNECTED?
    ensures LocalInv(CloView(v, ClosedNext(v.pipe, at)))
  {
    ClassifyAppend(v.pipe.trace, Dropped);
  }

  lemma CloSilentKeeps(v: View, at: CloAt)
    requires LocalInv(v) && v.role == Clo(at) && at.ReadSecond? && !v.pipe.state.CONNECTED?
    ensures LocalInv(CloView(v, ClosedNext(v.pipe, at)))
  {
  }

  lemma CloStoreKeeps(v: View, at: CloAt)
    requires LocalInv(v) && v.role == Clo(at) && at.StoreDisconnected?
    ensures LocalInv(CloView(v, ClosedNext(v.pipe, at)))
  {
  }

  lemma CloDetachKeeps(v: View, at: CloAt)
    requires LocalInv(v) && v.role == Clo(at) && at.Detach?
    ensures LocalInv(CloView(v, ClosedNext(v.pipe, at)))
  {
  }

  lemma CloKeeps(v: View, at: CloAt)
    requires LocalInv(v) && v.role == Clo(at)
    ensures LocalInv(CloView(v, ClosedNext(v.pipe, at)))
  {
    match at {
      case ReadFirst => CloReadFirstKeeps(v, at);
      case ReadSecond => if v.pipe.state.CONNECTED? { CloDroppedKeeps(v, at); } else { CloSilentKeeps(v, at); }
      case StoreDisconnected => CloStoreKeeps(v, at);
      case Detach => CloDetachKeeps(v, at);
    }
  }

  lemma WrGracefulKeeps(v: View, at: WriteAt, c: Choice)
    requires LocalInv(v) && v.role == Wr(at) && at.ReadGracefulFlag?
    ensures LocalInv(WrView(v, WritableNext(v.pipe, at, c)))
  {
  }

  lemma WrTextKeeps(v: View, at: WriteAt, c: Choice)
    requires LocalInv(v) && v.role == Wr(at) && at.SendText?
    ensures LocalInv(WrView(v, WritableNext(v.pipe, at, c)))
  {
  }

  lemma WrStateKeeps(v: View, at: WriteAt, c: Choice)
    requires LocalInv(v) && v.role == Wr(at) && at.ReadState?
    ensures LocalInv(WrView(v, WritableNext(v.pipe, at, c)))
  {
  }

  lemma WrAudioKeeps(v: View, at: WriteAt, c: Choice)
    requires LocalInv(v) && v.role == Wr(at) && at.SendAudio?
    ensures LocalInv(WrView(v, WritableNext(v.pipe, at, c)))
  {
  }

  lemma WrKeeps(v: View, at: WriteAt, c: Choice)
    requires LocalInv(v) && v.role == Wr(at)
    ensures LocalInv(WrView(v, WritableNext(v.pipe, at, c)))
  {
    match at {
      case ReadGracefulFlag => WrGracefulKeeps(v, at, c);
      case SendText => WrTextKeeps(v, at, c);
      case ReadState => WrStateKeeps(v, at, c);
      case SendAudio => WrAudioKeeps(v, at, c);
    }
  }

  // ---------------------------------------------------------------- globally

  predicate CallbackOn(svc: Svc, p: PipeId, w: Wsi) {
    (svc.EstCb? || svc.ClosedCb? || svc.WritableCb?) && svc.p == p && svc.w == w
  }

  predicate CallbackGoesOn(s: Sys, p: PipeId, w: Wsi, u: Upd, op: SockOp, next: Svc) {
    && Owns(s, p, w) && u.pipe.wsi == s.pipes[p].wsi && CallbackOn(s.svc, p, w)
    && (next.SvcIdle? || (CallbackOn(next, p, w) && !op.Remove?))
  }

  lemma OwnLink(s: Sys, p: PipeId, w: Wsi, u: Upd, op: SockOp, next: Svc)
    requires CallbackGoesOn(s, p, w, u, op, next)
    ensures LinkOf(Callback(s, p, w, u, op, next), p) == LinkAfter(LinkOf(s, p), op)
  {
  }

  lemma OtherLink(s: Sys, p: PipeId, w: Wsi, u: Upd, op: SockOp, next: Svc, x: PipeId)
    requires CallbackGoesOn(s, p, w, u, op, next) && x in s.pipes && x != p
    ensures LinkOf(Callback(s, p, w, u, op, next), x) == LinkOf(s, x)
  {
  }

  lemma CallbackView(s: Sys, p: PipeId, w: Wsi, u: Upd, op: SockOp, next: Svc)
    requires CallbackGoesOn(s, p, w, u, op, next)
    ensures ViewOf(Callback(s, p, w, u, op, next), p) == CbView(ViewOf(s, p), u, op, RoleOf(next, p))
  {
    ActView(s, p, u, p);
    OwnLink(s, p, w, u, op, next);
  }

  lemma OtherCallbackView(s: Sys, p: PipeId, w: Wsi, u: Upd, op: SockOp, next: Svc, x: PipeId)
    requires CallbackGoesOn(s, p, w, u, op, next) && x in s.pipes && x != p
    ensures ViewOf(Callback(s, p, w, u, op, next), x) ==
      ViewOf(s, x).(covC := ViewOf(s, x).covC || u.wake, covD := ViewOf(s, x).covD || u.wake)
  {
    ActView(s, p, u, x);
    OtherLink(s, p, w, u, op, next, x);
  }

  lemma CallbackGlobals(s: Sys, p: PipeId, w: Wsi, u: Upd, op: SockOp, next: Svc)
    requires SocksOk(s) && ListsOk(s) && SvcOk(s) && CallbackGoesOn(s, p, w, u, op, next)
    ensures var s' := Callback(s, p, w, u, op, next); SocksOk(s') && ListsOk(s') && SvcOk(s')
  {
  }

  lemma CallbackKeeps(s: Sys, p: PipeId, w: Wsi, u: Upd, op: SockOp, next: Svc)
    requires Inv(s) && CallbackGoesOn(s, p, w, u, op, next)
    requires LocalInv(CbView(ViewOf(s, p), u, op, RoleOf(next, p)))
    ensures Inv(Callback(s, p, w, u, op, next))
  {
    CallbackGlobals(s, p, w, u, op, next);
    forall x | x in s.pipes ensures LocalInv(ViewOf(Callback(s, p, w, u, op, next), x)) {
      if x == p {
        CallbackView(s, p, w, u, op, next);
      } else {
        OtherCallbackView(s, p, w, u, op, next, x);
        CoverMono(ViewOf(s, x), ViewOf(s, x).covC || u.wake, ViewOf(s, x).covD || u.wake);
      }
    }
  }

  lemma EstStepKeeps(s: Sys, p: PipeId, w: Wsi, at: EstAt, c: Choice)
    requires Inv(s) && s.svc == EstCb(p, w, at)
    ensures ServiceEnabled(s, c) && Inv(ServiceStep(s, c))
  {
    hide StateOk, ClientOk, OwedOk, EstNext, OnList;
    var n := EstNext(s.pipes[p], at, c);
    EstKeeps(ViewOf(s, p), at, c);
    CallbackKeeps(s, p, w, n.upd, n.sock, if n.next.Some? then EstCb(p, w, n.next.value) else SvcIdle);
  }

  lemma ClosedStepKeeps(s: Sys, p: PipeId, w: Wsi, at: CloAt, c: Choice)
    requires Inv(s) && s.svc == ClosedCb(p, w, at)
    ensures ServiceEnabled(s, c) && Inv(ServiceStep(s, c))
  {
    hide StateOk, ClientOk, OwedOk, ClosedNext, OnList;
    var n := ClosedNext(s.pipes[p], at);
    CloKeeps(ViewOf(s, p), at);
    CallbackKeeps(s, p, w, n.upd, n.sock, if n.next.Some? then ClosedCb(p, w, n.next.value) else SvcIdle);
  }

  lemma WritableStepKeeps(s: Sys, p: PipeId, w: Wsi, at: WriteAt, c: Choice)
    requires Inv(s) && s.svc == WritableCb(p, w, at)
    ensures ServiceEnabled(s, c) && Inv(ServiceStep(s, c))
  {
    hide StateOk, ClientOk, OwedOk, WritableNext, OnList;
    var n := WritableNext(s.pipes[p], at, c);
    WrKeeps(ViewOf(s, p), at, c);
    CallbackKeeps(s, p, w, n.upd, n.sock, if n.next.Some? then WritableCb(p, w, n.next.value) else SvcIdle);
  }
}
