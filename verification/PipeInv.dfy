/** The inductive invariant of the pipe protocol.

    Everything one pipe's correctness depends on is its local view: its own fields,
    its membership of the three lists, its socket, and what the service thread is
    doing with it. The invariant is a predicate on that view, plus a few global facts. */
module PipeInv {
  import opened Common
  import opened PipeModel

  // ---------------------------------------------------------------- notification traces

  /** What a notification trace has shown so far. */
  datatype Shown = Silent | FailShown | Live | Ended | Malformed

  function After(t: Shown, e: Event): Shown {
    match (t, e)
    case (Silent, ConnectFail) => FailShown
    case (Silent, ConnectSuccess) => Live
    case (Live, Message) => Live
    case (Live, Dropped) => Ended
    case (Live, ClosedGracefully) => Ended
    case _ => Malformed
  }

  function Classify(trace: seq<Event>): Shown {
    if trace == [] then Silent else After(Classify(trace[..|trace| - 1]), trace[|trace| - 1])
  }

  lemma ClassifyAppend(trace: seq<Event>, e: Event)
    ensures Classify(trace + [e]) == After(Classify(trace), e)
  {
    assert (trace + [e])[..|trace|] == trace;
  }

  // ---------------------------------------------------------------- the local view

  /** What the service thread is doing with a pipe. */
  datatype Role =
    | NoRole
    | Todo
    | DiscHit
    | WriteHit
    | Est(est: EstAt)
    | Clo(clo: CloAt)
    | Wr(wr: WriteAt)

  datatype Link = NoLink | Linked(phase: Phase, attached: bool, writable: bool)

  datatype View = View(
    pipe: Pipe,
    shown: Shown,               // what the pipe's notification trace has shown
    inC: bool, inD: bool, inW: bool,
    link: Link,
    role: Role,
    covC: bool,                 // the service thread will still look at this pipe's connect entry
    covD: bool)                 // the service thread will still look at pendingDisconnects

  function RoleOf(svc: Svc, p: PipeId): Role {
    match svc
    case SvcIdle => NoRole
    case ConnScan(_, todo) => if p in todo then Todo else NoRole
    case ConnLoop(todo) => if p in todo then Todo else NoRole
    case DiscScan(_, hits) => if p in hits then DiscHit else NoRole
    case DiscLoop(hits) => if p in hits then DiscHit else NoRole
    case WriteScan(_, hits) => if p in hits then WriteHit else NoRole
    case WriteLoop(hits) => if p in hits then WriteHit else NoRole
    case EstCb(q, _, est) => if p == q then Est(est) else NoRole
    case ClosedCb(q, _, clo) => if p == q then Clo(clo) else NoRole
    case WritableCb(q, _, wr) => if p == q then Wr(wr) else NoRole
  }

  /** The socket this pipe created, if it is still alive. */
  function LinkOf(s: Sys, p: PipeId): Link
    requires p in s.pipes
  {
    match s.pipes[p].wsi
    case None => NoLink
    case Some(w) =>
      if w in s.socks && s.socks[w].owner == p
      then Linked(s.socks[w].phase, s.socks[w].attached == Some(p), s.socks[w].writable)
      else NoLink
  }

  predicate CoversConnect(s: Sys, p: PipeId) {
    s.wake || (s.svc.ConnScan? && s.svc.pos <= |s.connects| && p in s.connects[s.svc.pos..])
  }

  predicate CoversDisconnects(s: Sys) {
    s.wake || s.svc.ConnScan? || s.svc.ConnLoop? || s.svc.DiscScan?
  }

  function ViewOf(s: Sys, p: PipeId): View
    requires p in s.pipes
  {
    View(s.pipes[p], Classify(s.pipes[p].trace), p in s.connects, p in s.disconnects, p in s.writes,
         LinkOf(s, p), RoleOf(s.svc, p), CoversConnect(s, p), CoversDisconnects(s))
  }

  predicate HandedOff(c: Client) {
    c.CloseRead? || c.CloseStore? || c.CloseRecheck? || c.CloseSwap? || c.CloseDue?
    || c.Waiting? || Deleting(c)
  }

  predicate Deleting(c: Client) {
    c.DropConnects? || c.DropDisconnects? || c.DropWrites? || c.Gone?
  }

  // ---------------------------------------------------------------- the local invariant

  /** An established connection whose CLOSED callback has not stored DISCONNECTED. */
  predicate Running(v: View) {
    && v.pipe.issued && !v.pipe.closed && v.pipe.vhd && v.pipe.wsi.Some? && !v.inC
    && v.link.Linked? && v.link.attached && !v.link.phase.Shaking?
    && ((v.pipe.state.CONNECTED? && !v.inD) || (v.pipe.state.DISCONNECTING? && HandedOff(v.pipe.client)))
  }

  predicate Down(v: View) {
    && v.pipe.state.DISCONNECTED? && v.pipe.issued && v.pipe.vhd && v.pipe.wsi.Some? && !v.inC
    && (v.shown.Live? || v.shown.Ended?)
  }

  predicate Unqueued(v: View) {
    v.pipe.issued && !v.pipe.closed && !v.inD && !v.inW
  }

  predicate QuietOk(v: View) {
    match v.pipe.state
    case IDLE =>
      && v.pipe.wsi.None? && !v.pipe.vhd && v.link.NoLink? && v.shown.Silent? && !v.pipe.closed
      && v.pipe.issued == v.inC && !v.inD && !v.inW
    case CONNECTING =>
      Unqueued(v) && v.shown.Silent? && v.inC && v.pipe.wsi.Some? && v.pipe.vhd && v.link == Linked(Shaking, false, false)
    case FAILED =>
      && v.pipe.issued && v.pipe.closed && v.shown.FailShown? && v.link.NoLink? && !v.inD && !v.inW
      && (v.pipe.wsi.Some? ==> !v.inC)
    case CONNECTED => Running(v) && v.shown.Live?
    case DISCONNECTING => Running(v) && v.shown.Live?
    case DISCONNECTED => Down(v) && v.pipe.closed && v.link.NoLink?
  }

  predicate EstOk(v: View, at: EstAt) {
    && Running(v) && v.link.phase.Open?
    && (if at.Metadata? || at.MetadataText? then v.shown.Live? else v.shown.Silent?)
    && (at.EstCloseRead? || at.EstCloseSwap? ==> v.pipe.closePending)
    && (at.EstCloseDue? ==> v.pipe.state.DISCONNECTING?)
  }

  predicate CloOk(v: View, at: CloAt) {
    match at
    case ReadFirst => Running(v) && v.shown.Live?
    case ReadSecond => Running(v) && v.shown.Live?
    case StoreDisconnected => Running(v) && (v.shown.Ended? || (v.shown.Live? && v.pipe.state.DISCONNECTING?))
    case Detach => Down(v) && v.pipe.closed && v.link.Linked? && v.link.attached
  }

  predicate StateOk(v: View) {
    match v.role
    case NoRole => QuietOk(v)
    case Todo =>
      && Unqueued(v) && v.pipe.state.CONNECTING? && v.shown.Silent? && v.inC && v.pipe.wsi.None? && !v.pipe.vhd && v.link.NoLink?
    case DiscHit => Running(v) && v.shown.Live? && v.pipe.state.DISCONNECTING?
    case WriteHit => Running(v) && v.shown.Live?
    case Est(at) => EstOk(v, at)
    case Clo(at) => CloOk(v, at)
    case Wr(_) => Running(v) && v.shown.Live? && v.link.phase.Open?
  }

  predicate WasConnected(st: LwsState) {
    st.CONNECTED? || st.DISCONNECTING? || st.DISCONNECTED?
  }

  /** What the owner of the pipe may rely on at each point. */
  predicate ClientOk(v: View) {
    && (v.pipe.closePending ==> HandedOff(v.pipe.client))
    && (!v.pipe.issued ==> v.pipe.state.IDLE? && (v.pipe.client.New? || Deleting(v.pipe.client)))
    && (Deleting(v.pipe.client) ==>
          !v.pipe.issued || (v.pipe.closed && (v.role.NoRole? || (v.role.Clo? && v.role.clo.Detach?))))
    && match v.pipe.client
       case New => !v.pipe.issued
       case Gated => WasConnected(v.pipe.state)
       case CloseRecheck => v.pipe.closePending
       case CloseSwap => WasConnected(v.pipe.state)
       case CloseDue => v.pipe.state.DISCONNECTING? || v.pipe.state.DISCONNECTED?
       case Waiting => CloseCompleted(v)
       case DropDisconnects => !v.inC
       case DropWrites => !v.inC && !v.inD
       case Gone => !v.inC && !v.inD && !v.inW
       case _ => true
  }

  /** close() has returned in the reaper: the pipe is not left CONNECTED, unless the
      service thread is on its way to the compare-and-swap itself. */
  predicate CloseCompleted(v: View) {
    && (v.pipe.state.IDLE? || v.pipe.state.CONNECTING? ==> v.pipe.closePending)
    && (v.pipe.state.CONNECTED? ==>
          && v.pipe.closePending && v.role.Est?
          && (v.role.est.ReadPending? || v.role.est.EstCloseRead? || v.role.est.EstCloseSwap?))
  }

  /** Nothing the service thread owes this pipe can be forgotten. */
  predicate OwedOk(v: View) {
    && (v.pipe.state.IDLE? && v.pipe.issued ==> v.covC)
    && (v.inD ==> v.covD)
    && (v.pipe.state.DISCONNECTING? && !v.pipe.graceful ==> CloseOwed(v))
  }

  predicate CloseOwed(v: View) {
    || v.pipe.client.CloseDue?
    || (v.role.Est? && v.role.est.EstCloseDue?)
    || v.inD
    || v.role.DiscHit?
    || (v.link.Linked? && (v.link.writable || v.link.phase.Ending?))
    || (v.role.Wr? && !v.role.wr.SendAudio?)
    || v.role.Clo?
  }

  predicate LocalInv(v: View) {
    v.shown == Classify(v.pipe.trace) && StateOk(v) && ClientOk(v) && OwedOk(v)
  }

  // ---------------------------------------------------------------- the global invariant

  predicate SocksOk(s: Sys) {
    forall w :: w in s.socks ==>
      && s.socks[w].owner in s.pipes
      && s.pipes[s.socks[w].owner].wsi == Some(w)
      && (s.socks[w].attached == None || s.socks[w].attached == Some(s.socks[w].owner))
  }

  predicate AllKnown(s: Sys, l: seq<PipeId>) {
    forall p :: p in l ==> p in s.pipes
  }

  predicate ListsOk(s: Sys) {
    AllKnown(s, s.connects) && AllKnown(s, s.disconnects) && AllKnown(s, s.writes)
  }

  predicate SvcOk(s: Sys) {
    match s.svc
    case SvcIdle => true
    case ConnScan(pos, todo) =>
      && pos <= |s.connects| && NoDup(todo) && AllKnown(s, todo)
      && (forall p :: p in s.connects[..pos] ==> p in s.pipes && !s.pipes[p].state.IDLE?)
    case ConnLoop(todo) => NoDup(todo) && AllKnown(s, todo)
    case DiscScan(pos, hits) => pos == 0 && AllKnown(s, hits)
    case DiscLoop(hits) => AllKnown(s, hits)
    case WriteScan(pos, hits) => pos == 0 && AllKnown(s, hits)
    case WriteLoop(hits) => AllKnown(s, hits)
    case EstCb(q, w, _) => Owns(s, q, w)
    case ClosedCb(q, w, _) => Owns(s, q, w)
    case WritableCb(q, w, _) => Owns(s, q, w)
  }

  predicate Owns(s: Sys, q: PipeId, w: Wsi) {
    q in s.pipes && w in s.socks && s.socks[w].owner == q && s.pipes[q].wsi == Some(w)
  }

  predicate PipesOk(s: Sys) {
    forall p :: p in s.pipes ==> LocalInv(ViewOf(s, p))
  }

  predicate Inv(s: Sys) {
    SocksOk(s) && ListsOk(s) && SvcOk(s) && PipesOk(s)
  }
}
