/** The AudioPipe connection protocol of mod_audio_fork.

    One libwebsockets (lws) service thread, the threads that own a pipe through
    `tech_pvt->mutex`, and one detached reaper per pipe act on any number of pipes.
    A step is one access that another thread can tell apart: an atomic load, store or
    compare-and-swap, or one list operation under its mutex. What a thread does
    next without any other thread being able to notice is part of the same step:
    a notification, the wake-up after a push, the fields only the service thread
    reads and writes. */
module PipeModel {
  import opened Common

  type PipeId = nat
  type Wsi = nat

  datatype LwsState = IDLE | CONNECTING | CONNECTED | FAILED | DISCONNECTING | DISCONNECTED

  datatype Event = ConnectSuccess | ConnectFail | Dropped | ClosedGracefully | Message

  /** Where the thread that currently owns the pipe stands. The owners before the
      hand-off hold `tech_pvt->mutex`, so there is one of them at a time; after the
      hand-off the owner is the reaper. */
  datatype Client =
    | New                       // fork_session_init is done, connect() has not been called
    | Ready                     // nobody is inside an operation on the pipe
    | Gated                     // read CONNECTED in bufferForSending or fork_frame
    | GracefulStore             // do_graceful_shutdown read a state other than CONNECTED
    | GracefulRecheck
    | CloseRead                 // reaper: close() begins
    | CloseStore                // read a state other than CONNECTED
    | CloseRecheck
    | CloseSwap                 // about to compare-and-swap
    | CloseDue                  // won the swap, about to push to pendingDisconnects
    | Waiting                   // waitForClose()
    | DropConnects              // destructor: removeFromPending, list by list
    | DropDisconnects
    | DropWrites
    | Gone                      // the memory is freed

  /** What is on its way out, and what has been handed to lws_write. */
  datatype Outgoing = Outgoing(
    text: string,               // m_metadata
    offered: string,            // every text appended so far
    sent: string,               // every text handed to lws_write so far
    audio: bool,                // m_audio_buffer holds bytes
    flushed: bool)              // a zero-length frame has been handed to lws_write

  datatype Pipe = Pipe(
    state: LwsState,
    wsi: Option<Wsi>,           // m_wsi
    vhd: bool,                  // m_vhd is set
    closePending: bool,
    graceful: bool,
    closed: bool,               // the close promise is set
    out: Outgoing,
    trace: seq<Event>,          // notifications so far
    issued: bool,               // connect() has been called
    client: Client)

  const NOTHING_OUT := Outgoing("", "", "", false, false)
  const FRESH_PIPE := Pipe(IDLE, None, false, false, false, false, NOTHING_OUT, [], false, New)

  /** A connection object inside lws. */
  datatype Phase = Shaking | Open | Ending
  datatype Sock = Sock(owner: PipeId, phase: Phase, attached: Option<PipeId>, writable: bool)

  /** Points inside LWS_CALLBACK_CLIENT_ESTABLISHED, after CONNECTED is stored. */
  datatype EstAt =
    | ReadPending
    | EstCloseRead              // close(), on the service thread
    | EstCloseSwap
    | EstCloseDue
    | ReadGraceful              // and do_graceful_shutdown(), on the service thread
    | NotifySuccess
    | Metadata                  // the handler may send the initial metadata
    | MetadataText

  datatype CloAt = ReadFirst | ReadSecond | StoreDisconnected | Detach

  datatype WriteAt = ReadGracefulFlag | SendText | ReadState | SendAudio

  /** Program counter of the service thread. */
  datatype Svc =
    | SvcIdle
    | ConnScan(pos: nat, todo: seq<PipeId>)          // holds mutex_connects
    | ConnLoop(todo: seq<PipeId>)
    | DiscScan(pos: nat, hits: seq<PipeId>)          // holds mutex_disconnects
    | DiscLoop(hits: seq<PipeId>)
    | WriteScan(pos: nat, hits: seq<PipeId>)         // holds mutex_writes
    | WriteLoop(hits: seq<PipeId>)
    | EstCb(p: PipeId, w: Wsi, est: EstAt)
    | ClosedCb(p: PipeId, w: Wsi, clo: CloAt)
    | WritableCb(p: PipeId, w: Wsi, wr: WriteAt)

  datatype Sys = Sys(
    pipes: map<PipeId, Pipe>,
    socks: map<Wsi, Sock>,
    connects: seq<PipeId>,
    disconnects: seq<PipeId>,
    writes: seq<PipeId>,
    svc: Svc,
    wake: bool)

  const EMPTY := Sys(map[], map[], [], [], [], SvcIdle, false)

  /** What the environment decides inside a service-thread step: the socket
      lws_client_connect_via_info returns, whether lws_write succeeds, and the
      initial metadata the connect handler sends. */
  datatype Choice = Choice(conn: Option<Wsi>, ok: bool, meta: Option<string>)

  datatype Step =
    | Create(p: PipeId)
    | Connect(p: PipeId)
    | ConnectNoContext(p: PipeId)
    | DiscardUnattached(p: PipeId)
    | Gate(p: PipeId)
    | QueueText(p: PipeId, t: string)
    | QueueAudio(p: PipeId)
    | NoAudio(p: PipeId)        // fork_frame leaves the buffer empty: nothing read, or an overrun dropped it
    | Graceful(p: PipeId)
    | HandOff(p: PipeId)
    | Continue(p: PipeId)       // the next step of the operation the owner is in
    | StrayWake                 // lws_cancel_service for reasons outside the model
    | WakeUp
    | OnError(w: Wsi)
    | OnEstablished(w: Wsi)
    | OnClosed(w: Wsi)
    | OnReceive(w: Wsi)
    | OnWritable(w: Wsi)
    | Service(c: Choice)        // the next step of the callback the service thread is in

  function Put(s: Sys, p: PipeId, q: Pipe): Sys {
    s.(pipes := s.pipes[p := q])
  }

  /** A connect that failed: the state, the notification and the close promise. */
  function Fail(q: Pipe): Pipe {
    q.(state := FAILED, trace := q.trace + [ConnectFail], closed := true)
  }

  function Append(q: Pipe, t: string): Pipe {
    q.(out := q.out.(text := q.out.text + t, offered := q.out.offered + t))
  }

  // ---------------------------------------------------------------- the owner's side

  datatype ListOp = Same | Push | Drop

  /** What one step does: the pipe's new fields, its entries in pendingConnects,
      pendingDisconnects and pendingWrites, and whether the service thread is woken. */
  datatype Upd = Upd(pipe: Pipe, c: ListOp, d: ListOp, w: ListOp, wake: bool)

  function Quietly(q: Pipe): Upd {
    Upd(q, Same, Same, Same, false)
  }

  function OnList(l: seq<PipeId>, p: PipeId, op: ListOp): seq<PipeId> {
    match op
    case Same => l
    case Push => l + [p]
    case Drop => Keep(l, {p})
  }

  function Act(s: Sys, p: PipeId, u: Upd): Sys {
    s.(pipes := s.pipes[p := u.pipe], connects := OnList(s.connects, p, u.c),
       disconnects := OnList(s.disconnects, p, u.d), writes := OnList(s.writes, p, u.w), wake := s.wake || u.wake)
  }

  predicate IsOwnerStep(step: Step) {
    step.Connect? || step.ConnectNoContext? || step.DiscardUnattached? || step.Gate? || step.QueueText?
    || step.QueueAudio? || step.NoAudio? || step.Graceful? || step.HandOff? || step.Continue?
  }

  /** The owner's program: what its next step does to the pipe it owns. */
  function OwnerNext(q: Pipe, step: Step): (u: Upd)
    requires IsOwnerStep(step)
    ensures u.pipe.wsi == q.wsi && (u.pipe.state.IDLE? ==> q.state.IDLE?)
  {
    match step
    case Connect(_) => Upd(q.(issued := true, client := Ready), Push, Same, Same, true)
    case ConnectNoContext(_) => Quietly(Fail(q).(issued := true, client := Ready))
    case DiscardUnattached(_) => Quietly(q.(client := DropConnects))
    case Gate(_) => Quietly(q.(client := Gated))
    case QueueText(_, t) => Upd(Append(q, t).(client := Ready), Same, Same, Push, true)
    case QueueAudio(_) => Upd(q.(out := q.out.(audio := true), client := Ready), Same, Same, Push, true)
    case NoAudio(_) => Quietly(q.(out := q.out.(audio := false), client := Ready))
    case Graceful(_) =>
      if q.state.CONNECTED? then Upd(q, Same, Same, Push, true) else Quietly(q.(client := GracefulStore))
    case HandOff(_) => Quietly(q.(client := CloseRead))
    case Continue(_) => Continued(q)
  }

  /** What no operation of the owner changes once it is under way. */
  predicate Carries(q: Pipe, r: Pipe) {
    && r.wsi == q.wsi && r.trace == q.trace && r.closed == q.closed
    && r.out == q.out && (q.graceful ==> r.graceful) && (r.state.IDLE? ==> q.state.IDLE?)
  }

  /** do_graceful_shutdown() after its first read. */
  function GracefulNext(q: Pipe): (u: Upd)
    ensures Carries(q, u.pipe)
  {
    match q.client
    case GracefulStore => Quietly(q.(graceful := true, client := GracefulRecheck))
    case GracefulRecheck =>
      if q.state.CONNECTED? then Upd(q.(client := Ready), Same, Same, Push, true) else Quietly(q.(client := Ready))
    case _ => Quietly(q)
  }

  /** close() in the reaper. */
  function CloseNext(q: Pipe): (u: Upd)
    ensures Carries(q, u.pipe) && u.pipe.graceful == q.graceful
  {
    match q.client
    case CloseRead => Quietly(q.(client := if q.state.CONNECTED? then CloseSwap else CloseStore))
    case CloseStore => Quietly(q.(closePending := true, client := CloseRecheck))
    case CloseRecheck => Quietly(q.(client := if q.state.CONNECTED? then CloseSwap else Waiting))
    case _ => Quietly(q)
  }

  /** addPendingDisconnect() in the reaper. */
  function DisconnectNext(q: Pipe): (u: Upd)
    ensures Carries(q, u.pipe) && u.pipe.graceful == q.graceful
  {
    match q.client
    case CloseSwap =>
      Quietly(q.(state := if q.state.CONNECTED? then DISCONNECTING else q.state,
                 client := if q.state.CONNECTED? then CloseDue else Waiting))
    case CloseDue => Upd(q.(client := Waiting), Same, Push, Same, true)
    case _ => Quietly(q)
  }

  /** waitForClose() and the destructor. */
  function ReapNext(q: Pipe): (u: Upd)
    ensures Carries(q, u.pipe) && u.pipe.graceful == q.graceful
  {
    match q.client
    case Waiting => Quietly(q.(client := DropConnects))
    case DropConnects => Upd(q.(client := DropDisconnects), Drop, Same, Same, false)
    case DropDisconnects => Upd(q.(client := DropWrites), Same, Drop, Same, false)
    case DropWrites => Upd(q.(client := Gone), Same, Same, Drop, false)
    case _ => Quietly(q)
  }

  function Continued(q: Pipe): (u: Upd)
    ensures Carries(q, u.pipe)
  {
    match q.client
    case GracefulStore => GracefulNext(q)
    case GracefulRecheck => GracefulNext(q)
    case Waiting => ReapNext(q)
    case DropConnects => ReapNext(q)
    case DropDisconnects => ReapNext(q)
    case DropWrites => ReapNext(q)
    case CloseSwap => DisconnectNext(q)
    case CloseDue => DisconnectNext(q)
    case _ => CloseNext(q)
  }

  predicate OwnerAt(q: Pipe, step: Step)
    requires IsOwnerStep(step)
  {
    match step
    case Connect(_) => q.client.New?
    case ConnectNoContext(_) => q.client.New?
    case DiscardUnattached(_) => q.client.New?
    case Gate(_) => q.client.Ready? && q.state.CONNECTED?
    case QueueText(_, _) => q.client.Gated?
    case QueueAudio(_) => q.client.Gated?
    case NoAudio(_) => q.client.Gated?
    case Graceful(_) => q.client.Ready?
    case HandOff(_) => q.client.Ready?
    case Continue(_) =>
      && !q.client.New? && !q.client.Ready? && !q.client.Gated? && !q.client.Gone?
      && (q.client.Waiting? ==> q.closed)
  }

  /** The lists are changed under their mutexes, which the service thread's scans hold. */
  predicate Unlocked(svc: Svc, u: Upd) {
    && (!u.c.Same? ==> !svc.ConnScan?)
    && (!u.d.Same? ==> !svc.DiscScan?)
    && (!u.w.Same? ==> !svc.WriteScan?)
  }

  // ---------------------------------------------------------------- the service thread

  predicate Matches(q: Pipe, w: Wsi) {
    q.state.CONNECTING? && q.wsi == Some(w)
  }

  /** findAndRemovePendingConnect: position of the entry the scan stops at, or the length. */
  function FindAt(l: seq<PipeId>, pipes: map<PipeId, Pipe>, w: Wsi): (i: nat)
    ensures i <= |l|
    ensures i < |l| ==> l[i] in pipes && Matches(pipes[l[i]], w)
    ensures forall j :: 0 <= j < i && l[j] in pipes ==> !Matches(pipes[l[j]], w)
  {
    if l == [] then 0
    else if l[0] in pipes && Matches(pipes[l[0]], w) then 0
    else 1 + FindAt(l[1..], pipes, w)
  }

  /** Entries the scan purges: connects that failed synchronously. */
  function Purged(l: seq<PipeId>, pipes: map<PipeId, Pipe>): set<PipeId> {
    set p | p in l && p in pipes && pipes[p].state.FAILED? && pipes[p].wsi.None?
  }

  function Scanned(l: seq<PipeId>, i: nat): seq<PipeId> {
    if i < |l| then l[..i + 1] else l
  }

  function AfterFind(s: Sys, w: Wsi): seq<PipeId> {
    var i := FindAt(s.connects, s.pipes, w);
    Keep(s.connects, Purged(Scanned(s.connects, i), s.pipes) + if i < |s.connects| then {s.connects[i]} else {})
  }

  predicate ServiceEnabled(s: Sys, c: Choice) {
    match s.svc
    case SvcIdle => false
    case ConnScan(pos, _) => pos <= |s.connects| && (pos < |s.connects| ==> s.connects[pos] in s.pipes)
    case ConnLoop(todo) => todo != [] ==> todo[0] in s.pipes && (c.conn.Some? ==> c.conn.value !in s.socks)
    case DiscScan(pos, _) => pos <= |s.disconnects| && (pos < |s.disconnects| ==> s.disconnects[pos] in s.pipes)
    case DiscLoop(hits) => hits != [] ==> hits[0] in s.pipes
    case WriteScan(pos, _) => pos <= |s.writes| && (pos < |s.writes| ==> s.writes[pos] in s.pipes)
    case WriteLoop(hits) => hits != [] ==> hits[0] in s.pipes
    case EstCb(p, w, _) => p in s.pipes && w in s.socks
    case ClosedCb(p, w, _) => p in s.pipes && w in s.socks
    case WritableCb(p, w, _) => p in s.pipes && w in s.socks
  }

  function ServiceStep(s: Sys, c: Choice): Sys
    requires ServiceEnabled(s, c)
  {
    match s.svc
    case SvcIdle => s
    case ConnScan(pos, todo) => ConnScanStep(s, pos, todo)
    case ConnLoop(todo) => ConnLoopStep(s, todo, c)
    case DiscScan(pos, hits) => DiscScanStep(s, pos, hits)
    case DiscLoop(hits) =>
      if hits == [] then s.(svc := WriteScan(0, [])) else AskWritable(s, hits[0]).(svc := DiscLoop(hits[1..]))
    case WriteScan(pos, hits) => WriteScanStep(s, pos, hits)
    case WriteLoop(hits) =>
      if hits == [] then s.(svc := SvcIdle) else AskWritable(s, hits[0]).(svc := WriteLoop(hits[1..]))
    case EstCb(p, w, est) =>
      var n := EstNext(s.pipes[p], est, c);
      Callback(s, p, w, n.upd, n.sock, if n.next.Some? then EstCb(p, w, n.next.value) else SvcIdle)
    case ClosedCb(p, w, clo) =>
      var n := ClosedNext(s.pipes[p], clo);
      Callback(s, p, w, n.upd, n.sock, if n.next.Some? then ClosedCb(p, w, n.next.value) else SvcIdle)
    case WritableCb(p, w, wr) =>
      var n := WritableNext(s.pipes[p], wr, c);
      Callback(s, p, w, n.upd, n.sock, if n.next.Some? then WritableCb(p, w, n.next.value) else SvcIdle)
  }

  /** lws_callback_on_writable(ap->m_wsi). */
  function AskWritable(s: Sys, p: PipeId): Sys
    requires p in s.pipes
  {
    match s.pipes[p].wsi
    case Some(w) => if w in s.socks then s.(socks := s.socks[w := s.socks[w].(writable := true)]) else s
    case None => s
  }

  function Erase(l: seq<PipeId>, i: nat): seq<PipeId>
    requires i < |l|
  {
    l[..i] + l[i + 1..]
  }

  function ConnScanStep(s: Sys, pos: nat, todo: seq<PipeId>): Sys
    requires pos <= |s.connects| && (pos < |s.connects| ==> s.connects[pos] in s.pipes)
  {
    if pos == |s.connects| then s.(svc := ConnLoop(todo))
    else
      var p := s.connects[pos];
      if s.pipes[p].state.IDLE?
      then Put(s, p, s.pipes[p].(state := CONNECTING)).(svc := ConnScan(pos + 1, todo + [p]))
      else s.(svc := ConnScan(pos + 1, todo))
  }

  /** connect_client for the first pipe of the local list. */
  function ConnLoopStep(s: Sys, todo: seq<PipeId>, c: Choice): Sys
    requires todo != [] ==> todo[0] in s.pipes && (c.conn.Some? ==> c.conn.value !in s.socks)
  {
    if todo == [] then s.(svc := DiscScan(0, []))
    else
      var p := todo[0];
      var q := s.pipes[p].(state := CONNECTING, vhd := true, wsi := c.conn);
      match c.conn
      case Some(w) =>
        Put(s, p, q).(socks := s.socks[w := Sock(p, Shaking, None, false)], svc := ConnLoop(todo[1..]))
      case None => Put(s, p, Fail(q)).(svc := ConnLoop(todo[1..]))
  }

  function DiscScanStep(s: Sys, pos: nat, hits: seq<PipeId>): Sys
    requires pos <= |s.disconnects| && (pos < |s.disconnects| ==> s.disconnects[pos] in s.pipes)
  {
    if pos == |s.disconnects| then s.(svc := DiscLoop(hits))
    else
      var p := s.disconnects[pos];
      if s.pipes[p].vhd
      then s.(disconnects := Erase(s.disconnects, pos),
              svc := DiscScan(pos, if s.pipes[p].state.DISCONNECTING? then hits + [p] else hits))
      else s.(svc := DiscScan(pos + 1, hits))
  }

  function WriteScanStep(s: Sys, pos: nat, hits: seq<PipeId>): Sys
    requires pos <= |s.writes| && (pos < |s.writes| ==> s.writes[pos] in s.pipes)
  {
    if pos == |s.writes| then s.(svc := WriteLoop(hits))
    else
      var p := s.writes[pos];
      if s.pipes[p].vhd
      then s.(writes := Erase(s.writes, pos),
              svc := WriteScan(pos, if s.pipes[p].state.CONNECTED? then hits + [p] else hits))
      else s.(svc := WriteScan(pos + 1, hits))
  }

  /** What a callback does to its socket. */
  datatype SockOp = Leave | Rearm | End | Remove

  /** One step of a callback on a pipe: the pipe, its socket, and where the callback goes on. */
  datatype CbUpd<At> = CbUpd(upd: Upd, sock: SockOp, next: Option<At>)

  function OnSock(socks: map<Wsi, Sock>, w: Wsi, op: SockOp): map<Wsi, Sock>
    requires w in socks
  {
    match op
    case Leave => socks
    case Rearm => socks[w := socks[w].(writable := true)]
    case End => socks[w := socks[w].(phase := Ending)]
    case Remove => socks - {w}
  }

  function Callback(s: Sys, p: PipeId, w: Wsi, u: Upd, op: SockOp, next: Svc): Sys
    requires w in s.socks
  {
    Act(s, p, u).(socks := OnSock(s.socks, w, op), svc := next)
  }

  function EstNext(q: Pipe, est: EstAt, c: Choice): (n: CbUpd<EstAt>)
    ensures n.upd.pipe.wsi == q.wsi && (n.sock.Remove? ==> n.next.None?)
  {
    match est
    case ReadPending => CbUpd(Quietly(q), Leave, Some(if q.closePending then EstCloseRead else ReadGraceful))
    case EstCloseRead =>
      // only the service thread stores CONNECTED, so the re-check after the store reads the same
      if q.state.CONNECTED? then CbUpd(Quietly(q), Leave, Some(EstCloseSwap))
      else CbUpd(Quietly(q.(closePending := true)), Leave, Some(ReadGraceful))
    case EstCloseSwap =>
      if q.state.CONNECTED? then CbUpd(Quietly(q.(state := DISCONNECTING)), Leave, Some(EstCloseDue))
      else CbUpd(Quietly(q), Leave, Some(ReadGraceful))
    case EstCloseDue => CbUpd(Upd(q, Same, Push, Same, true), Leave, Some(ReadGraceful))
    case ReadGraceful =>
      CbUpd(if q.graceful && q.state.CONNECTED? then Upd(q, Same, Same, Push, true) else Quietly(q),
            Leave, Some(NotifySuccess))
    case NotifySuccess => CbUpd(Quietly(q.(trace := q.trace + [ConnectSuccess])), Leave, Some(Metadata))
    case Metadata =>
      CbUpd(Quietly(q), Leave, if c.meta.Some? && q.state.CONNECTED? then Some(MetadataText) else None)
    case MetadataText =>
      CbUpd(Upd(Append(q, if c.meta.Some? then c.meta.value else ""), Same, Same, Push, true), Leave, None)
  }

  function ClosedNext(q: Pipe, clo: CloAt): (n: CbUpd<CloAt>)
    ensures n.upd.pipe.wsi == q.wsi && (n.sock.Remove? ==> n.next.None?)
  {
    match clo
    case ReadFirst =>
      if q.state.DISCONNECTING?
      then CbUpd(Quietly(q.(trace := q.trace + [ClosedGracefully])), Leave, Some(StoreDisconnected))
      else CbUpd(Quietly(q), Leave, Some(ReadSecond))
    case ReadSecond =>
      CbUpd(Quietly(if q.state.CONNECTED? then q.(trace := q.trace + [Dropped]) else q), Leave, Some(StoreDisconnected))
    case StoreDisconnected => CbUpd(Quietly(q.(state := DISCONNECTED, closed := true)), Leave, Some(Detach))
    case Detach => CbUpd(Quietly(q), Remove, None)
  }

  function WritableNext(q: Pipe, wr: WriteAt, c: Choice): (n: CbUpd<WriteAt>)
    ensures n.upd.pipe.wsi == q.wsi && (n.sock.Remove? ==> n.next.None?)
  {
    match wr
    case ReadGracefulFlag =>
      if q.graceful
      then CbUpd(Quietly(q.(out := q.out.(flushed := q.out.flushed || c.ok))), if c.ok then Leave else End, None)
      else CbUpd(Quietly(q), Leave, Some(SendText))
    case SendText =>
      if q.out.text == "" then CbUpd(Quietly(q), Leave, Some(ReadState))
      else if c.ok then CbUpd(Quietly(q.(out := q.out.(text := "", sent := q.out.sent + q.out.text))), Rearm, None)
      else CbUpd(Quietly(q.(out := q.out.(text := ""))), End, None)
    case ReadState =>
      if q.state.DISCONNECTING? then CbUpd(Quietly(q), End, None) else CbUpd(Quietly(q), Leave, Some(SendAudio))
    case SendAudio => CbUpd(Quietly(q.(out := q.out.(audio := false))), Leave, None)
  }

  // ---------------------------------------------------------------- all steps

  predicate Enabled(s: Sys, step: Step) {
    match step
    case Create(p) => p !in s.pipes
    case StrayWake => true
    case WakeUp => s.svc.SvcIdle? && s.wake
    case OnError(w) => s.svc.SvcIdle? && w in s.socks && s.socks[w].phase.Shaking?
    case OnEstablished(w) => s.svc.SvcIdle? && w in s.socks && s.socks[w].phase.Shaking?
    case OnClosed(w) => s.svc.SvcIdle? && w in s.socks && !s.socks[w].phase.Shaking?
    case OnReceive(w) =>
      && s.svc.SvcIdle? && w in s.socks && s.socks[w].phase.Open?
      && (s.socks[w].attached.Some? ==> s.socks[w].attached.value in s.pipes)
    case OnWritable(w) => s.svc.SvcIdle? && w in s.socks && s.socks[w].phase.Open? && s.socks[w].writable
    case Service(c) => ServiceEnabled(s, c)
    case _ =>
      && step.p in s.pipes && OwnerAt(s.pipes[step.p], step)
      && Unlocked(s.svc, OwnerNext(s.pipes[step.p], step))
  }

  function Apply(s: Sys, step: Step): Sys
    requires Enabled(s, step)
  {
    match step
    case Create(p) => Put(s, p, FRESH_PIPE)
    case StrayWake => s.(wake := true)
    case WakeUp => s.(wake := false, svc := ConnScan(0, []))
    case OnError(w) => ErrorStep(s, w)
    case OnEstablished(w) => EstablishedStep(s, w)
    case OnClosed(w) =>
      (match s.socks[w].attached
       case Some(p) => s.(svc := ClosedCb(p, w, ReadFirst))
       case None => s.(socks := s.socks - {w}))
    case OnReceive(w) =>
      (match s.socks[w].attached
       case Some(p) => Put(s, p, s.pipes[p].(trace := s.pipes[p].trace + [Message]))
       case None => s)
    case OnWritable(w) =>
      var s1 := s.(socks := s.socks[w := s.socks[w].(writable := false)]);
      (match s.socks[w].attached
       case Some(p) => s1.(svc := WritableCb(p, w, ReadGracefulFlag))
       case None => s1)
    case Service(c) => ServiceStep(s, c)
    case _ => Act(s, step.p, OwnerNext(s.pipes[step.p], step))
  }

  function ErrorStep(s: Sys, w: Wsi): Sys
    requires w in s.socks
  {
    var i := FindAt(s.connects, s.pipes, w);
    var s1 := s.(connects := AfterFind(s, w), socks := s.socks - {w});
    if i < |s.connects| then Put(s1, s.connects[i], Fail(s.pipes[s.connects[i]])) else s1
  }

  function EstablishedStep(s: Sys, w: Wsi): Sys
    requires w in s.socks
  {
    var i := FindAt(s.connects, s.pipes, w);
    var s1 := s.(connects := AfterFind(s, w));
    if i < |s.connects| then
      var p := s.connects[i];
      Put(s1, p, s.pipes[p].(vhd := true, state := CONNECTED))
        .(socks := s.socks[w := s.socks[w].(phase := Open, attached := Some(p))], svc := EstCb(p, w, ReadPending))
    else s1.(socks := s.socks[w := s.socks[w].(phase := Open)])
  }

  // ---------------------------------------------------------------- runs

  predicate ValidRun(s: Sys, run: seq<Step>)
    decreases |run|
  {
    run == [] || (Enabled(s, run[0]) && ValidRun(Apply(s, run[0]), run[1..]))
  }

  function Exec(s: Sys, run: seq<Step>): Sys
    requires ValidRun(s, run)
    decreases |run|
  {
    if run == [] then s else Exec(Apply(s, run[0]), run[1..])
  }

  // ---------------------------------------------------------------- what a step dereferences

  /** The pipes whose memory a step reads or writes. */
  function Touched(s: Sys, step: Step): set<PipeId> {
    match step
    case Create(_) | StrayWake | WakeUp | OnClosed(_) | OnWritable(_) => {}
    case OnError(_) | OnEstablished(_) => set p | p in Scanned(s.connects, FindAt(s.connects, s.pipes, step.w))
    case OnReceive(w) => if w in s.socks && s.socks[w].attached.Some? then {s.socks[w].attached.value} else {}
    case Service(_) => ServiceTouched(s)
    case _ => {step.p}
  }

  function ServiceTouched(s: Sys): set<PipeId> {
    match s.svc
    case SvcIdle => {}
    case ConnScan(pos, _) => if pos < |s.connects| then {s.connects[pos]} else {}
    case ConnLoop(todo) => if todo != [] then {todo[0]} else {}
    case DiscScan(pos, _) => if pos < |s.disconnects| then {s.disconnects[pos]} else {}
    case DiscLoop(hits) => if hits != [] then {hits[0]} else {}
    case WriteScan(pos, _) => if pos < |s.writes| then {s.writes[pos]} else {}
    case WriteLoop(hits) => if hits != [] then {hits[0]} else {}
    case EstCb(p, _, _) => {p}
    case ClosedCb(p, _, clo) => if clo.Detach? then {} else {p}
    case WritableCb(p, _, _) => {p}
  }
}
