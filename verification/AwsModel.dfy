/** One AWS transcription session of mod_aws_transcribe: its worker thread, the media
    thread, the threads that tear it down, and the SDK's callbacks.

    A step is one access another thread can tell apart. What a thread does while it holds
    m_mutex is one step: the only variables read there that change outside m_mutex
    (m_connecting, m_connected, the publishing of m_pStream) only ever go from unset to
    set, so reading them together is reading them one after the other. */
module AwsModel {
  import opened Common

  type Tid = nat

  /** Who is tearing the session down: a stop by name, the bug's own CLOSE, or the start
      path after the bug could not be attached. */
  datatype Kind = ByName | OwnClose | Orphan

  datatype StopAt = WantLock | Flag | Load | Finish(has: bool) | Join | Kill | Release | Returned
  datatype Stop = Stop(kind: Kind, at: StopAt)

  datatype Holder = Nobody | MediaThread | Stopper(t: Tid)

  datatype Obj = Unbuilt | Built | Freed

  datatype WorkerAt =
    | Construct                 // new GStreamer
    | MaybeConnect              // connect(), unless VAD delays it
    | Publish                   // cb->streamer.store
    | CheckStop                 // cb->stop_requested.load
    | SelfFinish
    | Loop                      // processData, waiting
    | Deliver                   // hands a transcript on with m_mutex released
    | Writing(last: bool)       // writes its local queue with m_mutex released
    | Done

  datatype MediaAt = Outside | Inside | Staging | Pushing

  datatype SdkAt = NotStarted | Started | Ready | Draining | Streaming | Over

  /** Everything but the audio. */
  datatype Ctl = Ctl(
    vad: bool, attached: bool,
    obj: Obj, pub: bool, joined: bool, stopReq: bool, named: bool,
    lock: Holder,               // cb->mutex
    finishing: bool, finished: bool, connecting: bool, connected: bool, stream: bool, transcript: bool,
    shutdown: bool,             // shutdownInitiated
    worker: WorkerAt, media: MediaAt, sdk: SdkAt, stops: map<Tid, Stop>)

  function Initial(vad: bool, attached: bool): Ctl {
    Ctl(vad, attached, Unbuilt, false, false, false, attached, Nobody,
        false, false, false, false, false, false, false, Construct, Outside, NotStarted, map[])
  }

  datatype Step =
    | Work                      // the worker's next step
    | Overdue                   // its bounded wait times out
    | Enter                     // aws_transcribe_frame wins the trylock
    | VadConnect
    | Write(n: nat)             // write() of n bytes begins
    | Stage
    | Push
    | Leave
    | OnReady(alive: bool)      // OnStreamReady; whether the session still exists
    | DrainBegin
    | DrainNext
    | DrainEnd
    | OnTranscript
    | OnOutcome
    | Begin(t: Tid, kind: Kind)
    | Tear(t: Tid)              // the next step of a teardown
    | SlotTaken                 // another start with the same name overwrites the channel's slot

  /** The wait predicate of processData; `queued` says that m_deqAudio is not empty. */
  predicate Wakes(c: Ctl, queued: bool) {
    (queued && !c.finishing) || c.transcript || c.finished || (c.finishing && (!c.shutdown || c.stream))
  }

  predicate WorkReady(c: Ctl, queued: bool) {
    !c.worker.Done? && (c.worker.Loop? ==> Wakes(c, queued))
  }

  /** The part of a turn after the transcript: start the shutdown, or send what is queued. */
  function Branch(c: Ctl, queued: bool): Ctl {
    if c.finishing then c.(shutdown := true, worker := if c.stream then Writing(true) else Loop)
    else c.(worker := if c.stream && queued then Writing(false) else Loop)
  }

  function Turn(c: Ctl, queued: bool): Ctl {
    if c.finished then c.(transcript := false, worker := Done)
    else if !c.connected && !c.connecting then c.(worker := Done)
    else if c.transcript then c.(transcript := false, worker := Deliver)
    else Branch(c, queued)
  }

  /** `queued` and `local`: m_deqAudio and the worker's own queue are not empty. */
  function WorkStep(c: Ctl, queued: bool, local: bool): Ctl {
    match c.worker
    case Construct => c.(obj := Built, worker := MaybeConnect)
    case MaybeConnect =>
      c.(connecting := c.connecting || !c.vad, sdk := if c.vad then c.sdk else Started, worker := Publish)
    case Publish => c.(pub := true, worker := CheckStop)
    case CheckStop => c.(worker := if c.stopReq then SelfFinish else Loop)
    case SelfFinish => c.(finishing := true, worker := Loop)
    case Loop => Turn(c, queued)
    case Deliver => Branch(c, queued)
    case Writing(last) =>
      if local then c else c.(stream := c.stream && !last, worker := Loop)
    case Done => c
  }

  function Pc(c: Ctl, t: Tid, s: Stop, at: StopAt): Ctl {
    c.(stops := c.stops[t := s.(at := at)])
  }

  predicate TearReady(c: Ctl, t: Tid) {
    t in c.stops &&
    match c.stops[t].at
    case WantLock => c.lock.Nobody? || c.stops[t].kind.Orphan?
    case Join => c.joined || c.worker.Done?
    case Returned => false
    case _ => true
  }

  /** session_stop, session_close and session_cleanup, step by step. Cleanup takes no lock:
      nothing else has ever seen the session. */
  function TearStep(c: Ctl, t: Tid): Ctl
    requires TearReady(c, t)
  {
    var s := c.stops[t];
    match s.at
    case WantLock =>
      if s.kind.Orphan? then Pc(c, t, s, Flag)
      else if s.kind.ByName? && !c.named then Pc(c, t, s, Returned)
      else Pc(c, t, s, Flag).(lock := Stopper(t))
    case Flag => Pc(c, t, s, Load).(stopReq := true)
    case Load => Pc(c, t, s, Finish(c.pub))
    case Finish(has) => Pc(c, t, s, Join).(finishing := c.finishing || has)
    case Join => Pc(c, t, s, Kill).(joined := true)
    case Kill => Pc(c, t, s, Release).(obj := if c.pub then Freed else c.obj, pub := false)
    case Release =>
      Pc(c, t, s, Returned).(named := c.named && !s.kind.ByName?,
                             lock := if s.kind.Orphan? then c.lock else Nobody)
    case Returned => c
  }

  predicate BeginOk(c: Ctl, t: Tid, kind: Kind) {
    t !in c.stops &&
    match kind
    case ByName => c.attached && c.named
    case OwnClose => c.attached
    case Orphan => !c.attached && c.stops == map[]
  }

  /** The SDK's contract: nothing before the start, one OnStreamReady at most, and the final
      outcome once, when no other callback is running, and last. */
  predicate CtlReady(c: Ctl, step: Step, queued: bool, local: bool, todo: bool) {
    match step
    case Work => WorkReady(c, queued)
    case Overdue => c.worker.Loop? && c.shutdown && !Wakes(c, queued)
    case Enter => c.attached && c.lock.Nobody? && c.media.Outside?
    case VadConnect => c.media.Inside? && c.vad && !c.connecting
    case Write(_) => c.media.Inside?
    case Stage => c.media.Staging? && !c.sdk.Draining?
    case Push => c.media.Pushing?
    case Leave => c.media.Inside?
    case OnReady(_) => c.sdk.Started?
    case DrainBegin => c.sdk.Ready?
    case DrainNext => c.sdk.Draining? && todo
    case DrainEnd => c.sdk.Draining? && !todo
    case OnTranscript => c.sdk.Streaming?
    case OnOutcome => c.sdk.Started? || c.sdk.Streaming?
    case Begin(t, kind) => BeginOk(c, t, kind)
    case Tear(t) => TearReady(c, t)
    case SlotTaken => true
  }

  function CtlStep(c: Ctl, step: Step, queued: bool, local: bool, todo: bool): Ctl
    requires CtlReady(c, step, queued, local, todo)
  {
    match step
    case Work => WorkStep(c, queued, local)
    case Overdue => c          // DisableRequestProcessing: the SDK will deliver an error outcome
    case Enter => if c.pub then c.(lock := MediaThread, media := Inside) else c
    case VadConnect => if c.finished then c else c.(connecting := true, sdk := Started)
    case Write(_) =>
      if c.finishing || c.finished then c else c.(media := if c.connected then Pushing else Staging)
    case Stage => c.(media := if c.connected then Pushing else Inside)
    case Push => c.(media := Inside)
    case Leave => c.(lock := Nobody, media := Outside)
    case OnReady(alive) => c.(stream := true, sdk := if alive then Ready else Streaming)
    case DrainBegin => c.(sdk := Draining)
    case DrainNext => c
    case DrainEnd => c.(connected := true, sdk := Streaming)
    case OnTranscript => c.(transcript := true)
    case OnOutcome => c.(finished := true, sdk := Over)
    case Begin(t, kind) => c.(stops := c.stops[t := Stop(kind, WantLock)])
    case Tear(t) => TearStep(c, t)
    case SlotTaken => c.(named := false)
  }

  // ---------------------------------------------------------------- what a step touches

  /** The step reads or writes the GStreamer object, or frees it. */
  predicate Touches(c: Ctl, step: Step) {
    match step
    case Work => !c.worker.Construct? && !c.worker.Done?
    case Overdue => true
    case Enter => false
    case Begin(_, _) => false
    case SlotTaken => false
    case Tear(t) => t in c.stops && ((c.stops[t].at.Finish? && c.stops[t].at.has) || (c.stops[t].at.Kill? && c.pub))
    case _ => true
  }
}
