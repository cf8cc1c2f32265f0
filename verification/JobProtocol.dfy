/** The job system as an interleaving of atomic steps: every awaited database or queue call of every
    submitter and worker is one step.

    The fields `history`, `calls`, `spawned` and `place` only record what happened; no step reads them
    to decide what to do. */
module JobProtocol {
  import opened Common
  import opened JobModel

  type WorkerId = nat

  /** Where a worker stands in the body of its batch loop. */
  datatype Phase =
    | Idle
    | AtDequeue
    | AtGet
    | AtStart(request: Request)
    | Running(request: Request, children: seq<SessionId>, unsent: Option<SessionId>)
    | AtFinish(verdict: Verdict)

  /** A worker and its current batch: `batch[pos]` is being processed, later entries wait. */
  datatype Worker = Worker(batch: seq<SessionId>, pos: nat, phase: Phase, stopped: bool)

  const Resting := Worker([], 0, Idle, false)

  datatype Place =
    | Unsent                       // created by a submitter that has not called send yet
    | Submitting(parent: WorkerId) // created by a running handler that has not called send yet
    | Queued
    | Slot(worker: WorkerId, index: nat)
    | Abandoned                    // its worker stopped
    | Done

  datatype State = State(
    table: Table,
    unsent: set<SessionId>,
    queue: multiset<SessionId>,
    workers: map<WorkerId, Worker>,
    history: map<SessionId, seq<JobStatus>>,
    calls: multiset<SessionId>,
    spawned: map<SessionId, seq<SessionId>>,
    place: map<SessionId, Place>)

  datatype Step =
    | Submit(id: SessionId, input: SubmitInput)
    | Retry(source: SessionId, id: SessionId)
    | Send(id: SessionId)
    | Fetch(w: WorkerId, batch: seq<SessionId>)
    | MarkDequeued(w: WorkerId)
    | Get(w: WorkerId)
    | MarkInProgress(w: WorkerId)
    | Spawn(w: WorkerId, id: SessionId)
    | SendSpawned(w: WorkerId)
    | HandlerEnds(w: WorkerId)
    | Finish(w: WorkerId)
    | Stop(w: WorkerId)

  /** Handlers are registered before the workers start and stay fixed. */
  datatype Config = Config(handlers: Handlers, batchSize: nat)

  function Init(workers: set<WorkerId>): State {
    State(map[], {}, multiset{}, map w | w in workers :: Resting, map[], multiset{}, map[], map[])
  }

  /** The sessions the handler of `id` has created, in order. */
  function SpawnedBy(s: State, id: SessionId): seq<SessionId> {
    if id in s.spawned then s.spawned[id] else []
  }

  // ----- when a step can happen -----

  /** Worker `w` is processing a session. */
  predicate Busy(s: State, w: WorkerId) {
    w in s.workers && s.workers[w].pos < |s.workers[w].batch|
  }

  function Current(s: State, w: WorkerId): SessionId
    requires Busy(s, w)
  {
    s.workers[w].batch[s.workers[w].pos]
  }

  /** Worker `w` is inside a handler call. */
  predicate InHandler(c: Config, s: State, w: WorkerId) {
    Busy(s, w) && s.workers[w].phase.Running? && s.workers[w].phase.request.subType in c.handlers
  }

  function Submits(c: Config, s: State, w: WorkerId): seq<SubmitInput>
    requires InHandler(c, s, w)
  {
    Invoke(c.handlers, Current(s, w), s.workers[w].phase.request).submits
  }

  predicate CanFetch(c: Config, s: State, w: WorkerId, batch: seq<SessionId>) {
    && w in s.workers && s.workers[w].phase.Idle? && !s.workers[w].stopped
    && 0 < |batch| <= c.batchSize && multiset(batch) <= s.queue
  }

  predicate CanSpawn(c: Config, s: State, w: WorkerId, id: SessionId) {
    && InHandler(c, s, w) && s.workers[w].phase.unsent.None? && id !in s.table
    && |s.workers[w].phase.children| < |Submits(c, s, w)|
  }

  predicate CanSendSpawned(s: State, w: WorkerId) {
    Busy(s, w) && s.workers[w].phase.Running? && s.workers[w].phase.unsent.Some?
  }

  predicate CanEnd(c: Config, s: State, w: WorkerId) {
    && InHandler(c, s, w) && s.workers[w].phase.unsent.None?
    && |s.workers[w].phase.children| == |Submits(c, s, w)|
  }

  predicate Enabled(c: Config, s: State, step: Step) {
    match step
    case Submit(id, _) => id !in s.table
    case Retry(source, id) => source in s.table && id !in s.table
    case Send(id) => id in s.unsent
    case Fetch(w, batch) => CanFetch(c, s, w, batch)
    case MarkDequeued(w) => Busy(s, w) && s.workers[w].phase.AtDequeue?
    case Get(w) => Busy(s, w) && s.workers[w].phase.AtGet?
    case MarkInProgress(w) => Busy(s, w) && s.workers[w].phase.AtStart?
    case Spawn(w, id) => CanSpawn(c, s, w, id)
    case SendSpawned(w) => CanSendSpawned(s, w)
    case HandlerEnds(w) => CanEnd(c, s, w)
    case Finish(w) => Busy(s, w) && s.workers[w].phase.AtFinish?
    case Stop(w) => w in s.workers && !s.workers[w].stopped
  }

  // ----- what a step does -----

  function Insert(s: State, id: SessionId, request: Request, place: Place): State {
    s.(table := Create(s.table, id, request),
       history := s.history[id := [PENDING]],
       place := s.place[id := place])
  }

  /** `setStatus`, recorded in the history when the row exists. */
  function Log(s: State, id: SessionId, table: Table): State {
    if id in table && id in s.history
    then s.(table := table, history := s.history[id := s.history[id] + [table[id].status]])
    else s.(table := table)
  }

  function SetPhase(s: State, w: WorkerId, phase: Phase): State
    requires w in s.workers
  {
    s.(workers := s.workers[w := s.workers[w].(phase := phase)])
  }

  /** The worker after its current session; when the batch is used up it is idle. */
  function Next(wk: Worker): Worker {
    if wk.pos + 1 < |wk.batch| then wk.(pos := wk.pos + 1, phase := AtDequeue)
    else wk.(batch := [], pos := 0, phase := Idle)
  }

  /** The batch loop moves on. */
  function Advance(s: State, w: WorkerId): State
    requires Busy(s, w)
  {
    s.(workers := s.workers[w := Next(s.workers[w])], place := s.place[Current(s, w) := Done])
  }

  function OnSubmit(s: State, id: SessionId, input: SubmitInput): State {
    Insert(s, id, RequestOf(input), Unsent).(unsent := s.unsent + {id})
  }

  function OnSend(s: State, id: SessionId): State {
    s.(unsent := s.unsent - {id}, queue := s.queue + multiset{id}, place := s.place[id := Queued])
  }

  function OnFetch(s: State, w: WorkerId, batch: seq<SessionId>): State
    requires w in s.workers
  {
    s.(queue := s.queue - multiset(batch),
       workers := s.workers[w := s.workers[w].(batch := batch, pos := 0, phase := AtDequeue)],
       place := map id | id in s.place :: if id in batch then Slot(w, IndexOf(batch, id)) else s.place[id])
  }

  function OnMarkDequeued(s: State, w: WorkerId): State
    requires Busy(s, w)
  {
    var id := Current(s, w);
    SetPhase(Log(s, id, SetStatus(s.table, id, DEQUEUED, None, None)), w, AtGet)
  }

  function OnGet(s: State, w: WorkerId): State
    requires Busy(s, w)
  {
    var id := Current(s, w);
    if id in s.table then SetPhase(s, w, AtStart(s.table[id].request)) else Advance(s, w)
  }

  function OnMarkInProgress(c: Config, s: State, w: WorkerId): State
    requires Busy(s, w) && s.workers[w].phase.AtStart?
  {
    var id := Current(s, w);
    var request := s.workers[w].phase.request;
    var found := request.subType in c.handlers;
    SetPhase(Log(s, id, SetStatus(s.table, id, IN_PROGRESS, None, None)), w,
             if found then Phase.Running(request, [], None) else AtFinish(NoHandler(request))).
      (calls := s.calls + if found then multiset{id} else multiset{})
  }

  function OnSpawn(c: Config, s: State, w: WorkerId, id: SessionId): State
    requires CanSpawn(c, s, w, id)
  {
    var phase := s.workers[w].phase;
    SetPhase(Insert(s, id, RequestOf(Submits(c, s, w)[|phase.children|]), Submitting(w)),
             w, phase.(unsent := Some(id))).
      (spawned := s.spawned[Current(s, w) := SpawnedBy(s, Current(s, w)) + [id]])
  }

  function OnSendSpawned(s: State, w: WorkerId): State
    requires CanSendSpawned(s, w)
  {
    var phase := s.workers[w].phase;
    var id := phase.unsent.value;
    SetPhase(s, w, Phase.Running(phase.request, phase.children + [id], None)).
      (queue := s.queue + multiset{id}, place := s.place[id := Queued])
  }

  function OnHandlerEnds(c: Config, s: State, w: WorkerId): State
    requires CanEnd(c, s, w)
  {
    var phase := s.workers[w].phase;
    var id := Current(s, w);
    SetPhase(s, w, AtFinish(Judge(c.handlers, id, phase.request, phase.children)))
  }

  function OnFinish(s: State, w: WorkerId): State
    requires Busy(s, w) && s.workers[w].phase.AtFinish?
  {
    var id := Current(s, w);
    Advance(Log(s, id, Conclude(s.table, id, s.workers[w].phase.verdict)), w)
  }

  /** Whether a session is lost when worker `w` stops. */
  predicate HeldBy(place: Place, w: WorkerId) {
    (place.Slot? && place.worker == w) || (place.Submitting? && place.parent == w)
  }

  function OnStop(s: State, w: WorkerId): State {
    s.(workers := s.workers[w := Resting.(stopped := true)],
       place := map id | id in s.place :: if HeldBy(s.place[id], w) then Abandoned else s.place[id])
  }

  function Apply(c: Config, s: State, step: Step): State
    requires Enabled(c, s, step)
  {
    match step
    case Submit(id, input) => OnSubmit(s, id, input)
    case Retry(source, id) => OnSubmit(s, id, RetryInput(s.table[source].request))
    case Send(id) => OnSend(s, id)
    case Fetch(w, batch) => OnFetch(s, w, batch)
    case MarkDequeued(w) => OnMarkDequeued(s, w)
    case Get(w) => OnGet(s, w)
    case MarkInProgress(w) => OnMarkInProgress(c, s, w)
    case Spawn(w, id) => OnSpawn(c, s, w, id)
    case SendSpawned(w) => OnSendSpawned(s, w)
    case HandlerEnds(w) => OnHandlerEnds(c, s, w)
    case Finish(w) => OnFinish(s, w)
    case Stop(w) => OnStop(s, w)
  }

  // ----- runs -----

  ghost predicate ValidRun(c: Config, s: State, run: seq<Step>)
    decreases |run|
  {
    run == [] || (Enabled(c, s, run[0]) && ValidRun(c, Apply(c, s, run[0]), run[1..]))
  }

  ghost function After(c: Config, s: State, run: seq<Step>): State
    requires ValidRun(c, s, run)
    decreases |run|
  {
    if run == [] then s else After(c, Apply(c, s, run[0]), run[1..])
  }
}
