/** What holds over every run of the job protocol: the status lifecycle, single delivery and isolation. */
module JobSafety {
  import opened Common
  import opened JobModel
  import opened JobProtocol
  import opened JobInvariant

  lemma NotSpawned(s: State, id: SessionId)
    requires FamiliesOk(s) && id !in s.table
    ensures id !in s.spawned
  {
    assert Open(0);
  }

  lemma SubmitKeeps(c: Config, s: State, id: SessionId, input: SubmitInput)
    requires Inv(c, s) && id !in s.table
    ensures Inv(c, OnSubmit(s, id, input))
  {
    NotSpawned(s, id);
    FamiliesKept(s, OnSubmit(s, id, input));
    SubmitLocated(s, id, input);
    SubmitStored(c, s, id, input);
  }

  lemma FetchKeeps(c: Config, s: State, w: WorkerId, batch: seq<SessionId>)
    requires Inv(c, s) && CanFetch(c, s, w, batch)
    ensures Inv(c, OnFetch(s, w, batch))
  {
    var s' := OnFetch(s, w, batch);
    FamiliesKept(s, s');
    FetchLocated(s, s', w, batch);
    FetchedOnce(s, batch);
    FetchFrame(s, s', w, batch, set x | x in batch);
    FetchStored(c, s, s', w, batch);
  }

  lemma MarkDequeuedKeeps(c: Config, s: State, w: WorkerId)
    requires Inv(c, s) && Busy(s, w) && s.workers[w].phase.AtDequeue?
    ensures Inv(c, OnMarkDequeued(s, w))
  {
    IsAtWork(c, s, w);
    FamiliesKept(s, OnMarkDequeued(s, w));
    HoldingsKept(s, OnMarkDequeued(s, w), w);
    MarkDequeuedStored(c, s, w);
  }

  lemma GetKeeps(c: Config, s: State, w: WorkerId)
    requires Inv(c, s) && Busy(s, w) && s.workers[w].phase.AtGet?
    ensures Inv(c, OnGet(s, w))
  {
    IsAtWork(c, s, w);
    FamiliesKept(s, OnGet(s, w));
    HoldingsKept(s, OnGet(s, w), w);
    GetStored(c, s, w);
  }

  lemma MarkInProgressKeeps(c: Config, s: State, w: WorkerId)
    requires Inv(c, s) && Busy(s, w) && s.workers[w].phase.AtStart?
    ensures Inv(c, OnMarkInProgress(c, s, w))
  {
    IsAtWork(c, s, w);
    FamiliesKept(s, OnMarkInProgress(c, s, w));
    HoldingsKept(s, OnMarkInProgress(c, s, w), w);
    MarkInProgressStored(c, s, w);
  }

  lemma SpawnKeeps(c: Config, s: State, w: WorkerId, id: SessionId)
    requires Inv(c, s) && CanSpawn(c, s, w, id)
    ensures Inv(c, OnSpawn(c, s, w, id))
  {
    IsAtWork(c, s, w);
    NotSpawned(s, id);
    SpawnFamilies(c, s, w, id);
    SpawnLocated(s, OnSpawn(c, s, w, id), w, id);
    SpawnStored(c, s, w, id);
  }

  lemma SendSpawnedKeeps(c: Config, s: State, w: WorkerId)
    requires Inv(c, s) && CanSendSpawned(s, w)
    ensures Inv(c, OnSendSpawned(s, w))
  {
    IsAtWork(c, s, w);
    assert InHand(s.workers, w, s.workers[w].phase.unsent.value);
    FamiliesKept(s, OnSendSpawned(s, w));
    SendSpawnedLocated(s, w);
    SendSpawnedStored(c, s, w, s.workers[w].phase.unsent.value);
  }

  lemma HandlerEndsKeeps(c: Config, s: State, w: WorkerId)
    requires Inv(c, s) && CanEnd(c, s, w)
    ensures Inv(c, OnHandlerEnds(c, s, w))
  {
    IsAtWork(c, s, w);
    FamiliesKept(s, OnHandlerEnds(c, s, w));
    HoldingsKept(s, OnHandlerEnds(c, s, w), w);
    HandlerEndsStored(c, s, w);
  }

  lemma FinishMoves(c: Config, s: State, w: WorkerId)
    requires Busy(s, w) && s.workers[w].phase.AtFinish? && Current(s, w) in s.table
    requires s.table.Keys == s.history.Keys
    ensures var s' := OnFinish(s, w);
      && s'.table.Keys == s.table.Keys && s'.history.Keys == s.history.Keys
      && s'.unsent == s.unsent && s'.queue == s.queue && s'.calls == s.calls && s'.spawned == s.spawned
      && s'.workers == Advance(s, w).workers && s'.place == Advance(s, w).place
  {
  }

  lemma FinishKeeps(c: Config, s: State, w: WorkerId)
    requires Inv(c, s) && Busy(s, w) && s.workers[w].phase.AtFinish?
    ensures Inv(c, OnFinish(s, w))
  {
    IsAtWork(c, s, w);
    FinishMoves(c, s, w);
    FamiliesKept(s, OnFinish(s, w));
    AdvanceLocated(s, OnFinish(s, w), w);
    FinishStored(c, s, w);
  }

  lemma SendKeeps(c: Config, s: State, id: SessionId)
    requires Inv(c, s) && id in s.unsent
    ensures Inv(c, OnSend(s, id))
  {
    FamiliesKept(s, OnSend(s, id));
    SendLocated(s, id);
    SendStored(c, s, id);
  }

  lemma StopKeeps(c: Config, s: State, w: WorkerId)
    requires Inv(c, s) && w in s.workers
    ensures Inv(c, OnStop(s, w))
  {
    FamiliesKept(s, OnStop(s, w));
    StopLocated(s, w);
    forall x | x in s.place && s.place[x] == Slot(w, s.workers[w].pos) ensures !s.workers[w].phase.Idle? {
      assert InSlot(s.workers, w, s.workers[w].pos, x);
    }
    StopStored(c, s, w);
  }

  /** The invariant is inductive: any enabled step of any submitter or worker keeps it. */
  lemma StepKeepsInv(c: Config, s: State, step: Step)
    requires Inv(c, s) && Enabled(c, s, step)
    ensures Inv(c, Apply(c, s, step))
  {
    match step
    case Submit(id, input) => SubmitKeeps(c, s, id, input);
    case Retry(source, id) => SubmitKeeps(c, s, id, RetryInput(s.table[source].request));
    case Send(id) => SendKeeps(c, s, id);
    case Fetch(w, batch) => FetchKeeps(c, s, w, batch);
    case MarkDequeued(w) => MarkDequeuedKeeps(c, s, w);
    case Get(w) => GetKeeps(c, s, w);
    case MarkInProgress(w) => MarkInProgressKeeps(c, s, w);
    case Spawn(w, id) => SpawnKeeps(c, s, w, id);
    case SendSpawned(w) => SendSpawnedKeeps(c, s, w);
    case HandlerEnds(w) => HandlerEndsKeeps(c, s, w);
    case Finish(w) => FinishKeeps(c, s, w);
    case Stop(w) => StopKeeps(c, s, w);
  }

  /** ... and so does every run: the invariant holds in all reachable states. */
  lemma {:induction false} RunKeepsInv(c: Config, s: State, run: seq<Step>)
    requires Inv(c, s) && ValidRun(c, s, run)
    ensures Inv(c, After(c, s, run))
    decreases |run|
  {
    if run != [] {
      StepKeepsInv(c, s, run[0]);
      RunKeepsInv(c, Apply(c, s, run[0]), run[1..]);
    }
  }

  // ----- the status lifecycle -----

  predicate Lifecycle(h: seq<JobStatus>) {
    && h != []
    && (h <= [PENDING, DEQUEUED, IN_PROGRESS, SUCCEEDED] || h <= [PENDING, DEQUEUED, IN_PROGRESS, FAILED])
  }

  ghost predicate SafeRow(s: State, id: SessionId) {
    && id in s.table && id in s.history && Lifecycle(s.history[id])
    && s.history[id][|s.history[id]| - 1] == s.table[id].status
    && s.calls[id] <= 1
    && (s.table[id].result.Some? <==> s.table[id].status == SUCCEEDED)
  }

  lemma InvMakesRowSafe(c: Config, s: State, id: SessionId)
    requires Inv(c, s) && id in s.table
    ensures SafeRow(s, id)
  {
    assert StoredOk(c, s, id);
    TerminalIsDecided(c, s, id);
  }

  /** In every interleaving each session's history is a prefix of the lifecycle and ends in its stored status,
      its handler is called at most once, and a result is stored exactly with SUCCEEDED. */
  lemma LifecycleSafe(c: Config, workers: set<WorkerId>, run: seq<Step>, id: SessionId)
    requires ValidRun(c, Init(workers), run)
    requires id in After(c, Init(workers), run).table
    ensures SafeRow(After(c, Init(workers), run), id)
  {
    InitEstablishes(c, workers);
    RunKeepsInv(c, Init(workers), run);
    InvMakesRowSafe(c, After(c, Init(workers), run), id);
  }

  lemma TerminalIsDecided(c: Config, s: State, id: SessionId)
    requires Inv(c, s) && id in s.table
    ensures Terminal(s.table[id].status) <==> s.place[id].Done?
    ensures Terminal(s.table[id].status) ==> Decided(c, s, id)
  {
    assert StoredOk(c, s, id);
    if s.place[id].Slot? {
      assert InSlot(s.workers, s.place[id].worker, s.place[id].index, id);
    }
  }

  // ----- what is stored, in terms of handlers and submissions -----

  /** Every finished session, in every run: its handler was called once, its row is what the handler's outcome says,
      and the sessions the handler has created hold exactly what it submits. */
  lemma FinishedAsHandled(c: Config, workers: set<WorkerId>, run: seq<Step>, id: SessionId)
    requires ValidRun(c, Init(workers), run)
    requires var table := After(c, Init(workers), run).table;
      id in table && (table[id].status == SUCCEEDED || table[id].status == FAILED)
    ensures var s := After(c, Init(workers), run); var row := s.table[id];
      && EndsAs(c.handlers, id, row.request, SpawnedBy(s, id), None, row)
      && ChildrenRecord(c.handlers, id, row.request, s.table, SpawnedBy(s, id))
      && s.calls[id] == if row.request.subType in c.handlers then 1 else 0
  {
    InitEstablishes(c, workers);
    RunKeepsInv(c, Init(workers), run);
    DoneAsHandled(c, After(c, Init(workers), run), id);
  }

  lemma DoneAsHandled(c: Config, s: State, id: SessionId)
    requires Inv(c, s) && id in s.table && Terminal(s.table[id].status)
    ensures EndsAs(c.handlers, id, s.table[id].request, SpawnedBy(s, id), None, s.table[id])
    ensures ChildrenRecord(c.handlers, id, s.table[id].request, s.table, SpawnedBy(s, id))
    ensures s.calls[id] == if s.table[id].request.subType in c.handlers then 1 else 0
  {
    TerminalIsDecided(c, s, id);
    assert StoredOk(c, s, id);
    DecidedEnds(c, s, id);
  }

  lemma DecidedEnds(c: Config, s: State, id: SessionId)
    requires id in s.table && Decided(c, s, id) && ChildrenOk(c, s, id) && Terminal(s.table[id].status)
    ensures EndsAs(c.handlers, id, s.table[id].request, SpawnedBy(s, id), None, s.table[id])
    ensures ChildrenRecord(c.handlers, id, s.table[id].request, s.table, SpawnedBy(s, id))
  {
  }

  /** A submission stores one waiting session with what was submitted, and changes no other row. */
  lemma SubmitStores(c: Config, s: State, id: SessionId, input: SubmitInput)
    requires Enabled(c, s, Submit(id, input))
    ensures var table' := Apply(c, s, Submit(id, input)).table;
      PendingWith(table', id, input) && table' == s.table[id := table'[id]]
  {
  }

  /** So does a submission by a handler, with the next of the jobs that the handler submits. */
  lemma SpawnStores(c: Config, s: State, w: WorkerId, id: SessionId)
    requires CanSpawn(c, s, w, id)
    ensures var table' := Apply(c, s, Spawn(w, id)).table; var phase := s.workers[w].phase; var r := phase.request;
      var inputs := c.handlers[r.subType](r.payload, Context(Current(s, w), r.username, r.batchId)).submits;
      PendingWith(table', id, inputs[|phase.children|]) && table' == s.table[id := table'[id]]
  {
  }

  // ----- one place at a time -----

  ghost predicate Nowhere(s: State, id: SessionId) {
    && id !in s.unsent && id !in s.queue
    && (forall w, i :: !InSlot(s.workers, w, i, id))
    && (forall w :: !InHand(s.workers, w, id))
  }

  /** Where a session is, read off the submitters, the queue and the workers only. */
  ghost predicate At(s: State, id: SessionId, p: Place) {
    match p
    case Unsent => id in s.unsent
    case Submitting(w) => InHand(s.workers, w, id)
    case Queued => s.queue[id] == 1
    case Slot(w, i) => InSlot(s.workers, w, i, id)
    case Abandoned => id in s.table && Nowhere(s, id) && !Terminal(s.table[id].status)
    case Done => id in s.table && Nowhere(s, id) && Terminal(s.table[id].status)
  }

  /** Each session is unsent, queued once, in one batch slot, abandoned or done, and never in two of these. */
  lemma ExactlyOnePlace(c: Config, s: State, id: SessionId)
    requires Inv(c, s) && id in s.table
    ensures id in s.place && At(s, id, s.place[id])
    ensures forall p :: At(s, id, p) ==> p == s.place[id]
    ensures s.queue[id] <= 1
  {
    TerminalIsDecided(c, s, id);
    assert StoredOk(c, s, id);
    assert s.queue[id] > 0 ==> id in s.queue;
  }

  // ----- terminal statuses absorb, sessions are isolated -----

  /** The session whose row a step may write. */
  function Written(s: State, step: Step): Option<SessionId> {
    match step
    case MarkDequeued(w) => if Busy(s, w) then Some(Current(s, w)) else None
    case MarkInProgress(w) => if Busy(s, w) then Some(Current(s, w)) else None
    case Finish(w) => if Busy(s, w) then Some(Current(s, w)) else None
    case _ => None
  }

  /** Row `id` after a step, compared with before. */
  ghost predicate RowKept(s: State, s': State, id: SessionId, written: bool) {
    && id in s.table && id in s'.table && s'.table[id].request == s.table[id].request
    && id in s.history && id in s'.history && s.history[id] <= s'.history[id]
    && (s'.table[id] != s.table[id] ==> written)
    && (Terminal(s.table[id].status) ==> s'.table[id] == s.table[id] && s'.history[id] == s.history[id])
  }

  lemma MarkDequeuedIsolates(c: Config, s: State, w: WorkerId, id: SessionId)
    requires Inv(c, s) && Busy(s, w) && s.workers[w].phase.AtDequeue? && id in s.table
    ensures RowKept(s, OnMarkDequeued(s, w), id, id == Current(s, w))
  {
    CurrentIsStored(c, s, w);
  }

  lemma MarkInProgressIsolates(c: Config, s: State, w: WorkerId, id: SessionId)
    requires Inv(c, s) && Busy(s, w) && s.workers[w].phase.AtStart? && id in s.table
    ensures RowKept(s, OnMarkInProgress(c, s, w), id, id == Current(s, w))
  {
    CurrentIsStored(c, s, w);
  }

  lemma FinishIsolates(c: Config, s: State, w: WorkerId, id: SessionId)
    requires Inv(c, s) && Busy(s, w) && s.workers[w].phase.AtFinish? && id in s.table
    ensures RowKept(s, OnFinish(s, w), id, id == Current(s, w))
  {
    CurrentIsStored(c, s, w);
  }

  lemma OtherStepsKeepRows(c: Config, s: State, step: Step, id: SessionId)
    requires Located(s) && Enabled(c, s, step) && id in s.table
    requires !step.MarkDequeued? && !step.MarkInProgress? && !step.Finish?
    ensures RowKept(s, Apply(c, s, step), id, false)
  {
  }

  /** A step leaves every existing row alone except the one session it processes, which is not yet terminal;
      request columns never change and histories only grow. */
  lemma StepIsolates(c: Config, s: State, step: Step, id: SessionId)
    requires Inv(c, s) && Enabled(c, s, step) && id in s.table
    ensures RowKept(s, Apply(c, s, step), id, Written(s, step) == Some(id))
  {
    match step
    case MarkDequeued(w) => MarkDequeuedIsolates(c, s, w, id);
    case MarkInProgress(w) => MarkInProgressIsolates(c, s, w, id);
    case Finish(w) => FinishIsolates(c, s, w, id);
    case _ => OtherStepsKeepRows(c, s, step, id);
  }

  /** How far along the lifecycle a status is; the two terminal statuses come last. */
  function Rank(status: JobStatus): nat {
    |PathTo(status)|
  }

  /** No step takes a status back. */
  lemma StatusOnlyAdvances(c: Config, s: State, step: Step, id: SessionId)
    requires Inv(c, s) && Enabled(c, s, step) && id in s.table
    ensures var s' := Apply(c, s, step); id in s'.table && Rank(s.table[id].status) <= Rank(s'.table[id].status)
  {
    StepIsolates(c, s, step, id);
    StepKeepsInv(c, s, step);
    HistoryIsPath(c, s, id);
    HistoryIsPath(c, Apply(c, s, step), id);
  }

  lemma HistoryIsPath(c: Config, s: State, id: SessionId)
    requires Inv(c, s) && id in s.table
    ensures id in s.history && s.history[id] == PathTo(s.table[id].status)
  {
    assert StoredOk(c, s, id);
  }

  /** A terminal session is never written again, whatever runs afterwards. */
  lemma {:induction false} TerminalForever(c: Config, s: State, run: seq<Step>, id: SessionId)
    requires Inv(c, s) && ValidRun(c, s, run) && id in s.table && Terminal(s.table[id].status)
    ensures id in After(c, s, run).table && After(c, s, run).table[id] == s.table[id]
    decreases |run|
  {
    if run != [] {
      StepIsolates(c, s, run[0], id);
      StepKeepsInv(c, s, run[0]);
      TerminalForever(c, Apply(c, s, run[0]), run[1..], id);
    }
  }

  /** Retrying makes one new pending session with the old request and touches nothing else. */
  lemma RetryIsFresh(c: Config, s: State, source: SessionId, id: SessionId)
    requires Inv(c, s) && Enabled(c, s, Retry(source, id))
    ensures var s' := Apply(c, s, Retry(source, id));
      && s'.table == s.table[id := Session(s.table[source].request, PENDING, None, None)]
      && id != source && s'.queue == s.queue && s'.workers == s.workers
  {
  }

  // ----- what a step writes to the table -----

  lemma DequeueWrites(s: State, w: WorkerId)
    requires Busy(s, w)
    ensures OnMarkDequeued(s, w).table == SetStatus(s.table, Current(s, w), DEQUEUED, None, None)
  {
  }

  lemma StartWritesTable(c: Config, s: State, w: WorkerId)
    requires Busy(s, w) && s.workers[w].phase.AtStart?
    ensures OnMarkInProgress(c, s, w).table == SetStatus(s.table, Current(s, w), IN_PROGRESS, None, None)
  {
  }

  lemma GetIsSilent(s: State, w: WorkerId)
    requires Busy(s, w)
    ensures OnGet(s, w).table == s.table
  {
  }

  lemma StopIsSilent(s: State, w: WorkerId)
    ensures OnStop(s, w).table == s.table
  {
  }

  lemma FetchIsSilent(s: State, w: WorkerId, batch: seq<SessionId>)
    requires w in s.workers
    ensures OnFetch(s, w, batch).table == s.table
  {
  }

  /** Sending, fetching, reading and stopping do not touch the table. */
  lemma SilentStep(c: Config, s: State, step: Step)
    requires Enabled(c, s, step)
    requires step.Send? || step.Fetch? || step.Get? || step.SendSpawned? || step.HandlerEnds? || step.Stop?
    ensures Apply(c, s, step).table == s.table
  {
    match step
    case Get(w) => GetIsSilent(s, w);
    case Stop(w) => StopIsSilent(s, w);
    case Fetch(w, batch) => FetchIsSilent(s, w, batch);
    case HandlerEnds(w) => assert OnHandlerEnds(c, s, w).table == s.table;
    case _ =>
  }

  // ----- longer runs -----

  lemma {:induction false} RunThenStep(c: Config, s: State, run: seq<Step>, step: Step)
    requires ValidRun(c, s, run) && Enabled(c, After(c, s, run), step)
    ensures ValidRun(c, s, run + [step])
    ensures After(c, s, run + [step]) == Apply(c, After(c, s, run), step)
    decreases |run|
  {
    if run == [] {
      assert ([] + [step])[1..] == [];
      assert run + [step] == [step];
    } else {
      assert (run + [step])[0] == run[0] && (run + [step])[1..] == run[1..] + [step];
      RunThenStep(c, Apply(c, s, run[0]), run[1..], step);
    }
  }
}
