/** The job system as one process runs it: session rows overwritten in place, handlers registered in a
    mutable map, and a loop that works through each fetched batch.

    Every method is specified by a function on the database contents. `JobServiceRuns` then shows that an
    uninterrupted batch is one of the interleavings of `JobProtocol`, so what holds of every run of the
    protocol holds of this code. */
module JobService {
  import opened Common
  import opened JobModel

  /** What the process shares with the others: the session table, the queue and the uuids used so far. */
  datatype Db = Db(table: Table, queue: seq<SessionId>, minted: nat)

  /** A source of session ids that never repeats. */
  type Uuids = nat -> SessionId

  ghost predicate Injective(uuid: Uuids) {
    forall i: nat, j: nat :: uuid(i) == uuid(j) ==> i == j
  }

  ghost predicate Unused(uuid: Uuids, db: Db) {
    Injective(uuid) && forall i: nat :: i >= db.minted ==> uuid(i) !in db.table
  }

  function Submitted(uuid: Uuids, db: Db, input: SubmitInput): Db {
    Db(Create(db.table, uuid(db.minted), RequestOf(input)), db.queue + [uuid(db.minted)], db.minted + 1)
  }

  function SubmittedAll(uuid: Uuids, db: Db, inputs: seq<SubmitInput>): Db
    decreases |inputs|
  {
    if inputs == [] then db
    else Submitted(uuid, SubmittedAll(uuid, db, inputs[..|inputs| - 1]), inputs[|inputs| - 1])
  }

  /** The next `n` ids. */
  function NextIds(uuid: Uuids, minted: nat, n: nat): (ids: seq<SessionId>)
    ensures |ids| == n && forall i :: 0 <= i < n ==> ids[i] == uuid(minted + i)
  {
    seq(n, (i: nat) => uuid(minted + i))
  }

  function Processed(uuid: Uuids, handlers: Handlers, db: Db, id: SessionId): Db {
    if id !in db.table then db
    else
      var request := db.table[id].request;
      var started := db.(table := SetStatus(db.table, id, IN_PROGRESS, None, None));
      if request.subType !in handlers
      then started.(table := Conclude(started.table, id, NoHandler(request)))
      else
        var submits := Invoke(handlers, id, request).submits;
        var after := SubmittedAll(uuid, started, submits);
        after.(table := Conclude(after.table, id, Judge(handlers, id, request, NextIds(uuid, db.minted, |submits|))))
  }

  function Worked(uuid: Uuids, handlers: Handlers, db: Db, id: SessionId): Db {
    Processed(uuid, handlers, db.(table := SetStatus(db.table, id, DEQUEUED, None, None)), id)
  }

  function WorkedAll(uuid: Uuids, handlers: Handlers, db: Db, batch: seq<SessionId>): Db
    decreases |batch|
  {
    if batch == [] then db
    else Worked(uuid, handlers, WorkedAll(uuid, handlers, db, batch[..|batch| - 1]), batch[|batch| - 1])
  }

  lemma SubmittedKeepsUnused(uuid: Uuids, db: Db, input: SubmitInput)
    requires Unused(uuid, db)
    ensures Unused(uuid, Submitted(uuid, db, input))
  {
  }

  /** Between the two there is one waiting session more for each submission, under new ids, queued in order. */
  ghost predicate SubmittedUnder(db: Db, db': Db, ids: seq<SessionId>, inputs: seq<SubmitInput>) {
    && |ids| == |inputs| && db'.minted == db.minted + |ids| && db'.queue == db.queue + ids
    && RowsUnder(db.table, db'.table, ids, inputs)
  }

  ghost predicate RowsUnder(table: Table, table': Table, ids: seq<SessionId>, inputs: seq<SubmitInput>)
    requires |ids| == |inputs|
  {
    forall key: nat {:trigger Open(key)} :: Open(key) ==>
      && (forall x :: x in table' <==> x in table || x in ids)
      && (forall x :: x in table ==> table'[x] == table[x])
      && (forall k :: 0 <= k < |ids| ==> ids[k] !in table && PendingWith(table', ids[k], inputs[k]))
  }

  lemma OneMoreSubmitted(db: Db, db1: Db, ids: seq<SessionId>, inputs: seq<SubmitInput>, id: SessionId,
                         input: SubmitInput)
    requires SubmittedUnder(db, db1, ids, inputs) && id !in db1.table
    ensures SubmittedUnder(db, Db(Create(db1.table, id, RequestOf(input)), db1.queue + [id], db1.minted + 1),
                           ids + [id], inputs + [input])
  {
    assert Open(0);
    var db' := Db(Create(db1.table, id, RequestOf(input)), db1.queue + [id], db1.minted + 1);
    forall k | 0 <= k < |ids| + 1
      ensures (ids + [id])[k] !in db.table && PendingWith(db'.table, (ids + [id])[k], (inputs + [input])[k])
    {
      assert k < |ids| ==> PendingWith(db1.table, ids[k], inputs[k]);
    }
  }

  lemma {:induction false} SubmittedAllKeepsUnused(uuid: Uuids, db: Db, inputs: seq<SubmitInput>)
    requires Unused(uuid, db)
    ensures Unused(uuid, SubmittedAll(uuid, db, inputs))
    ensures db.table.Keys <= SubmittedAll(uuid, db, inputs).table.Keys
    decreases |inputs|
  {
    if inputs != [] {
      SubmittedAllKeepsUnused(uuid, db, inputs[..|inputs| - 1]);
    }
  }

  lemma NothingSubmitted(db: Db, ids: seq<SessionId>)
    requires ids == []
    ensures SubmittedUnder(db, db, ids, [])
  {
  }

  lemma OneMoreId(uuid: Uuids, minted: nat, n: nat)
    ensures NextIds(uuid, minted, n + 1) == NextIds(uuid, minted, n) + [uuid(minted + n)]
  {
  }

  lemma {:induction false} SubmittedAllMakes(uuid: Uuids, db: Db, inputs: seq<SubmitInput>)
    requires Unused(uuid, db)
    ensures SubmittedUnder(db, SubmittedAll(uuid, db, inputs), NextIds(uuid, db.minted, |inputs|), inputs)
    decreases |inputs|
  {
    if inputs == [] {
      NothingSubmitted(db, NextIds(uuid, db.minted, 0));
    } else {
      var init, last := inputs[..|inputs| - 1], inputs[|inputs| - 1];
      var db1, n := SubmittedAll(uuid, db, init), |init|;
      SubmittedAllMakes(uuid, db, init);
      LastIdIsNew(uuid, db, init);
      OneMoreSubmitted(db, db1, NextIds(uuid, db.minted, n), init, uuid(db1.minted), last);
      OneMoreId(uuid, db.minted, n);
      SubmittedSums(db, Submitted(uuid, db1, last), NextIds(uuid, db.minted, n) + [uuid(db1.minted)], init + [last],
                    NextIds(uuid, db.minted, n + 1), inputs);
    }
  }

  lemma LastIdIsNew(uuid: Uuids, db: Db, inputs: seq<SubmitInput>)
    requires Unused(uuid, db)
    ensures var db1 := SubmittedAll(uuid, db, inputs); uuid(db1.minted) !in db1.table
  {
    SubmittedAllKeepsUnused(uuid, db, inputs);
  }

  lemma SubmittedSums(db: Db, db': Db, ids: seq<SessionId>, inputs: seq<SubmitInput>, ids': seq<SessionId>,
                      inputs': seq<SubmitInput>)
    requires SubmittedUnder(db, db', ids, inputs) && ids == ids' && inputs == inputs'
    ensures SubmittedUnder(db, db', ids', inputs')
  {
  }

  /** Processing a stored session: what becomes of its row, which sessions are new, and that no other row changes. */
  ghost predicate ProcessedRight(handlers: Handlers, id: SessionId, before: Db, after: Db) {
    forall key: nat {:trigger Open(key)} :: Open(key) ==>
      && id in before.table && id in after.table && before.queue <= after.queue
      && var children, request := after.queue[|before.queue|..], before.table[id].request;
      && EndsAs(handlers, id, request, children, before.table[id].result, after.table[id])
      && ChildrenRecord(handlers, id, request, after.table, children)
      && Distinct(children)
      && (forall child :: child in children ==> child !in before.table && Waiting(after.table, child))
      && (forall x :: x in after.table <==> x in before.table || x in children)
      && (forall x :: x in before.table && x != id ==> after.table[x] == before.table[x])
  }

  predicate Waiting(table: Table, id: SessionId) {
    id in table && table[id].status == PENDING && table[id].info == None && table[id].result == None
  }

  lemma ProcessedIsRight(uuid: Uuids, handlers: Handlers, db: Db, id: SessionId)
    requires Unused(uuid, db) && id in db.table
    ensures ProcessedRight(handlers, id, db, Processed(uuid, handlers, db, id))
  {
    if db.table[id].request.subType in handlers {
      HandledIsRight(uuid, handlers, db, id);
    } else {
      ConcludedEnds(handlers, SetStatus(db.table, id, IN_PROGRESS, None, None), id, []);
    }
  }

  lemma HandledIsRight(uuid: Uuids, handlers: Handlers, db: Db, id: SessionId)
    requires Unused(uuid, db) && id in db.table && db.table[id].request.subType in handlers
    ensures ProcessedRight(handlers, id, db, Processed(uuid, handlers, db, id))
  {
    var submits := Invoke(handlers, id, db.table[id].request).submits;
    var started := db.(table := SetStatus(db.table, id, IN_PROGRESS, None, None));
    var submitted, ids := SubmittedAll(uuid, started, submits), NextIds(uuid, db.minted, |submits|);
    SubmittedAllMakes(uuid, started, submits);
    assert Open(0);
    ConcludedEnds(handlers, submitted.table, id, ids);
    NextIdsDistinct(uuid, db.minted, |submits|);
    assert Processed(uuid, handlers, db, id).queue[|db.queue|..] == ids;
    ChildrenOfHandler(handlers, id, db.table[id].request, started, submitted, ids,
                      Processed(uuid, handlers, db, id).table);
  }

  /** The sessions a handler has made record what it submits, and wait. */
  lemma ChildrenOfHandler(handlers: Handlers, id: SessionId, request: Request, started: Db, submitted: Db,
                          ids: seq<SessionId>, table: Table)
    requires request.subType in handlers && id in started.table
    requires SubmittedUnder(started, submitted, ids, Invoke(handlers, id, request).submits)
    requires forall x :: x in submitted.table && x != id ==> x in table && table[x] == submitted.table[x]
    ensures ChildrenRecord(handlers, id, request, table, ids)
    ensures forall child :: child in ids ==> child !in started.table && Waiting(table, child)
  {
    assert Open(0);
    var inputs := Invoke(handlers, id, request).submits;
    forall k | 0 <= k < |ids|
      ensures ids[k] !in started.table && Waiting(table, ids[k]) && Records(table[ids[k]].request, inputs[k])
    {
      assert PendingWith(submitted.table, ids[k], inputs[k]);
    }
  }

  lemma NextIdsDistinct(uuid: Uuids, minted: nat, n: nat)
    requires Injective(uuid)
    ensures Distinct(NextIds(uuid, minted, n))
  {
  }

  // ----- status writes -----

  /** One write to the status column. */
  datatype Write = Write(id: SessionId, status: JobStatus)

  /** From `early` to `late` one call processed a stored session: it is marked in progress before its handler starts,
      each session the handler makes is written as pending, and one final status comes last. */
  ghost predicate Processes(early: seq<Write>, late: seq<Write>, id: SessionId, children: seq<SessionId>,
                            status: JobStatus)
  {
    Terminal(status) && late == early + [Write(id, IN_PROGRESS)] + Pending(children) + [Write(id, status)]
  }

  function Pending(children: seq<SessionId>): (writes: seq<Write>)
    ensures |writes| == |children| && forall k :: 0 <= k < |children| ==> writes[k] == Write(children[k], PENDING)
  {
    seq(|children|, k requires 0 <= k < |children| => Write(children[k], PENDING))
  }

  ghost predicate AllStored(table: Table, ids: seq<SessionId>) {
    forall id :: id in ids ==> id in table
  }

  /** The writes of a delivery of stored sessions: each in turn is dequeued and then processed. */
  ghost predicate DeliveryWrites(early: seq<Write>, late: seq<Write>, batch: seq<SessionId>)
    decreases |batch|
  {
    if batch == [] then late == early
    else
      var last := batch[|batch| - 1];
      exists before, children, status ::
        && DeliveryWrites(early, before, batch[..|batch| - 1])
        && Processes(before + [Write(last, DEQUEUED)], late, last, children, status)
  }

  lemma OneMorePending(early: seq<Write>, children: seq<SessionId>, child: SessionId)
    ensures early + Pending(children) + [Write(child, PENDING)] == early + Pending(children + [child])
  {
    assert Pending(children) + [Write(child, PENDING)] == Pending(children + [child]);
  }

  lemma OneMoreWorked(early: seq<Write>, before: seq<Write>, late: seq<Write>, batch: seq<SessionId>, id: SessionId,
                      children: seq<SessionId>, status: JobStatus)
    requires DeliveryWrites(early, before, batch)
    requires Processes(before + [Write(id, DEQUEUED)], late, id, children, status)
    ensures DeliveryWrites(early, late, batch + [id])
  {
    var all := batch + [id];
    assert all[..|all| - 1] == batch && all[|all| - 1] == id;
    assert Processes(before + [Write(all[|all| - 1], DEQUEUED)], late, all[|all| - 1], children, status);
  }

  const WAKE_UPS: seq<JobSubType> := [PROV_LODGE_WAKE_UP, REGISTRY_WAKE_UP, EMAIL_WAKE_UP]

  function WakeUp(payload: Record, context: Context): Behaviour {
    Behaviour([], (ids: seq<SessionId>) => Returned(map[]))
  }

  class Service {
    const uuid: Uuids
    var table: Table
    var queue: seq<SessionId>
    var minted: nat
    var handlers: Handlers
    ghost var writes: seq<Write>

    function View(): Db
      reads this
    {
      Db(table, queue, minted)
    }

    ghost predicate Valid()
      reads this
    {
      Unused(uuid, View())
    }

    /** Wake-up jobs are registered when the module loads. */
    constructor (uuid: Uuids)
      requires Injective(uuid)
      ensures Valid() && this.uuid == uuid && View() == Db(map[], [], 0) && writes == []
      ensures handlers.Keys == {PROV_LODGE_WAKE_UP, REGISTRY_WAKE_UP, EMAIL_WAKE_UP}
      ensures forall subType, payload, context, ids :: subType in handlers ==>
        handlers[subType](payload, context).submits == []
        && handlers[subType](payload, context).finish(ids) == Returned(map[])
    {
      this.uuid := uuid;
      table, queue, minted, handlers, writes := map[], [], 0, map[], [];
      new;
      for i := 0 to |WAKE_UPS|
        invariant Valid() && this.uuid == uuid && View() == Db(map[], [], 0) && writes == []
        invariant handlers.Keys == (set subType | subType in WAKE_UPS[..i])
        invariant forall subType :: subType in handlers ==> handlers[subType] == WakeUp
      {
        RegisterJobHandler(WAKE_UPS[i], WakeUp);
      }
      assert WAKE_UPS[..|WAKE_UPS|] == WAKE_UPS;
      forall subType, payload, context, ids | subType in handlers
        ensures handlers[subType](payload, context).submits == []
        ensures handlers[subType](payload, context).finish(ids) == Returned(map[])
      {
        assert handlers[subType](payload, context) == WakeUp(payload, context);
      }
    }

    method RegisterJobHandler(subType: JobSubType, handler: Handler)
      modifies this`handlers
      ensures handlers == old(handlers)[subType := handler]
    {
      handlers := handlers[subType := handler];
    }

    method SubmitJob(input: SubmitInput) returns (id: SessionId)
      requires Valid()
      modifies this`table, this`queue, this`minted, this`writes
      ensures Valid() && id == uuid(old(minted)) && id !in old(table)
      ensures View() == Submitted(uuid, old(View()), input)
      ensures PendingWith(table, id, input) && table == old(table)[id := table[id]] && queue == old(queue) + [id]
      ensures writes == old(writes) + [Write(id, PENDING)]
    {
      id := uuid(minted);
      minted := minted + 1;
      table := Create(table, id, RequestOf(input));
      writes := writes + [Write(id, PENDING)];
      queue := queue + [id];
    }

    /** An update of a missing row changes nothing. */
    method UpdateStatus(id: SessionId, status: JobStatus, info: Option<Info>, result: Option<Record>)
      modifies this`table, this`writes
      ensures table == SetStatus(old(table), id, status, info, result)
      ensures writes == if id in old(table) then old(writes) + [Write(id, table[id].status)] else old(writes)
      ensures id in old(table) ==> table[id].status == status
    {
      if id in table {
        writes := writes + [Write(id, status)];
      }
      table := SetStatus(table, id, status, info, result);
    }

    /** Fails, changing nothing, when there is no such session. */
    method RetryJob(source: SessionId) returns (id: Option<SessionId>)
      requires Valid()
      modifies this`table, this`queue, this`minted, this`writes
      ensures Valid()
      ensures source !in old(table) ==> id == None && View() == old(View()) && writes == old(writes)
      ensures source in old(table) ==>
        && id == Some(uuid(old(minted))) && id.value !in old(table)
        && table == old(table)[id.value := Session(old(table)[source].request, PENDING, None, None)]
        && queue == old(queue) + [id.value]
    {
      if source !in table {
        return None;
      }
      var retried := SubmitJob(RetryInput(table[source].request));
      id := Some(retried);
    }

    /** The part of a handler that submits jobs. */
    method SubmitJobs(inputs: seq<SubmitInput>) returns (ids: seq<SessionId>)
      requires Valid()
      modifies this`table, this`queue, this`minted, this`writes
      ensures Valid() && ids == NextIds(uuid, old(minted), |inputs|) && table.Keys >= old(table).Keys
      ensures View() == SubmittedAll(uuid, old(View()), inputs)
      ensures queue == old(queue) + ids && writes == old(writes) + Pending(ids)
    {
      ids := [];
      for i := 0 to |inputs|
        invariant Valid() && ids == NextIds(uuid, old(minted), i) && minted == old(minted) + i
        invariant View() == SubmittedAll(uuid, old(View()), inputs[..i]) && table.Keys >= old(table).Keys
        invariant queue == old(queue) + ids && writes == old(writes) + Pending(ids)
      {
        var id := SubmitJob(inputs[i]);
        OneMorePending(old(writes), ids, id);
        ids := ids + [id];
        assert inputs[..i + 1][..i] == inputs[..i];
      }
      assert inputs[..|inputs|] == inputs;
    }

    method ProcessSession(id: SessionId)
      requires Valid()
      modifies this`table, this`queue, this`minted, this`writes
      ensures Valid() && View() == Processed(uuid, handlers, old(View()), id)
      ensures id !in old(table) ==> View() == old(View()) && writes == old(writes)
      ensures id in old(table) ==> ProcessedRight(handlers, id, old(View()), View())
      ensures id in old(table) ==>
        && id in table
        && exists made :: queue == old(queue) + made && Processes(old(writes), writes, id, made, table[id].status)
    {
      if id !in table {
        return;
      }
      ProcessedIsRight(uuid, handlers, View(), id);
      var request := table[id].request;
      UpdateStatus(id, IN_PROGRESS, None, None);
      if request.subType !in handlers {
        UpdateStatus(id, FAILED, Some(NoHandlerRegistered(request.subType)), None);
        assert queue == old(queue) + [] && Processes(old(writes), writes, id, [], table[id].status);
        return;
      }
      var behaviour := Invoke(handlers, id, request);
      var made := SubmitJobs(behaviour.submits);
      match behaviour.finish(made)
      case Returned(result) =>
        UpdateStatus(id, SUCCEEDED, Some(CompletedSuccessfully), Some(result));
      case Threw(message) =>
        UpdateStatus(id, FAILED, Some(ErrorMessage(message)), None);
    }

    /** The body of the worker's loop; `early` and `past` are the writes before the delivery and what it has done. */
    method WorkOnOne(id: SessionId, ghost early: seq<Write>, ghost past: seq<SessionId>)
      requires Valid()
      modifies this`table, this`queue, this`minted, this`writes
      ensures Valid() && View() == Worked(uuid, handlers, old(View()), id)
      ensures table.Keys >= old(table).Keys
      ensures id in old(table) && DeliveryWrites(early, old(writes), past)
          ==> DeliveryWrites(early, writes, past + [id])
    {
      UpdateStatus(id, DEQUEUED, None, None);
      ghost var queued := queue;
      ProcessSession(id);
      assert Open(0);
      if id in old(table) && DeliveryWrites(early, old(writes), past) {
        ghost var made :| queue == queued + made
          && Processes(old(writes) + [Write(id, DEQUEUED)], writes, id, made, table[id].status);
        OneMoreWorked(early, old(writes), writes, past, id, made, table[id].status);
      }
    }

    /** One delivery of the queue: up to `batchSize` sessions, processed one after the other. */
    method WorkOnce(batchSize: nat) returns (batch: seq<SessionId>)
      requires Valid()
      modifies this`table, this`queue, this`minted, this`writes
      ensures Valid() && batch <= old(queue)
      ensures |batch| == if batchSize < |old(queue)| then batchSize else |old(queue)|
      ensures View() == WorkedAll(uuid, handlers, old(View()).(queue := old(queue)[|batch|..]), batch)
      ensures AllStored(old(table), batch) ==> DeliveryWrites(old(writes), writes, batch)
    {
      var n := if batchSize < |queue| then batchSize else |queue|;
      batch, queue := queue[..n], queue[n..];
      ghost var fetched := View();
      for i := 0 to |batch|
        invariant Valid() && View() == WorkedAll(uuid, handlers, fetched, batch[..i])
        invariant table.Keys >= old(table).Keys
        invariant AllStored(old(table), batch) ==> DeliveryWrites(old(writes), writes, batch[..i])
      {
        WorkOnOne(batch[i], old(writes), batch[..i]);
        assert batch[..i + 1][..i] == batch[..i] && batch[..i + 1] == batch[..i] + [batch[i]];
      }
      assert batch[..|batch|] == batch;
    }
  }
}
