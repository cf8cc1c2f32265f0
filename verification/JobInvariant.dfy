/** The inductive invariant of the job protocol, kept by every step of every interleaving. */
module JobInvariant {
  import opened Common
  import opened JobModel
  import opened JobProtocol

  /** The only status history that leads to a status. */
  function PathTo(status: JobStatus): seq<JobStatus> {
    match status
    case PENDING => [PENDING]
    case DEQUEUED => [PENDING, DEQUEUED]
    case IN_PROGRESS => [PENDING, DEQUEUED, IN_PROGRESS]
    case SUCCEEDED => [PENDING, DEQUEUED, IN_PROGRESS, SUCCEEDED]
    case FAILED => [PENDING, DEQUEUED, IN_PROGRESS, FAILED]
  }

  predicate Started(status: JobStatus) {
    status == IN_PROGRESS || Terminal(status)
  }

  // ----- where sessions are -----

  ghost predicate WorkersOk(s: State) {
    forall w :: w in s.workers ==>
      var wk := s.workers[w];
      && (wk.phase.Idle? ==> wk.batch == [] && wk.pos == 0)
      && (!wk.phase.Idle? ==> wk.pos < |wk.batch| && !wk.stopped)
  }

  ghost predicate PlacesOk(s: State) {
    && s.place.Keys == s.table.Keys == s.history.Keys
    && (forall id :: id in s.unsent <==> id in s.place && s.place[id] == Unsent)
    && (forall id :: id in s.place && s.place[id] == Queued ==> s.queue[id] == 1)
    && (forall id :: id in s.queue ==> id in s.place && s.place[id] == Queued)
  }

  predicate InSlot(workers: map<WorkerId, Worker>, w: WorkerId, i: nat, id: SessionId) {
    w in workers && workers[w].pos <= i < |workers[w].batch| && workers[w].batch[i] == id
  }

  ghost predicate SlotsOk(s: State) {
    && (forall w, i, id :: InSlot(s.workers, w, i, id) ==> id in s.place && s.place[id] == Slot(w, i))
    && (forall id :: id in s.place && s.place[id].Slot? ==>
          InSlot(s.workers, s.place[id].worker, s.place[id].index, id))
  }

  predicate InHand(workers: map<WorkerId, Worker>, w: WorkerId, id: SessionId) {
    w in workers && workers[w].phase.Running? && workers[w].phase.unsent == Some(id)
  }

  ghost predicate HandsOk(s: State) {
    && (forall w, id :: InHand(s.workers, w, id) ==> id in s.place && s.place[id] == Submitting(w))
    && (forall id :: id in s.place && s.place[id].Submitting? ==> InHand(s.workers, s.place[id].parent, id))
  }

  ghost predicate Located(s: State) {
    WorkersOk(s) && PlacesOk(s) && SlotsOk(s) && HandsOk(s)
  }

  // ----- what is stored about each session -----

  /** `children` are sessions holding exactly the first jobs the handler of `id` submits. */
  ghost predicate Lineage(c: Config, table: Table, id: SessionId, request: Request, children: seq<SessionId>) {
    && request.subType in c.handlers
    && |children| <= |Invoke(c.handlers, id, request).submits|
    && forall k :: 0 <= k < |children| ==>
      && children[k] in table
      && table[children[k]].request == RequestOf(Invoke(c.handlers, id, request).submits[k])
  }

  /** The handler of `id` has submitted everything it submits, and `children` are those sessions. */
  ghost predicate FullLineage(c: Config, table: Table, id: SessionId, request: Request, children: seq<SessionId>) {
    request.subType in c.handlers ==>
      && Lineage(c, table, id, request, children)
      && |children| == |Invoke(c.handlers, id, request).submits|
  }

  ghost predicate PhaseOk(c: Config, s: State, id: SessionId, phase: Phase)
    requires id in s.table
  {
    var row := s.table[id];
    match phase
    case Idle => false
    case AtDequeue => row.status == PENDING
    case AtGet => row.status == DEQUEUED
    case AtStart(request) => row.status == DEQUEUED && request == row.request
    case Running(request, children, unsent) =>
      && row.status == IN_PROGRESS && request == row.request && row.request.subType in c.handlers
      && SpawnedBy(s, id) == children + if unsent.Some? then [unsent.value] else []
    case AtFinish(verdict) =>
      && row.status == IN_PROGRESS
      && verdict == Judge(c.handlers, id, row.request, SpawnedBy(s, id))
      && FullLineage(c, s.table, id, row.request, SpawnedBy(s, id))
  }

  /** A handler creates sessions only once it has been called, and then those it is to submit, in order. */
  ghost predicate ChildrenOk(c: Config, s: State, id: SessionId)
    requires id in s.table
  {
    var row := s.table[id];
    if Started(row.status) && row.request.subType in c.handlers
    then Lineage(c, s.table, id, row.request, SpawnedBy(s, id))
    else SpawnedBy(s, id) == []
  }

  ghost predicate Decided(c: Config, s: State, id: SessionId)
    requires id in s.table
  {
    var row := s.table[id];
    var verdict := Judge(c.handlers, id, row.request, SpawnedBy(s, id));
    && row == Session(row.request, verdict.status, Some(verdict.info), verdict.result)
    && FullLineage(c, s.table, id, row.request, SpawnedBy(s, id))
  }

  ghost predicate PlaceFits(c: Config, s: State, id: SessionId)
    requires id in s.table && id in s.place
  {
    match s.place[id]
    case Unsent | Submitting(_) | Queued => s.table[id].status == PENDING
    case Slot(w, i) =>
      w in s.workers &&
      if i == s.workers[w].pos then PhaseOk(c, s, id, s.workers[w].phase) else s.table[id].status == PENDING
    case Abandoned => !Terminal(s.table[id].status)
    case Done => Decided(c, s, id)
  }

  ghost predicate StoredOk(c: Config, s: State, id: SessionId)
    requires id in s.table && id in s.place && id in s.history
  {
    var row := s.table[id];
    && s.history[id] == PathTo(row.status)
    && s.calls[id] == (if Started(row.status) && row.request.subType in c.handlers then 1 else 0)
    && (!Terminal(row.status) ==> row.info == None && row.result == None)
    && ChildrenOk(c, s, id)
    && PlaceFits(c, s, id)
  }

  predicate ChildAt(s: State, parent: SessionId, i: int, id: SessionId) {
    0 <= i < |SpawnedBy(s, parent)| && SpawnedBy(s, parent)[i] == id
  }

  /** No session has been created by two handlers, or twice by one. */
  ghost predicate OneParent(s: State) {
    && (forall id :: id in s.spawned ==> id in s.table)
    && (forall p, i, q, j, id :: ChildAt(s, p, i, id) && ChildAt(s, q, j, id) ==> p == q && i == j)
  }

  ghost predicate FamiliesOk(s: State) {
    forall key: nat {:trigger Open(key)} :: Open(key) ==> OneParent(s)
  }

  ghost predicate Inv(c: Config, s: State) {
    && Located(s)
    && (forall id {:trigger StoredOk(c, s, id)} :: id in s.table ==> StoredOk(c, s, id))
    && (forall id :: id in s.calls ==> id in s.table)
    && FamiliesOk(s)
  }

  lemma InitEstablishes(c: Config, workers: set<WorkerId>)
    ensures Inv(c, Init(workers))
  {
  }

  // ----- where sessions are, step by step -----

  /** Worker `w` keeps its remaining batch and hands over nothing. */
  predicate SameHoldings(a: Worker, b: Worker) {
    && a.batch == b.batch && a.pos == b.pos
    && (a.phase.Idle? <==> b.phase.Idle?)
    && (a.phase.Running? && a.phase.unsent.Some? <==> b.phase.Running? && b.phase.unsent.Some?)
    && (a.phase.Running? && a.phase.unsent.Some? ==> a.phase.unsent == b.phase.unsent)
    && a.stopped == b.stopped
  }

  lemma HoldingsKept(s: State, s': State, w: WorkerId)
    requires Located(s) && s'.place == s.place && s'.unsent == s.unsent && s'.queue == s.queue
    requires s'.table.Keys == s.table.Keys && s'.history.Keys == s.history.Keys
    requires w in s.workers && w in s'.workers && s'.workers == s.workers[w := s'.workers[w]]
    requires SameHoldings(s.workers[w], s'.workers[w])
    ensures Located(s')
  {
    assert forall v, i, id :: InSlot(s'.workers, v, i, id) == InSlot(s.workers, v, i, id);
    assert forall v, id :: InHand(s'.workers, v, id) == InHand(s.workers, v, id);
  }

  lemma SubmitLocated(s: State, id: SessionId, input: SubmitInput)
    requires Located(s) && id !in s.table
    ensures Located(OnSubmit(s, id, input))
  {
    var s' := OnSubmit(s, id, input);
    assert s'.workers == s.workers && s'.queue == s.queue && s'.place == s.place[id := Unsent];
    NewPlaceKeepsSlots(s, s', id);
    assert HandsOk(s') && PlacesOk(s');
  }

  lemma NewPlaceKeepsSlots(s: State, s': State, id: SessionId)
    requires SlotsOk(s) && id !in s.place
    requires forall v, i, x :: InSlot(s'.workers, v, i, x) == InSlot(s.workers, v, i, x)
    requires id in s'.place && !s'.place[id].Slot? && s'.place == s.place[id := s'.place[id]]
    ensures SlotsOk(s')
  {
  }

  lemma SpawnLocated(s: State, s': State, w: WorkerId, id: SessionId)
    requires Located(s) && Busy(s, w) && s.workers[w].phase.Running? && s.workers[w].phase.unsent.None?
    requires id !in s.table && s'.table.Keys == s.table.Keys + {id} && s'.history.Keys == s.history.Keys + {id}
    requires s'.unsent == s.unsent && s'.queue == s.queue && s'.place == s.place[id := Submitting(w)]
    requires s'.workers == s.workers[w := s.workers[w].(phase := s.workers[w].phase.(unsent := Some(id)))]
    ensures Located(s')
  {
    assert forall v, i, x :: InSlot(s'.workers, v, i, x) == InSlot(s.workers, v, i, x);
    NewPlaceKeepsSlots(s, s', id);
    SpawnHands(s, s', w, id);
    assert PlacesOk(s');
  }

  lemma SpawnHands(s: State, s': State, w: WorkerId, id: SessionId)
    requires HandsOk(s) && w in s.workers && s.workers[w].phase.Running? && s.workers[w].phase.unsent.None?
    requires id !in s.place && s'.place == s.place[id := Submitting(w)]
    requires s'.workers == s.workers[w := s.workers[w].(phase := s.workers[w].phase.(unsent := Some(id)))]
    ensures HandsOk(s')
  {
    assert forall v, x :: InHand(s'.workers, v, x) <==> InHand(s.workers, v, x) || (v == w && x == id);
  }

  lemma SendLocated(s: State, id: SessionId)
    requires Located(s) && id in s.unsent
    ensures Located(OnSend(s, id))
  {
  }

  lemma SendSpawnedLocated(s: State, w: WorkerId)
    requires Located(s) && CanSendSpawned(s, w)
    ensures Located(OnSendSpawned(s, w))
  {
    var s' := OnSendSpawned(s, w);
    assert InHand(s.workers, w, s.workers[w].phase.unsent.value);
    assert forall v, i, x :: InSlot(s'.workers, v, i, x) == InSlot(s.workers, v, i, x);
    assert forall v, x :: InHand(s'.workers, v, x) <==> InHand(s.workers, v, x) && v != w;
  }

  lemma CountedTwice(ids: seq<SessionId>, i: nat, j: nat)
    requires i < j < |ids| && ids[i] == ids[j]
    ensures multiset(ids)[ids[i]] >= 2
  {
    assert ids == ids[..j] + ids[j..];
    assert ids[i] == ids[..j][i] && ids[j] == ids[j..][0];
    assert ids[i] in multiset(ids[..j]) && ids[i] in multiset(ids[j..]);
  }

  /** A fetched batch holds queued sessions, each once. */
  lemma FetchedOnce(s: State, batch: seq<SessionId>)
    requires PlacesOk(s) && multiset(batch) <= s.queue
    ensures Distinct(batch)
    ensures forall id :: id in batch ==> id in s.place && s.place[id] == Queued
    ensures forall id :: id in s.queue - multiset(batch) ==> id in s.queue && id !in batch
  {
    forall id | id in batch
      ensures multiset(batch)[id] == s.queue[id] == 1 && id in s.place && s.place[id] == Queued
    {
      assert 1 <= multiset(batch)[id] <= s.queue[id];
    }
    forall i, j | 0 <= i < j < |batch|
      ensures batch[i] != batch[j]
    {
      assert batch[i] in batch;
      if batch[i] == batch[j] {
        CountedTwice(batch, i, j);
      }
    }
  }

  lemma FetchSlots(s: State, s': State, w: WorkerId, batch: seq<SessionId>)
    requires SlotsOk(s) && w in s.workers && s.workers[w].batch == [] && s'.workers == OnFetch(s, w, batch).workers
    requires Distinct(batch) && forall id :: id in batch ==> id in s.place && s.place[id] == Queued
    requires s'.place == OnFetch(s, w, batch).place
    ensures SlotsOk(s')
  {
    forall v, i: nat, id
      ensures InSlot(s'.workers, v, i, id) <==>
        (if v == w then i < |batch| && batch[i] == id else InSlot(s.workers, v, i, id))
    {
    }
  }

  lemma FetchPlaces(s: State, s': State, w: WorkerId, batch: seq<SessionId>)
    requires PlacesOk(s) && w in s.workers && multiset(batch) <= s.queue
    requires s'.table == s.table && s'.history == s.history && s'.unsent == s.unsent
    requires s'.queue == s.queue - multiset(batch) && s'.place == OnFetch(s, w, batch).place
    ensures PlacesOk(s')
  {
    FetchedOnce(s, batch);
    forall id | id in s'.place && s'.place[id] == Queued
      ensures s'.queue[id] == 1
    {
      assert id !in batch && multiset(batch)[id] == 0;
    }
  }

  lemma FetchHands(s: State, s': State, w: WorkerId, batch: seq<SessionId>)
    requires HandsOk(s) && w in s.workers && s.workers[w].phase.Idle? && s'.workers == OnFetch(s, w, batch).workers
    requires forall id :: id in batch ==> id in s.place && s.place[id] == Queued
    requires s'.place == OnFetch(s, w, batch).place
    ensures HandsOk(s')
  {
    assert forall v, id :: InHand(s'.workers, v, id) == InHand(s.workers, v, id);
  }

  lemma FetchLocated(s: State, s': State, w: WorkerId, batch: seq<SessionId>)
    requires Located(s) && w in s.workers && s.workers[w].phase.Idle? && !s.workers[w].stopped
    requires 0 < |batch| && multiset(batch) <= s.queue && s' == OnFetch(s, w, batch)
    ensures Located(s')
  {
    FetchedOnce(s, batch);
    FetchSlots(s, s', w, batch);
    FetchPlaces(s, s', w, batch);
    FetchHands(s, s', w, batch);
  }

  /** The worker moves on from its current session, which is done. */
  lemma AdvanceLocated(s: State, s': State, w: WorkerId)
    requires Located(s) && Busy(s, w) && !s.workers[w].phase.Running?
    requires s'.table.Keys == s.table.Keys && s'.history.Keys == s.history.Keys
    requires s'.unsent == s.unsent && s'.queue == s.queue
    requires s'.workers == Advance(s, w).workers && s'.place == Advance(s, w).place
    ensures Located(s')
  {
    AdvanceSlots(s, s', w);
    assert s'.workers == s.workers[w := Next(s.workers[w])] && s'.place == s.place[Current(s, w) := Done];
    AdvanceHands(s, s', w);
    AdvancePlaces(s, s', Current(s, w));
    assert WorkersOk(s');
  }

  lemma AdvanceHands(s: State, s': State, w: WorkerId)
    requires HandsOk(s) && Busy(s, w) && !s.workers[w].phase.Running? && Current(s, w) in s.place
    requires s'.workers == s.workers[w := Next(s.workers[w])] && s'.place == s.place[Current(s, w) := Done]
    requires s.place[Current(s, w)].Slot?
    ensures HandsOk(s')
  {
    assert forall v, id :: InHand(s'.workers, v, id) == InHand(s.workers, v, id);
  }

  lemma AdvancePlaces(s: State, s': State, id: SessionId)
    requires PlacesOk(s) && id in s.place && s.place[id].Slot? && s'.place == s.place[id := Done]
    requires s'.table.Keys == s.table.Keys && s'.history.Keys == s.history.Keys
    requires s'.unsent == s.unsent && s'.queue == s.queue
    ensures PlacesOk(s')
  {
  }

  lemma AdvanceSlots(s: State, s': State, w: WorkerId)
    requires SlotsOk(s) && Busy(s, w)
    requires s'.workers == Advance(s, w).workers && s'.place == Advance(s, w).place
    ensures SlotsOk(s') && Current(s, w) in s.place && s.place[Current(s, w)].Slot?
  {
    assert InSlot(s.workers, w, s.workers[w].pos, Current(s, w));
    assert forall v, i, id :: InSlot(s'.workers, v, i, id) <==>
      InSlot(s.workers, v, i, id) && !(v == w && i == s.workers[w].pos);
  }

  lemma StopLocated(s: State, w: WorkerId)
    requires Located(s) && w in s.workers
    ensures Located(OnStop(s, w))
  {
    var s' := OnStop(s, w);
    assert forall v, i, id :: InSlot(s'.workers, v, i, id) <==> InSlot(s.workers, v, i, id) && v != w;
    assert forall v, id :: InHand(s'.workers, v, id) <==> InHand(s.workers, v, id) && v != w;
  }

  /** The session a worker handles is in the table: the skip branch of `processSession` is never taken. */
  lemma CurrentIsStored(c: Config, s: State, w: WorkerId)
    requires Inv(c, s) && Busy(s, w)
    ensures Current(s, w) in s.table && s.place[Current(s, w)] == Slot(w, s.workers[w].pos)
    ensures StoredOk(c, s, Current(s, w)) && PhaseOk(c, s, Current(s, w), s.workers[w].phase)
  {
    assert InSlot(s.workers, w, s.workers[w].pos, Current(s, w));
  }

  // ----- what is stored, step by step -----

  /** Rows are never removed and their request columns never change. */
  ghost predicate Grows(a: Table, b: Table) {
    forall id :: id in a ==> id in b && b[id].request == a[id].request
  }

  lemma ChildrenGrow(c: Config, s: State, s': State, id: SessionId)
    requires id in s.table && id in s'.table && s'.table[id] == s.table[id]
    requires Grows(s.table, s'.table) && SpawnedBy(s', id) == SpawnedBy(s, id) && ChildrenOk(c, s, id)
    ensures ChildrenOk(c, s', id)
  {
  }

  lemma PhaseGrows(c: Config, s: State, s': State, id: SessionId, phase: Phase)
    requires id in s.table && id in s'.table && s'.table[id] == s.table[id]
    requires Grows(s.table, s'.table) && SpawnedBy(s', id) == SpawnedBy(s, id)
    ensures PhaseOk(c, s, id, phase) ==> PhaseOk(c, s', id, phase)
    ensures Decided(c, s, id) ==> Decided(c, s', id)
  {
  }

  /** Nothing about session `id` changed between the two states. */
  ghost predicate Undisturbed(s: State, s': State, id: SessionId) {
    && id in s.table && id in s'.table && s'.table[id] == s.table[id]
    && id in s.history && id in s'.history && s'.history[id] == s.history[id]
    && s'.calls[id] == s.calls[id] && SpawnedBy(s', id) == SpawnedBy(s, id)
    && id in s.place && id in s'.place && s'.place[id] == s.place[id]
    && (s.place[id].Slot? && s.place[id].worker in s.workers ==>
        var w := s.place[id].worker;
        && w in s'.workers && s'.workers[w].pos == s.workers[w].pos
        && (s.place[id].index == s.workers[w].pos ==> s'.workers[w].phase == s.workers[w].phase))
  }

  lemma OneKept(c: Config, s: State, s': State, id: SessionId)
    requires Grows(s.table, s'.table) && Undisturbed(s, s', id) && StoredOk(c, s, id)
    ensures StoredOk(c, s', id)
  {
    ChildrenGrow(c, s, s', id);
    if s.place[id].Slot? && s.place[id].index == s.workers[s.place[id].worker].pos {
      PhaseGrows(c, s, s', id, s.workers[s.place[id].worker].phase);
    } else if s.place[id].Done? {
      PhaseGrows(c, s, s', id, Idle);
    }
  }

  ghost predicate AllStored(c: Config, s: State) {
    s.place.Keys == s.table.Keys == s.history.Keys &&
    forall id {:trigger StoredOk(c, s, id)} :: id in s.table ==> StoredOk(c, s, id)
  }

  lemma OthersKept(c: Config, s: State, s': State, except: set<SessionId>)
    requires AllStored(c, s) && Grows(s.table, s'.table)
    requires s'.place.Keys == s'.table.Keys == s'.history.Keys
    requires forall id :: id in s.table && id !in except ==> Undisturbed(s, s', id)
    ensures forall id {:trigger StoredOk(c, s', id)} :: id in s.table && id !in except ==> StoredOk(c, s', id)
  {
    forall id | id in s.table && id !in except
      ensures StoredOk(c, s', id)
    {
      assert StoredOk(c, s, id);
      OneKept(c, s, s', id);
    }
  }

  /** The step from `s` to `s'` changes something about the sessions in `moved` only. */
  ghost predicate Frame(s: State, s': State, moved: set<SessionId>) {
    && Grows(s.table, s'.table)
    && s'.place.Keys == s'.table.Keys == s'.history.Keys
    && s'.table.Keys <= s.table.Keys + moved
    && forall id :: id in s.table && id !in moved ==> Undisturbed(s, s', id)
  }

  /** If nothing changed about the sessions outside `moved`, only those have to be looked at. */
  lemma Assemble(c: Config, s: State, s': State, moved: set<SessionId>)
    requires AllStored(c, s) && Frame(s, s', moved)
    requires forall id :: id in moved ==> id in s'.table && StoredOk(c, s', id)
    ensures AllStored(c, s')
  {
    OthersKept(c, s, s', moved);
    forall id | id in s'.table
      ensures StoredOk(c, s', id)
    {
      if id !in moved {
        assert id in s.table;
      }
    }
  }

  // Which sessions a step changes something about.

  lemma SubmitFrame(s: State, id: SessionId, input: SubmitInput)
    requires s.place.Keys == s.table.Keys == s.history.Keys && id !in s.table
    ensures Frame(s, OnSubmit(s, id, input), {id})
  {
  }

  lemma SendFrame(s: State, id: SessionId)
    requires s.place.Keys == s.table.Keys == s.history.Keys && id in s.table
    ensures Frame(s, OnSend(s, id), {id})
  {
  }

  lemma FetchFrame(s: State, s': State, w: WorkerId, batch: seq<SessionId>, moved: set<SessionId>)
    requires Located(s) && w in s.workers && s.workers[w].phase.Idle? && s' == OnFetch(s, w, batch)
    requires moved == set x | x in batch
    ensures Frame(s, s', moved)
  {
    forall x | x in s.table && x !in moved ensures Undisturbed(s, s', x) {
      if s.place[x].Slot? {
        assert InSlot(s.workers, s.place[x].worker, s.place[x].index, x);
      }
    }
  }

  ghost function HeldSet(s: State, w: WorkerId): set<SessionId> {
    set x | x in s.place && HeldBy(s.place[x], w)
  }

  lemma StopFrame(s: State, w: WorkerId)
    requires s.place.Keys == s.table.Keys == s.history.Keys && w in s.workers
    ensures Frame(s, OnStop(s, w), HeldSet(s, w))
  {
  }

  /** What a step of worker `w` on its current session may assume. */
  ghost predicate Working(c: Config, s: State, w: WorkerId) {
    && Busy(s, w)
    && Current(s, w) in s.table && Current(s, w) in s.place && Current(s, w) in s.history
    && s.place[Current(s, w)] == Slot(w, s.workers[w].pos)
    && StoredOk(c, s, Current(s, w)) && PhaseOk(c, s, Current(s, w), s.workers[w].phase)
  }

  /** Worker `w` is at its current session, the only one whose slot index is its position. */
  ghost predicate AtWork(s: State, w: WorkerId) {
    && Busy(s, w)
    && s.place.Keys == s.table.Keys == s.history.Keys
    && Current(s, w) in s.table && s.place[Current(s, w)] == Slot(w, s.workers[w].pos)
    && forall x :: x in s.place && s.place[x] == Slot(w, s.workers[w].pos) ==> x == Current(s, w)
  }

  lemma IsAtWork(c: Config, s: State, w: WorkerId)
    requires Inv(c, s) && Busy(s, w)
    ensures AtWork(s, w) && Working(c, s, w)
  {
    CurrentIsStored(c, s, w);
    forall x | x in s.place && s.place[x] == Slot(w, s.workers[w].pos) ensures x == Current(s, w) {
      assert InSlot(s.workers, w, s.workers[w].pos, x);
    }
  }

  /** A step that moves worker `w` to another phase and writes about its current session only. */
  lemma PhaseFrame(s: State, s': State, w: WorkerId)
    requires AtWork(s, w) && w in s'.workers
    requires s'.workers == s.workers[w := s'.workers[w]] && s'.workers[w].pos == s.workers[w].pos
    requires s'.place == s.place && Grows(s.table, s'.table)
    requires s'.table.Keys == s.table.Keys && s'.history.Keys == s.history.Keys
    requires forall x :: x in s.table && x != Current(s, w) ==>
      && s'.table[x] == s.table[x] && s'.history[x] == s.history[x]
      && s'.calls[x] == s.calls[x] && SpawnedBy(s', x) == SpawnedBy(s, x)
    ensures Frame(s, s', {Current(s, w)})
  {
  }

  lemma MarkDequeuedFrame(s: State, w: WorkerId)
    requires AtWork(s, w)
    ensures Frame(s, OnMarkDequeued(s, w), {Current(s, w)})
  {
    PhaseFrame(s, OnMarkDequeued(s, w), w);
  }

  lemma GetFrame(s: State, w: WorkerId)
    requires AtWork(s, w)
    ensures Frame(s, OnGet(s, w), {Current(s, w)})
  {
    PhaseFrame(s, OnGet(s, w), w);
  }

  lemma MarkInProgressFrame(c: Config, s: State, w: WorkerId)
    requires AtWork(s, w) && s.workers[w].phase.AtStart?
    ensures Frame(s, OnMarkInProgress(c, s, w), {Current(s, w)})
  {
    PhaseFrame(s, OnMarkInProgress(c, s, w), w);
  }

  lemma SpawnFrame(c: Config, s: State, w: WorkerId, id: SessionId)
    requires AtWork(s, w) && CanSpawn(c, s, w, id)
    ensures Frame(s, OnSpawn(c, s, w, id), {Current(s, w), id})
  {
    var s' := OnSpawn(c, s, w, id);
    assert s'.workers == s.workers[w := s'.workers[w]] && s'.workers[w].pos == s.workers[w].pos;
    assert s'.place == s.place[id := Submitting(w)];
    NewPhaseFrame(s, s', w, id);
  }

  /** The same for a step that also makes a new session. */
  lemma NewPhaseFrame(s: State, s': State, w: WorkerId, id: SessionId)
    requires AtWork(s, w) && w in s'.workers && id !in s.table
    requires s'.workers == s.workers[w := s'.workers[w]] && s'.workers[w].pos == s.workers[w].pos
    requires s'.place == s.place[id := Submitting(w)] && Grows(s.table, s'.table)
    requires s'.table.Keys == s.table.Keys + {id} && s'.history.Keys == s.history.Keys + {id}
    requires forall x :: x in s.table && x != Current(s, w) ==>
      && s'.table[x] == s.table[x] && s'.history[x] == s.history[x]
      && s'.calls[x] == s.calls[x] && SpawnedBy(s', x) == SpawnedBy(s, x)
    ensures Frame(s, s', {Current(s, w), id})
  {
  }

  lemma SendSpawnedFrame(s: State, w: WorkerId)
    requires AtWork(s, w) && CanSendSpawned(s, w) && s.workers[w].phase.unsent.value in s.table
    ensures Frame(s, OnSendSpawned(s, w), {Current(s, w), s.workers[w].phase.unsent.value})
  {
  }

  lemma HandlerEndsFrame(c: Config, s: State, w: WorkerId)
    requires AtWork(s, w) && CanEnd(c, s, w)
    ensures Frame(s, OnHandlerEnds(c, s, w), {Current(s, w)})
  {
    PhaseFrame(s, OnHandlerEnds(c, s, w), w);
  }

  ghost function BatchOf(s: State, w: WorkerId): set<SessionId> {
    set x | x in s.place && s.place[x].Slot? && s.place[x].worker == w
  }

  lemma FinishFrame(s: State, w: WorkerId)
    requires AtWork(s, w) && s.workers[w].phase.AtFinish?
    ensures Frame(s, OnFinish(s, w), BatchOf(s, w))
  {
  }

  // What each step stores about the sessions it changes.

  lemma SubmitStored(c: Config, s: State, id: SessionId, input: SubmitInput)
    requires AllStored(c, s) && id !in s.table && id !in s.calls && id !in s.spawned
    ensures AllStored(c, OnSubmit(s, id, input))
  {
    SubmitFrame(s, id, input);
    Assemble(c, s, OnSubmit(s, id, input), {id});
  }

  lemma SendStored(c: Config, s: State, id: SessionId)
    requires AllStored(c, s) && id in s.place && s.place[id].Unsent?
    ensures AllStored(c, OnSend(s, id))
  {
    assert StoredOk(c, s, id);
    SendFrame(s, id);
    Assemble(c, s, OnSend(s, id), {id});
  }

  lemma FetchActs(c: Config, s: State, s': State, w: WorkerId, batch: seq<SessionId>, id: SessionId)
    requires w in s.workers && s' == OnFetch(s, w, batch) && id in batch
    requires id in s.table && id in s.place && id in s.history && s.place[id].Queued? && StoredOk(c, s, id)
    ensures StoredOk(c, s', id)
  {
  }

  lemma FetchStored(c: Config, s: State, s': State, w: WorkerId, batch: seq<SessionId>)
    requires AllStored(c, s) && w in s.workers && s' == OnFetch(s, w, batch)
    requires forall x :: x in batch ==> x in s.place && s.place[x].Queued?
    requires Frame(s, s', set x | x in batch)
    ensures AllStored(c, s')
  {
    var moved := set x | x in batch;
    forall x | x in moved ensures x in s'.table && StoredOk(c, s', x) {
      assert StoredOk(c, s, x);
      FetchActs(c, s, s', w, batch, x);
    }
    Assemble(c, s, s', moved);
  }

  lemma StopStored(c: Config, s: State, w: WorkerId)
    requires AllStored(c, s) && w in s.workers
    requires forall x :: x in s.place && s.place[x] == Slot(w, s.workers[w].pos) ==> !s.workers[w].phase.Idle?
    ensures AllStored(c, OnStop(s, w))
  {
    var s' := OnStop(s, w);
    forall x | x in HeldSet(s, w) ensures x in s'.table && StoredOk(c, s', x) {
      assert StoredOk(c, s, x);
    }
    StopFrame(s, w);
    Assemble(c, s, s', HeldSet(s, w));
  }

  lemma MarkDequeuedActs(c: Config, s: State, w: WorkerId)
    requires Working(c, s, w) && s.workers[w].phase.AtDequeue?
    ensures StoredOk(c, OnMarkDequeued(s, w), Current(s, w))
  {
  }

  lemma MarkDequeuedStored(c: Config, s: State, w: WorkerId)
    requires AllStored(c, s) && AtWork(s, w) && Working(c, s, w) && s.workers[w].phase.AtDequeue?
    ensures AllStored(c, OnMarkDequeued(s, w))
  {
    MarkDequeuedActs(c, s, w);
    MarkDequeuedFrame(s, w);
    Assemble(c, s, OnMarkDequeued(s, w), {Current(s, w)});
  }

  lemma GetActs(c: Config, s: State, w: WorkerId)
    requires Working(c, s, w) && s.workers[w].phase.AtGet?
    ensures StoredOk(c, OnGet(s, w), Current(s, w))
  {
  }

  lemma GetStored(c: Config, s: State, w: WorkerId)
    requires AllStored(c, s) && AtWork(s, w) && Working(c, s, w) && s.workers[w].phase.AtGet?
    ensures AllStored(c, OnGet(s, w))
  {
    GetActs(c, s, w);
    GetFrame(s, w);
    Assemble(c, s, OnGet(s, w), {Current(s, w)});
  }

  lemma MarkInProgressActs(c: Config, s: State, w: WorkerId)
    requires Working(c, s, w) && s.workers[w].phase.AtStart?
    ensures StoredOk(c, OnMarkInProgress(c, s, w), Current(s, w))
  {
  }

  lemma MarkInProgressStored(c: Config, s: State, w: WorkerId)
    requires AllStored(c, s) && AtWork(s, w) && Working(c, s, w) && s.workers[w].phase.AtStart?
    ensures AllStored(c, OnMarkInProgress(c, s, w))
  {
    MarkInProgressActs(c, s, w);
    MarkInProgressFrame(c, s, w);
    Assemble(c, s, OnMarkInProgress(c, s, w), {Current(s, w)});
  }

  lemma SpawnActs(c: Config, s: State, w: WorkerId, id: SessionId)
    requires Working(c, s, w) && CanSpawn(c, s, w, id) && id !in s.calls && id !in s.spawned
    ensures StoredOk(c, OnSpawn(c, s, w, id), Current(s, w)) && StoredOk(c, OnSpawn(c, s, w, id), id)
  {
    var s', parent, phase := OnSpawn(c, s, w, id), Current(s, w), s.workers[w].phase;
    SpawnsNext(s, w);
    assert s'.table == Create(s.table, id, RequestOf(Submits(c, s, w)[|phase.children|]));
    NextChild(c, s.table, s'.table, parent, phase.request, phase.children, id);
  }

  lemma SpawnsNext(s: State, w: WorkerId)
    requires Busy(s, w) && s.workers[w].phase.Running? && s.workers[w].phase.unsent.None?
    ensures s.workers[w].phase.children + [] == s.workers[w].phase.children
  {
  }

  lemma NextChild(c: Config, table: Table, table': Table, parent: SessionId, request: Request,
                  children: seq<SessionId>, id: SessionId)
    requires Lineage(c, table, parent, request, children) && |children| < |Invoke(c.handlers, parent, request).submits|
    requires id !in table
    requires table' == Create(table, id, RequestOf(Invoke(c.handlers, parent, request).submits[|children|]))
    ensures Lineage(c, table', parent, request, children + [id])
  {
  }

  lemma SpawnStored(c: Config, s: State, w: WorkerId, id: SessionId)
    requires AllStored(c, s) && AtWork(s, w) && Working(c, s, w) && CanSpawn(c, s, w, id)
    requires id !in s.calls && id !in s.spawned
    ensures AllStored(c, OnSpawn(c, s, w, id))
  {
    SpawnActs(c, s, w, id);
    SpawnFrame(c, s, w, id);
    Assemble(c, s, OnSpawn(c, s, w, id), {Current(s, w), id});
  }

  lemma SendSpawnedActs(c: Config, s: State, w: WorkerId, id: SessionId)
    requires Working(c, s, w) && CanSendSpawned(s, w) && id == s.workers[w].phase.unsent.value
    requires id in s.place && id in s.table && id in s.history && s.place[id] == Submitting(w) && StoredOk(c, s, id)
    ensures StoredOk(c, OnSendSpawned(s, w), Current(s, w)) && StoredOk(c, OnSendSpawned(s, w), id)
  {
  }

  lemma SendSpawnedStored(c: Config, s: State, w: WorkerId, id: SessionId)
    requires AllStored(c, s) && AtWork(s, w) && Working(c, s, w) && CanSendSpawned(s, w)
    requires id == s.workers[w].phase.unsent.value && id in s.place && s.place[id] == Submitting(w)
    ensures AllStored(c, OnSendSpawned(s, w))
  {
    assert StoredOk(c, s, id);
    SendSpawnedActs(c, s, w, id);
    SendSpawnedFrame(s, w);
    Assemble(c, s, OnSendSpawned(s, w), {Current(s, w), id});
  }

  lemma HandlerEndsActs(c: Config, s: State, w: WorkerId)
    requires Working(c, s, w) && CanEnd(c, s, w)
    ensures StoredOk(c, OnHandlerEnds(c, s, w), Current(s, w))
  {
    SpawnsNext(s, w);
  }

  lemma HandlerEndsStored(c: Config, s: State, w: WorkerId)
    requires AllStored(c, s) && AtWork(s, w) && Working(c, s, w) && CanEnd(c, s, w)
    ensures AllStored(c, OnHandlerEnds(c, s, w))
  {
    HandlerEndsActs(c, s, w);
    HandlerEndsFrame(c, s, w);
    Assemble(c, s, OnHandlerEnds(c, s, w), {Current(s, w)});
  }

  lemma FinishActs(c: Config, s: State, w: WorkerId)
    requires Working(c, s, w) && s.workers[w].phase.AtFinish?
    ensures StoredOk(c, OnFinish(s, w), Current(s, w))
  {
  }

  /** The next session of the batch was waiting and is now up. */
  lemma FinishWaiting(c: Config, s: State, w: WorkerId, x: SessionId)
    requires Working(c, s, w) && s.workers[w].phase.AtFinish?
    requires x != Current(s, w) && x in s.table && x in s.place && x in s.history && StoredOk(c, s, x)
    requires s.place[x].Slot? && s.place[x].worker == w && InSlot(s.workers, w, s.place[x].index, x)
    ensures StoredOk(c, OnFinish(s, w), x)
  {
  }

  lemma FinishStored(c: Config, s: State, w: WorkerId)
    requires AllStored(c, s) && SlotsOk(s) && AtWork(s, w) && Working(c, s, w) && s.workers[w].phase.AtFinish?
    ensures AllStored(c, OnFinish(s, w))
  {
    var s', id := OnFinish(s, w), Current(s, w);
    FinishActs(c, s, w);
    forall x | x in BatchOf(s, w) && x != id ensures StoredOk(c, s', x) {
      assert StoredOk(c, s, x);
      FinishWaiting(c, s, w, x);
    }
    FinishFrame(s, w);
    Assemble(c, s, s', BatchOf(s, w));
  }

  // ----- families -----

  lemma FamiliesKept(s: State, s': State)
    requires FamiliesOk(s) && s'.spawned == s.spawned && s.table.Keys <= s'.table.Keys
    ensures FamiliesOk(s')
  {
    assert Open(0);
    assert forall p, i, id :: ChildAt(s', p, i, id) == ChildAt(s, p, i, id);
  }

  lemma ChildIsStored(c: Config, s: State, p: SessionId, i: int, id: SessionId)
    requires AllStored(c, s) && FamiliesOk(s) && ChildAt(s, p, i, id)
    ensures p in s.table && id in s.table && Started(s.table[p].status)
  {
    assert Open(0);
    assert p in s.spawned;
    assert StoredOk(c, s, p);
  }

  /** A handler creates a session that nobody has created before. */
  lemma SpawnFamilies(c: Config, s: State, w: WorkerId, id: SessionId)
    requires AllStored(c, s) && FamiliesOk(s) && CanSpawn(c, s, w, id) && Current(s, w) in s.table
    ensures FamiliesOk(OnSpawn(c, s, w, id))
  {
    var s', parent := OnSpawn(c, s, w, id), Current(s, w);
    assert Open(0);
    forall p, i, x ensures ChildAt(s', p, i, x) <==>
      ChildAt(s, p, i, x) || (p == parent && i == |SpawnedBy(s, parent)| && x == id)
    {
      assert p != parent ==> SpawnedBy(s', p) == SpawnedBy(s, p);
    }
    forall p, i | ChildAt(s, p, i, id) ensures false {
      ChildIsStored(c, s, p, i, id);
    }
  }
}
