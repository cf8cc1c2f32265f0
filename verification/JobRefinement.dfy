/** Concurrent workers refine an executor that runs one session at a time.

    The executor keeps a ledger of accepted jobs. Running a session is one atomic step of it: all the handler's
    submissions and its verdict, with nothing in between. A concurrent run is reordered into such a run by letting
    every session run where its worker marks it in progress. What it will submit and how it will end is read off the
    final state `f` of the concurrent run. */
module JobRefinement {
  import opened Common
  import opened JobModel
  import opened JobProtocol
  import opened JobInvariant
  import opened JobSafety

  // ----- the executor -----

  datatype Ledger = Ledger(
    jobs: map<SessionId, Request>, started: set<SessionId>, verdicts: map<SessionId, Verdict>)

  const EmptyLedger := Ledger(map[], {}, map[])

  datatype Action =
    | Accept(id: SessionId, request: Request)
    | Execute(id: SessionId, children: seq<SessionId>)
    | Interrupt(id: SessionId, children: seq<SessionId>) // the worker stops after these submissions

  /** What running a session submits, if nothing interrupts it. */
  function SubmitsOf(handlers: Handlers, id: SessionId, request: Request): seq<SubmitInput> {
    if request.subType in handlers then Invoke(handlers, id, request).submits else []
  }

  /** A session runs once, and every submission makes a new session. */
  ghost predicate CanRun(handlers: Handlers, ledger: Ledger, id: SessionId, children: seq<SessionId>) {
    && id in ledger.jobs && id !in ledger.started
    && |children| <= |SubmitsOf(handlers, id, ledger.jobs[id])|
    && Distinct(children) && forall child :: child in children ==> child !in ledger.jobs
  }

  ghost predicate CanAct(handlers: Handlers, ledger: Ledger, action: Action) {
    match action
    case Accept(id, _) => id !in ledger.jobs
    case Execute(id, children) =>
      CanRun(handlers, ledger, id, children) && |children| == |SubmitsOf(handlers, id, ledger.jobs[id])|
    case Interrupt(id, children) => CanRun(handlers, ledger, id, children)
  }

  /** The jobs with one more for each submission made. */
  function WithChildren(jobs: map<SessionId, Request>, children: seq<SessionId>, inputs: seq<SubmitInput>)
    : map<SessionId, Request>
    requires |children| <= |inputs|
  {
    map id | id in jobs.Keys + (set child | child in children) ::
      if id in children then RequestOf(inputs[IndexOf(children, id)]) else jobs[id]
  }

  ghost function Act(handlers: Handlers, ledger: Ledger, action: Action): Ledger
    requires CanAct(handlers, ledger, action)
  {
    match action
    case Accept(id, request) => ledger.(jobs := ledger.jobs[id := request])
    case Execute(id, children) =>
      var request := ledger.jobs[id];
      Ledger(WithChildren(ledger.jobs, children, SubmitsOf(handlers, id, request)), ledger.started + {id},
             ledger.verdicts[id := Judge(handlers, id, request, children)])
    case Interrupt(id, children) =>
      Ledger(WithChildren(ledger.jobs, children, SubmitsOf(handlers, id, ledger.jobs[id])), ledger.started + {id},
             ledger.verdicts)
  }

  ghost predicate CanActAll(handlers: Handlers, ledger: Ledger, actions: seq<Action>)
    decreases |actions|
  {
    actions == [] ||
    (CanAct(handlers, ledger, actions[0]) && CanActAll(handlers, Act(handlers, ledger, actions[0]), actions[1..]))
  }

  ghost function ActAll(handlers: Handlers, ledger: Ledger, actions: seq<Action>): Ledger
    requires CanActAll(handlers, ledger, actions)
    decreases |actions|
  {
    if actions == [] then ledger else ActAll(handlers, Act(handlers, ledger, actions[0]), actions[1..])
  }

  lemma {:induction false} ActAllConcat(handlers: Handlers, ledger: Ledger, a: seq<Action>, b: seq<Action>)
    requires CanActAll(handlers, ledger, a) && CanActAll(handlers, ActAll(handlers, ledger, a), b)
    ensures CanActAll(handlers, ledger, a + b)
    ensures ActAll(handlers, ledger, a + b) == ActAll(handlers, ActAll(handlers, ledger, a), b)
    decreases |a|
  {
    if a == [] {
      assert a + b == b;
    } else {
      assert (a + b)[0] == a[0] && (a + b)[1..] == a[1..] + b;
      ActAllConcat(handlers, Act(handlers, ledger, a[0]), a[1..], b);
    }
  }

  /** `actions` take the executor from one ledger to the other. */
  ghost predicate Leads(handlers: Handlers, ledger: Ledger, actions: seq<Action>, ledger': Ledger) {
    CanActAll(handlers, ledger, actions) && ActAll(handlers, ledger, actions) == ledger'
  }

  lemma OneAction(handlers: Handlers, ledger: Ledger, action: Action)
    requires CanAct(handlers, ledger, action)
    ensures Leads(handlers, ledger, [action], Act(handlers, ledger, action))
  {
    assert [action][1..] == [];
  }

  // ----- the session table as a ledger -----

  function VerdictOf(row: Session): Verdict {
    Verdict(row.status, if row.info.Some? then row.info.value else CompletedSuccessfully, row.result)
  }

  function View(table: Table): Ledger {
    Ledger(map id | id in table :: table[id].request,
           set id | id in table && Started(table[id].status),
           map id | id in table && Terminal(table[id].status) :: VerdictOf(table[id]))
  }

  // ----- a state and a later state of the same run -----

  ghost predicate RowsForeseen(s: State, f: State) {
    && Grows(s.table, f.table)
    && forall id :: id in s.table && Started(s.table[id].status) ==> Started(f.table[id].status)
  }

  /** What has been created stays so, and what exists and has no parent will get none. */
  ghost predicate ChildrenForeseen(s: State, f: State) {
    && (forall p, i, id :: ChildAt(s, p, i, id) ==> ChildAt(f, p, i, id))
    && (forall p, i, id :: ChildAt(f, p, i, id) && id in s.table ==> ChildAt(s, p, i, id))
  }

  ghost predicate Foresees(s: State, f: State) {
    forall key: nat {:trigger Open(key)} :: Open(key) ==> RowsForeseen(s, f) && ChildrenForeseen(s, f)
  }

  lemma ForeseesThrough(s: State, t: State, f: State)
    requires Foresees(s, t) && Foresees(t, f)
    ensures Foresees(s, f)
  {
    assert Open(0);
  }

  lemma StepForesees(c: Config, s: State, step: Step)
    requires Inv(c, s) && Enabled(c, s, step)
    ensures Foresees(s, Apply(c, s, step))
  {
    StepForeseesRows(c, s, step);
    if step.Spawn? {
      SpawnSpawns(c, s, step.w, step.id);
    } else {
      OthersKeepSpawned(c, s, step);
      SameChildren(s, Apply(c, s, step));
    }
  }

  lemma StepForeseesRows(c: Config, s: State, step: Step)
    requires Inv(c, s) && Enabled(c, s, step)
    ensures RowsForeseen(s, Apply(c, s, step))
  {
    var table, table' := s.table, Apply(c, s, step).table;
    forall id | id in table ensures RowForeseen(table, table', id) {
      StepForeseesRow(c, s, step, id);
    }
    RowsAreForeseen(s, Apply(c, s, step));
  }

  ghost predicate RowForeseen(a: Table, b: Table, id: SessionId)
    requires id in a
  {
    id in b && b[id].request == a[id].request && (Started(a[id].status) ==> Started(b[id].status))
  }

  lemma RowsAreForeseen(s: State, f: State)
    requires forall id :: id in s.table ==> RowForeseen(s.table, f.table, id)
    ensures RowsForeseen(s, f)
  {
  }

  lemma StepForeseesRow(c: Config, s: State, step: Step, id: SessionId)
    requires Inv(c, s) && Enabled(c, s, step) && id in s.table
    ensures RowForeseen(s.table, Apply(c, s, step).table, id)
  {
    StepIsolates(c, s, step, id);
    StatusOnlyAdvances(c, s, step, id);
  }

  /** A handler creates one session, and that one is new. */
  lemma SpawnSpawns(c: Config, s: State, w: WorkerId, id: SessionId)
    requires CanSpawn(c, s, w, id)
    ensures ChildAt(OnSpawn(c, s, w, id), Current(s, w), |SpawnedBy(s, Current(s, w))|, id)
    ensures ChildrenForeseen(s, OnSpawn(c, s, w, id))
  {
    var s', parent := OnSpawn(c, s, w, id), Current(s, w);
    assert SpawnedBy(s', parent) == SpawnedBy(s, parent) + [id];
    forall p, i, x ensures ChildAt(s', p, i, x) <==>
      ChildAt(s, p, i, x) || (p == parent && i == |SpawnedBy(s, parent)| && x == id)
    {
      assert p != parent ==> SpawnedBy(s', p) == SpawnedBy(s, p);
    }
  }

  lemma SameChildren(s: State, s': State)
    requires s'.spawned == s.spawned
    ensures ChildrenForeseen(s, s')
  {
    forall p, i, id ensures ChildAt(s', p, i, id) == ChildAt(s, p, i, id) {
    }
  }

  lemma OthersKeepSpawned(c: Config, s: State, step: Step)
    requires Enabled(c, s, step) && !step.Spawn?
    ensures Apply(c, s, step).spawned == s.spawned
  {
    match step
    case Submit(id, input) =>
    case Retry(source, id) =>
    case Send(id) =>
    case Fetch(w, batch) => FetchKeepsSpawned(s, w, batch);
    case Stop(w) => StopKeepsSpawned(s, w);
    case MarkDequeued(w) => ReadingKeepsSpawned(s, w);
    case Get(w) => ReadingKeepsSpawned(s, w);
    case MarkInProgress(w) => StartKeepsSpawned(c, s, w);
    case SendSpawned(w) => SendingKeepsSpawned(s, w);
    case HandlerEnds(w) => EndKeepsSpawned(c, s, w);
    case Finish(w) => FinishKeepsSpawned(s, w);
  }

  lemma FetchKeepsSpawned(s: State, w: WorkerId, batch: seq<SessionId>)
    requires w in s.workers
    ensures OnFetch(s, w, batch).spawned == s.spawned
  {
  }

  lemma StopKeepsSpawned(s: State, w: WorkerId)
    ensures OnStop(s, w).spawned == s.spawned
  {
  }

  lemma ReadingKeepsSpawned(s: State, w: WorkerId)
    requires Busy(s, w)
    ensures OnMarkDequeued(s, w).spawned == s.spawned && OnGet(s, w).spawned == s.spawned
  {
  }

  lemma StartKeepsSpawned(c: Config, s: State, w: WorkerId)
    requires Busy(s, w) && s.workers[w].phase.AtStart?
    ensures OnMarkInProgress(c, s, w).spawned == s.spawned
  {
  }

  lemma SendingKeepsSpawned(s: State, w: WorkerId)
    requires CanSendSpawned(s, w)
    ensures OnSendSpawned(s, w).spawned == s.spawned
  {
  }

  lemma EndKeepsSpawned(c: Config, s: State, w: WorkerId)
    requires CanEnd(c, s, w)
    ensures OnHandlerEnds(c, s, w).spawned == s.spawned
  {
  }

  lemma FinishKeepsSpawned(s: State, w: WorkerId)
    requires Busy(s, w) && s.workers[w].phase.AtFinish?
    ensures OnFinish(s, w).spawned == s.spawned
  {
  }

  lemma {:induction false} RunForesees(c: Config, s: State, run: seq<Step>)
    requires Inv(c, s) && ValidRun(c, s, run)
    ensures Foresees(s, After(c, s, run))
    decreases |run|
  {
    if run == [] {
      SameChildren(s, s);
    } else {
      var s' := Apply(c, s, run[0]);
      StepForesees(c, s, run[0]);
      StepKeepsInv(c, s, run[0]);
      RunForesees(c, s', run[1..]);
      ForeseesThrough(s, s', After(c, s', run[1..]));
    }
  }

  // ----- the executor's ledger beside the concurrent run -----

  /** `id` is stored, or a session marked in progress will have created it. */
  ghost predicate Known(s: State, f: State, id: SessionId) {
    id in s.table || exists p, i :: p in s.table && Started(s.table[p].status) && ChildAt(f, p, i, id)
  }

  /** Every session marked in progress has run to the end it has in `f`. */
  ghost function Foreseen(s: State, f: State): Ledger {
    Ledger(map id | id in f.table && Known(s, f, id) :: f.table[id].request,
           set id | id in s.table && Started(s.table[id].status),
           map id | id in s.table && id in f.table && Started(s.table[id].status) && Terminal(f.table[id].status) ::
             VerdictOf(f.table[id]))
  }

  /** The run of a session that has been marked in progress. */
  function RunOf(f: State, id: SessionId): Action
    requires id in f.table
  {
    if Terminal(f.table[id].status) then Execute(id, SpawnedBy(f, id)) else Interrupt(id, SpawnedBy(f, id))
  }

  /** The executor's side of a protocol step. */
  function Image(c: Config, s: State, step: Step, f: State): seq<Action>
    requires Enabled(c, s, step)
  {
    match step
    case Submit(id, input) => [Accept(id, RequestOf(input))]
    case Retry(source, id) => [Accept(id, s.table[source].request)]
    case MarkInProgress(w) => if Current(s, w) in f.table then [RunOf(f, Current(s, w))] else []
    case _ => []
  }

  ghost predicate SameStarted(a: Table, b: Table) {
    b.Keys == a.Keys && forall id :: id in a ==> (Started(b[id].status) <==> Started(a[id].status))
  }

  /** A step that leaves the keys of the table and the sessions in progress or beyond alone. */
  lemma QuietStep(handlers: Handlers, s: State, s': State, f: State)
    requires SameStarted(s.table, s'.table)
    ensures Leads(handlers, Foreseen(s, f), [], Foreseen(s', f))
  {
    forall id ensures Known(s', f, id) == Known(s, f, id) {
    }
    assert Foreseen(s', f) == Foreseen(s, f);
  }

  /** `s'` has one more row. */
  ghost predicate OneMoreRow(s: State, s': State, id: SessionId, request: Request) {
    id !in s.table && s'.table == Create(s.table, id, request)
  }

  lemma KnownWithOneMore(s: State, s': State, f: State, id: SessionId, request: Request, x: SessionId)
    requires OneMoreRow(s, s', id, request)
    ensures Known(s', f, x) <==> Known(s, f, x) || x == id
  {
    if p, i :| p in s'.table && Started(s'.table[p].status) && ChildAt(f, p, i, x) {
      assert p in s.table && Started(s.table[p].status);
    }
  }

  lemma SameRowsStarted(s: State, s': State, f: State, id: SessionId, request: Request)
    requires OneMoreRow(s, s', id, request)
    ensures Foreseen(s', f).started == Foreseen(s, f).started
    ensures Foreseen(s', f).verdicts == Foreseen(s, f).verdicts
  {
  }

  /** A session created by a handler is known since its parent was marked in progress. */
  lemma ChildIsNoNews(handlers: Handlers, s: State, s': State, f: State, parent: SessionId, i: int,
                      id: SessionId, request: Request)
    requires OneMoreRow(s, s', id, request)
    requires parent in s.table && Started(s.table[parent].status) && ChildAt(f, parent, i, id)
    ensures Leads(handlers, Foreseen(s, f), [], Foreseen(s', f))
  {
    forall x ensures Known(s', f, x) == Known(s, f, x) {
      KnownWithOneMore(s, s', f, id, request, x);
    }
    SameRowsStarted(s, s', f, id, request);
    assert Foreseen(s', f).jobs == Foreseen(s, f).jobs;
  }

  lemma SpawnQuiet(c: Config, s: State, f: State, w: WorkerId, id: SessionId)
    requires Inv(c, s) && CanSpawn(c, s, w, id) && Foresees(OnSpawn(c, s, w, id), f)
    ensures Leads(c.handlers, Foreseen(s, f), [], Foreseen(OnSpawn(c, s, w, id), f))
  {
    var s', parent, n := OnSpawn(c, s, w, id), Current(s, w), |s.workers[w].phase.children|;
    CurrentIsStored(c, s, w);
    SpawnSpawns(c, s, w, id);
    StillChild(s', f, parent, |SpawnedBy(s, parent)|, id);
    ChildIsNoNews(c.handlers, s, s', f, parent, |SpawnedBy(s, parent)|, id, RequestOf(Submits(c, s, w)[n]));
  }

  lemma StillChild(s: State, f: State, p: SessionId, i: int, id: SessionId)
    requires Foresees(s, f) && ChildAt(s, p, i, id)
    ensures ChildAt(f, p, i, id)
  {
    assert Open(0);
  }

  /** A submitter's session has no parent, now or later. */
  lemma SubmittedHasNoParent(c: Config, s: State, s': State, f: State, id: SessionId, request: Request)
    requires Inv(c, s) && OneMoreRow(s, s', id, request) && s'.spawned == s.spawned && Foresees(s', f)
    ensures forall p, i :: !ChildAt(f, p, i, id)
    ensures id in f.table && f.table[id].request == request
  {
    assert Open(0);
    forall p, i ensures !ChildAt(f, p, i, id) {
      if ChildAt(f, p, i, id) {
        assert ChildAt(s', p, i, id) && SpawnedBy(s', p) == SpawnedBy(s, p);
        ChildIsStored(c, s, p, i, id);
      }
    }
  }

  lemma AcceptLedger(s: State, s': State, f: State, id: SessionId, request: Request)
    requires OneMoreRow(s, s', id, request) && id in f.table && f.table[id].request == request
    requires forall p, i :: !ChildAt(f, p, i, id)
    ensures id !in Foreseen(s, f).jobs
    ensures Foreseen(s', f) == Foreseen(s, f).(jobs := Foreseen(s, f).jobs[id := request])
  {
    forall x ensures Known(s', f, x) <==> Known(s, f, x) || x == id {
      KnownWithOneMore(s, s', f, id, request, x);
    }
    SameRowsStarted(s, s', f, id, request);
    assert Foreseen(s', f).jobs == Foreseen(s, f).jobs[id := request];
  }

  lemma SubmitAccepts(c: Config, s: State, s': State, f: State, id: SessionId, request: Request)
    requires Inv(c, s) && OneMoreRow(s, s', id, request) && s'.spawned == s.spawned && Foresees(s', f)
    ensures Leads(c.handlers, Foreseen(s, f), [Accept(id, request)], Foreseen(s', f))
  {
    SubmittedHasNoParent(c, s, s', f, id, request);
    AcceptLedger(s, s', f, id, request);
    OneAction(c.handlers, Foreseen(s, f), Accept(id, request));
  }

  // ----- marking a session in progress runs it -----

  /** What the final state knows about a session that was marked in progress. */
  lemma RanInTheEnd(c: Config, f: State, id: SessionId)
    requires Inv(c, f) && id in f.table && Started(f.table[id].status)
    ensures var request := f.table[id].request; var inputs := SubmitsOf(c.handlers, id, request);
      && |SpawnedBy(f, id)| <= |inputs|
      && (forall k :: 0 <= k < |SpawnedBy(f, id)| ==>
            SpawnedBy(f, id)[k] in f.table && f.table[SpawnedBy(f, id)[k]].request == RequestOf(inputs[k]))
      && (Terminal(f.table[id].status) ==>
            && |SpawnedBy(f, id)| == |inputs|
            && VerdictOf(f.table[id]) == Judge(c.handlers, id, request, SpawnedBy(f, id)))
  {
    assert StoredOk(c, f, id);
    TerminalIsDecided(c, f, id);
  }

  lemma ChildrenAreDistinct(c: Config, f: State, id: SessionId)
    requires Inv(c, f)
    ensures Distinct(SpawnedBy(f, id))
  {
    assert Open(0);
    var children := SpawnedBy(f, id);
    forall i, j | 0 <= i < j < |children| ensures children[i] != children[j] {
      assert ChildAt(f, id, i, children[i]) && ChildAt(f, id, j, children[j]);
    }
  }

  /** None of the sessions it will create is known before. */
  lemma ChildrenAreNew(c: Config, s: State, f: State, id: SessionId, k: int, child: SessionId)
    requires Inv(c, s) && Inv(c, f) && Foresees(s, f) && id in s.table && !Started(s.table[id].status)
    requires ChildAt(f, id, k, child)
    ensures !Known(s, f, child)
  {
    assert StoredOk(c, s, id);
    OnlyParent(c, f, id, k, child);
    assert child !in s.table by {
      assert Open(0);
      assert !ChildAt(s, id, k, child);
    }
  }

  lemma OnlyParent(c: Config, f: State, p: SessionId, k: int, child: SessionId)
    requires Inv(c, f) && ChildAt(f, p, k, child)
    ensures forall q, i :: ChildAt(f, q, i, child) ==> q == p
  {
    assert Open(0);
  }

  /** Session `id` has been marked in progress, and no other. */
  ghost predicate Begins(s: State, s': State, id: SessionId) {
    && id in s.table && !Started(s.table[id].status) && s'.table.Keys == s.table.Keys
    && forall x :: x in s.table ==> (Started(s'.table[x].status) <==> Started(s.table[x].status) || x == id)
  }

  lemma KnownWhenRun(s: State, s': State, f: State, id: SessionId, x: SessionId)
    requires Begins(s, s', id)
    ensures Known(s', f, x) <==> Known(s, f, x) || x in SpawnedBy(f, id)
  {
    if x in SpawnedBy(f, id) {
      var i :| 0 <= i < |SpawnedBy(f, id)| && SpawnedBy(f, id)[i] == x;
      assert ChildAt(f, id, i, x);
    }
    if p, i :| p in s'.table && Started(s'.table[p].status) && ChildAt(f, p, i, x) {
      assert p == id || (p in s.table && Started(s.table[p].status));
    }
  }

  /** The inputs of a run, seen from the final state. */
  function InputsOf(c: Config, f: State, id: SessionId): seq<SubmitInput>
    requires id in f.table
  {
    SubmitsOf(c.handlers, id, f.table[id].request)
  }

  lemma RunIsPossible(c: Config, s: State, f: State, id: SessionId)
    requires Inv(c, s) && Inv(c, f) && Foresees(s, f)
    requires id in s.table && !Started(s.table[id].status) && id in f.table && Started(f.table[id].status)
    ensures CanAct(c.handlers, Foreseen(s, f), RunOf(f, id))
  {
    RanInTheEnd(c, f, id);
    ChildrenAreDistinct(c, f, id);
    forall child | child in SpawnedBy(f, id) ensures child !in Foreseen(s, f).jobs {
      var k :| 0 <= k < |SpawnedBy(f, id)| && SpawnedBy(f, id)[k] == child;
      ChildrenAreNew(c, s, f, id, k, child);
    }
    assert Known(s, f, id);
  }

  lemma JobsAfterRun(s: State, s': State, f: State, id: SessionId, inputs: seq<SubmitInput>)
    requires Begins(s, s', id) && |SpawnedBy(f, id)| <= |inputs|
    requires forall k :: 0 <= k < |SpawnedBy(f, id)| ==>
      SpawnedBy(f, id)[k] in f.table && f.table[SpawnedBy(f, id)[k]].request == RequestOf(inputs[k])
    ensures Foreseen(s', f).jobs == WithChildren(Foreseen(s, f).jobs, SpawnedBy(f, id), inputs)
  {
    var children := SpawnedBy(f, id);
    forall x ensures Known(s', f, x) <==> Known(s, f, x) || x in children {
      KnownWhenRun(s, s', f, id, x);
    }
    forall x | x in children ensures x in f.table && f.table[x].request == RequestOf(inputs[IndexOf(children, x)]) {
      assert children[IndexOf(children, x)] == x;
    }
  }

  lemma LedgerAfterRun(s: State, s': State, f: State, id: SessionId)
    requires Begins(s, s', id) && id in f.table
    ensures Foreseen(s', f).started == Foreseen(s, f).started + {id}
    ensures Foreseen(s', f).verdicts ==
      if Terminal(f.table[id].status) then Foreseen(s, f).verdicts[id := VerdictOf(f.table[id])]
      else Foreseen(s, f).verdicts
  {
  }

  lemma ProgressRuns(c: Config, s: State, s': State, f: State, id: SessionId)
    requires Inv(c, s) && Inv(c, f) && Foresees(s, f) && Foresees(s', f) && Begins(s, s', id)
    ensures id in f.table && Leads(c.handlers, Foreseen(s, f), [RunOf(f, id)], Foreseen(s', f))
  {
    assert id in f.table && Started(f.table[id].status) && f.table[id].request == s.table[id].request by {
      assert Open(0);
    }
    RunIsPossible(c, s, f, id);
    RanInTheEnd(c, f, id);
    JobsAfterRun(s, s', f, id, InputsOf(c, f, id));
    LedgerAfterRun(s, s', f, id);
    RunLedger(c.handlers, s, f, id);
    OneAction(c.handlers, Foreseen(s, f), RunOf(f, id));
  }

  /** What running a session does to the ledger, in terms of the final state. */
  lemma RunLedger(handlers: Handlers, s: State, f: State, id: SessionId)
    requires id in s.table && id in f.table && CanAct(handlers, Foreseen(s, f), RunOf(f, id))
    requires Terminal(f.table[id].status) ==>
      VerdictOf(f.table[id]) == Judge(handlers, id, f.table[id].request, SpawnedBy(f, id))
    ensures var ledger := Foreseen(s, f); var request := f.table[id].request;
      Act(handlers, ledger, RunOf(f, id)) == Ledger(
        WithChildren(ledger.jobs, SpawnedBy(f, id), SubmitsOf(handlers, id, request)),
        ledger.started + {id},
        if Terminal(f.table[id].status) then ledger.verdicts[id := VerdictOf(f.table[id])] else ledger.verdicts)
  {
  }

  // ----- whole runs -----

  lemma MarkInProgressRuns(c: Config, s: State, f: State, w: WorkerId)
    requires Inv(c, s) && Inv(c, f) && Busy(s, w) && s.workers[w].phase.AtStart?
    requires Foresees(s, f) && Foresees(OnMarkInProgress(c, s, w), f)
    ensures var id := Current(s, w);
      && id in f.table
      && Leads(c.handlers, Foreseen(s, f), [RunOf(f, id)], Foreseen(OnMarkInProgress(c, s, w), f))
  {
    InProgressBegins(c, s, w);
    ProgressRuns(c, s, OnMarkInProgress(c, s, w), f, Current(s, w));
  }

  lemma InProgressBegins(c: Config, s: State, w: WorkerId)
    requires Inv(c, s) && Busy(s, w) && s.workers[w].phase.AtStart?
    ensures Begins(s, OnMarkInProgress(c, s, w), Current(s, w))
  {
    CurrentIsStored(c, s, w);
    StartWritesTable(c, s, w);
  }

  lemma QuietTable(c: Config, s: State, step: Step)
    requires Inv(c, s) && Enabled(c, s, step)
    requires !step.Submit? && !step.Retry? && !step.Spawn? && !step.MarkInProgress?
    ensures SameStarted(s.table, Apply(c, s, step).table)
  {
    match step
    case MarkDequeued(w) => MarkDequeuedQuiet(c, s, w);
    case Finish(w) => FinishQuiet(c, s, w);
    case _ => SilentStep(c, s, step);
  }

  lemma MarkDequeuedQuiet(c: Config, s: State, w: WorkerId)
    requires Inv(c, s) && Busy(s, w) && s.workers[w].phase.AtDequeue?
    ensures SameStarted(s.table, OnMarkDequeued(s, w).table)
  {
    CurrentIsStored(c, s, w);
    DequeueWrites(s, w);
  }

  lemma FinishQuiet(c: Config, s: State, w: WorkerId)
    requires Inv(c, s) && Busy(s, w) && s.workers[w].phase.AtFinish?
    ensures SameStarted(s.table, OnFinish(s, w).table)
  {
    CurrentIsStored(c, s, w);
    assert OnFinish(s, w).table == Conclude(s.table, Current(s, w), s.workers[w].phase.verdict);
  }

  /** Each protocol step is no step or one step of the one-at-a-time executor. */
  lemma StepSimulates(c: Config, s: State, step: Step, f: State)
    requires Inv(c, s) && Enabled(c, s, step) && Inv(c, f)
    requires Foresees(s, f) && Foresees(Apply(c, s, step), f)
    ensures Leads(c.handlers, Foreseen(s, f), Image(c, s, step, f), Foreseen(Apply(c, s, step), f))
  {
    match step
    case Submit(id, input) => CreationAccepts(c, s, step, f);
    case Retry(source, id) => CreationAccepts(c, s, step, f);
    case Spawn(w, id) => SpawnQuiet(c, s, f, w, id);
    case MarkInProgress(w) => MarkInProgressRuns(c, s, f, w);
    case _ => QuietSimulates(c, s, step, f);
  }

  lemma CreationAccepts(c: Config, s: State, step: Step, f: State)
    requires Inv(c, s) && Enabled(c, s, step) && (step.Submit? || step.Retry?) && Foresees(Apply(c, s, step), f)
    ensures Leads(c.handlers, Foreseen(s, f), Image(c, s, step, f), Foreseen(Apply(c, s, step), f))
  {
    match step
    case Submit(id, input) => SubmitAccepts(c, s, Apply(c, s, step), f, id, RequestOf(input));
    case Retry(source, id) => SubmitAccepts(c, s, Apply(c, s, step), f, id, s.table[source].request);
  }

  lemma QuietSimulates(c: Config, s: State, step: Step, f: State)
    requires Inv(c, s) && Enabled(c, s, step)
    requires !step.Submit? && !step.Retry? && !step.Spawn? && !step.MarkInProgress?
    ensures Leads(c.handlers, Foreseen(s, f), Image(c, s, step, f), Foreseen(Apply(c, s, step), f))
  {
    QuietTable(c, s, step);
    QuietStep(c.handlers, s, Apply(c, s, step), f);
  }

  ghost function ImageOfRun(c: Config, s: State, run: seq<Step>, f: State): seq<Action>
    requires ValidRun(c, s, run)
    decreases |run|
  {
    if run == [] then [] else Image(c, s, run[0], f) + ImageOfRun(c, Apply(c, s, run[0]), run[1..], f)
  }

  /** Only sessions that are in progress in the end are interrupted. */
  ghost predicate InterruptsOnlyUnfinished(actions: seq<Action>, table: Table) {
    forall action :: action in actions && action.Interrupt? ==>
      action.id in table && table[action.id].status == IN_PROGRESS
  }

  lemma StepInterrupts(c: Config, s: State, step: Step, f: State)
    requires Inv(c, s) && Enabled(c, s, step) && Foresees(Apply(c, s, step), f)
    ensures InterruptsOnlyUnfinished(Image(c, s, step, f), f.table)
  {
    if step.MarkInProgress? {
      InProgressBegins(c, s, step.w);
      InterruptsOne(s, Apply(c, s, step), f, Current(s, step.w));
    }
  }

  lemma InterruptsOne(s: State, s': State, f: State, id: SessionId)
    requires Begins(s, s', id) && Foresees(s', f)
    ensures id in f.table && InterruptsOnlyUnfinished([RunOf(f, id)], f.table)
  {
    assert Open(0);
    assert Started(s'.table[id].status);
  }

  /** Every concurrent run has a one-at-a-time run of the same jobs with the same statuses, infos and results. */
  lemma {:induction false} RunRefines(c: Config, s: State, run: seq<Step>, f: State)
    requires Inv(c, s) && ValidRun(c, s, run) && f == After(c, s, run)
    ensures Leads(c.handlers, Foreseen(s, f), ImageOfRun(c, s, run, f), Foreseen(f, f))
    ensures InterruptsOnlyUnfinished(ImageOfRun(c, s, run, f), f.table)
    decreases |run|
  {
    if run != [] {
      var s' := Apply(c, s, run[0]);
      RunForesees(c, s, run);
      RunKeepsInv(c, s, run);
      StepKeepsInv(c, s, run[0]);
      RunForesees(c, s', run[1..]);
      StepSimulates(c, s, run[0], f);
      StepInterrupts(c, s, run[0], f);
      RunRefines(c, s', run[1..], f);
      ActAllConcat(c.handlers, Foreseen(s, f), Image(c, s, run[0], f), ImageOfRun(c, s', run[1..], f));
    }
  }

  lemma ForeseenInTheEnd(c: Config, f: State)
    requires Inv(c, f)
    ensures Foreseen(f, f) == View(f.table)
  {
    forall id ensures Known(f, f, id) <==> id in f.table {
      if p, i :| p in f.table && Started(f.table[p].status) && ChildAt(f, p, i, id) {
        ChildIsStored(c, f, p, i, id);
      }
    }
  }

  lemma NothingForeseen(workers: set<WorkerId>, f: State)
    ensures Foreseen(Init(workers), f) == EmptyLedger
  {
  }

  lemma LeadsFromTo(handlers: Handlers, a: Ledger, actions: seq<Action>, b: Ledger, a': Ledger, b': Ledger)
    requires Leads(handlers, a, actions, b) && a == a' && b == b'
    ensures Leads(handlers, a', actions, b')
  {
  }

  /** For every run from the start, however its workers interleave or stop, a one-at-a-time run reaches the same
      ledger. It interrupts only sessions left in progress; if there are none, every session that was started has
      been executed whole, its submissions and its verdict together. */
  lemma ConcurrentIsSequential(c: Config, workers: set<WorkerId>, run: seq<Step>)
    requires ValidRun(c, Init(workers), run)
    ensures var table := After(c, Init(workers), run).table;
      exists actions :: Leads(c.handlers, EmptyLedger, actions, View(table)) && InterruptsOnlyUnfinished(actions, table)
  {
    var s, f := Init(workers), After(c, Init(workers), run);
    InitEstablishes(c, workers);
    RunKeepsInv(c, s, run);
    RunRefines(c, s, run, f);
    ForeseenInTheEnd(c, f);
    NothingForeseen(workers, f);
    LeadsFromTo(c.handlers, Foreseen(s, f), ImageOfRun(c, s, run, f), Foreseen(f, f), EmptyLedger, View(f.table));
  }
}
