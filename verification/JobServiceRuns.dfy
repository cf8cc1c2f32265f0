/** A delivery worked through by `JobService.Service.WorkOnce` is one interleaving of the job protocol:
    the one in which the worker is never interrupted. */
module JobServiceRuns {
  import opened Common
  import opened JobModel
  import opened JobProtocol
  import opened JobInvariant
  import opened JobSafety
  import opened JobService

  // ----- reachability -----

  ghost predicate Leads(c: Config, s: State, run: seq<Step>, s': State) {
    ValidRun(c, s, run) && After(c, s, run) == s'
  }

  /** `s'` is the end of a run from the safe state `s`. */
  ghost predicate Reaches(c: Config, s: State, s': State) {
    forall key: nat {:trigger Open(key)} :: Open(key) ==>
      Inv(c, s) && exists run :: Leads(c, s, run, s')
  }

  lemma ReachesItself(c: Config, s: State)
    requires Inv(c, s)
    ensures Reaches(c, s, s)
  {
    assert Leads(c, s, [], s);
  }

  lemma ReachedIsSafe(c: Config, s: State, s': State)
    requires Reaches(c, s, s')
    ensures Inv(c, s')
  {
    assert Open(0);
    var run :| Leads(c, s, run, s');
    RunKeepsInv(c, s, run);
  }

  lemma ReachedReachesItself(c: Config, s: State, s': State)
    requires Reaches(c, s, s')
    ensures Reaches(c, s', s')
  {
    ReachedIsSafe(c, s, s');
    ReachesItself(c, s');
  }

  lemma LeadsOn(c: Config, s: State, run: seq<Step>, s': State, step: Step)
    requires Leads(c, s, run, s') && Enabled(c, s', step)
    ensures Leads(c, s, run + [step], Apply(c, s', step))
  {
    RunThenStep(c, s, run, step);
  }

  lemma ReachesOn(c: Config, s: State, s1: State, step: Step)
    requires Reaches(c, s, s1) && Enabled(c, s1, step)
    ensures Reaches(c, s, Apply(c, s1, step))
  {
    assert Open(0);
    var run :| Leads(c, s, run, s1);
    LeadsOn(c, s, run, s1, step);
  }

  lemma ReachedTerminal(c: Config, s: State, s': State, id: SessionId)
    requires Reaches(c, s, s') && id in s.table && Terminal(s.table[id].status)
    ensures id in s'.table && s'.table[id] == s.table[id]
  {
    assert Open(0);
    var run :| Leads(c, s, run, s');
    TerminalForever(c, s, run, id);
  }

  lemma {:induction false} LeadsConcat(c: Config, s0: State, a: seq<Step>, s: State, b: seq<Step>, s': State)
    requires Leads(c, s0, a, s) && Leads(c, s, b, s')
    ensures Leads(c, s0, a + b, s')
    decreases |a|
  {
    if a == [] {
      assert a + b == b;
    } else {
      LeadsConcat(c, Apply(c, s0, a[0]), a[1..], s, b, s');
      assert (a + b)[1..] == a[1..] + b;
    }
  }

  lemma ReachesThrough(c: Config, s0: State, s: State, s': State)
    requires Reaches(c, s0, s) && Reaches(c, s, s')
    ensures Reaches(c, s0, s')
  {
    assert Open(0);
    var a :| Leads(c, s0, a, s);
    var b :| Leads(c, s, b, s');
    LeadsConcat(c, s0, a, s, b, s');
  }

  // ----- the shape of each step of a worker -----

  /** `s'` differs from `s` in the table, the queue and worker `w` as given. */
  ghost predicate Became(s: State, s': State, w: WorkerId, table: Table, queue: multiset<SessionId>, wk: Worker) {
    s'.table == table && s'.queue == queue && s'.workers == s.workers[w := wk]
  }

  lemma MarkDequeuedStep(c: Config, s0: State, s: State, w: WorkerId) returns (s': State)
    requires Reaches(c, s0, s) && Busy(s, w) && s.workers[w].phase.AtDequeue?
    ensures Reaches(c, s0, s') && Current(s, w) in s.table
    ensures Became(s, s', w, SetStatus(s.table, Current(s, w), DEQUEUED, None, None), s.queue,
                   s.workers[w].(phase := AtGet))
  {
    ReachedIsSafe(c, s0, s);
    CurrentIsStored(c, s, w);
    s' := OnMarkDequeued(s, w);
    ReachesOn(c, s0, s, MarkDequeued(w));
  }

  lemma GetStep(c: Config, s0: State, s: State, w: WorkerId) returns (s': State)
    requires Reaches(c, s0, s) && Busy(s, w) && s.workers[w].phase.AtGet?
    ensures Reaches(c, s0, s') && Current(s, w) in s.table
    ensures Became(s, s', w, s.table, s.queue, s.workers[w].(phase := AtStart(s.table[Current(s, w)].request)))
  {
    ReachedIsSafe(c, s0, s);
    CurrentIsStored(c, s, w);
    s' := OnGet(s, w);
    ReachesOn(c, s0, s, Get(w));
  }

  /** The worker as it is when the handler of its session has been found, or not. */
  function Begun(c: Config, wk: Worker, request: Request): Worker {
    wk.(phase := if request.subType in c.handlers then Phase.Running(request, [], None)
                 else AtFinish(NoHandler(request)))
  }

  lemma MarkInProgressStep(c: Config, s0: State, s: State, w: WorkerId) returns (s': State)
    requires Reaches(c, s0, s) && Busy(s, w) && s.workers[w].phase.AtStart?
    ensures Reaches(c, s0, s')
    ensures Became(s, s', w, SetStatus(s.table, Current(s, w), IN_PROGRESS, None, None), s.queue,
                   Begun(c, s.workers[w], s.workers[w].phase.request))
  {
    s' := OnMarkInProgress(c, s, w);
    ReachesOn(c, s0, s, MarkInProgress(w));
    StartBecomes(c, s, w);
  }

  lemma StartBecomes(c: Config, s: State, w: WorkerId)
    requires Busy(s, w) && s.workers[w].phase.AtStart?
    ensures Became(s, OnMarkInProgress(c, s, w), w, SetStatus(s.table, Current(s, w), IN_PROGRESS, None, None), s.queue,
                   Begun(c, s.workers[w], s.workers[w].phase.request))
  {
  }

  lemma SpawnStep(c: Config, s0: State, s: State, w: WorkerId, id: SessionId) returns (s': State)
    requires Reaches(c, s0, s) && CanSpawn(c, s, w, id)
    ensures Reaches(c, s0, s')
    ensures Became(s, s', w, Create(s.table, id, RequestOf(Submits(c, s, w)[|s.workers[w].phase.children|])), s.queue,
                   s.workers[w].(phase := s.workers[w].phase.(unsent := Some(id))))
  {
    s' := OnSpawn(c, s, w, id);
    ReachesOn(c, s0, s, Spawn(w, id));
  }

  lemma SendSpawnedStep(c: Config, s0: State, s: State, w: WorkerId) returns (s': State)
    requires Reaches(c, s0, s) && CanSendSpawned(s, w)
    ensures Reaches(c, s0, s')
    ensures var phase := s.workers[w].phase;
      Became(s, s', w, s.table, s.queue + multiset{phase.unsent.value},
             s.workers[w].(phase := Phase.Running(phase.request, phase.children + [phase.unsent.value], None)))
  {
    s' := OnSendSpawned(s, w);
    ReachesOn(c, s0, s, SendSpawned(w));
  }

  lemma HandlerEndsStep(c: Config, s0: State, s: State, w: WorkerId) returns (s': State)
    requires Reaches(c, s0, s) && CanEnd(c, s, w)
    ensures Reaches(c, s0, s')
    ensures var phase := s.workers[w].phase;
      Became(s, s', w, s.table, s.queue,
             s.workers[w].(phase := AtFinish(Judge(c.handlers, Current(s, w), phase.request, phase.children))))
  {
    s' := OnHandlerEnds(c, s, w);
    ReachesOn(c, s0, s, HandlerEnds(w));
  }

  lemma FinishStep(c: Config, s0: State, s: State, w: WorkerId) returns (s': State)
    requires Reaches(c, s0, s) && Busy(s, w) && s.workers[w].phase.AtFinish?
    ensures Reaches(c, s0, s')
    ensures Became(s, s', w, Conclude(s.table, Current(s, w), s.workers[w].phase.verdict), s.queue, Next(s.workers[w]))
    ensures Current(s, w) in s'.table && Terminal(s'.table[Current(s, w)].status)
  {
    ReachedIsSafe(c, s0, s);
    CurrentIsStored(c, s, w);
    s' := OnFinish(s, w);
    ReachesOn(c, s0, s, Finish(w));
  }

  // ----- one session -----

  ghost predicate Matches(db: Db, s: State) {
    db.table == s.table && multiset(db.queue) == s.queue
  }

  function BegunTable(table: Table, id: SessionId): Table {
    SetStatus(SetStatus(table, id, DEQUEUED, None, None), id, IN_PROGRESS, None, None)
  }

  lemma BeginRun(c: Config, s0: State, s: State, w: WorkerId) returns (s': State)
    requires Reaches(c, s0, s) && Busy(s, w) && s.workers[w].phase.AtDequeue?
    ensures Reaches(c, s0, s') && Current(s, w) in s.table
    ensures Became(s, s', w, BegunTable(s.table, Current(s, w)), s.queue,
                   Begun(c, s.workers[w], s.table[Current(s, w)].request))
  {
    var s1 := MarkDequeuedStep(c, s0, s, w);
    var s2 := GetStep(c, s0, s1, w);
    s' := MarkInProgressStep(c, s0, s2, w);
  }

  ghost predicate ReadyToSpawn(c: Config, s: State, w: WorkerId) {
    InHandler(c, s, w) && s.workers[w].phase.children == [] && s.workers[w].phase.unsent == None
  }

  /** The state after the first `n` submissions of the handler. */
  ghost predicate SpawnedMany(c: Config, uuid: Uuids, s: State, s': State, w: WorkerId, db: Db, n: nat)
    requires ReadyToSpawn(c, s, w) && n <= |Submits(c, s, w)|
  {
    var db' := SubmittedAll(uuid, db, Submits(c, s, w)[..n]);
    && Matches(db', s') && Unused(uuid, db') && db'.minted == db.minted + n
    && s'.workers == s.workers[w := s.workers[w].(phase :=
         Phase.Running(s.workers[w].phase.request, NextIds(uuid, db.minted, n), None))]
  }

  lemma CanSpawnNext(c: Config, uuid: Uuids, s: State, s1: State, w: WorkerId, db: Db, n: nat)
    requires ReadyToSpawn(c, s, w) && n < |Submits(c, s, w)| && SpawnedMany(c, uuid, s, s1, w, db, n)
    ensures CanSpawn(c, s1, w, uuid(db.minted + n)) && Submits(c, s1, w) == Submits(c, s, w)
    ensures |s1.workers[w].phase.children| == n
  {
  }

  lemma SpawnedNext(c: Config, uuid: Uuids, s: State, s1: State, s': State, w: WorkerId, db: Db, n: nat)
    requires ReadyToSpawn(c, s, w) && n < |Submits(c, s, w)| && SpawnedMany(c, uuid, s, s1, w, db, n)
    requires var id := uuid(db.minted + n); var phase := s1.workers[w].phase;
      w in s1.workers && phase.Running? &&
      Became(s1, s', w, Create(s1.table, id, RequestOf(Submits(c, s, w)[n])), s1.queue + multiset{id},
             s1.workers[w].(phase := Phase.Running(phase.request, phase.children + [id], None)))
    ensures SpawnedMany(c, uuid, s, s', w, db, n + 1)
  {
    var submits := Submits(c, s, w);
    assert submits[..n + 1][..n] == submits[..n];
    SubmittedKeepsUnused(uuid, SubmittedAll(uuid, db, submits[..n]), submits[n]);
    assert NextIds(uuid, db.minted, n + 1) == NextIds(uuid, db.minted, n) + [uuid(db.minted + n)];
  }

  lemma OneSubmission(c: Config, uuid: Uuids, s0: State, s: State, s1: State, w: WorkerId, db: Db, n: nat)
    returns (s': State)
    requires Reaches(c, s0, s1) && ReadyToSpawn(c, s, w) && n < |Submits(c, s, w)|
    requires SpawnedMany(c, uuid, s, s1, w, db, n)
    ensures Reaches(c, s0, s') && SpawnedMany(c, uuid, s, s', w, db, n + 1)
  {
    CanSpawnNext(c, uuid, s, s1, w, db, n);
    var s2 := SpawnStep(c, s0, s1, w, uuid(db.minted + n));
    s' := SendSpawnedStep(c, s0, s2, w);
    SpawnedNext(c, uuid, s, s1, s', w, db, n);
  }

  /** The submissions of the handler, one after the other. */
  lemma {:induction false} SpawnRun(c: Config, uuid: Uuids, s0: State, s: State, w: WorkerId, db: Db, n: nat)
    returns (s': State)
    requires Reaches(c, s0, s) && Matches(db, s) && Unused(uuid, db)
    requires ReadyToSpawn(c, s, w) && n <= |Submits(c, s, w)|
    ensures Reaches(c, s0, s') && SpawnedMany(c, uuid, s, s', w, db, n)
    decreases n
  {
    if n == 0 {
      assert NextIds(uuid, db.minted, 0) == [];
      s' := s;
    } else {
      var s1 := SpawnRun(c, uuid, s0, s, w, db, n - 1);
      s' := OneSubmission(c, uuid, s0, s, s1, w, db, n - 1);
    }
  }

  /** The worker has moved on from its session, which is finished, and the database holds `db`. */
  ghost predicate HandledTo(s: State, s': State, w: WorkerId, db: Db)
    requires Busy(s, w)
  {
    && Matches(db, s') && s'.workers == s.workers[w := Next(s.workers[w])]
    && Current(s, w) in s'.table && Terminal(s'.table[Current(s, w)].status)
  }

  function VerdictAfter(c: Config, uuid: Uuids, s: State, w: WorkerId, db: Db): Verdict
    requires InHandler(c, s, w)
  {
    Judge(c.handlers, Current(s, w), s.workers[w].phase.request, NextIds(uuid, db.minted, |Submits(c, s, w)|))
  }

  lemma SpawnedCanEnd(c: Config, uuid: Uuids, s: State, s1: State, w: WorkerId, db: Db)
    requires ReadyToSpawn(c, s, w) && SpawnedMany(c, uuid, s, s1, w, db, |Submits(c, s, w)|)
    ensures CanEnd(c, s1, w) && Current(s1, w) == Current(s, w) && Next(s1.workers[w]) == Next(s.workers[w])
    ensures Judge(c.handlers, Current(s1, w), s1.workers[w].phase.request, s1.workers[w].phase.children)
         == VerdictAfter(c, uuid, s, w, db)
    ensures Matches(SubmittedAll(uuid, db, Submits(c, s, w)), s1)
    ensures s1.workers == s.workers[w := s1.workers[w]]
    ensures forall phase :: Next(s1.workers[w].(phase := phase)) == Next(s.workers[w])
  {
    assert Submits(c, s, w)[..|Submits(c, s, w)|] == Submits(c, s, w);
  }

  /** From the start of the handler to the end of the session. */
  lemma HandledRun(c: Config, uuid: Uuids, s0: State, s: State, w: WorkerId, db: Db) returns (s': State)
    requires Reaches(c, s0, s) && Matches(db, s) && Unused(uuid, db) && ReadyToSpawn(c, s, w)
    ensures Reaches(c, s0, s')
    ensures var db' := SubmittedAll(uuid, db, Submits(c, s, w));
      HandledTo(s, s', w, db'.(table := Conclude(db'.table, Current(s, w), VerdictAfter(c, uuid, s, w, db))))
  {
    var s1 := SpawnRun(c, uuid, s0, s, w, db, |Submits(c, s, w)|);
    SpawnedCanEnd(c, uuid, s, s1, w, db);
    var s2 := HandlerEndsStep(c, s0, s1, w);
    s' := FinishStep(c, s0, s2, w);
  }

  /** What the database holds after a session that has a handler; `started` is the database when it is called. */
  function Handled(c: Config, uuid: Uuids, started: Db, id: SessionId, request: Request): Db
    requires request.subType in c.handlers
  {
    var submits := Invoke(c.handlers, id, request).submits;
    var db' := SubmittedAll(uuid, started, submits);
    db'.(table := Conclude(db'.table, id, Judge(c.handlers, id, request, NextIds(uuid, started.minted, |submits|))))
  }

  function Unhandled(started: Db, id: SessionId, request: Request): Db {
    started.(table := Conclude(started.table, id, NoHandler(request)))
  }

  /** What working on a session leaves in the database, by whether it has a handler. */
  lemma WorkedInSteps(c: Config, uuid: Uuids, db: Db, id: SessionId)
    requires id in db.table
    ensures var request := db.table[id].request; var started := db.(table := BegunTable(db.table, id));
      Worked(uuid, c.handlers, db, id) ==
        if request.subType in c.handlers then Handled(c, uuid, started, id, request)
        else Unhandled(started, id, request)
  {
  }

  /** Working on one session is a run of the protocol. */
  lemma SessionRun(c: Config, uuid: Uuids, s0: State, s: State, w: WorkerId, db: Db) returns (s': State)
    requires Reaches(c, s0, s) && Matches(db, s) && Busy(s, w) && s.workers[w].phase.AtDequeue? && Unused(uuid, db)
    ensures Reaches(c, s0, s')
    ensures HandledTo(s, s', w, Worked(uuid, c.handlers, db, Current(s, w)))
  {
    var id := Current(s, w);
    var s1 := BeginRun(c, s0, s, w);
    WorkedInSteps(c, uuid, db, id);
    s' := RestOfSession(c, uuid, s0, s, s1, w, db);
  }

  lemma RestOfSession(c: Config, uuid: Uuids, s0: State, s: State, s1: State, w: WorkerId, db: Db)
    returns (s': State)
    requires Reaches(c, s0, s1) && Matches(db, s) && Unused(uuid, db) && Busy(s, w) && Current(s, w) in s.table
    requires Became(s, s1, w, BegunTable(s.table, Current(s, w)), s.queue,
                    Begun(c, s.workers[w], s.table[Current(s, w)].request))
    ensures Reaches(c, s0, s')
    ensures var id := Current(s, w); var request := s.table[id].request;
      var started := db.(table := BegunTable(db.table, id));
      HandledTo(s, s', w, if request.subType in c.handlers then Handled(c, uuid, started, id, request)
                          else Unhandled(started, id, request))
  {
    var id := Current(s, w);
    var request, started := s.table[id].request, db.(table := BegunTable(db.table, id));
    StartedMatches(uuid, db, id, s, s1);
    if request.subType in c.handlers {
      BegunIsReady(c, s, s1, w, request);
      s' := HandledRun(c, uuid, s0, s1, w, started);
    } else {
      s' := FinishStep(c, s0, s1, w);
    }
  }

  lemma StartedMatches(uuid: Uuids, db: Db, id: SessionId, s: State, s1: State)
    requires Matches(db, s) && Unused(uuid, db) && id in db.table
    requires s1.table == BegunTable(s.table, id) && s1.queue == s.queue
    ensures var started := db.(table := BegunTable(db.table, id)); Matches(started, s1) && Unused(uuid, started)
  {
    assert BegunTable(db.table, id).Keys == db.table.Keys;
  }

  lemma BegunIsReady(c: Config, s: State, s1: State, w: WorkerId, request: Request)
    requires Busy(s, w) && request.subType in c.handlers
    requires s1.workers == s.workers[w := Begun(c, s.workers[w], request)]
    ensures ReadyToSpawn(c, s1, w) && Current(s1, w) == Current(s, w) && s1.workers[w].phase.request == request
    ensures Next(s1.workers[w]) == Next(s.workers[w])
    ensures Submits(c, s1, w) == Invoke(c.handlers, Current(s, w), request).submits
    ensures s1.workers[w := Next(s1.workers[w])] == s.workers[w := Next(s.workers[w])]
  {
  }

  // ----- one delivery -----

  lemma WorkedKeepsUnused(uuid: Uuids, handlers: Handlers, db: Db, id: SessionId)
    requires Unused(uuid, db)
    ensures Unused(uuid, Worked(uuid, handlers, db, id))
  {
    if id in db.table && db.table[id].request.subType in handlers {
      var started := db.(table := BegunTable(db.table, id));
      SubmittedAllKeepsUnused(uuid, started, Invoke(handlers, id, db.table[id].request).submits);
    }
  }

  /** The worker after the first `i` sessions of its batch. */
  function BatchAt(batch: seq<SessionId>, i: nat): Worker {
    if i < |batch| then Worker(batch, i, AtDequeue, false) else Resting
  }

  ghost predicate AllTerminal(table: Table, ids: seq<SessionId>) {
    forall id :: id in ids ==> id in table && Terminal(table[id].status)
  }

  /** The state after the first `i` sessions of a batch. */
  ghost predicate BatchDone(c: Config, uuid: Uuids, s: State, s': State, w: WorkerId, db: Db, batch: seq<SessionId>,
                            i: nat)
    requires i <= |batch|
  {
    forall key: nat {:trigger Open(key)} :: Open(key) ==>
      var db' := WorkedAll(uuid, c.handlers, db, batch[..i]);
      && Matches(db', s') && Unused(uuid, db')
      && s'.workers == s.workers[w := BatchAt(batch, i)]
      && AllTerminal(s'.table, batch[..i])
  }

  lemma NothingDone(c: Config, uuid: Uuids, s: State, w: WorkerId, db: Db, batch: seq<SessionId>)
    requires Matches(db, s) && Unused(uuid, db) && w in s.workers && s.workers[w] == BatchAt(batch, 0)
    ensures BatchDone(c, uuid, s, s, w, db, batch, 0)
  {
    assert s.workers == s.workers[w := BatchAt(batch, 0)] && batch[..0] == [];
  }

  lemma {:induction false} BatchRun(c: Config, uuid: Uuids, s0: State, s: State, w: WorkerId, db: Db,
                                    batch: seq<SessionId>, i: nat) returns (s': State)
    requires Reaches(c, s0, s) && w in s.workers && i <= |batch| && BatchDone(c, uuid, s, s, w, db, batch, 0)
    ensures Reaches(c, s0, s') && BatchDone(c, uuid, s, s', w, db, batch, i)
    decreases i
  {
    if i == 0 {
      s' := s;
    } else {
      var done: nat := i - 1;
      var s1 := BatchRun(c, uuid, s0, s, w, db, batch, done);
      s' := NextInBatch(c, uuid, s0, s, s1, w, db, batch, done);
      assert done + 1 == i;
    }
  }

  lemma NextInBatch(c: Config, uuid: Uuids, s0: State, s: State, s1: State, w: WorkerId, db: Db,
                    batch: seq<SessionId>, i: nat) returns (s': State)
    requires Reaches(c, s0, s1) && w in s.workers && i < |batch| && BatchDone(c, uuid, s, s1, w, db, batch, i)
    ensures Reaches(c, s0, s') && BatchDone(c, uuid, s, s', w, db, batch, i + 1)
  {
    WhatIsDone(c, uuid, s, s1, w, db, batch, i);
    s' := OneOfBatch(c, uuid, s0, s1, w, WorkedAll(uuid, c.handlers, db, batch[..i]), batch, i);
    OneMoreDone(c, uuid, s, s1, s', w, db, batch, i);
  }

  lemma WhatIsDone(c: Config, uuid: Uuids, s: State, s': State, w: WorkerId, db: Db, batch: seq<SessionId>, i: nat)
    requires i <= |batch| && BatchDone(c, uuid, s, s', w, db, batch, i)
    ensures var db' := WorkedAll(uuid, c.handlers, db, batch[..i]); Matches(db', s') && Unused(uuid, db')
    ensures s'.workers == s.workers[w := BatchAt(batch, i)] && AllTerminal(s'.table, batch[..i])
  {
    assert Open(0);
  }

  lemma OneMoreDone(c: Config, uuid: Uuids, s: State, s1: State, s': State, w: WorkerId, db: Db,
                    batch: seq<SessionId>, i: nat)
    requires i < |batch| && w in s.workers && s1.workers == s.workers[w := BatchAt(batch, i)]
    requires var db' := Worked(uuid, c.handlers, WorkedAll(uuid, c.handlers, db, batch[..i]), batch[i]);
      Matches(db', s') && Unused(uuid, db')
    requires s'.workers == s1.workers[w := BatchAt(batch, i + 1)]
    requires AllTerminal(s'.table, batch[..i] + [batch[i]])
    ensures BatchDone(c, uuid, s, s', w, db, batch, i + 1)
  {
    assert batch[..i + 1][..i] == batch[..i] && batch[..i + 1] == batch[..i] + [batch[i]];
    assert s'.workers == s.workers[w := BatchAt(batch, i + 1)];
  }

  lemma OneOfBatch(c: Config, uuid: Uuids, s0: State, s: State, w: WorkerId, db: Db, batch: seq<SessionId>, i: nat)
    returns (s': State)
    requires Reaches(c, s0, s) && Matches(db, s) && Unused(uuid, db)
    requires w in s.workers && i < |batch| && s.workers[w] == BatchAt(batch, i) && AllTerminal(s.table, batch[..i])
    ensures Reaches(c, s0, s')
    ensures var db' := Worked(uuid, c.handlers, db, batch[i]); Matches(db', s') && Unused(uuid, db')
    ensures s'.workers == s.workers[w := BatchAt(batch, i + 1)]
    ensures AllTerminal(s'.table, batch[..i] + [batch[i]])
  {
    ReachedReachesItself(c, s0, s);
    s' := SessionRun(c, uuid, s, s, w, db);
    WorkedKeepsUnused(uuid, c.handlers, db, batch[i]);
    ReachesThrough(c, s0, s, s');
    forall id | id in batch[..i] ensures id in s'.table && Terminal(s'.table[id].status) {
      ReachedTerminal(c, s, s', id);
    }
  }

  /** The row of `id` is what its handler's outcome says, given the ids of the sessions that record what the handler
      submits. */
  ghost predicate Ended(handlers: Handlers, table: Table, id: SessionId) {
    id in table && exists children ::
      && EndsAs(handlers, id, table[id].request, children, None, table[id])
      && ChildrenRecord(handlers, id, table[id].request, table, children)
  }

  lemma ReachedEnded(c: Config, s: State, s': State, id: SessionId)
    requires Reaches(c, s, s') && id in s'.table && Terminal(s'.table[id].status)
    ensures Ended(c.handlers, s'.table, id)
  {
    ReachedIsSafe(c, s, s');
    DoneAsHandled(c, s', id);
  }

  /** One uninterrupted delivery, as `WorkOnce` performs it on the first queued sessions, is a run of the
      protocol, and it leaves every session of the batch with a terminal status. */
  lemma DeliveryIsRun(c: Config, uuid: Uuids, s: State, w: WorkerId, db: Db, n: nat)
    requires Inv(c, s) && Matches(db, s) && Unused(uuid, db)
    requires w in s.workers && s.workers[w] == Resting && 0 < n <= |db.queue| && n <= c.batchSize
    ensures var after := WorkedAll(uuid, c.handlers, db.(queue := db.queue[n..]), db.queue[..n]);
      && (exists run :: ValidRun(c, s, run) && Matches(after, After(c, s, run)))
      && AllTerminal(after.table, db.queue[..n])
      && (forall id :: id in db.queue[..n] ==> Ended(c.handlers, after.table, id))
  {
    ReachesItself(c, s);
    var s' := DeliveryRun(c, uuid, s, w, db, n);
    forall id | id in db.queue[..n] ensures Ended(c.handlers, s'.table, id) {
      ReachedEnded(c, s, s', id);
    }
    assert Open(0);
    var run :| Leads(c, s, run, s');
  }

  lemma DeliveryRun(c: Config, uuid: Uuids, s: State, w: WorkerId, db: Db, n: nat) returns (s': State)
    requires Reaches(c, s, s) && Matches(db, s) && Unused(uuid, db)
    requires w in s.workers && s.workers[w] == Resting && 0 < n <= |db.queue| && n <= c.batchSize
    ensures Reaches(c, s, s')
    ensures Matches(WorkedAll(uuid, c.handlers, db.(queue := db.queue[n..]), db.queue[..n]), s')
    ensures AllTerminal(s'.table, db.queue[..n])
  {
    var batch, rest := db.queue[..n], db.queue[n..];
    FirstQueued(c, s, w, db, n);
    var s1 := FetchStep(c, s, w, batch);
    QueuedLess(uuid, db, rest);
    NothingDone(c, uuid, s1, w, db.(queue := rest), batch);
    s' := BatchRun(c, uuid, s, s1, w, db.(queue := rest), batch, n);
    WhatIsDone(c, uuid, s1, s', w, db.(queue := rest), batch, n);
    assert batch[..n] == batch;
  }

  lemma FirstQueued(c: Config, s: State, w: WorkerId, db: Db, n: nat)
    requires Matches(db, s) && w in s.workers && s.workers[w] == Resting && 0 < n <= |db.queue| && n <= c.batchSize
    ensures CanFetch(c, s, w, db.queue[..n]) && s.queue - multiset(db.queue[..n]) == multiset(db.queue[n..])
  {
    assert db.queue == db.queue[..n] + db.queue[n..];
    assert multiset(db.queue) == multiset(db.queue[..n]) + multiset(db.queue[n..]);
  }

  lemma QueuedLess(uuid: Uuids, db: Db, rest: seq<SessionId>)
    requires Unused(uuid, db)
    ensures Unused(uuid, db.(queue := rest))
  {
  }

  lemma FetchStep(c: Config, s: State, w: WorkerId, batch: seq<SessionId>) returns (s': State)
    requires Reaches(c, s, s) && CanFetch(c, s, w, batch) && s.workers[w] == Resting
    ensures Reaches(c, s, s')
    ensures Became(s, s', w, s.table, s.queue - multiset(batch), BatchAt(batch, 0))
  {
    s' := OnFetch(s, w, batch);
    ReachesOn(c, s, s, Fetch(w, batch));
  }
}
