/** With no worker stopping and no new submissions from outside, the job system runs dry and leaves
    nothing stranded, although handlers may submit further jobs of lower rank. */
module JobDraining {
  import opened JobModel
  import opened JobProtocol
  import opened JobInvariant
  import opened JobSafety

  // ----- lexicographic descent on vectors of fixed length -----

  /** `a` is below `b` in the lexicographic order. */
  ghost predicate Below(a: seq<nat>, b: seq<nat>) {
    |a| == |b| && exists k :: DropsAt(a, b, k)
  }

  ghost predicate DropsAt(a: seq<nat>, b: seq<nat>, k: nat) {
    k < |a| && k < |b| && a[k] < b[k] && forall i :: 0 <= i < k ==> a[i] <= b[i]
  }

  /** A sequence of naturals that never rises is constant from some point on. */
  lemma {:induction false} Settles(g: nat -> nat, start: nat) returns (n: nat)
    requires forall i: nat :: g(i + 1) <= g(i)
    ensures n >= start && forall i: nat :: i >= n ==> g(i) == g(n)
    decreases g(start)
  {
    if i: nat :| i >= start && g(i) < g(start) {
      n := Settles(g, i);
    } else {
      n := start;
      forall i: nat | i >= n ensures g(i) == g(n) {
        NeverRises(g, n, i);
      }
    }
  }

  lemma {:induction false} NeverRises(g: nat -> nat, i: nat, j: nat)
    requires i <= j && forall i: nat :: g(i + 1) <= g(i)
    ensures g(j) <= g(i)
    decreases j - i
  {
    if i < j {
      NeverRises(g, i + 1, j);
    }
  }

  lemma TailBelow(a: seq<nat>, b: seq<nat>)
    requires Below(a, b) && b != [] && a[0] == b[0]
    ensures Below(a[1..], b[1..])
  {
    var k: nat :| DropsAt(a, b, k);
    assert DropsAt(a[1..], b[1..], k - 1);
  }

  /** The `i`-th step of `f` goes down, among vectors of length `n`. */
  ghost predicate StepsDown(n: nat, f: nat -> seq<nat>, i: nat) {
    |f(i)| == n && Below(f(i + 1), f(i))
  }

  lemma {:induction false} EndlessDescent(n: nat, f: nat -> seq<nat>)
    requires forall i: nat :: StepsDown(n, f, i)
    ensures false
    decreases n
  {
    assert StepsDown(n, f, 0);
    var g: nat -> nat := (i: nat) => if |f(i)| > 0 then f(i)[0] else 0;
    forall i: nat ensures g(i + 1) <= g(i) {
      assert StepsDown(n, f, i);
    }
    var settled := Settles(g, 0);
    var tail: nat -> seq<nat> := (i: nat) => if |f(settled + i)| > 0 then f(settled + i)[1..] else [];
    var shorter: nat := n - 1;
    forall i: nat ensures StepsDown(shorter, tail, i) {
      assert StepsDown(n, f, settled + i) && g(settled + i + 1) == g(settled + i);
      TailBelow(f(settled + i + 1), f(settled + i));
    }
    EndlessDescent(shorter, tail);
  }

  /** No infinite sequence of vectors keeps descending. */
  lemma DescentStops(n: nat, f: nat -> seq<nat>)
    requires forall i: nat :: |f(i)| == n
    ensures exists i: nat :: !Below(f(i + 1), f(i))
  {
    if forall i: nat :: Below(f(i + 1), f(i)) {
      assert forall i: nat :: StepsDown(n, f, i);
      EndlessDescent(n, f);
    }
  }

  // ----- sums of weights -----

  ghost function Total(m: map<SessionId, nat>): nat {
    if m == map[] then 0 else var x :| x in m; m[x] + Total(m - {x})
  }

  lemma {:induction false} TotalTakes(m: map<SessionId, nat>, y: SessionId)
    requires y in m
    ensures Total(m) == m[y] + Total(m - {y})
    decreases |m|
  {
    var x :| x in m && Total(m) == m[x] + Total(m - {x});
    if x != y {
      TotalTakes(m - {x}, y);
      TotalTakes(m - {y}, x);
      assert m - {x} - {y} == m - {y} - {x};
    }
  }

  lemma {:induction false} TotalCompares(a: map<SessionId, nat>, b: map<SessionId, nat>)
    requires a.Keys == b.Keys && forall x :: x in a ==> a[x] <= b[x]
    ensures Total(a) <= Total(b)
    ensures (exists x :: x in a && a[x] < b[x]) ==> Total(a) < Total(b)
    decreases |a|
  {
    if a != map[] {
      var y :| y in a;
      if x :| x in a && a[x] < b[x] { y := x; }
      TotalTakes(a, y);
      TotalTakes(b, y);
      assert (a - {y}).Keys == (b - {y}).Keys;
      TotalCompares(a - {y}, b - {y});
    } else {
      assert b == map[];
    }
  }

  // ----- how much work a session still needs -----

  /** Two steps for every job the handler of a session submits. */
  function Load(c: Config, id: SessionId, request: Request): nat {
    if request.subType in c.handlers then 2 * |Invoke(c.handlers, id, request).submits| else 0
  }

  function PhaseWeight(phase: Phase, load: nat): nat {
    match phase
    case Idle => 0
    case AtDequeue => 6 + load
    case AtGet => 5 + load
    case AtStart(_) => 4 + load
    case Running(_, children, unsent) =>
      var spent := 2 * |children| + if unsent.Some? then 1 else 0;
      2 + if spent <= load then load - spent else 0
    case AtFinish(_) => 1
  }

  /** The number of steps left for a session, by its place. */
  function Weight(c: Config, s: State, id: SessionId): nat
    requires id in s.table && id in s.place
  {
    var load := Load(c, id, s.table[id].request);
    match s.place[id]
    case Unsent | Submitting(_) => 8 + load
    case Queued => 7 + load
    case Slot(w, i) =>
      if w in s.workers && i == s.workers[w].pos then PhaseWeight(s.workers[w].phase, load) else 6 + load
    case Abandoned | Done => 0
  }

  predicate Draining(step: Step) {
    !step.Submit? && !step.Retry? && !step.Stop?
  }

  function Head(s: State, w: WorkerId): SessionId {
    if Busy(s, w) then Current(s, w) else ""
  }

  /** The session a draining step brings nearer to its end. */
  function Mover(s: State, step: Step): SessionId {
    match step
    case Submit(id, _) => id
    case Retry(_, id) => id
    case Send(id) => id
    case Fetch(w, batch) => if batch != [] then batch[0] else Head(s, w)
    case MarkDequeued(w) => Head(s, w)
    case Get(w) => Head(s, w)
    case MarkInProgress(w) => Head(s, w)
    case Spawn(w, _) => Head(s, w)
    case SendSpawned(w) => Head(s, w)
    case HandlerEnds(w) => Head(s, w)
    case Finish(w) => Head(s, w)
    case Stop(w) => Head(s, w)
  }

  /** No session in the table needs more steps than before, and `mover` needs fewer. */
  ghost predicate Lighter(c: Config, s: State, s': State, mover: SessionId) {
    && s.place.Keys == s.table.Keys && s'.place.Keys == s'.table.Keys && Grows(s.table, s'.table)
    && mover in s.table && Weight(c, s', mover) < Weight(c, s, mover)
    && forall id {:trigger Weight(c, s', id)} :: id in s.table ==> Weight(c, s', id) <= Weight(c, s, id)
  }

  lemma SameWeight(c: Config, s: State, s': State, id: SessionId)
    requires Undisturbed(s, s', id) && (s.place[id].Slot? ==> s.place[id].worker in s.workers)
    ensures Weight(c, s', id) == Weight(c, s, id)
  {
  }

  /** Outside the moved sessions nothing changes; each of those gets no heavier. */
  lemma Lighten(c: Config, s: State, s': State, moved: set<SessionId>, mover: SessionId)
    requires s.place.Keys == s.table.Keys && Frame(s, s', moved)
    requires forall id :: id in s.place && s.place[id].Slot? ==> s.place[id].worker in s.workers
    requires forall id :: id in moved && id in s.table ==> Weight(c, s', id) <= Weight(c, s, id)
    requires mover in s.table && Weight(c, s', mover) < Weight(c, s, mover)
    ensures Lighter(c, s, s', mover)
  {
    forall id | id in s.table ensures Weight(c, s', id) <= Weight(c, s, id) {
      if id !in moved {
        SameWeight(c, s, s', id);
      }
    }
  }

  lemma SlotsHaveWorkers(s: State)
    requires Located(s)
    ensures s.place.Keys == s.table.Keys == s.history.Keys
    ensures forall id :: id in s.place && s.place[id].Slot? ==> s.place[id].worker in s.workers
  {
    forall id | id in s.place && s.place[id].Slot? ensures s.place[id].worker in s.workers {
      assert InSlot(s.workers, s.place[id].worker, s.place[id].index, id);
    }
  }

  lemma SendLighter(c: Config, s: State, id: SessionId)
    requires Inv(c, s) && id in s.unsent
    ensures Lighter(c, s, OnSend(s, id), id)
  {
    SlotsHaveWorkers(s);
    SendFrame(s, id);
    Lighten(c, s, OnSend(s, id), {id}, id);
  }

  lemma FetchWeighs(c: Config, s: State, s': State, w: WorkerId, batch: seq<SessionId>, id: SessionId)
    requires w in s.workers && s' == OnFetch(s, w, batch) && id in batch
    requires id in s.table && id in s.place && s.place[id].Queued?
    ensures Weight(c, s', id) < Weight(c, s, id)
  {
  }

  lemma FetchLighter(c: Config, s: State, w: WorkerId, batch: seq<SessionId>)
    requires Inv(c, s) && CanFetch(c, s, w, batch)
    ensures Lighter(c, s, OnFetch(s, w, batch), batch[0])
  {
    var s', moved := OnFetch(s, w, batch), set x | x in batch;
    FetchedOnce(s, batch);
    FetchFrame(s, s', w, batch, moved);
    SlotsHaveWorkers(s);
    forall id | id in batch ensures Weight(c, s', id) < Weight(c, s, id) {
      FetchWeighs(c, s, s', w, batch, id);
    }
    Lighten(c, s, s', moved, batch[0]);
  }

  /** What the weights after a step of worker `w` rest on. */
  ghost predicate Ready(c: Config, s: State, w: WorkerId) {
    && AtWork(s, w) && Working(c, s, w)
    && forall id :: id in s.place && s.place[id].Slot? ==> s.place[id].worker in s.workers
  }

  lemma IsReady(c: Config, s: State, w: WorkerId)
    requires Inv(c, s) && Busy(s, w)
    ensures Ready(c, s, w)
  {
    IsAtWork(c, s, w);
    SlotsHaveWorkers(s);
  }

  lemma MarkDequeuedWeighs(c: Config, s: State, w: WorkerId)
    requires Working(c, s, w) && s.workers[w].phase.AtDequeue?
    ensures Weight(c, OnMarkDequeued(s, w), Current(s, w)) < Weight(c, s, Current(s, w))
  {
  }

  lemma MarkDequeuedLighter(c: Config, s: State, w: WorkerId)
    requires Ready(c, s, w) && s.workers[w].phase.AtDequeue?
    ensures Lighter(c, s, OnMarkDequeued(s, w), Current(s, w))
  {
    MarkDequeuedFrame(s, w);
    MarkDequeuedWeighs(c, s, w);
    Lighten(c, s, OnMarkDequeued(s, w), {Current(s, w)}, Current(s, w));
  }

  lemma GetWeighs(c: Config, s: State, w: WorkerId)
    requires Working(c, s, w) && s.workers[w].phase.AtGet?
    ensures Weight(c, OnGet(s, w), Current(s, w)) < Weight(c, s, Current(s, w))
  {
  }

  lemma GetLighter(c: Config, s: State, w: WorkerId)
    requires Ready(c, s, w) && s.workers[w].phase.AtGet?
    ensures Lighter(c, s, OnGet(s, w), Current(s, w))
  {
    GetFrame(s, w);
    GetWeighs(c, s, w);
    Lighten(c, s, OnGet(s, w), {Current(s, w)}, Current(s, w));
  }

  lemma MarkInProgressWeighs(c: Config, s: State, w: WorkerId)
    requires Working(c, s, w) && s.workers[w].phase.AtStart?
    ensures Weight(c, OnMarkInProgress(c, s, w), Current(s, w)) < Weight(c, s, Current(s, w))
  {
  }

  lemma MarkInProgressLighter(c: Config, s: State, w: WorkerId)
    requires Ready(c, s, w) && s.workers[w].phase.AtStart?
    ensures Lighter(c, s, OnMarkInProgress(c, s, w), Current(s, w))
  {
    MarkInProgressFrame(c, s, w);
    MarkInProgressWeighs(c, s, w);
    Lighten(c, s, OnMarkInProgress(c, s, w), {Current(s, w)}, Current(s, w));
  }

  lemma SpawnWeighs(c: Config, s: State, w: WorkerId, id: SessionId)
    requires Working(c, s, w) && CanSpawn(c, s, w, id)
    ensures Weight(c, OnSpawn(c, s, w, id), Current(s, w)) < Weight(c, s, Current(s, w))
  {
  }

  lemma SpawnLighter(c: Config, s: State, w: WorkerId, id: SessionId)
    requires Ready(c, s, w) && CanSpawn(c, s, w, id)
    ensures Lighter(c, s, OnSpawn(c, s, w, id), Current(s, w))
  {
    SpawnFrame(c, s, w, id);
    SpawnWeighs(c, s, w, id);
    Lighten(c, s, OnSpawn(c, s, w, id), {Current(s, w), id}, Current(s, w));
  }

  lemma SendSpawnedWeighs(c: Config, s: State, w: WorkerId, id: SessionId)
    requires Working(c, s, w) && CanSendSpawned(s, w) && id == s.workers[w].phase.unsent.value
    requires id in s.place && id in s.table && s.place[id] == Submitting(w)
    ensures Weight(c, OnSendSpawned(s, w), Current(s, w)) < Weight(c, s, Current(s, w))
    ensures Weight(c, OnSendSpawned(s, w), id) <= Weight(c, s, id)
  {
  }

  lemma SendSpawnedLighter(c: Config, s: State, w: WorkerId, id: SessionId)
    requires Ready(c, s, w) && CanSendSpawned(s, w) && id == s.workers[w].phase.unsent.value
    requires id in s.place && id in s.table && s.place[id] == Submitting(w)
    ensures Lighter(c, s, OnSendSpawned(s, w), Current(s, w))
  {
    SendSpawnedFrame(s, w);
    SendSpawnedWeighs(c, s, w, id);
    Lighten(c, s, OnSendSpawned(s, w), {Current(s, w), id}, Current(s, w));
  }

  lemma HandlerEndsWeighs(c: Config, s: State, w: WorkerId)
    requires Working(c, s, w) && CanEnd(c, s, w)
    ensures Weight(c, OnHandlerEnds(c, s, w), Current(s, w)) < Weight(c, s, Current(s, w))
  {
  }

  lemma HandlerEndsLighter(c: Config, s: State, w: WorkerId)
    requires Ready(c, s, w) && CanEnd(c, s, w)
    ensures Lighter(c, s, OnHandlerEnds(c, s, w), Current(s, w))
  {
    HandlerEndsFrame(c, s, w);
    HandlerEndsWeighs(c, s, w);
    Lighten(c, s, OnHandlerEnds(c, s, w), {Current(s, w)}, Current(s, w));
  }

  lemma FinishWeighs(c: Config, s: State, w: WorkerId, x: SessionId)
    requires Busy(s, w) && s.workers[w].phase.AtFinish? && x in s.table && x in s.place && x in s.history
    requires s.place[x].Slot? && s.place[x].worker == w && InSlot(s.workers, w, s.place[x].index, x)
    ensures x in OnFinish(s, w).table && x in OnFinish(s, w).place
    ensures x != Current(s, w) ==> Weight(c, OnFinish(s, w), x) <= Weight(c, s, x)
    ensures x == Current(s, w) && s.place[x].index == s.workers[w].pos ==>
              Weight(c, OnFinish(s, w), x) < Weight(c, s, x)
  {
  }

  lemma FinishLighter(c: Config, s: State, w: WorkerId)
    requires Ready(c, s, w) && SlotsOk(s) && s.workers[w].phase.AtFinish?
    ensures Lighter(c, s, OnFinish(s, w), Current(s, w))
  {
    var s', id := OnFinish(s, w), Current(s, w);
    FinishFrame(s, w);
    forall x | x in BatchOf(s, w)
      ensures Weight(c, s', x) <= Weight(c, s, x) && (x == id ==> Weight(c, s', x) < Weight(c, s, x))
    {
      FinishWeighs(c, s, w, x);
    }
    assert id in BatchOf(s, w);
    Lighten(c, s, s', BatchOf(s, w), id);
  }

  /** Every draining step brings some session nearer to its end and none further away. */
  lemma StepLighter(c: Config, s: State, step: Step)
    requires Inv(c, s) && Enabled(c, s, step) && Draining(step)
    ensures Lighter(c, s, Apply(c, s, step), Mover(s, step))
  {
    match step
    case Send(id) => SendLighter(c, s, id);
    case Fetch(w, batch) => FetchLighter(c, s, w, batch);
    case MarkDequeued(w) => IsReady(c, s, w); MarkDequeuedLighter(c, s, w);
    case Get(w) => IsReady(c, s, w); GetLighter(c, s, w);
    case MarkInProgress(w) => IsReady(c, s, w); MarkInProgressLighter(c, s, w);
    case Spawn(w, id) => IsReady(c, s, w); SpawnLighter(c, s, w, id);
    case SendSpawned(w) =>
      IsReady(c, s, w);
      assert InHand(s.workers, w, s.workers[w].phase.unsent.value);
      SendSpawnedLighter(c, s, w, s.workers[w].phase.unsent.value);
    case HandlerEnds(w) => IsReady(c, s, w); HandlerEndsLighter(c, s, w);
    case Finish(w) => IsReady(c, s, w); FinishLighter(c, s, w);
  }

  // ----- termination -----

  /** Handlers submit jobs of strictly lower rank only. */
  ghost predicate Ranked(c: Config, rank: JobSubType -> nat, top: nat) {
    && (forall subType :: rank(subType) <= top)
    && forall id, request: Request, k ::
         (request.subType in c.handlers && 0 <= k < |Invoke(c.handlers, id, request).submits|) ==>
         rank(Invoke(c.handlers, id, request).submits[k].subType) < rank(request.subType)
  }

  /** The weights of the sessions of one rank. */
  ghost function Weights(c: Config, s: State, rank: JobSubType -> nat, r: int): map<SessionId, nat> {
    map id | id in s.table && id in s.place && rank(s.table[id].request.subType) == r :: Weight(c, s, id)
  }

  /** Total work left at one rank. */
  ghost function Left(c: Config, s: State, rank: JobSubType -> nat, r: int): nat {
    Total(Weights(c, s, rank, r))
  }

  /** Total work left per rank, highest rank first. */
  ghost function WorkLeft(c: Config, s: State, rank: JobSubType -> nat, top: nat): (v: seq<nat>)
    ensures |v| == top + 1 && forall i :: 0 <= i <= top ==> v[i] == Left(c, s, rank, top - i)
  {
    seq(top + 1, (i: nat) => Left(c, s, rank, top - i))
  }

  lemma NewAreLower(c: Config, s: State, step: Step, rank: JobSubType -> nat, top: nat, id: SessionId)
    requires Inv(c, s) && Enabled(c, s, step) && Draining(step) && Ranked(c, rank, top)
    requires id in Apply(c, s, step).table && id !in s.table
    ensures step.Spawn? && Mover(s, step) in s.table
    ensures rank(Apply(c, s, step).table[id].request.subType) < rank(s.table[Mover(s, step)].request.subType)
  {
    if step.Spawn? {
      SpawnIsLower(c, s, step.w, step.id, rank, top);
    } else {
      OnlySpawnCreates(c, s, step);
    }
  }

  lemma OnlySpawnCreates(c: Config, s: State, step: Step)
    requires Enabled(c, s, step) && Draining(step) && !step.Spawn?
    ensures Apply(c, s, step).table.Keys == s.table.Keys
  {
    match step
    case MarkDequeued(w) => WritingKeepsKeys(c, s, w);
    case MarkInProgress(w) => WritingKeepsKeys(c, s, w);
    case Finish(w) => FinishKeepsKeys(s, w);
    case _ => SilentStep(c, s, step);
  }

  lemma WritingKeepsKeys(c: Config, s: State, w: WorkerId)
    requires Busy(s, w)
    ensures OnMarkDequeued(s, w).table.Keys == s.table.Keys
    ensures s.workers[w].phase.AtStart? ==> OnMarkInProgress(c, s, w).table.Keys == s.table.Keys
  {
    DequeueWrites(s, w);
    if s.workers[w].phase.AtStart? {
      StartWritesTable(c, s, w);
    }
  }

  lemma FinishKeepsKeys(s: State, w: WorkerId)
    requires Busy(s, w) && s.workers[w].phase.AtFinish?
    ensures OnFinish(s, w).table.Keys == s.table.Keys
  {
  }

  lemma SpawnIsLower(c: Config, s: State, w: WorkerId, id: SessionId, rank: JobSubType -> nat, top: nat)
    requires Inv(c, s) && CanSpawn(c, s, w, id) && Ranked(c, rank, top)
    ensures Current(s, w) in s.table && OnSpawn(c, s, w, id).table.Keys == s.table.Keys + {id}
    ensures rank(OnSpawn(c, s, w, id).table[id].request.subType) < rank(s.table[Current(s, w)].request.subType)
  {
    CurrentIsStored(c, s, w);
  }

  lemma WeightsFall(c: Config, s: State, s': State, mover: SessionId, rank: JobSubType -> nat, r: nat)
    requires Lighter(c, s, s', mover) && r >= rank(s.table[mover].request.subType)
    requires forall id :: id in s'.table && id !in s.table ==> rank(s'.table[id].request.subType) < r
    ensures Left(c, s', rank, r) <= Left(c, s, rank, r)
    ensures r == rank(s.table[mover].request.subType) ==> Left(c, s', rank, r) < Left(c, s, rank, r)
  {
    var a, b := Weights(c, s', rank, r), Weights(c, s, rank, r);
    forall id ensures id in a <==> id in b { }
    forall id | id in a ensures a[id] <= b[id] {
      assert Weight(c, s', id) <= Weight(c, s, id);
    }
    if r == rank(s.table[mover].request.subType) {
      assert mover in a && a[mover] < b[mover];
    }
    TotalCompares(a, b);
  }

  lemma VectorFalls(c: Config, s: State, s': State, rank: JobSubType -> nat, top: nat, r: nat)
    requires r <= top && Left(c, s', rank, r) < Left(c, s, rank, r)
    requires forall q: nat :: r <= q ==> Left(c, s', rank, q) <= Left(c, s, rank, q)
    ensures Below(WorkLeft(c, s', rank, top), WorkLeft(c, s, rank, top))
  {
    assert DropsAt(WorkLeft(c, s', rank, top), WorkLeft(c, s, rank, top), top - r);
  }

  lemma HigherRanksFall(c: Config, s: State, s': State, mover: SessionId, rank: JobSubType -> nat, r: nat)
    requires Lighter(c, s, s', mover) && r == rank(s.table[mover].request.subType)
    requires forall id :: id in s'.table && id !in s.table ==> rank(s'.table[id].request.subType) < r
    ensures forall q: nat :: r <= q ==> Left(c, s', rank, q) <= Left(c, s, rank, q)
    ensures Left(c, s', rank, r) < Left(c, s, rank, r)
  {
    forall q: nat | r <= q ensures Left(c, s', rank, q) <= Left(c, s, rank, q) {
      WeightsFall(c, s, s', mover, rank, q);
    }
    WeightsFall(c, s, s', mover, rank, r);
  }

  /** Every draining step takes the work-left vector down in the lexicographic order. */
  lemma StepDescends(c: Config, s: State, step: Step, rank: JobSubType -> nat, top: nat)
    requires Inv(c, s) && Enabled(c, s, step) && Draining(step) && Ranked(c, rank, top)
    ensures Below(WorkLeft(c, Apply(c, s, step), rank, top), WorkLeft(c, s, rank, top))
  {
    var s', mover := Apply(c, s, step), Mover(s, step);
    StepLighter(c, s, step);
    var r := rank(s.table[mover].request.subType);
    forall id | id in s'.table && id !in s.table ensures rank(s'.table[id].request.subType) < r {
      NewAreLower(c, s, step, rank, top, id);
    }
    HigherRanksFall(c, s, s', mover, rank, r);
    VectorFalls(c, s, s', rank, top, r);
  }

  ghost predicate DrainStep(c: Config, s: State, step: Step, s': State) {
    Draining(step) && Enabled(c, s, step) && s' == Apply(c, s, step)
  }

  ghost predicate DrainsAt(c: Config, states: nat -> State, steps: nat -> Step, n: nat) {
    DrainStep(c, states(n), steps(n), states(n + 1))
  }

  /** Draining always ends: no schedule of submitters and workers goes on for ever. */
  lemma DrainingEnds(c: Config, rank: JobSubType -> nat, top: nat, states: nat -> State, steps: nat -> Step)
    requires Inv(c, states(0)) && Ranked(c, rank, top)
    ensures exists n: nat :: !DrainsAt(c, states, steps, n)
  {
    var f: nat -> seq<nat> := (n: nat) => WorkLeft(c, states(n), rank, top);
    assert forall n: nat :: f(n) == WorkLeft(c, states(n), rank, top);
    DescentStops(top + 1, f);
    var n: nat :| !Below(f(n + 1), f(n));
    if forall m: nat :: m <= n ==> DrainsAt(c, states, steps, m) {
      InvAlong(c, states, steps, n);
      assert DrainsAt(c, states, steps, n);
      StepDescends(c, states(n), steps(n), rank, top);
    }
  }

  lemma {:induction false} InvAlong(c: Config, states: nat -> State, steps: nat -> Step, n: nat)
    requires Inv(c, states(0))
    requires forall m: nat :: m < n ==> DrainsAt(c, states, steps, m)
    ensures Inv(c, states(n))
  {
    if n > 0 {
      InvAlong(c, states, steps, n - 1);
      assert DrainsAt(c, states, steps, n - 1);
      DrainKeepsInv(c, states(n - 1), steps(n - 1), states(n - 1 + 1));
    }
  }

  lemma DrainKeepsInv(c: Config, s: State, step: Step, s': State)
    requires Inv(c, s) && DrainStep(c, s, step, s')
    ensures Inv(c, s')
  {
    StepKeepsInv(c, s, step);
  }

  // ----- nothing is stranded -----

  ghost predicate NoneAbandoned(s: State) {
    forall id :: id in s.place ==> !s.place[id].Abandoned?
  }

  lemma InsideBatchAbandonsNone(c: Config, s: State, w: WorkerId)
    requires NoneAbandoned(s) && Busy(s, w)
    ensures NoneAbandoned(OnMarkDequeued(s, w)) && NoneAbandoned(OnGet(s, w))
    ensures s.workers[w].phase.AtStart? ==> NoneAbandoned(OnMarkInProgress(c, s, w))
    ensures s.workers[w].phase.AtFinish? ==> NoneAbandoned(OnFinish(s, w))
  {
  }

  /** Only a stopping worker abandons sessions. */
  lemma NoStopAbandonsNone(c: Config, s: State, step: Step)
    requires NoneAbandoned(s) && Enabled(c, s, step) && !step.Stop?
    ensures NoneAbandoned(Apply(c, s, step))
  {
    if step.MarkDequeued? || step.Get? || step.MarkInProgress? || step.Finish? {
      InsideBatchAbandonsNone(c, s, step.w);
    } else {
      OthersAbandonNone(c, s, step);
    }
  }

  lemma OthersAbandonNone(c: Config, s: State, step: Step)
    requires NoneAbandoned(s) && Enabled(c, s, step) && !step.Stop?
    requires !step.MarkDequeued? && !step.Get? && !step.MarkInProgress? && !step.Finish?
    ensures NoneAbandoned(Apply(c, s, step))
  {
  }

  /** Once the queue and the batches are empty, every sent session has a terminal status. */
  lemma EmptyMeansFinished(c: Config, s: State, id: SessionId)
    requires Inv(c, s) && s.queue == multiset{} && forall w :: w in s.workers ==> !Busy(s, w)
    requires id in s.table
    ensures id in s.unsent || s.place[id].Abandoned? || Terminal(s.table[id].status)
  {
    TerminalIsDecided(c, s, id);
    assert s.place[id].Slot? ==> InSlot(s.workers, s.place[id].worker, s.place[id].index, id);
    assert s.place[id].Submitting? ==> InHand(s.workers, s.place[id].parent, id);
  }

  lemma {:induction false} LongerThanAll(ids: set<SessionId>) returns (n: nat)
    ensures forall id :: id in ids ==> |id| < n
  {
    if ids == {} {
      n := 0;
    } else {
      var id :| id in ids;
      n := LongerThanAll(ids - {id});
      n := if |id| < n then n else |id| + 1;
    }
  }

  /** A worker inside a batch always has a next step. */
  lemma BusyCanStep(c: Config, s: State, w: WorkerId) returns (step: Step)
    requires Inv(c, s) && w in s.workers && Busy(s, w)
    ensures Draining(step) && Enabled(c, s, step)
  {
    IsAtWork(c, s, w);
    match s.workers[w].phase
    case AtDequeue => step := MarkDequeued(w);
    case AtGet => step := Get(w);
    case AtStart(_) => step := MarkInProgress(w);
    case AtFinish(_) => step := Finish(w);
    case Running(_, children, unsent) =>
      if unsent.Some? {
        step := SendSpawned(w);
      } else if |children| == |Submits(c, s, w)| {
        step := HandlerEnds(w);
      } else {
        var n := LongerThanAll(s.table.Keys);
        var unused: SessionId := seq(n, i => 'x');
        assert unused !in s.table;
        step := Spawn(w, unused);
      }
  }

  /** With a live worker, draining gets stuck only when every session that exists is finished. */
  lemma StuckMeansFinished(c: Config, s: State, live: WorkerId)
    requires Inv(c, s) && NoneAbandoned(s) && c.batchSize >= 1
    requires live in s.workers && !s.workers[live].stopped
    requires forall step :: Draining(step) ==> !Enabled(c, s, step)
    ensures forall id :: id in s.table ==> Terminal(s.table[id].status)
  {
    forall w | w in s.workers ensures !Busy(s, w) {
      if Busy(s, w) {
        var step := BusyCanStep(c, s, w);
      }
    }
    if id :| id in s.queue {
      assert multiset([id]) <= s.queue;
      assert Enabled(c, s, Fetch(live, [id]));
    }
    forall id | id in s.table ensures Terminal(s.table[id].status) {
      if id in s.unsent {
        assert Enabled(c, s, Send(id));
      }
      EmptyMeansFinished(c, s, id);
    }
  }

  // ----- draining to the end -----

  ghost predicate CanDrain(c: Config, s: State) {
    exists step :: Draining(step) && Enabled(c, s, step)
  }

  ghost function SomeDrainStep(c: Config, s: State): (step: Step)
    requires CanDrain(c, s)
    ensures Draining(step) && Enabled(c, s, step)
  {
    var step :| Draining(step) && Enabled(c, s, step);
    step
  }

  /** One draining step, if there is any. */
  ghost function DrainOnce(c: Config, s: State): State {
    if CanDrain(c, s) then Apply(c, s, SomeDrainStep(c, s)) else s
  }

  ghost function DrainState(c: Config, s: State, n: nat): State {
    if n == 0 then s else DrainOnce(c, DrainState(c, s, n - 1))
  }

  ghost predicate DrainsTo(c: Config, s: State, run: seq<Step>, s': State) {
    ValidRun(c, s, run) && After(c, s, run) == s' && forall step :: step in run ==> Draining(step)
  }

  lemma DrainsOnce(c: Config, s: State, run: seq<Step>, t: State) returns (more: seq<Step>)
    requires DrainsTo(c, s, run, t)
    ensures DrainsTo(c, s, more, DrainOnce(c, t))
  {
    if CanDrain(c, t) {
      RunThenStep(c, s, run, SomeDrainStep(c, t));
      more := run + [SomeDrainStep(c, t)];
    } else {
      more := run;
    }
  }

  lemma {:induction false} DrainRun(c: Config, s: State, n: nat) returns (run: seq<Step>)
    ensures DrainsTo(c, s, run, DrainState(c, s, n))
    decreases n
  {
    if n == 0 {
      run := [];
    } else {
      var init := DrainRun(c, s, n - 1);
      run := DrainsOnce(c, s, init, DrainState(c, s, n - 1));
    }
  }

  /** Worker `w` has not stopped. */
  predicate Live(s: State, w: WorkerId) {
    w in s.workers && !s.workers[w].stopped
  }

  lemma DrainKeepsLive(c: Config, s: State, step: Step, live: WorkerId)
    requires Enabled(c, s, step) && Draining(step) && Live(s, live)
    ensures Live(Apply(c, s, step), live)
  {
    match step
    case Get(w) => ReadingKeepsLive(s, w, live);
    case MarkDequeued(w) => ReadingKeepsLive(s, w, live);
    case MarkInProgress(w) => StartKeepsLive(c, s, w, live);
    case Finish(w) => FinishKeepsLive(s, w, live);
    case _ =>
  }

  lemma ReadingKeepsLive(s: State, w: WorkerId, live: WorkerId)
    requires Busy(s, w) && Live(s, live)
    ensures Live(OnGet(s, w), live) && Live(OnMarkDequeued(s, w), live)
  {
  }

  lemma StartKeepsLive(c: Config, s: State, w: WorkerId, live: WorkerId)
    requires Busy(s, w) && s.workers[w].phase.AtStart? && Live(s, live)
    ensures Live(OnMarkInProgress(c, s, w), live)
  {
  }

  lemma FinishKeepsLive(s: State, w: WorkerId, live: WorkerId)
    requires Busy(s, w) && s.workers[w].phase.AtFinish? && Live(s, live)
    ensures Live(OnFinish(s, w), live)
  {
  }

  /** Nothing is lost yet, and some worker is there to do what is left. */
  ghost predicate Drainable(c: Config, s: State, live: WorkerId) {
    Inv(c, s) && NoneAbandoned(s) && Live(s, live)
  }

  lemma DrainOnceKeeps(c: Config, s: State, live: WorkerId)
    requires Drainable(c, s, live)
    ensures Drainable(c, DrainOnce(c, s), live)
  {
    if CanDrain(c, s) {
      var step := SomeDrainStep(c, s);
      StepKeepsInv(c, s, step);
      NoStopAbandonsNone(c, s, step);
      DrainKeepsLive(c, s, step, live);
    }
  }

  lemma {:induction false} DrainKeepsAll(c: Config, s: State, n: nat, live: WorkerId)
    requires Drainable(c, s, live)
    ensures Drainable(c, DrainState(c, s, n), live)
    decreases n
  {
    if n > 0 {
      DrainKeepsAll(c, s, n - 1, live);
      DrainOnceKeeps(c, DrainState(c, s, n - 1), live);
    }
  }

  /** However draining goes on, it gets stuck. */
  lemma DrainGetsStuck(c: Config, s: State, rank: JobSubType -> nat, top: nat) returns (n: nat)
    requires Inv(c, s) && Ranked(c, rank, top)
    ensures !CanDrain(c, DrainState(c, s, n))
  {
    var states: nat -> State := (n: nat) => DrainState(c, s, n);
    var steps: nat -> Step :=
      (n: nat) => if CanDrain(c, DrainState(c, s, n)) then SomeDrainStep(c, DrainState(c, s, n)) else Stop(0);
    DrainingEnds(c, rank, top, states, steps);
    n :| !DrainsAt(c, states, steps, n);
    assert states(n + 1) == DrainOnce(c, states(n));
  }

  /** From every safe state in which nothing is lost yet, with a live worker and handlers that submit lower ranks
      only, some finite run without stops and outside submissions makes every session that exists terminal. */
  lemma DrainsDry(c: Config, s: State, rank: JobSubType -> nat, top: nat, live: WorkerId) returns (run: seq<Step>)
    requires Drainable(c, s, live) && Ranked(c, rank, top) && c.batchSize >= 1
    ensures ValidRun(c, s, run) && forall step :: step in run ==> Draining(step)
    ensures forall id :: id in s.table ==> id in After(c, s, run).table
    ensures forall id :: id in After(c, s, run).table ==> Terminal(After(c, s, run).table[id].status)
  {
    var n := DrainGetsStuck(c, s, rank, top);
    run := DrainRun(c, s, n);
    DrainKeepsAll(c, s, n, live);
    StuckMeansFinished(c, DrainState(c, s, n), live);
    RunKeepsSessions(c, s, run);
  }

  lemma {:induction false} RunKeepsSessions(c: Config, s: State, run: seq<Step>)
    requires Inv(c, s) && ValidRun(c, s, run)
    ensures forall id :: id in s.table ==> id in After(c, s, run).table
    decreases |run|
  {
    if run != [] {
      forall id | id in s.table ensures id in Apply(c, s, run[0]).table {
        StepIsolates(c, s, run[0], id);
      }
      StepKeepsInv(c, s, run[0]);
      RunKeepsSessions(c, Apply(c, s, run[0]), run[1..]);
    }
  }
}
