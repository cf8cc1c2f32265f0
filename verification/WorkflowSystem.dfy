/** The workflow manager and the session watchers running against the job protocol.

    The server takes protocol steps; a fetch is asked for, answered with the row of one moment, and arrives at a
    later one. What the clients show is right only because rows never go back and terminal rows never change. */
module WorkflowSystem {
  import opened Common
  import opened JobModel
  import JobProtocol
  import JobInvariant
  import JobSafety
  import opened Workflow

  /** The field `delivered` only records whether the success of the newest session has been handled since it was
      appended. */
  datatype System = System(
    server: JobProtocol.State, client: Client, delivered: bool, watches: map<SessionId, Watch>)

  datatype ClientEvent =
    | Poll(index: nat)
    | Answer(id: SessionId)
    | Deliver(index: nat)
    | Redeliver(index: nat) // the success callback runs again, with the data there are
    | Fail(index: nat)
    | Render
    | RefetchAll

  datatype WatchEvent = PollSession | AnswerSession | Show | FailSession | Refetch

  datatype Event =
    | OnServer(step: JobProtocol.Step)
    | OnClient(event: ClientEvent)
    | Mount(id: SessionId, enabled: bool, refetchOnError: bool)
    | OnWatch(id: SessionId, watchEvent: WatchEvent)

  function QueryAt(client: Client, index: nat): Query
    requires index < |client.list|
  {
    QueryOf(client, client.list[index].sessionId)
  }

  predicate ClientCan(table: Table, client: Client, event: ClientEvent) {
    match event
    case Poll(index) => index < |client.list|
    case Answer(id) => id in table && QueryOf(client, id).request.Asked?
    case Deliver(index) => index < |client.list| && QueryAt(client, index).request.Answered?
    case Redeliver(index) => index < |client.list| && QueryAt(client, index).data.Some?
    case Fail(index) => index < |client.list| && !QueryAt(client, index).request.NoRequest?
    case Render => true
    case RefetchAll => true
  }

  function ClientDo(steps: seq<WorkflowStep>, table: Table, client: Client, event: ClientEvent): Client
    requires ClientCan(table, client, event)
  {
    match event
    case Poll(index) => Polled(client, index)
    case Answer(id) => WithQuery(client, id, QueryOf(client, id).(request := Answered(table[id])))
    case Deliver(index) => Delivered(steps, client, index, QueryAt(client, index).request.row)
    case Redeliver(index) => Decided(steps, client, index, QueryAt(client, index).data.value)
    case Fail(index) => Failed(client, index)
    case Render => Rendered(client)
    case RefetchAll => Refetched(client)
  }

  function IsDelivered(client: Client, delivered: bool, event: ClientEvent): bool {
    match event
    case Deliver(index) =>
      delivered || (index + 1 == |client.list| && QueryAt(client, index).request.Answered? &&
                    QueryAt(client, index).request.row.status == SUCCEEDED)
    case Redeliver(index) =>
      delivered || (index + 1 == |client.list| && QueryAt(client, index).data.Some? &&
                    QueryAt(client, index).data.value.status == SUCCEEDED)
    case Render => delivered && client.pending.None?
    case _ => delivered
  }

  predicate WatchCan(table: Table, id: SessionId, watch: Watch, event: WatchEvent) {
    match event
    case PollSession => true
    case AnswerSession => id in table && watch.query.request.Asked?
    case Show => watch.query.request.Answered?
    case FailSession => !watch.query.request.NoRequest?
    case Refetch => true
  }

  function WatchDo(table: Table, id: SessionId, watch: Watch, event: WatchEvent): Watch
    requires WatchCan(table, id, watch, event)
  {
    match event
    case PollSession => WatchPolled(watch)
    case AnswerSession => watch.(query := watch.query.(request := Answered(table[id])))
    case Show => WatchReceived(watch, watch.query.request.row)
    case FailSession => WatchFailed(watch)
    case Refetch => WatchRefetched(watch)
  }

  ghost predicate Can(c: JobProtocol.Config, sys: System, event: Event) {
    match event
    case OnServer(step) => JobProtocol.Enabled(c, sys.server, step)
    case OnClient(event) => ClientCan(sys.server.table, sys.client, event)
    case Mount(id, _, _) => id !in sys.watches
    case OnWatch(id, event) => id in sys.watches && WatchCan(sys.server.table, id, sys.watches[id], event)
  }

  ghost function Do(c: JobProtocol.Config, steps: seq<WorkflowStep>, sys: System, event: Event): System
    requires Can(c, sys, event)
  {
    match event
    case OnServer(step) => sys.(server := JobProtocol.Apply(c, sys.server, step))
    case OnClient(event) =>
      sys.(client := ClientDo(steps, sys.server.table, sys.client, event),
           delivered := IsDelivered(sys.client, sys.delivered, event))
    case Mount(id, enabled, refetchOnError) =>
      sys.(watches := sys.watches[id := MountedWatch(enabled, refetchOnError)])
    case OnWatch(id, event) =>
      sys.(watches := sys.watches[id := WatchDo(sys.server.table, id, sys.watches[id], event)])
  }

  // ----- rows over time -----

  /** A row at an earlier and at a later moment: its request stays, its status never goes back, and once it is
      terminal nothing changes. */
  predicate Later(earlier: Session, later: Session) {
    && later.request == earlier.request
    && JobSafety.Rank(earlier.status) <= JobSafety.Rank(later.status)
    && (Terminal(earlier.status) ==> later == earlier)
  }

  ghost predicate Evolves(a: Table, b: Table) {
    forall id :: id in a ==> id in b && Later(a[id], b[id])
  }

  /** A row somebody has read some time ago. */
  predicate Seen(table: Table, id: SessionId, job: Session) {
    id in table && Later(job, table[id])
  }

  lemma ServerEvolves(c: JobProtocol.Config, s: JobProtocol.State, step: JobProtocol.Step)
    requires JobInvariant.Inv(c, s) && JobProtocol.Enabled(c, s, step)
    ensures Evolves(s.table, JobProtocol.Apply(c, s, step).table)
  {
    var table, table' := s.table, JobProtocol.Apply(c, s, step).table;
    forall id | id in table ensures id in table' && Later(table[id], table'[id]) {
      RowEvolves(c, s, step, id);
    }
  }

  lemma RowEvolves(c: JobProtocol.Config, s: JobProtocol.State, step: JobProtocol.Step, id: SessionId)
    requires JobInvariant.Inv(c, s) && JobProtocol.Enabled(c, s, step) && id in s.table
    ensures var table' := JobProtocol.Apply(c, s, step).table; id in table' && Later(s.table[id], table'[id])
  {
    JobSafety.StepIsolates(c, s, step, id);
    JobSafety.StatusOnlyAdvances(c, s, step, id);
  }

  // ----- queries -----

  /** What a query shows and what is under way for it have been read in this order. */
  predicate QueryOk(table: Table, id: SessionId, query: Query) {
    && (query.data.Some? ==> Seen(table, id, query.data.value))
    && (query.request.Answered? ==> Seen(table, id, query.request.row))
    && (query.request.Answered? && query.data.Some? ==> Later(query.data.value, query.request.row))
  }

  /** What a query shows goes on only to later rows. */
  predicate Advances(before: Query, after: Query) {
    before.data.Some? ==> after.data.Some? && Later(before.data.value, after.data.value)
  }

  lemma QuerySurvives(a: Table, b: Table, id: SessionId, query: Query)
    requires QueryOk(a, id, query) && Evolves(a, b)
    ensures QueryOk(b, id, query)
  {
  }

  lemma AnswerKeepsQuery(table: Table, id: SessionId, query: Query)
    requires QueryOk(table, id, query) && id in table
    ensures QueryOk(table, id, query.(request := Answered(table[id])))
  {
  }

  lemma ReceiveKeepsQuery(table: Table, id: SessionId, query: Query)
    requires QueryOk(table, id, query) && query.request.Answered?
    ensures QueryOk(table, id, Received(query.request.row)) && Advances(query, Received(query.request.row))
  {
  }

  // ----- watchers -----

  /** A watcher that shows a terminal status does not poll. */
  predicate WatchOk(table: Table, id: SessionId, watch: Watch) {
    && QueryOk(table, id, watch.query)
    && (ShowsTerminal(watch) ==> !watch.isAutoRefetching)
  }

  predicate ShowsTerminal(watch: Watch) {
    watch.query.data.Some? && Terminal(watch.query.data.value.status)
  }

  lemma WatchKeepsOk(table: Table, id: SessionId, watch: Watch, event: WatchEvent)
    requires WatchOk(table, id, watch) && WatchCan(table, id, watch, event)
    ensures WatchOk(table, id, WatchDo(table, id, watch, event))
    ensures Advances(watch.query, WatchDo(table, id, watch, event).query)
  {
    match event
    case AnswerSession => AnswerKeepsQuery(table, id, watch.query);
    case Show => ReceiveKeepsQuery(table, id, watch.query);
    case _ =>
  }

  /** Nothing but a refetch by hand does anything to a watcher that has shown a terminal status. */
  lemma StoppedStaysStill(table: Table, id: SessionId, watch: Watch, event: WatchEvent)
    requires WatchOk(table, id, watch) && WatchCan(table, id, watch, event)
    requires ShowsTerminal(watch) && watch.query.request.NoRequest? && event != Refetch
    ensures WatchDo(table, id, watch, event) == watch
  {
  }

  // ----- the workflow manager -----

  ghost predicate WellFormed(steps: seq<WorkflowStep>) {
    steps != [] && forall i :: 0 <= i < |steps| ==> (steps[i].nextStepGenerator.None? <==> i == |steps| - 1)
  }

  /** `b` is the generator of the step applied to the successful result of `a`. */
  ghost predicate Follows(step: WorkflowStep, table: Table, a: SessionId, b: SessionId) {
    && step.nextStepGenerator.Some?
    && a in table && table[a].status == SUCCEEDED && table[a].result.Some?
    && step.nextStepGenerator.value(table[a].result.value) == Some(b) && b != ""
  }

  ghost predicate ChainOk(steps: seq<WorkflowStep>, start: SessionId, table: Table, ids: seq<SessionId>) {
    && 0 < |ids| <= |steps| && ids[0] == start
    && forall i :: 0 <= i < |ids| - 1 ==> Follows(steps[i], table, ids[i], ids[i + 1])
  }

  ghost predicate QueriesOk(table: Table, client: Client) {
    forall id :: QueryOk(table, id, QueryOf(client, id))
  }

  ghost predicate ListsOk(steps: seq<WorkflowStep>, start: SessionId, table: Table, client: Client) {
    && ChainOk(steps, start, table, Ids(client.list))
    && (client.pending.Some? ==>
        && |client.pending.value| == |client.list| + 1
        && Ids(client.list) <= Ids(client.pending.value)
        && ChainOk(steps, start, table, Ids(client.pending.value)))
  }

  /** Only a step with a generator can have an error. */
  predicate ErrorsOk(steps: seq<WorkflowStep>, list: seq<SessionInfo>) {
    forall i :: 0 <= i < |list| && list[i].workflowError.Some? ==> i < |steps| && steps[i].nextStepGenerator.Some?
  }

  /** What handling the success of the newest session leads to. */
  predicate Settled(steps: seq<WorkflowStep>, client: Client) {
    && client.list != []
    && (Complete(steps, client) || client.pending.Some? || client.list[|client.list| - 1].workflowError.Some?)
  }

  ghost predicate ClientOk(steps: seq<WorkflowStep>, start: SessionId, table: Table, client: Client, delivered: bool) {
    && ListsOk(steps, start, table, client)
    && QueriesOk(table, client)
    && ErrorsOk(steps, client.list)
    && (client.pending.Some? ==> ErrorsOk(steps, client.pending.value))
    && (delivered ==> Settled(steps, client))
  }

  lemma ClientSurvives(steps: seq<WorkflowStep>, start: SessionId, a: Table, b: Table, client: Client, delivered: bool)
    requires ClientOk(steps, start, a, client, delivered) && Evolves(a, b)
    ensures ClientOk(steps, start, b, client, delivered)
  {
    forall id ensures QueryOk(b, id, QueryOf(client, id)) {
      QuerySurvives(a, b, id, QueryOf(client, id));
    }
  }

  /** The callback keeps the list a chain, whichever row that has been read it runs with, and never misses a step. */
  lemma DecisionKeepsOk(steps: seq<WorkflowStep>, start: SessionId, table: Table, client: Client, delivered: bool,
                        index: nat, job: Session)
    requires WellFormed(steps) && ClientOk(steps, start, table, client, delivered)
    requires index < |client.list| && Seen(table, client.list[index].sessionId, job)
    ensures ClientOk(steps, start, table, Decided(steps, client, index, job),
                     delivered || (index + 1 == |client.list| && job.status == SUCCEEDED))
    ensures Ids(Decided(steps, client, index, job).list) == Ids(client.list)
    ensures !Decide(steps, |client.list|, index, job).Throw?
  {
    var client' := Decided(steps, client, index, job);
    assert Ids(client'.list) == Ids(client.list);
    forall id ensures QueryOk(table, id, QueryOf(client', id)) {
      assert QueryOf(client', id) == QueryOf(client, id);
    }
    match Decide(steps, |client.list|, index, job)
    case Append(id) =>
      assert Ids(client.list + [SessionInfo(id, None)]) == Ids(client.list) + [id];
      assert Follows(steps[index], table, client.list[index].sessionId, id);
    case _ =>
  }

  /** Storing an answer, a failure or a request keeps everything about the lists. */
  lemma QueryKeepsOk(steps: seq<WorkflowStep>, start: SessionId, table: Table, client: Client, delivered: bool,
                     id: SessionId, query: Query)
    requires ClientOk(steps, start, table, client, delivered) && QueryOk(table, id, query)
    ensures ClientOk(steps, start, table, WithQuery(client, id, query), delivered)
  {
    forall x ensures QueryOk(table, x, QueryOf(WithQuery(client, id, query), x)) {
      assert x != id ==> QueryOf(WithQuery(client, id, query), x) == QueryOf(client, x);
    }
  }

  lemma DeliveryKeepsOk(steps: seq<WorkflowStep>, start: SessionId, table: Table, client: Client, delivered: bool,
                        index: nat)
    requires WellFormed(steps) && ClientOk(steps, start, table, client, delivered)
    requires ClientCan(table, client, Deliver(index))
    ensures ClientOk(steps, start, table, ClientDo(steps, table, client, Deliver(index)),
                     IsDelivered(client, delivered, Deliver(index)))
    ensures Ids(ClientDo(steps, table, client, Deliver(index)).list) == Ids(client.list)
  {
    var id, query := client.list[index].sessionId, QueryAt(client, index);
    ReceiveKeepsQuery(table, id, query);
    QueryKeepsOk(steps, start, table, client, delivered, id, Received(query.request.row));
    DecisionKeepsOk(steps, start, table, WithQuery(client, id, Received(query.request.row)), delivered, index,
                    query.request.row);
  }

  lemma RefetchKeepsOk(steps: seq<WorkflowStep>, start: SessionId, table: Table, client: Client, delivered: bool)
    requires ClientOk(steps, start, table, client, delivered)
    ensures ClientOk(steps, start, table, Refetched(client), delivered) && Refetched(client).list == client.list
  {
    var client', n := client.(enabledRefetch := true), |client.list|;
    forall id ensures QueryOk(table, id, QueryOf(Refetched(client), id)) {
      AskedAgainQueries(client', n, id);
      assert QueryOf(client', id) == QueryOf(client, id);
    }
    AskedAgainQueries(client', n, "");
  }

  lemma RenderKeepsOk(steps: seq<WorkflowStep>, start: SessionId, table: Table, client: Client, delivered: bool)
    requires ClientOk(steps, start, table, client, delivered)
    ensures ClientOk(steps, start, table, Rendered(client), delivered && client.pending.None?)
    ensures Ids(client.list) <= Ids(Rendered(client).list)
  {
    forall id ensures QueryOk(table, id, QueryOf(Rendered(client), id)) {
      assert QueryOf(Rendered(client), id) == QueryOf(client, id);
    }
  }

  lemma FailureKeepsOk(steps: seq<WorkflowStep>, start: SessionId, table: Table, client: Client, delivered: bool,
                       index: nat)
    requires ClientOk(steps, start, table, client, delivered) && index < |client.list|
    ensures ClientOk(steps, start, table, Failed(client, index), delivered)
  {
    var id := client.list[index].sessionId;
    QueryKeepsOk(steps, start, table, client, delivered, id, Broken(QueryOf(client, id)));
    forall x ensures QueryOk(table, x, QueryOf(Failed(client, index), x)) {
      assert QueryOf(Failed(client, index), x) == QueryOf(WithQuery(client, id, Broken(QueryOf(client, id))), x);
    }
  }

  /** Every event of the hook keeps the list a chain, and only ever extends it. */
  lemma ClientKeepsOk(steps: seq<WorkflowStep>, start: SessionId, table: Table, client: Client, delivered: bool,
                      event: ClientEvent)
    requires WellFormed(steps) && ClientOk(steps, start, table, client, delivered) && ClientCan(table, client, event)
    ensures ClientOk(steps, start, table, ClientDo(steps, table, client, event), IsDelivered(client, delivered, event))
    ensures Ids(client.list) <= Ids(ClientDo(steps, table, client, event).list)
  {
    match event
    case Poll(index) =>
      var id := client.list[index].sessionId;
      QueryKeepsOk(steps, start, table, client, delivered, id, QueryOf(client, id).(request := Asked));
    case Answer(id) =>
      AnswerKeepsQuery(table, id, QueryOf(client, id));
      QueryKeepsOk(steps, start, table, client, delivered, id, QueryOf(client, id).(request := Answered(table[id])));
    case Deliver(index) => DeliveryKeepsOk(steps, start, table, client, delivered, index);
    case Redeliver(index) =>
      DecisionKeepsOk(steps, start, table, client, delivered, index, QueryAt(client, index).data.value);
    case Fail(index) => FailureKeepsOk(steps, start, table, client, delivered, index);
    case Render => RenderKeepsOk(steps, start, table, client, delivered);
    case RefetchAll => RefetchKeepsOk(steps, start, table, client, delivered);
  }

  // ----- the system -----

  /** A safe server and consistent clients. */
  ghost predicate Safe(c: JobProtocol.Config, steps: seq<WorkflowStep>, start: SessionId, sys: System) {
    && WellFormed(steps)
    && JobInvariant.Inv(c, sys.server)
    && ClientOk(steps, start, sys.server.table, sys.client, sys.delivered)
    && (forall id :: id in sys.watches ==> WatchOk(sys.server.table, id, sys.watches[id]))
  }

  /** Rows and what the watchers show go on to later rows only, and the resolved list is only extended. */
  ghost predicate Progresses(sys: System, sys': System) {
    && Evolves(sys.server.table, sys'.server.table)
    && Ids(sys.client.list) <= Ids(sys'.client.list)
    && (forall id :: id in sys.watches ==>
          id in sys'.watches && Advances(sys.watches[id].query, sys'.watches[id].query))
  }

  lemma ServerKeepsSafe(c: JobProtocol.Config, steps: seq<WorkflowStep>, start: SessionId, sys: System,
                        step: JobProtocol.Step)
    requires Safe(c, steps, start, sys) && JobProtocol.Enabled(c, sys.server, step)
    ensures var sys' := sys.(server := JobProtocol.Apply(c, sys.server, step));
      Safe(c, steps, start, sys') && Progresses(sys, sys')
  {
    var table, table' := sys.server.table, JobProtocol.Apply(c, sys.server, step).table;
    ServerEvolves(c, sys.server, step);
    JobSafety.StepKeepsInv(c, sys.server, step);
    ClientSurvives(steps, start, table, table', sys.client, sys.delivered);
    forall id | id in sys.watches ensures WatchOk(table', id, sys.watches[id]) {
      QuerySurvives(table, table', id, sys.watches[id].query);
    }
  }

  /** Every event of server, hook or watcher keeps the system safe and takes nothing back. */
  lemma EventKeepsOk(c: JobProtocol.Config, steps: seq<WorkflowStep>, start: SessionId, sys: System, event: Event)
    requires Safe(c, steps, start, sys) && Can(c, sys, event)
    ensures Safe(c, steps, start, Do(c, steps, sys, event)) && Progresses(sys, Do(c, steps, sys, event))
  {
    match event
    case OnServer(step) => ServerKeepsSafe(c, steps, start, sys, step);
    case OnClient(_) => ClientKeepsSafe(c, steps, start, sys, event);
    case Mount(_, _, _) => MountKeepsSafe(c, steps, start, sys, event);
    case OnWatch(_, _) => WatchKeepsSafe(c, steps, start, sys, event);
  }

  lemma ClientKeepsSafe(c: JobProtocol.Config, steps: seq<WorkflowStep>, start: SessionId, sys: System, event: Event)
    requires Safe(c, steps, start, sys) && event.OnClient? && Can(c, sys, event)
    ensures Safe(c, steps, start, Do(c, steps, sys, event)) && Progresses(sys, Do(c, steps, sys, event))
  {
    ClientKeepsOk(steps, start, sys.server.table, sys.client, sys.delivered, event.event);
  }

  lemma MountKeepsSafe(c: JobProtocol.Config, steps: seq<WorkflowStep>, start: SessionId, sys: System, event: Event)
    requires Safe(c, steps, start, sys) && event.Mount? && Can(c, sys, event)
    ensures Safe(c, steps, start, Do(c, steps, sys, event)) && Progresses(sys, Do(c, steps, sys, event))
  {
  }

  lemma WatchKeepsSafe(c: JobProtocol.Config, steps: seq<WorkflowStep>, start: SessionId, sys: System, event: Event)
    requires Safe(c, steps, start, sys) && event.OnWatch? && Can(c, sys, event)
    ensures Safe(c, steps, start, Do(c, steps, sys, event)) && Progresses(sys, Do(c, steps, sys, event))
  {
    WatchKeepsOk(sys.server.table, event.id, sys.watches[event.id], event.watchEvent);
  }

  // ----- whole runs -----

  ghost predicate CanAll(c: JobProtocol.Config, steps: seq<WorkflowStep>, sys: System, events: seq<Event>)
    decreases |events|
  {
    events == [] || (Can(c, sys, events[0]) && CanAll(c, steps, Do(c, steps, sys, events[0]), events[1..]))
  }

  ghost function DoAll(c: JobProtocol.Config, steps: seq<WorkflowStep>, sys: System, events: seq<Event>): System
    requires CanAll(c, steps, sys, events)
    decreases |events|
  {
    if events == [] then sys else DoAll(c, steps, Do(c, steps, sys, events[0]), events[1..])
  }

  lemma ProgressesThrough(a: System, b: System, c: System)
    requires Progresses(a, b) && Progresses(b, c)
    ensures Progresses(a, c)
  {
  }

  /** In every reachable state the list is a chain of successful results, no longer than the workflow, that
      extends every earlier list, and nothing shown goes back. */
  lemma {:induction false} RunKeepsChain(c: JobProtocol.Config, steps: seq<WorkflowStep>, start: SessionId,
                                         sys: System, events: seq<Event>)
    requires Safe(c, steps, start, sys) && CanAll(c, steps, sys, events)
    ensures Safe(c, steps, start, DoAll(c, steps, sys, events)) && Progresses(sys, DoAll(c, steps, sys, events))
    decreases |events|
  {
    if events != [] {
      var sys1 := Do(c, steps, sys, events[0]);
      EventKeepsOk(c, steps, start, sys, events[0]);
      RunKeepsChain(c, steps, start, sys1, events[1..]);
      ProgressesThrough(sys, sys1, DoAll(c, steps, sys1, events[1..]));
    }
  }

  /** The hook mounts on a server that has just started. */
  function Mounted(workers: set<JobProtocol.WorkerId>, start: SessionId): System {
    System(JobProtocol.Init(workers), Workflow.Started(start), false, map[])
  }

  lemma MountedIsSafe(c: JobProtocol.Config, steps: seq<WorkflowStep>, start: SessionId,
                      workers: set<JobProtocol.WorkerId>)
    requires WellFormed(steps)
    ensures Safe(c, steps, start, Mounted(workers, start))
  {
    JobInvariant.InitEstablishes(c, workers);
  }

  /** From mounting on: the list starts with the starting id, each later id is the generator applied to the
      successful result before it, and there are never more ids than steps. */
  lemma MountedRunsAreChains(c: JobProtocol.Config, steps: seq<WorkflowStep>, start: SessionId,
                             workers: set<JobProtocol.WorkerId>, events: seq<Event>)
    requires WellFormed(steps) && CanAll(c, steps, Mounted(workers, start), events)
    ensures var sys := DoAll(c, steps, Mounted(workers, start), events);
      ChainOk(steps, start, sys.server.table, Ids(sys.client.list))
  {
    MountedIsSafe(c, steps, start, workers);
    RunKeepsChain(c, steps, start, Mounted(workers, start), events);
  }

  /** Complete and successful means that every step's job succeeded, now and in every later state. */
  lemma CompleteSuccessForever(c: JobProtocol.Config, steps: seq<WorkflowStep>, start: SessionId,
                               sys: System, events: seq<Event>, i: nat)
    requires Safe(c, steps, start, sys) && CanAll(c, steps, sys, events)
    requires Complete(steps, sys.client) && Success(sys.client) && i < |steps|
    ensures var sys' := DoAll(c, steps, sys, events); var id := sys.client.list[i].sessionId;
      && i < |sys'.client.list| && sys'.client.list[i].sessionId == id && Complete(steps, sys'.client)
      && id in sys'.server.table && sys'.server.table[id].status == SUCCEEDED
  {
    var id := sys.client.list[i].sessionId;
    assert QueryOk(sys.server.table, id, QueryOf(sys.client, id));
    RunKeepsChain(c, steps, start, sys, events);
    SameEntry(sys, DoAll(c, steps, sys, events), i);
  }

  lemma SameEntry(sys: System, sys': System, i: nat)
    requires Progresses(sys, sys') && i < |sys.client.list|
    ensures i < |sys'.client.list| && sys'.client.list[i].sessionId == sys.client.list[i].sessionId
  {
    assert Ids(sys.client.list)[i] == Ids(sys'.client.list)[i];
  }

  /** A watcher that has stopped on a terminal status: in every later state it shows exactly that row, which is
      still the stored one, and it does not poll; unless it is refetched by hand, nothing about it changes at all. */
  lemma StoppedWatcherIsFinal(c: JobProtocol.Config, steps: seq<WorkflowStep>, start: SessionId,
                              sys: System, events: seq<Event>, id: SessionId)
    requires Safe(c, steps, start, sys) && CanAll(c, steps, sys, events)
    requires id in sys.watches && ShowsTerminal(sys.watches[id])
    ensures var sys' := DoAll(c, steps, sys, events);
      && id in sys'.watches && id in sys'.server.table
      && sys'.watches[id].query.data == sys.watches[id].query.data == Some(sys'.server.table[id])
      && !sys'.watches[id].isAutoRefetching
      && (sys.watches[id].query.request.NoRequest? && OnWatch(id, Refetch) !in events ==>
          sys'.watches[id] == sys.watches[id])
  {
    var sys' := DoAll(c, steps, sys, events);
    RunKeepsChain(c, steps, start, sys, events);
    assert WatchOk(sys'.server.table, id, sys'.watches[id]);
    if sys.watches[id].query.request.NoRequest? && OnWatch(id, Refetch) !in events {
      StoppedUntouched(c, steps, start, sys, events, id);
    }
  }

  lemma {:induction false} StoppedUntouched(c: JobProtocol.Config, steps: seq<WorkflowStep>, start: SessionId,
                                            sys: System, events: seq<Event>, id: SessionId)
    requires Safe(c, steps, start, sys) && CanAll(c, steps, sys, events)
    requires id in sys.watches && ShowsTerminal(sys.watches[id]) && sys.watches[id].query.request.NoRequest?
    requires OnWatch(id, Refetch) !in events
    ensures var sys' := DoAll(c, steps, sys, events); id in sys'.watches && sys'.watches[id] == sys.watches[id]
    decreases |events|
  {
    if events != [] {
      EventKeepsOk(c, steps, start, sys, events[0]);
      if events[0].OnWatch? && events[0].id == id {
        StoppedStaysStill(sys.server.table, id, sys.watches[id], events[0].watchEvent);
      }
      StoppedUntouched(c, steps, start, Do(c, steps, sys, events[0]), events[1..], id);
    }
  }

  // ----- success and completeness -----

  /** Delivering a result again within one render changes nothing more. */
  lemma RedeliveryChangesNothing(steps: seq<WorkflowStep>, client: Client, index: nat, job: Session)
    requires index < |client.list|
    ensures var once := Delivered(steps, client, index, job);
      |once.list| == |client.list| && Decided(steps, once, index, job) == once
      && Delivered(steps, once, index, job) == once
  {
  }

  /** When the newest session is known to have succeeded, the workflow is complete exactly when nothing is left
      to decide; otherwise the next render appends one session, or the newest entry carries an error. */
  lemma SuccessSettles(steps: seq<WorkflowStep>, start: SessionId, table: Table, client: Client, delivered: bool,
                       job: Session)
    requires WellFormed(steps) && ClientOk(steps, start, table, client, delivered) && client.pending.None?
    requires job.status == SUCCEEDED
    ensures var last := |client.list| - 1; var decision := Decide(steps, |client.list|, last, job);
      var client' := Rendered(Delivered(steps, client, last, job));
      && (Complete(steps, client) <==> decision == Keep)
      && (decision.Append? <==> |client'.list| == |client.list| + 1)
      && (decision.Note? <==> !Complete(steps, client) && |client'.list| == |client.list|)
      && (decision.Note? ==> client'.list[last].workflowError.Some?)
  {
  }

  /** Once the success of the newest session has been handled and the list is up to date, the workflow is
      incomplete exactly when the newest entry carries an error. */
  lemma IncompleteIffError(c: JobProtocol.Config, steps: seq<WorkflowStep>, start: SessionId,
                           workers: set<JobProtocol.WorkerId>, events: seq<Event>)
    requires WellFormed(steps) && CanAll(c, steps, Mounted(workers, start), events)
    ensures var sys := DoAll(c, steps, Mounted(workers, start), events);
      && sys.client.list != []
      && (sys.delivered && sys.client.pending.None? ==>
          (!Complete(steps, sys.client) <==> sys.client.list[|sys.client.list| - 1].workflowError.Some?))
  {
    MountedIsSafe(c, steps, start, workers);
    RunKeepsChain(c, steps, start, Mounted(workers, start), events);
  }
}
