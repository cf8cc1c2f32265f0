/** The two client-side consumers of job sessions: the workflow manager, which follows a chain of jobs where
    each result names the next session, and the session watcher, which polls until a terminal status. */
module Workflow {
  import opened Common
  import opened JobModel

  type NextStepGenerator = Record -> Option<SessionId>

  /** Only the final step has no generator. */
  datatype WorkflowStep = WorkflowStep(nextStepGenerator: Option<NextStepGenerator>)

  datatype WorkflowError = MissingResultPayload | NoNextSessionId

  datatype SessionInfo = SessionInfo(sessionId: SessionId, workflowError: Option<WorkflowError>)

  /** The one request a query may have under way: sent, or answered by the server with a row that has not arrived. */
  datatype Request = NoRequest | Asked | Answered(row: Session)

  /** What react-query holds for one session. */
  datatype Query = Query(data: Option<Session>, isError: bool, isSuccess: bool, request: Request)

  const Unfetched := Query(None, false, false, NoRequest)

  function Received(job: Session): Query {
    Query(Some(job), false, true, NoRequest)
  }

  /** A failed fetch keeps the data there is. */
  function Broken(query: Query): Query {
    query.(isError := true, isSuccess := false, request := NoRequest)
  }

  /** `list` is the list the current render closed over; `pending` is what the next render will use. */
  datatype Client = Client(
    list: seq<SessionInfo>, pending: Option<seq<SessionInfo>>, enabledRefetch: bool, queries: map<SessionId, Query>)

  function Ids(list: seq<SessionInfo>): (ids: seq<SessionId>)
    ensures |ids| == |list| && forall i :: 0 <= i < |list| ==> ids[i] == list[i].sessionId
  {
    seq(|list|, i requires 0 <= i < |list| => list[i].sessionId)
  }

  function Started(startingSessionId: SessionId): Client {
    Client([SessionInfo(startingSessionId, None)], None, true, map[])
  }

  /** The session the next step of the workflow waits for, if the result names one. */
  function NextSession(generator: NextStepGenerator, result: Record): Option<SessionId> {
    match generator(result)
    case Some(id) => if id == "" then None else Some(id)
    case None => None
  }

  /** What a success callback decides about the list; it throws if the workflow has no step for the job. */
  datatype Decision = Keep | Note(error: WorkflowError) | Append(sessionId: SessionId) | Throw

  function Decide(steps: seq<WorkflowStep>, length: nat, index: nat, job: Session): Decision {
    if job.status != SUCCEEDED || index + 1 < length then Keep
    else if index >= |steps| then Throw
    else if steps[index].nextStepGenerator.None? then Keep
    else if job.result.None? then Note(MissingResultPayload)
    else
      match NextSession(steps[index].nextStepGenerator.value, job.result.value)
      case None => Note(NoNextSessionId)
      case Some(id) => Append(id)
  }

  /** The success callback of the query at `index`. */
  function Decided(steps: seq<WorkflowStep>, client: Client, index: nat, job: Session): Client
    requires index < |client.list|
  {
    match Decide(steps, |client.list|, index, job)
    case Keep => client
    case Note(error) => client.(list := client.list[index := client.list[index].(workflowError := Some(error))])
    case Append(id) => client.(pending := Some(client.list + [SessionInfo(id, None)]))
    case Throw => client
  }

  function QueryOf(client: Client, id: SessionId): Query {
    if id in client.queries then client.queries[id] else Unfetched
  }

  function WithQuery(client: Client, id: SessionId, query: Query): Client {
    client.(queries := client.queries[id := query])
  }

  function Delivered(steps: seq<WorkflowStep>, client: Client, index: nat, job: Session): Client
    requires index < |client.list|
  {
    Decided(steps, WithQuery(client, client.list[index].sessionId, Received(job)), index, job)
  }

  function Failed(client: Client, index: nat): Client
    requires index < |client.list|
  {
    var id := client.list[index].sessionId;
    WithQuery(client, id, Broken(QueryOf(client, id))).(enabledRefetch := false)
  }

  function Rendered(client: Client): Client {
    if client.pending.Some? then client.(list := client.pending.value, pending := None) else client
  }

  const REFRESH_INTERVAL := 3000

  /** No interval means that polling stops. */
  function WorkflowInterval(enabledRefetch: bool, data: Option<Session>): Option<nat> {
    if !enabledRefetch || (data.Some? && Terminal(data.value.status)) then None else Some(REFRESH_INTERVAL)
  }

  /** A tick of the polling timer: a request, unless there is no timer or a request is under way. */
  function Polled(client: Client, index: nat): Client
    requires index < |client.list|
  {
    var id := client.list[index].sessionId;
    var query := QueryOf(client, id);
    if WorkflowInterval(client.enabledRefetch, query.data).Some? && query.request.NoRequest?
    then WithQuery(client, id, query.(request := Asked))
    else client
  }

  /** The queries of the first `n` entries asked anew, whatever was under way for them. */
  function AskedAgain(client: Client, n: nat): Client
    requires n <= |client.list|
    decreases n
    ensures AskedAgain(client, n).list == client.list
  {
    if n == 0 then client
    else
      var init, id := AskedAgain(client, n - 1), client.list[n - 1].sessionId;
      WithQuery(init, id, QueryOf(init, id).(request := Asked))
  }

  function Refetched(client: Client): Client {
    AskedAgain(client.(enabledRefetch := true), |client.list|)
  }

  /** Asking anew concerns exactly the listed sessions and loses no data. */
  lemma {:induction false} AskedAgainQueries(client: Client, n: nat, id: SessionId)
    requires n <= |client.list|
    ensures QueryOf(AskedAgain(client, n), id) ==
            if id in Ids(client.list)[..n] then QueryOf(client, id).(request := Asked) else QueryOf(client, id)
    ensures AskedAgain(client, n) == client.(queries := AskedAgain(client, n).queries)
    decreases n
  {
    if n > 0 {
      AskedAgainQueries(client, n - 1, id);
      assert Ids(client.list)[..n] == Ids(client.list)[..n - 1] + [client.list[n - 1].sessionId];
      if id == client.list[n - 1].sessionId {
        assert QueryOf(AskedAgain(client, n), id) == QueryOf(AskedAgain(client, n - 1), id).(request := Asked);
      } else {
        assert QueryOf(AskedAgain(client, n), id) == QueryOf(AskedAgain(client, n - 1), id);
      }
    }
  }

  predicate Complete(steps: seq<WorkflowStep>, client: Client) {
    |client.list| == |steps|
  }

  predicate Success(client: Client) {
    forall i :: 0 <= i < |client.list| ==>
      var query := QueryOf(client, client.list[i].sessionId);
      query.isSuccess && query.data.Some? && query.data.value.status == SUCCEEDED
  }

  predicate Shows(query: Query, status: JobStatus) {
    query.data.Some? && query.data.value.status == status
  }

  /** The hook's state and handlers. */
  class WorkflowManager {
    const steps: seq<WorkflowStep>
    var resolvedSessionInfoList: seq<SessionInfo>
    var pending: Option<seq<SessionInfo>>
    var enabledRefetch: bool
    var queries: map<SessionId, Query>

    function View(): Client
      reads this
    {
      Client(resolvedSessionInfoList, pending, enabledRefetch, queries)
    }

    constructor (steps: seq<WorkflowStep>, startingSessionId: SessionId)
      ensures this.steps == steps && View() == Started(startingSessionId)
      ensures resolvedSessionInfoList == [SessionInfo(startingSessionId, None)] && pending == None
      ensures enabledRefetch && queries == map[]
    {
      this.steps := steps;
      resolvedSessionInfoList := [SessionInfo(startingSessionId, None)];
      pending, enabledRefetch, queries := None, true, map[];
    }

    method Render()
      modifies this
      ensures View() == Rendered(old(View()))
      ensures pending == None && enabledRefetch == old(enabledRefetch) && queries == old(queries)
      ensures resolvedSessionInfoList ==
        if old(pending).Some? then old(pending).value else old(resolvedSessionInfoList)
    {
      if pending.Some? {
        resolvedSessionInfoList, pending := pending.value, None;
      }
    }

    /** The query at `index` has been answered: its data are stored and the success callback runs. */
    method Receive(index: nat, job: Session)
      requires index < |resolvedSessionInfoList|
      modifies this
      ensures View() == Delivered(steps, old(View()), index, job)
      ensures var id := old(resolvedSessionInfoList)[index].sessionId;
        queries == old(queries)[id := Query(Some(job), false, true, NoRequest)]
    {
      queries := queries[resolvedSessionInfoList[index].sessionId := Received(job)];
      OnSuccess(index, job);
    }

    method OnSuccess(index: nat, job: Session)
      requires index < |resolvedSessionInfoList|
      modifies this
      ensures View() == Decided(steps, old(View()), index, job)
      ensures enabledRefetch == old(enabledRefetch) && queries == old(queries)
      // not a success, not the newest entry, or nothing to follow
      ensures (job.status != SUCCEEDED || index + 1 < |old(resolvedSessionInfoList)| || index >= |steps|
               || steps[index].nextStepGenerator == None) ==> View() == old(View())
      // otherwise the result decides
      ensures (job.status == SUCCEEDED && index + 1 == |old(resolvedSessionInfoList)| && index < |steps|
               && steps[index].nextStepGenerator.Some?) ==>
        var list, generator := old(resolvedSessionInfoList), steps[index].nextStepGenerator.value;
        match job.result
        case None =>
          pending == old(pending) && resolvedSessionInfoList ==
            list[index := SessionInfo(list[index].sessionId, Some(MissingResultPayload))]
        case Some(result) =>
          match generator(result)
          case Some(id) =>
            if id != "" then
              pending == Some(list + [SessionInfo(id, None)]) && resolvedSessionInfoList == list
            else
              pending == old(pending) && resolvedSessionInfoList ==
                list[index := SessionInfo(list[index].sessionId, Some(NoNextSessionId))]
          case None =>
            pending == old(pending) && resolvedSessionInfoList ==
              list[index := SessionInfo(list[index].sessionId, Some(NoNextSessionId))]
    {
      if job.status != SUCCEEDED {
        return;
      }
      if index + 1 < |resolvedSessionInfoList| {
        return;
      }
      if index >= |steps| {
        return; // reading the generator of a missing step throws
      }
      var generator := steps[index].nextStepGenerator;
      if generator.None? {
        return;
      }
      if job.result.None? {
        SetError(index, MissingResultPayload);
        return;
      }
      var nextStepId := generator.value(job.result.value);
      if nextStepId.None? || nextStepId.value == "" {
        SetError(index, NoNextSessionId);
        return;
      }
      pending := Some(resolvedSessionInfoList + [SessionInfo(nextStepId.value, None)]);
    }

    /** Writes into the list of the current render. */
    method SetError(index: nat, error: WorkflowError)
      requires index < |resolvedSessionInfoList|
      modifies this`resolvedSessionInfoList
      ensures resolvedSessionInfoList ==
        old(resolvedSessionInfoList)[index := old(resolvedSessionInfoList)[index].(workflowError := Some(error))]
    {
      resolvedSessionInfoList :=
        resolvedSessionInfoList[index := resolvedSessionInfoList[index].(workflowError := Some(error))];
    }

    method OnError(index: nat)
      requires index < |resolvedSessionInfoList|
      modifies this
      ensures View() == Failed(old(View()), index)
      ensures !enabledRefetch && resolvedSessionInfoList == old(resolvedSessionInfoList) && pending == old(pending)
      ensures var id := resolvedSessionInfoList[index].sessionId;
        && id in queries && queries == old(queries)[id := queries[id]]
        && queries[id].isError && !queries[id].isSuccess && queries[id].request == NoRequest
        && queries[id].data == if id in old(queries) then old(queries)[id].data else None
    {
      var id := resolvedSessionInfoList[index].sessionId;
      queries := queries[id := Broken(QueryOf(View(), id))];
      enabledRefetch := false;
    }

    /** Whether and when the query at `index` polls again. */
    method RefetchInterval(index: nat) returns (interval: Option<nat>)
      requires index < |resolvedSessionInfoList|
      ensures var id := resolvedSessionInfoList[index].sessionId;
        interval ==
          if !enabledRefetch then None
          else if id in queries && queries[id].data.Some? && queries[id].data.value.status in {SUCCEEDED, FAILED}
          then None
          else Some(3000)
    {
      if !enabledRefetch {
        return None;
      }
      var data := QueryOf(View(), resolvedSessionInfoList[index].sessionId).data;
      if data.Some? && (data.value.status == SUCCEEDED || data.value.status == FAILED) {
        return None;
      }
      return Some(REFRESH_INTERVAL);
    }

    method Poll(index: nat)
      requires index < |resolvedSessionInfoList|
      modifies this
      ensures View() == Polled(old(View()), index)
      ensures resolvedSessionInfoList == old(resolvedSessionInfoList) && pending == old(pending)
      ensures enabledRefetch == old(enabledRefetch)
      ensures var id := resolvedSessionInfoList[index].sessionId;
        var query := if id in old(queries) then old(queries)[id] else Query(None, false, false, NoRequest);
        var finished := query.data.Some? && query.data.value.status in {SUCCEEDED, FAILED};
        queries == if enabledRefetch && !finished && query.request == NoRequest
                   then old(queries)[id := Query(query.data, query.isError, query.isSuccess, Asked)]
                   else old(queries)
    {
      var id := resolvedSessionInfoList[index].sessionId;
      var query := QueryOf(View(), id);
      var interval := RefetchInterval(index);
      if interval.Some? && query.request.NoRequest? {
        queries := queries[id := query.(request := Asked)];
      }
    }

    method RefetchAll()
      modifies this
      ensures View() == Refetched(old(View()))
      ensures enabledRefetch && resolvedSessionInfoList == old(resolvedSessionInfoList) && pending == old(pending)
      ensures forall i :: 0 <= i < |resolvedSessionInfoList| ==>
        && resolvedSessionInfoList[i].sessionId in queries
        && queries[resolvedSessionInfoList[i].sessionId].request == Asked
      ensures forall id :: id in old(queries) ==> id in queries && queries[id].data == old(queries)[id].data
    {
      enabledRefetch := true;
      ghost var start := View();
      for i := 0 to |resolvedSessionInfoList|
        invariant View() == AskedAgain(start, i) && resolvedSessionInfoList == start.list
        invariant enabledRefetch && pending == start.pending
        invariant forall k :: 0 <= k < i ==>
          && resolvedSessionInfoList[k].sessionId in queries
          && queries[resolvedSessionInfoList[k].sessionId].request == Asked
        invariant forall id :: id in start.queries ==> id in queries && queries[id].data == start.queries[id].data
      {
        var id := resolvedSessionInfoList[i].sessionId;
        queries := queries[id := QueryOf(View(), id).(request := Asked)];
      }
    }

    /** What the hook returns about the workflow as a whole. */
    method Outcome() returns (complete: bool, success: bool, error: bool)
      ensures complete <==> |resolvedSessionInfoList| == |steps|
      ensures complete == Complete(steps, View()) && success == Success(View())
      ensures success <==> forall i :: 0 <= i < |resolvedSessionInfoList| ==>
        var id := resolvedSessionInfoList[i].sessionId;
        id in queries && queries[id].isSuccess && Shows(queries[id], SUCCEEDED)
      ensures error <==> exists i ::
        && 0 <= i < |resolvedSessionInfoList| && resolvedSessionInfoList[i].sessionId in queries
        && var query := queries[resolvedSessionInfoList[i].sessionId]; query.isError || Shows(query, FAILED)
    {
      complete, success, error := |resolvedSessionInfoList| == |steps|, true, false;
      for i := 0 to |resolvedSessionInfoList|
        invariant success <==> forall k :: 0 <= k < i ==>
          var id := resolvedSessionInfoList[k].sessionId;
          id in queries && queries[id].isSuccess && Shows(queries[id], SUCCEEDED)
        invariant error <==> exists k ::
          && 0 <= k < i && resolvedSessionInfoList[k].sessionId in queries
          && var query := queries[resolvedSessionInfoList[k].sessionId]; query.isError || Shows(query, FAILED)
      {
        var query := QueryOf(View(), resolvedSessionInfoList[i].sessionId);
        success := success && query.isSuccess && Shows(query, SUCCEEDED);
        error := error || query.isError || Shows(query, FAILED);
      }
    }
  }

  // ----- the watcher of one session -----

  const POLL_INTERVAL := 2500

  function WatcherInterval(refetchOnError: bool, data: Option<Session>): Option<nat> {
    match data
    case Some(job) => if Terminal(job.status) then None else Some(POLL_INTERVAL)
    case None => if refetchOnError then Some(POLL_INTERVAL) else None
  }

  datatype Watch = Watch(enabled: bool, refetchOnError: bool, query: Query, isAutoRefetching: bool)

  /** An enabled watcher fetches at once. */
  function MountedWatch(enabled: bool, refetchOnError: bool): Watch {
    Watch(enabled, refetchOnError, Unfetched.(request := if enabled then Asked else NoRequest), true)
  }

  /** The polling decision for what the watcher shows. */
  function Timed(watch: Watch): Watch {
    watch.(isAutoRefetching := WatcherInterval(watch.refetchOnError, watch.query.data).Some?)
  }

  /** A tick of the polling timer. */
  function WatchPolled(watch: Watch): Watch {
    var timed := Timed(watch);
    if timed.enabled && timed.isAutoRefetching && timed.query.request.NoRequest?
    then timed.(query := timed.query.(request := Asked))
    else timed
  }

  function WatchReceived(watch: Watch, job: Session): Watch {
    Timed(watch.(query := Received(job)))
  }

  function WatchFailed(watch: Watch): Watch {
    Timed(watch.(query := Broken(watch.query)))
  }

  /** A refetch by hand drops what is under way and asks anew. */
  function WatchRefetched(watch: Watch): Watch {
    watch.(query := watch.query.(request := Asked))
  }

  class Watcher {
    const enabled: bool
    const refetchOnError: bool
    var query: Query
    var isAutoRefetching: bool

    function View(): Watch
      reads this
    {
      Watch(enabled, refetchOnError, query, isAutoRefetching)
    }

    constructor (enabled: bool, refetchOnError: bool)
      ensures View() == MountedWatch(enabled, refetchOnError)
      ensures View() == Watch(enabled, refetchOnError,
                              Query(None, false, false, if enabled then Asked else NoRequest), true)
    {
      this.enabled, this.refetchOnError := enabled, refetchOnError;
      query, isAutoRefetching := Unfetched.(request := if enabled then Asked else NoRequest), true;
    }

    /** Whether and when to poll again; `isAutoRefetching` follows the decision. */
    method RefetchInterval() returns (interval: Option<nat>)
      modifies this`isAutoRefetching
      ensures View() == Timed(old(View()))
      ensures isAutoRefetching <==> interval.Some?
      ensures interval ==
        match query.data
        case Some(job) => if job.status in {SUCCEEDED, FAILED} then None else Some(2500)
        case None => if refetchOnError then Some(2500) else None
    {
      if query.data.Some? {
        if query.data.value.status == SUCCEEDED || query.data.value.status == FAILED {
          isAutoRefetching := false;
          return None;
        }
        if !isAutoRefetching {
          isAutoRefetching := true;
        }
        return Some(POLL_INTERVAL);
      }
      if refetchOnError {
        if !isAutoRefetching {
          isAutoRefetching := true;
        }
        return Some(POLL_INTERVAL);
      }
      isAutoRefetching := false;
      return None;
    }

    method Poll()
      modifies this
      ensures View() == WatchPolled(old(View()))
      ensures var due := match query.data
          case Some(job) => job.status !in {SUCCEEDED, FAILED}
          case None => refetchOnError;
        && isAutoRefetching == due
        && query == if enabled && due && old(query).request == NoRequest
                    then Query(old(query).data, old(query).isError, old(query).isSuccess, Asked) else old(query)
    {
      var interval := RefetchInterval();
      if enabled && interval.Some? && query.request.NoRequest? {
        query := query.(request := Asked);
      }
    }

    method Receive(job: Session)
      modifies this
      ensures View() == WatchReceived(old(View()), job)
      ensures query == Query(Some(job), false, true, NoRequest)
      ensures isAutoRefetching <==> job.status !in {SUCCEEDED, FAILED}
    {
      query := Received(job);
      var interval := RefetchInterval();
    }

    method Fail()
      modifies this
      ensures View() == WatchFailed(old(View()))
      ensures query == Query(old(query).data, true, false, NoRequest)
      ensures isAutoRefetching <==>
        match query.data
        case Some(job) => job.status !in {SUCCEEDED, FAILED}
        case None => refetchOnError
    {
      query := Broken(query);
      var interval := RefetchInterval();
    }

    method Refetch()
      modifies this
      ensures View() == WatchRefetched(old(View()))
      ensures query == Query(old(query).data, old(query).isError, old(query).isSuccess, Asked)
      ensures isAutoRefetching == old(isAutoRefetching)
    {
      query := query.(request := Asked);
    }
  }
}
