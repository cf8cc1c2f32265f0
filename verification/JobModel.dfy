/** Data of the background job system: sessions, the session table and job handlers. */
module JobModel {
  import opened Common

  type SessionId = string

  datatype JobType = PROV_LODGE | REGISTRY | EMAIL | REPORT

  datatype JobSubType =
    | PROV_LODGE_WAKE_UP
    | MODEL_RUN_PROV_LODGE
    | MODEL_RUN_LODGE_ONLY
    | MODEL_RUN_BATCH_SUBMIT
    | LODGE_CREATE_ACTIVITY
    | LODGE_VERSION_ACTIVITY
    | MODEL_RUN_UPDATE
    | MODEL_RUN_UPDATE_LODGE_ONLY
    | REGISTRY_WAKE_UP
    | REGISTER_CREATE_ACTIVITY
    | REGISTER_VERSION_ACTIVITY
    | EMAIL_WAKE_UP
    | SEND_EMAIL
    | GENERATE_REPORT

  function JobTypeForSubType(subType: JobSubType): JobType {
    match subType
    case REGISTRY_WAKE_UP | REGISTER_CREATE_ACTIVITY | REGISTER_VERSION_ACTIVITY => REGISTRY
    case EMAIL_WAKE_UP | SEND_EMAIL => EMAIL
    case GENERATE_REPORT => REPORT
    case _ => PROV_LODGE
  }

  datatype JobStatus = PENDING | DEQUEUED | IN_PROGRESS | SUCCEEDED | FAILED

  predicate Terminal(status: JobStatus) {
    status == SUCCEEDED || status == FAILED
  }

  /** The columns of a session that `create` writes and nothing ever updates. */
  datatype Request = Request(
    username: string, jobType: JobType, subType: JobSubType, payload: Record, batchId: Option<string>)

  /** The text in the info column, by where it comes from. */
  datatype Info = NoHandlerRegistered(subType: JobSubType) | CompletedSuccessfully | ErrorMessage(text: string)

  datatype Session = Session(request: Request, status: JobStatus, info: Option<Info>, result: Option<Record>)

  datatype SubmitInput = SubmitInput(
    username: string, subType: JobSubType, payload: Record, jobType: Option<JobType>, batchId: Option<string>)

  /** The sub types of each job type. */
  predicate BelongsTo(subType: JobSubType, jobType: JobType) {
    match jobType
    case PROV_LODGE =>
      subType in {PROV_LODGE_WAKE_UP, MODEL_RUN_PROV_LODGE, MODEL_RUN_LODGE_ONLY, MODEL_RUN_BATCH_SUBMIT,
                  LODGE_CREATE_ACTIVITY, LODGE_VERSION_ACTIVITY, MODEL_RUN_UPDATE, MODEL_RUN_UPDATE_LODGE_ONLY}
    case REGISTRY => subType in {REGISTRY_WAKE_UP, REGISTER_CREATE_ACTIVITY, REGISTER_VERSION_ACTIVITY}
    case EMAIL => subType in {EMAIL_WAKE_UP, SEND_EMAIL}
    case REPORT => subType in {GENERATE_REPORT}
  }

  /** A stored request holds what was submitted, with the job type that was given or else that of the sub type. */
  predicate Records(request: Request, input: SubmitInput) {
    && request.username == input.username && request.subType == input.subType
    && request.payload == input.payload && request.batchId == input.batchId
    && match input.jobType
       case Some(jobType) => request.jobType == jobType
       case None => BelongsTo(input.subType, request.jobType)
  }

  /** The row `submitJob` writes: the job type defaults from the sub type. */
  function RequestOf(input: SubmitInput): (request: Request)
    ensures Records(request, input)
  {
    Request(input.username,
            if input.jobType.Some? then input.jobType.value else JobTypeForSubType(input.subType),
            input.subType, input.payload, input.batchId)
  }

  /** What `retryJob` resubmits for an existing session. */
  function RetryInput(request: Request): SubmitInput {
    SubmitInput(request.username, request.subType, request.payload, Some(request.jobType), request.batchId)
  }

  // ----- the session table -----

  type Table = map<SessionId, Session>

  function Create(table: Table, id: SessionId, request: Request): Table {
    table[id := Session(request, PENDING, None, None)]
  }

  /** An SQL update: no row, no effect; an omitted info or result keeps the stored one. */
  function SetStatus(table: Table, id: SessionId, status: JobStatus, info: Option<Info>, result: Option<Record>)
    : Table
  {
    if id !in table then table
    else
      var row := table[id];
      table[id := Session(row.request, status,
                          if info.Some? then info else row.info,
                          if result.Some? then result else row.result)]
  }

  // ----- handlers -----

  datatype Context = Context(sessionId: SessionId, username: string, batchId: Option<string>)

  datatype Outcome = Returned(result: Record) | Threw(message: string)

  /** What a handler does: it submits some jobs, then ends in a way that may mention their session ids. */
  datatype Behaviour = Behaviour(submits: seq<SubmitInput>, finish: seq<SessionId> -> Outcome)

  type Handler = (Record, Context) -> Behaviour

  type Handlers = map<JobSubType, Handler>

  function Invoke(handlers: Handlers, id: SessionId, request: Request): Behaviour
    requires request.subType in handlers
  {
    handlers[request.subType](request.payload, Context(id, request.username, request.batchId))
  }

  /** The final columns of a session. */
  datatype Verdict = Verdict(status: JobStatus, info: Info, result: Option<Record>)

  function NoHandler(request: Request): Verdict {
    Verdict(FAILED, NoHandlerRegistered(request.subType), None)
  }

  /** How one session ends, given the ids of the sessions its handler submitted. */
  function Judge(handlers: Handlers, id: SessionId, request: Request, children: seq<SessionId>): Verdict {
    if request.subType !in handlers then NoHandler(request)
    else
      match Invoke(handlers, id, request).finish(children)
      case Returned(result) => Verdict(SUCCEEDED, CompletedSuccessfully, Some(result))
      case Threw(message) => Verdict(FAILED, ErrorMessage(message), None)
  }

  function Conclude(table: Table, id: SessionId, verdict: Verdict): Table {
    SetStatus(table, id, verdict.status, Some(verdict.info), verdict.result)
  }

  // ----- what a session ends with, in terms of its handler -----

  /** The row of a session whose handler submitted `children`; `kept` is the result stored before. */
  predicate EndsAs(handlers: Handlers, id: SessionId, request: Request, children: seq<SessionId>,
                   kept: Option<Record>, row: Session)
  {
    if request.subType !in handlers then
      row == Session(request, FAILED, Some(NoHandlerRegistered(request.subType)), kept)
    else
      match handlers[request.subType](request.payload, Context(id, request.username, request.batchId)).finish(children)
      case Returned(result) => row == Session(request, SUCCEEDED, Some(CompletedSuccessfully), Some(result))
      case Threw(message) => row == Session(request, FAILED, Some(ErrorMessage(message)), kept)
  }

  /** `children` hold exactly what the handler submits, in order. */
  ghost predicate ChildrenRecord(handlers: Handlers, id: SessionId, request: Request, table: Table,
                                 children: seq<SessionId>)
  {
    if request.subType !in handlers then children == []
    else
      var inputs :=
        handlers[request.subType](request.payload, Context(id, request.username, request.batchId)).submits;
      && |children| == |inputs|
      && forall k :: 0 <= k < |inputs| ==> children[k] in table && Records(table[children[k]].request, inputs[k])
  }

  /** `id` waits, holding what was submitted and nothing else. */
  predicate PendingWith(table: Table, id: SessionId, input: SubmitInput) {
    && id in table && Records(table[id].request, input)
    && table[id].status == PENDING && table[id].info == None && table[id].result == None
  }

  /** A row is concluded as its handler determines. */
  lemma ConcludedEnds(handlers: Handlers, table: Table, id: SessionId, children: seq<SessionId>)
    requires id in table
    ensures var table' := Conclude(table, id, Judge(handlers, id, table[id].request, children));
      && EndsAs(handlers, id, table[id].request, children, table[id].result, table'[id])
      && table'.Keys == table.Keys
      && forall x :: x in table && x != id ==> table'[x] == table[x]
  {
  }
}
