# Verified models of Provena's stateful components

This project models the parts of Provena that work by changing things step by step, and proves what their callers
rely on.

- **Background jobs** (`JobModel`, `JobProtocol`, `JobInvariant`, `JobSafety`, `JobRefinement`, `JobDraining`,
  `JobService`, `JobServiceRuns`). The job system is an interleaving of atomic steps of submitters, retries and batching
  workers, any of which may stop at any point. `JobInvariant.Inv` is the inductive invariant; from it follow the status
  lifecycle, single delivery, isolation, a refinement to an executor that runs one session at a time, its submissions
  included, and the termination of draining. `JobService.Service` is the code of one process, with its mutable handler
  map and its batch loop; a delivery it works through is shown to be one of the interleavings.
- **Job consumers** (`Workflow`, `WorkflowSystem`, `WorkflowReach`). The workflow manager and the session watchers run
  against the job protocol. Each query has at most one request under way, which is asked for when its timer or a refetch
  says so, answered with the row of one moment and delivered at a later one. What they show is right only because the
  protocol never takes a status back and never writes a terminal row again, and the proofs use exactly those lemmas.
- **Provenance graph** (`KeyedLists`, `GraphData`, `GraphRenderer`). Lineage responses are folded into one deduplicated
  graph, and a heap of mutable node and link objects is reconciled with it in place. Links hold ids or pointers to node
  objects, so the main result is that no merge leaves a stale pointer.
- **List loaders** (`VersionList`, `Pagination`). A list that grows along a doubly linked version chain at both ends,
  and two hooks that accumulate cursor pages.
- **Nullable schemas** (`NullableSchema`). The rewrite that makes a field's JSON schema accept null as well, against a
  recursive validity semantics: sections 6.1.1 to 6.1.3 and 6.7.1 to 6.7.3 of JSON Schema Validation draft-07 and
  section 8.3 of JSON Schema Core draft-07. It is not exact for every schema; `RewriteExactIff` says when it is.
- **Annotation editor** (`Annotations`). A list of pairs with a derived duplicate flag, and its round trip to an object.

A class stands for code that updates fields. Each of its methods states what it does to the fields, and that this is a
function of its abstract state (`View`, `State`); state machines and lemmas are then about those functions, and so about
the methods. `Service.writes` records the writes to the status column and is read by no statement. In the React hooks
a render is a step that fixes the state the callbacks close over, and a callback is a step that uses that snapshot.

Where a comment in the repository and its code disagree, the model follows the code. The comment on `retryJob` says that
it re-enqueues the same session; the code submits a new one.

## Assumptions

- Session ids come from a source that never repeats (`uuid` in `JobService`, freshness of `id` in `JobProtocol`).
- The queue delivers at most once (it is used with a retry limit of zero), in any order and in batches of any
  composition up to the batch size. Single calls to the database or the queue are atomic and do not fail; a worker that
  stops is the only fault.
- Handlers are registered before workers start, and depend only on payload and context. A handler submits a finite list
  of jobs and then ends in a way that may depend on the ids it received.
- An update of a missing session row has no effect, and an omitted info or result keeps the stored one.
- The link force turns an id into the node object with that id and fails if there is none.
- A query has at most one request under way; a refetch by hand drops it and asks anew; a failed fetch keeps the data
  there are.
- Loaded graph responses stay cached; a list or a version chain does not change while it is loaded. Any item of a version
  chain may be sent without versioning info; the lemmas say what then is loaded and reported.

## Model

| member | source | states |
|---|---|---|
| JobInvariant.CurrentIsStored | packages/jobs/src/index.ts:110-116 | The session a worker is processing always exists, sits in that worker's slot, and its row is at the status its phase implies, so the "session not found" branch is never taken |
| JobSafety.StepKeepsInv | packages/jobs/src/index.ts:66-177 | Every enabled step of any submitter, retry or worker, a stop included, keeps the invariant |
| JobSafety.RunKeepsInv | packages/jobs/src/index.ts:66-177 | The invariant holds after every finite interleaving |
| JobSafety.LifecycleSafe | packages/jobs/src/index.ts:110-160 | In every interleaving from the start each status history is a prefix of PENDING, DEQUEUED, IN_PROGRESS, SUCCEEDED or FAILED and ends in the stored status; the handler is called at most once; a result is stored exactly with SUCCEEDED |
| JobSafety.TerminalIsDecided | packages/jobs/src/index.ts:110-139 | A session is terminal exactly when it is done, and then status, info and result are the ones its handler determines |
| JobSafety.FinishedAsHandled | packages/jobs/src/index.ts:110-139 | Every finished session in every run: its handler, if there is one, was called once with its payload and context; a return is stored as SUCCEEDED with the result, a throw as FAILED with the message and no result, a missing handler as FAILED with the sub type; and the sessions its handler created hold exactly what it submits |
| JobSafety.ExactlyOnePlace | packages/jobs/src/index.ts:66-160 | Each session is unsent, queued once, in one batch slot, abandoned or done, and in no two of these |
| JobSafety.StepIsolates | packages/jobs/src/index.ts:110-177 | A step changes at most the row of the one session it processes; requests never change, histories only grow, terminal rows never change |
| JobSafety.TerminalForever | packages/jobs/src/index.ts:110-139 | A terminal row is the same after every later run |
| JobSafety.StatusOnlyAdvances | packages/jobs/src/index.ts:110-139 | No step takes a session back in the lifecycle |
| JobSafety.RetryIsFresh | packages/jobs/src/index.ts:166-177 | A retry adds one pending session with the old request and changes no other row, no worker and not the queue |
| JobSafety.SubmitStores | packages/jobs/src/index.ts:66-78 | A submission adds one waiting session with what was submitted and changes no other row |
| JobSafety.SpawnStores | apps/api/src/services/jobHandlers.ts:45 | A submission by a handler adds one waiting session with the next job the handler submits and changes no other row |
| JobRefinement.StepSimulates | packages/jobs/src/index.ts:66-177 | Each concurrent step is no step or one step of an executor that runs a session whole: its submissions, each a new session, and its verdict, in one step |
| JobRefinement.RunRefines | packages/jobs/src/index.ts:66-177 | Every concurrent run has an executor run of the same jobs with the same statuses, infos and results, which interrupts only sessions that are in progress in the end |
| JobRefinement.ConcurrentIsSequential | packages/jobs/src/index.ts:66-177 | For every run from the empty table, stopping workers included, a one-at-a-time run reaches the same jobs, statuses, infos and results; every session it starts and does not finish is one left in progress |
| JobRefinement.StepForesees | packages/jobs/src/index.ts:66-139 | A step creates no session that exists already and gives no existing session a parent |
| JobDraining.StepLighter | packages/jobs/src/index.ts:127-157 | Without stops and outside submissions every step brings one session nearer to its end and none further away |
| JobDraining.StepDescends | packages/jobs/src/index.ts:127-157 | With handlers that submit only jobs of lower rank, every such step takes the vector of work left per rank down lexicographically |
| JobDraining.DescentStops | packages/jobs/src/index.ts:151-157 | No infinite sequence of such vectors keeps descending |
| JobDraining.DrainingEnds | packages/jobs/src/index.ts:127-157 | No infinite schedule of draining steps exists |
| JobDraining.EmptyMeansFinished | packages/jobs/src/index.ts:127-157 | With queue and batches empty every session that was sent and not abandoned is terminal |
| JobDraining.NoStopAbandonsNone | packages/jobs/src/index.ts:146-160 | Only a stopping worker abandons sessions; a throwing handler does not |
| JobDraining.BusyCanStep | packages/jobs/src/index.ts:110-157 | A worker inside a batch always has a next step |
| JobDraining.StuckMeansFinished | packages/jobs/src/index.ts:127-157 | With one live worker draining gets stuck only when every existing session is terminal |
| JobDraining.DrainsDry | packages/jobs/src/index.ts:110-160 | From every safe state with a live worker and nothing abandoned, some finite draining run makes every session terminal |
| JobService.Service.constructor | packages/jobs/src/index.ts:95-106 | Exactly the wake-up sub types have a handler at first, one that succeeds with an empty result |
| JobService.Service.RegisterJobHandler | packages/jobs/src/index.ts:97-99 | Overwrites one entry of the handler map |
| JobService.Service.SubmitJob | packages/jobs/src/index.ts:66-78 | The table is the old one with one waiting row more, under an unused id and with no info or result, that holds the user name, sub type, payload and batch id submitted and the job type given or else that of the sub type; the id goes to the end of the queue |
| JobModel.RequestOf | packages/interfaces/src/constants/jobs.ts:8-35 | A stored request holds what was submitted; without a job type it gets the one whose list has the sub type |
| JobService.SubmittedAllMakes | apps/api/src/services/jobHandlers.ts:45 | A sequence of submissions by a handler makes one waiting row per submission, under new ids, each with what was submitted, and queues them in order |
| JobService.Service.RetryJob | packages/jobs/src/index.ts:166-177 | Fails without effect on an unknown session, otherwise submits the stored request as a new session |
| JobService.Service.ProcessSession | packages/jobs/src/index.ts:110-139 | An unknown session changes nothing. Otherwise the row is marked in progress, the sessions that the handler submits are created as submitted and queued in order, and the row ends FAILED with the missing sub type if there is no handler, SUCCEEDED with the handler's result if it returns, FAILED with its message and no result if it throws; no other row changes |
| JobService.Service.WorkOnce | packages/jobs/src/index.ts:146-160 | Works through the first queued sessions, as many as there are up to the batch size, in order; each stored one is written DEQUEUED, then IN_PROGRESS, then its new jobs as PENDING, then one final status |
| JobServiceRuns.SessionRun | packages/jobs/src/index.ts:110-155 | Working on one session has the effect of a run of the protocol |
| JobServiceRuns.DeliveryIsRun | packages/jobs/src/index.ts:146-160 | Working through a delivery is a run of the protocol, and leaves every session of the batch with the status, info and result its handler's outcome calls for |
| Workflow.WorkflowManager.OnSuccess | packages/react-libs/hooks/useWorkflowManager.tsx:137-196 | On the success of the newest session, when its step has a generator: a non-empty id appends that session to the list of the next render; no result, no id or an empty id notes the error on the newest entry; in every other case nothing changes |
| Workflow.WorkflowManager.Receive | packages/react-libs/hooks/useWorkflowManager.tsx:102-196 | An answer becomes the query's data and the callback runs with it |
| Workflow.WorkflowManager.RefetchInterval | packages/react-libs/hooks/useWorkflowManager.tsx:113-135 | Polling stops when refetching is off or the status is terminal, and otherwise goes on every 3000 milliseconds |
| Workflow.WorkflowManager.Poll | packages/react-libs/hooks/useWorkflowManager.tsx:112-135 | A tick asks again unless refetching is off, the status is terminal or a request is under way |
| Workflow.WorkflowManager.OnError | packages/react-libs/hooks/useWorkflowManager.tsx:198-202 | An error marks the query, keeps its data and stops refetching |
| Workflow.WorkflowManager.Render | packages/react-libs/hooks/useWorkflowManager.tsx:92-94 | The next render uses the list that was set, if one was |
| Workflow.WorkflowManager.RefetchAll | packages/react-libs/hooks/useWorkflowManager.tsx:230-235 | Refetching is enabled and every listed query is asked anew |
| Workflow.WorkflowManager.Outcome | packages/react-libs/hooks/useWorkflowManager.tsx:219-228 | Complete means one session per step; success that all listed sessions have been fetched and have succeeded; error that one has an error or has failed |
| Workflow.AskedAgainQueries | packages/react-libs/hooks/useWorkflowManager.tsx:230-235 | The loop of refetches concerns exactly the listed sessions, loses no data and touches nothing else |
| Workflow.Watcher.RefetchInterval | packages/react-libs/hooks/useJobSessionWatcher.tsx:49-77 | Polling goes on unless the status is terminal, or nothing was fetched and errors are not refetched; the flag says whether it goes on |
| Workflow.Watcher.Poll | packages/react-libs/hooks/useJobSessionWatcher.tsx:49-78 | A tick asks again only if the watcher is enabled, the decision is to poll and no request is under way |
| Workflow.Watcher.Receive | packages/react-libs/hooks/useJobSessionWatcher.tsx:49-83 | An answer is shown and the polling decision is made anew |
| WorkflowSystem.ServerEvolves | packages/jobs/src/index.ts:110-139 | Between two reads rows persist, requests stay, statuses never go back and terminal rows stay |
| WorkflowSystem.DecisionKeepsOk | packages/react-libs/hooks/useWorkflowManager.tsx:137-196 | Run with any row that has been read, the callback keeps the list a chain within the workflow and never reads a missing step |
| WorkflowSystem.EventKeepsOk | packages/react-libs/hooks/useWorkflowManager.tsx:92-235 | Every event of server, hook or watcher keeps the system consistent, extends the list only, and moves what is shown on to later rows only |
| WorkflowSystem.RunKeepsChain | packages/react-libs/hooks/useWorkflowManager.tsx:92-235 | The same over every run |
| WorkflowSystem.MountedRunsAreChains | packages/react-libs/hooks/useWorkflowManager.tsx:92-203 | From mounting on, the list starts with the starting id, each later id is the generator applied to the previous job's successful result, and there are never more ids than steps |
| WorkflowSystem.CompleteSuccessForever | packages/react-libs/hooks/useWorkflowManager.tsx:219-224 | Complete and success together mean that every step's job has succeeded, now and in every later state |
| WorkflowSystem.RedeliveryChangesNothing | packages/react-libs/hooks/useWorkflowManager.tsx:137-196 | Delivering the same result again within one render appends nothing more |
| WorkflowSystem.SuccessSettles | packages/react-libs/hooks/useWorkflowManager.tsx:137-221 | When the newest job succeeded, either the workflow is complete, or the next render appends one session, or the newest entry carries an error |
| WorkflowSystem.IncompleteIffError | packages/react-libs/hooks/useWorkflowManager.tsx:137-221 | In every reachable state in which the newest job's success has been handled and nothing is left to render, the workflow is incomplete if and only if the newest entry carries an error |
| WorkflowReach.SuccessIsNotComplete | packages/react-libs/hooks/useWorkflowManager.tsx:219-224 | Success alone does not imply complete: a run of server and hook from the start ends in a state that shows it |
| WorkflowSystem.WatchKeepsOk | packages/react-libs/hooks/useJobSessionWatcher.tsx:49-83 | A watcher shows later rows only, and does not poll while it shows a terminal status |
| WorkflowSystem.StoppedWatcherIsFinal | packages/react-libs/hooks/useJobSessionWatcher.tsx:49-83 | Once a watcher shows a terminal status, in every later state it shows that same row, which is the stored one, and does not poll; unless it is refetched by hand nothing about it changes |
| KeyedLists.AppendNewAssociative | packages/react-libs/hooks/useProvGraphData.tsx:261-305 | Appending entries with unknown keys is associative, for any key |
| KeyedLists.NewOnesKeys | packages/react-libs/hooks/useProvGraphData.tsx:269-302 | The appended keys are exactly the incoming keys that were unknown |
| KeyedLists.NewOnesAreFirst | packages/react-libs/hooks/useProvGraphData.tsx:269-302 | The appended entries are those at the positions, in order, whose key is unknown and at no earlier position |
| KeyedLists.KeptAreFound | packages/react-libs/hooks/useProvGraphRenderer.tsx:919-956 | The entries kept by a reconciliation are those at the positions, in order, whose key came in |
| GraphData.MergeGraphs | packages/react-libs/hooks/useProvGraphData.tsx:261-305 | The nested search loops compute the base followed by the first occurrences of unknown keys, for nodes by id and links by source and target |
| GraphData.MergeAssociative | packages/react-libs/hooks/useProvGraphData.tsx:261-305 | Merging graphs is associative |
| GraphData.MergeExtends | packages/react-libs/hooks/useProvGraphData.tsx:261-305 | The base is a prefix of the result and the key sets are the unions |
| GraphData.DerivedIsFirstOccurrences | packages/react-libs/hooks/useProvGraphData.tsx:308-328 | The derived graph is the concatenation of all loaded responses with only first occurrences kept |
| GraphData.DerivedIsDistinct | packages/react-libs/hooks/useProvGraphData.tsx:308-328 | No node id and no pair of link ends occurs twice |
| GraphData.DerivedKeys | packages/react-libs/hooks/useProvGraphData.tsx:308-328 | A key is in the derived graph exactly when some response has it |
| GraphData.OrderDoesNotMatter | packages/react-libs/hooks/useProvGraphData.tsx:308-328 | The key sets do not depend on the order of the responses |
| GraphData.ProvGraphData.AddNodeQuery | packages/react-libs/hooks/useProvGraphData.tsx:157-164 | The next render has the expansions of this render followed by the new ones |
| GraphData.ProvGraphData.ResetGraph | packages/react-libs/hooks/useProvGraphData.tsx:144-150 | The next render has only the two default expansions of the root; focus, hover and the direction flags return to their defaults |
| GraphData.ProvGraphData.Arrive | packages/react-libs/hooks/useProvGraphData.tsx:247-259 | A response is kept for its expansion and never replaced |
| GraphData.ProvGraphData.DeriveGraphState | packages/react-libs/hooks/useProvGraphData.tsx:308-328 | The nodes and links are the first occurrences in the answers' graphs, one after the other in the order of the expansions; a node id, or pair of link ends, is there exactly when some queried expansion has been answered with a graph that has it |
| GraphData.ShownIsAnswered | packages/react-libs/hooks/useProvGraphData.tsx:308-328 | The same of what is shown in every state of the hook |
| GraphData.ExploringOnlyAdds | packages/react-libs/hooks/useProvGraphData.tsx:157-164 | More expansions and more responses never remove a node or link key |
| GraphData.ShownOnlyGrows | packages/react-libs/hooks/useProvGraphData.tsx:157-164 | Between resets no sequence of renders, expansions and responses removes a node or link key from what is shown |
| GraphData.ShownIsClosed | packages/react-libs/hooks/useProvGraphData.tsx:308-328 | If every response joins only its own nodes, so does what is shown |
| GraphRenderer.Joins | packages/react-libs/hooks/useProvGraphRenderer.tsx:267-286 | Comparing a link by node objects if both ends are resolved and directly otherwise decides its pair of ids |
| GraphRenderer.SpliceOne | packages/react-libs/hooks/useProvGraphRenderer.tsx:945-953 | Splicing out the last stale index that is left removes exactly that entry and shifts no index still to come |
| GraphRenderer.D3Graph.PushNewNodes | packages/react-libs/hooks/useProvGraphRenderer.tsx:846-870 | Adds one new, free object for each first occurrence of an unknown id, at the end |
| GraphRenderer.D3Graph.PushNewLinks | packages/react-libs/hooks/useProvGraphRenderer.tsx:877-915 | Adds one unresolved link for each first occurrence of an unknown pair, at the end |
| GraphRenderer.D3Graph.DropStaleNodes | packages/react-libs/hooks/useProvGraphRenderer.tsx:919-956 | Keeps exactly the objects whose id came in, in order |
| GraphRenderer.D3Graph.DropStaleLinks | packages/react-libs/hooks/useProvGraphRenderer.tsx:929-956 | Keeps exactly the links whose pair came in, in order |
| GraphRenderer.D3Graph.MergeGraphDataIntoD3 | packages/react-libs/hooks/useProvGraphRenderer.tsx:827-967 | The result is the old objects with incoming keys, untouched and in old order, then new objects for the first occurrences of new keys; the flag is true exactly when old and incoming key sets differ |
| GraphRenderer.D3Graph.MergeTwice | packages/react-libs/hooks/useProvGraphRenderer.tsx:827-967 | Merging the same data again changes nothing and says so |
| GraphRenderer.D3Graph.ResolveLinks | packages/react-libs/hooks/useProvGraphRenderer.tsx:804-812 | Without stale links, resolution finds every node, keeps every pair of ids and leaves no stale link |
| GraphRenderer.D3Graph.RunSession | packages/react-libs/hooks/useProvGraphRenderer.tsx:1381-1399 | Over any run of merges of closed data and resolutions every resolved link points to nodes in the graph, every unresolved one names nodes there, and resolution never fails |
| GraphRenderer.D3Graph.MergeOne | packages/react-libs/hooks/useProvGraphRenderer.tsx:827-967 | One merge of closed data leaves no stale link |
| GraphRenderer.MergedKeys | packages/react-libs/hooks/useProvGraphRenderer.tsx:846-956 | After a merge the drawn ids are exactly the incoming ones, each once |
| GraphRenderer.MergedLinkKeys | packages/react-libs/hooks/useProvGraphRenderer.tsx:877-959 | After a merge the joined pairs are exactly the incoming ones |
| GraphRenderer.MergeOfMore | packages/react-libs/hooks/useProvGraphRenderer.tsx:917-956 | A merge whose data has all drawn ids deletes no node |
| GraphRenderer.MergeKeepsFresh | packages/react-libs/hooks/useProvGraphRenderer.tsx:827-959 | A kept link still points to kept nodes and a new link names drawn nodes |
| GraphRenderer.MergeIsFreshIff | packages/react-libs/hooks/useProvGraphRenderer.tsx:827-959 | A merge leaves no stale link if and only if every incoming link joins incoming nodes |
| GraphRenderer.ExploringKeepsObjects | packages/react-libs/hooks/useProvGraphRenderer.tsx:917-964 | Whatever is explored between two merges, without a reset the second merge keeps every node and link object in its place |
| VersionList.LoadedVersionList.PushOrPrependItem | packages/react-libs/hooks/useLoadedVersionList.tsx:53-67 | Adds the id at one end and moves the starting index only when it is the front |
| VersionList.LoadedVersionList.OnSuccess | packages/react-libs/hooks/useLoadedVersionList.tsx:84-127 | A successful answer with versioning info puts a named previous version in front if the entry is first in the current render, and a named next version at the end if it is last; the starting index moves with the front; any other answer leaves the list |
| VersionList.FetchKeeps | packages/react-libs/hooks/useLoadedVersionList.tsx:84-127 | A fetched end that has versioning info extends the segment by its neighbour, whichever end of a render comes first and also when one entry is both ends |
| VersionList.RunKeepsSegment | packages/react-libs/hooks/useLoadedVersionList.tsx:50-127 | In every run the list stays a contiguous segment of the chain around the starting item, and each fetch loads one more item |
| VersionList.MountedRunsAreSegments | packages/react-libs/hooks/useLoadedVersionList.tsx:50-127 | From mounting on the list is the chain's segment that puts the starting item at the starting index |
| VersionList.FetchesAreBounded | packages/react-libs/hooks/useLoadedVersionList.tsx:69-130 | No run fetches more often than the chain has items |
| VersionList.ExtensionsTake | packages/react-libs/hooks/useLoadedVersionList.tsx:53-127 | Every extension takes exactly one item off what is left of the chain |
| VersionList.ExactlyTheExtensionsNeeded | packages/react-libs/hooks/useLoadedVersionList.tsx:53-127 | No run extends the list more often than chain length minus one, and a run that has settled has done so exactly that often if and only if every item loading has to pass has versioning info |
| VersionList.UnsettledGoesOn | packages/react-libs/hooks/useLoadedVersionList.tsx:69-130 | Until loading has settled a render is due or a fetch can still be delivered, and it makes progress |
| VersionList.LoadingSettles | packages/react-libs/hooks/useLoadedVersionList.tsx:69-130 | From every state of loading some run settles |
| VersionList.SettledIsReachable | packages/react-libs/hooks/useLoadedVersionList.tsx:84-127 | When nothing more can happen the list is exactly the items between which and the starting item everything has versioning info |
| VersionList.SettledIsWholeChain | packages/react-libs/hooks/useLoadedVersionList.tsx:84-127 | It is then the whole chain if and only if all items but an end other than the starting item have versioning info |
| VersionList.CompleteIffWholeChain | packages/react-libs/hooks/useLoadedVersionList.tsx:141-146 | Completion is reported exactly when missing neighbours are sent as null, the render shows the whole chain, and both its ends are fetched and have versioning info |
| VersionList.CompleteInTheEndIff | packages/react-libs/hooks/useLoadedVersionList.tsx:141-146 | When nothing more can happen, completion is reported if and only if missing neighbours are sent as null and every item of the chain has versioning info |
| VersionList.BareFirstNeverCompletes | apps/api/src/serializers.ts:17-25 | A chain whose first item is sent without versioning info: from the second item the whole chain is loaded and completion is not reported |
| VersionList.NeverCompleteWithoutNull | apps/api/src/serializers.ts:17-25 | Were missing neighbours left out instead of sent as null, completion would never be reported |
| Pagination.PageIsNextSlice | packages/db/src/repos/auxiliary.ts:448-475 | The page after a cursor is exactly the next rows, for any page size, with a key exactly when it is not empty and more rows remain |
| Pagination.FetchKeepsInv | packages/react-libs/hooks/useGenericPaginatedList.tsx:144-173 | A fetch appends exactly the rows after the cursor and brings the end nearer |
| Pagination.RunKeepsInv | packages/react-libs/hooks/useGenericPaginatedList.tsx:64-186 | Over every run of fetches, requests and resets the records are exactly the rows before the cursor, nothing skipped or repeated |
| Pagination.ExhaustedStaysExhausted | packages/react-libs/hooks/useGenericPaginatedList.tsx:126-186 | When no more remain the records are the whole list and only a reset enables another fetch |
| Pagination.AskingLoadsAll | packages/react-libs/hooks/useGenericPaginatedList.tsx:144-186 | Requesting more again and again loads the whole list after finitely many rounds |
| Pagination.FirstPageHonestIff | packages/db/src/repos/items.ts:478-501 | "No more remaining" after the first page means that everything is loaded if and only if pages are not empty or there is nothing to load |
| Pagination.GenericPaginatedList.ResetState | packages/react-libs/hooks/useGenericPaginatedList.tsx:90-103 | All five fields return to their initial values |
| Pagination.GenericPaginatedList.MoreItemsHandler | packages/react-libs/hooks/useGenericPaginatedList.tsx:106-115 | The records become the old records followed by the new ones |
| Pagination.GenericPaginatedList.OnSuccess | packages/react-libs/hooks/useGenericPaginatedList.tsx:144-173 | Accepts a page; the callback gets the new records exactly when more had been requested |
| Pagination.GenericPaginatedList.RequestMoreRecords | packages/react-libs/hooks/useGenericPaginatedList.tsx:177-186 | Marks a request only when more remain |
| Pagination.RegistryPaginatedList.ResetState | packages/react-libs/hooks/generalPaginatedList.tsx:74-87 | All five fields return to their initial values |
| Pagination.RegistryPaginatedList.RenderWith | packages/react-libs/hooks/generalPaginatedList.tsx:91-97 | The state is reset exactly when the options differ from those of the last render |
| Pagination.RegistryPaginatedList.MoreItemsHandler | packages/react-libs/hooks/generalPaginatedList.tsx:100-107 | The records become the old records followed by the new ones |
| Pagination.RegistryPaginatedList.OnSuccess | packages/react-libs/hooks/generalPaginatedList.tsx:145-174 | Accepts a page as the generic hook does |
| Pagination.RegistryPaginatedList.RequestMoreRecords | packages/react-libs/hooks/generalPaginatedList.tsx:178-187 | Marks a request only when more remain |
| Pagination.Lockstep | packages/react-libs/hooks/generalPaginatedList.tsx:48-187 | For fixed options both hooks go through the same states over every sequence of fetches, requests and resets |
| Pagination.ReadyWhen | packages/react-libs/hooks/useGenericPaginatedList.tsx:126-128 | A fetch may run after a reset if fetching on start or once asked to, never right after a page, and then once asked to exactly when that page had a key |
| NullableSchema.FieldTypeSchema | provena/registry-api/main.py:494-531 | Form by form: a typed field is wrapped in an anyOf or gets null in its type list, a reference moves into an anyOf, allOf members become alternatives, and a null branch is appended to anyOf or oneOf unless there is one; written to the given dictionary except for the OpenAPI form of a typed field; it fails without a write for an empty anyOf alone, and does nothing if the field does not allow None |
| NullableSchema.NullableIsPatched | provena/registry-api/main.py:498-529 | The rewrite as a function takes the same forms |
| NullableSchema.SchemaObject.AppendNullBranch | provena/registry-api/main.py:523-529 | The search appends a null branch to the first non-empty of anyOf and oneOf unless it has one |
| NullableSchema.RewriteExactIff | provena/registry-api/main.py:498-529 | The patched schema accepts exactly the original's values and null if and only if the condition of the branch taken holds |
| NullableSchema.PydanticShapeIsExact | provena/registry-api/main.py:498-529 | For schemas of pydantic's shape it always does, in both encodings |
| NullableSchema.TypedExactIff | provena/registry-api/main.py:499-510 | The wrapping form is always exact; the type list is exact if and only if the type is all that bars null |
| NullableSchema.PatchOptionalType | provena/registry-api/main.py:499-510 | An optional field with a type of any name or names, and nothing but keywords that say nothing of null beside it, accepts its old values and null and nothing else, in both encodings |
| NullableSchema.ReferenceExactIff | provena/registry-api/main.py:511-516 | For a given meaning of the reference, moving it into an alternative is exact if and only if the keywords beside it, hidden before, let through what it stands for and null |
| NullableSchema.ReferenceExactForAnyTargetIff | provena/registry-api/main.py:511-516 | It is exact whatever the reference stands for if and only if the keywords beside it, which must not mention it themselves, accept every value |
| NullableSchema.SelfMentionIsExact | provena/registry-api/main.py:511-516 | The exception: keywords that mention the reference themselves can bar values and the move still be exact under every meaning |
| NullableSchema.LoneReferenceExactIff | provena/registry-api/main.py:511-516 | Beside keywords outside the model only, it is exact under every meaning if and only if all of them are annotations |
| NullableSchema.AllOfExactIff | provena/registry-api/main.py:518-521 | For a given meaning, turning members into alternatives is exact if and only if the rest admits null and the members agree on every other value it admits |
| NullableSchema.AllOfReferencesExactIff | provena/registry-api/main.py:518-521 | For members that are references it is exact under every meaning if and only if there is a member and all name the same definition |
| NullableSchema.SingleMemberExactIff | provena/registry-api/main.py:518-521 | For a single member it is exact if and only if the rest admits null |
| NullableSchema.AnyOfExactIff | provena/registry-api/main.py:523-529 | Appending null to anyOf is exact if and only if the rest admits null |
| NullableSchema.OneOfExactIff | provena/registry-api/main.py:523-529 | Appending null to oneOf is exact if and only if the rest admits null and no other branch does |
| NullableSchema.FailsIff | provena/registry-api/main.py:523-529 | The rewrite fails exactly for an empty anyOf with no other form to rewrite |
| NullableSchema.FormsAgreeIff | scripts/generate-legacy-schemas.py:46-56 | The two encodings of a typed field accept the same values if and only if the type is all that bars null |
| NullableSchema.EnumStillBarsNull | provena/registry-api/main.py:508-510 | A typed field with an enum: null in the type list is still barred by the enum |
| NullableSchema.HiddenEnumComesToLight | provena/registry-api/main.py:511-516 | An enum beside a reference: the patched schema rejects a value the original accepts |
| NullableSchema.TwoMembersBecomeAlternatives | provena/registry-api/main.py:518-521 | With two members the patched schema accepts values the original rejects |
| Annotations.Editor.constructor | packages/react-libs/components/DatasetTemplateAdditionalAnnotationsOverride.tsx:84-106 | The list shows the object's pairs, without a duplicate, and the form is enabled exactly for non-empty data |
| Annotations.Editor.UpdateFormData | packages/react-libs/components/DatasetTemplateAdditionalAnnotationsOverride.tsx:108-154 | Replaces one entry and sets the flag to whether two entries share a non-empty key |
| Annotations.Editor.RemoveAtIndex | packages/react-libs/components/DatasetTemplateAdditionalAnnotationsOverride.tsx:156-191 | Removes one entry, sets the flag likewise, and disables the form when nothing is left |
| Annotations.Editor.AddEmptyItem | packages/react-libs/components/DatasetTemplateAdditionalAnnotationsOverride.tsx:230-243 | Adds an empty pair at the end; the flag stays right without being touched |
| Annotations.Editor.ConvertToObject | packages/react-libs/components/DatasetTemplateAdditionalAnnotationsOverride.tsx:193-213 | The emitted object maps exactly the non-empty keys with a non-empty value, each to its last one, and nothing is emitted when there are none |
| Annotations.Editor.EditAll | packages/react-libs/components/DatasetTemplateAdditionalAnnotationsOverride.tsx:108-243 | Over every sequence of edits the flag holds exactly when two entries share a non-empty key |
| Annotations.ToObjectTakesLast | packages/react-libs/components/DatasetTemplateAdditionalAnnotationsOverride.tsx:193-213 | The emitted object maps exactly the non-empty keys with a non-empty value, each to its last one |
| Annotations.EmittedTakesLast | packages/react-libs/components/DatasetTemplateAdditionalAnnotationsOverride.tsx:193-213 | The parent is told that object, and nothing exactly when no entry is filled in |
| Annotations.RoundTripIff | packages/react-libs/components/DatasetTemplateAdditionalAnnotationsOverride.tsx:31-41 | Object to list to object is the identity if and only if the object is non-empty and has no empty key or value |
| Annotations.ObjectListsHaveNoDuplicate | packages/react-libs/components/DatasetTemplateAdditionalAnnotationsOverride.tsx:31-41 | A list made from an object never has a duplicate |

## Left out

- NullableSchema.FieldTypeSchema: the dictionary of the field is an object that is written in place, but the schemas
  inside it are values, so sharing one null schema between fields or a branch list with pydantic's own objects is not
  captured. The script's copy (`scripts/generate-legacy-schemas.py:42-68`) consists of the same statements, so one method
  stands for both.
- NullableSchema.RewriteExactIff: assumes that keywords outside the model (numeric, string, array and object keywords,
  titles) accept null; `not`, `if`, `then`, `else` and boolean subschemas are not covered.
- JobService.Service.WorkOnce: one uninterrupted worker in one process; interleaving, stops and lost sessions are in
  `JobProtocol`.
- JobDraining.DrainingEnds: needs handlers that submit only jobs of strictly lower rank, as the create and version
  activity handlers do when they submit lodge jobs; the handlers themselves are not modelled.
- JobSafety.LifecycleSafe: covers status, info and result; created timestamps, console output and the text of messages
  are left out.
- WorkflowSystem.StoppedWatcherIsFinal: a watcher without a session id, and one that unmounts and mounts again with what
  the query library has cached, are out; there is one watcher for a session.
- Workflow.WorkflowManager.OnSuccess: errors are constructors instead of texts, and late callbacks of older renders than
  the current one are out.
- VersionList.LoadedVersionList.OnSuccess: a state updater runs once; React's strict mode, which runs updaters twice, is
  out, as are failed fetches and refetches of an id already loaded.
- GraphRenderer.D3Graph.ResolveLinks: the contract of the link force only; other forces, positions, dragging and locking
  write fields that no modelled method reads. Numeric link ends and node details are out.
- GraphRenderer.D3Graph.RunSession: the merge is not conditional on the drawing width being known, which only delays it.
- GraphData.ProvGraphData.DeriveGraphState: expansions are taken as they are; the dispatcher that drops expansions it
  cannot turn into a query, and how hover, focus and the direction flags change other than by a reset, are out.
- Pagination.PageIsNextSlice: sort values and ids enter by rank, so null sort values and database collation are out; item
  and job lists share one model.
- Pagination.RegistryPaginatedList.RenderWith: a fetch in flight across a reset is out, and options stand for the three
  values the effect depends on; other filter values do not trigger it.
- Annotations.Editor.AddEmptyItem: pushes into the old list before copying it; that aliasing with React's previous state
  is not captured.
- Annotations.Editor.ConvertToObject: a JavaScript object is a map; the order of its keys is a parameter of the
  constructor, and the special key `__proto__` is treated like any other.
- Network failures, timers, caching policies and stale times of the query library, beyond the assumptions above.
- Authentication, item access, storage, email, CORS, configuration and deployment code: plumbing over libraries, or short
  set expressions that would add only easy members.
