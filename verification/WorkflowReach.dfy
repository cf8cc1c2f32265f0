/** A run of server and workflow manager that ends in success without completeness. */
module WorkflowReach {
  import opened Common
  import opened JobModel
  import opened JobProtocol
  import opened JobInvariant
  import JobSafety
  import JobService
  import JobServiceRuns
  import opened Workflow
  import opened WorkflowSystem

  // ----- server steps as events -----

  function Served(run: seq<Step>): seq<Event> {
    seq(|run|, i requires 0 <= i < |run| => OnServer(run[i]))
  }

  lemma {:induction false} ServerRuns(c: Config, steps: seq<WorkflowStep>, sys: System, run: seq<Step>)
    requires ValidRun(c, sys.server, run)
    ensures CanAll(c, steps, sys, Served(run))
    ensures DoAll(c, steps, sys, Served(run)) == sys.(server := JobProtocol.After(c, sys.server, run))
    decreases |run|
  {
    if run != [] {
      assert Served(run)[1..] == Served(run[1..]);
      ServerRuns(c, steps, Do(c, steps, sys, OnServer(run[0])), run[1..]);
    }
  }

  lemma {:induction false} RunsThrough(c: Config, steps: seq<WorkflowStep>, sys: System, a: seq<Event>, b: seq<Event>)
    requires CanAll(c, steps, sys, a) && CanAll(c, steps, DoAll(c, steps, sys, a), b)
    ensures CanAll(c, steps, sys, a + b)
    ensures DoAll(c, steps, sys, a + b) == DoAll(c, steps, DoAll(c, steps, sys, a), b)
    decreases |a|
  {
    if a == [] {
      assert a + b == b;
    } else {
      assert (a + b)[0] == a[0] && (a + b)[1..] == a[1..] + b;
      RunsThrough(c, steps, Do(c, steps, sys, a[0]), a[1..], b);
    }
  }

  // ----- one wake-up job -----

  function Uuid(n: nat): SessionId {
    seq(n + 1, i => 'x')
  }

  const WakeUpJob := SubmitInput("alice", REGISTRY_WAKE_UP, map[], None, None)

  function OneHandler(): Config {
    Config(map[REGISTRY_WAKE_UP := JobService.WakeUp], 1)
  }

  function Succeeded(): Session {
    Session(RequestOf(WakeUpJob), SUCCEEDED, Some(CompletedSuccessfully), Some(map[]))
  }

  lemma WakeUpDelivery(s: State, id: SessionId) returns (run: seq<Step>)
    requires Inv(OneHandler(), s) && id == Uuid(0)
    requires s.table == map[id := Session(RequestOf(WakeUpJob), PENDING, None, None)] && s.queue == multiset{id}
    requires 0 in s.workers && s.workers[0] == Resting
    ensures ValidRun(OneHandler(), s, run) && After(OneHandler(), s, run).table == map[id := Succeeded()]
  {
    var c, db := OneHandler(), JobService.Db(s.table, [id], 1);
    assert JobService.Unused(Uuid, db) by {
      assert forall n: nat :: |Uuid(n)| == n + 1;
    }
    assert db.queue[..1] == [id] && db.queue[1..] == [];
    JobServiceRuns.DeliveryIsRun(c, Uuid, s, 0, db, 1);
    var after := JobService.WorkedAll(Uuid, c.handlers, db.(queue := []), [id]);
    assert [id][..0] == [];
    assert after.table == map[id := Succeeded()];
    run :| ValidRun(c, s, run) && JobServiceRuns.Matches(after, After(c, s, run));
  }

  /** The job is submitted, sent, fetched by the only worker and succeeds. */
  lemma WakeUpRun(id: SessionId) returns (run: seq<Step>)
    requires id == Uuid(0)
    ensures ValidRun(OneHandler(), Init({0}), run)
    ensures After(OneHandler(), Init({0}), run).table == map[id := Succeeded()]
  {
    var c, submit, send := OneHandler(), Submit(id, WakeUpJob), Send(id);
    var s1 := Apply(c, Init({0}), submit);
    var s2 := Apply(c, s1, send);
    InitEstablishes(c, {0});
    JobSafety.StepKeepsInv(c, Init({0}), submit);
    JobSafety.StepKeepsInv(c, s1, send);
    var rest := WakeUpDelivery(s2, id);
    run := [submit] + ([send] + rest);
    assert run[1..] == [send] + rest && ([send] + rest)[1..] == rest;
  }

  // ----- the workflow manager sees it -----

  /** The first step's generator finds no next session in any result. */
  function TwoSteps(): seq<WorkflowStep> {
    [WorkflowStep(Some((result: Record) => None)), WorkflowStep(None)]
  }

  lemma ThreeEvents(c: Config, steps: seq<WorkflowStep>, sys: System, e1: Event, e2: Event, e3: Event)
    requires Can(c, sys, e1) && Can(c, Do(c, steps, sys, e1), e2)
    requires Can(c, Do(c, steps, Do(c, steps, sys, e1), e2), e3)
    ensures CanAll(c, steps, sys, [e1, e2, e3])
    ensures DoAll(c, steps, sys, [e1, e2, e3]) == Do(c, steps, Do(c, steps, Do(c, steps, sys, e1), e2), e3)
  {
    var sys1 := Do(c, steps, sys, e1);
    var sys2 := Do(c, steps, sys1, e2);
    assert [e1, e2, e3][1..] == [e2, e3] && [e2, e3][1..] == [e3] && [e3][1..] == [];
    var sys3 := Do(c, steps, sys2, e3);
    assert CanAll(c, steps, sys3, []) && DoAll(c, steps, sys3, []) == sys3;
    assert CanAll(c, steps, sys2, [e3]) && DoAll(c, steps, sys2, [e3]) == sys3;
    assert CanAll(c, steps, sys1, [e2, e3]) && DoAll(c, steps, sys1, [e2, e3]) == DoAll(c, steps, sys2, [e3]);
  }

  /** The manager polls, the server answers with the finished row, and the answer arrives. */
  lemma FetchOnce(c: Config, sys: System, id: SessionId)
    requires sys.client == Workflow.Started(id) && sys.server.table == map[id := Succeeded()]
    ensures var events := [OnClient(Poll(0)), OnClient(Answer(id)), OnClient(Deliver(0))];
      && CanAll(c, TwoSteps(), sys, events)
      && var client := DoAll(c, TwoSteps(), sys, events).client;
         Success(client) && client.pending.None? && !Complete(TwoSteps(), client)
  {
    var asked := Do(c, TwoSteps(), sys, OnClient(Poll(0)));
    assert QueryAt(asked.client, 0).request == Asked;
    var answered := Do(c, TwoSteps(), asked, OnClient(Answer(id)));
    assert QueryAt(answered.client, 0).request == Answered(Succeeded());
    ThreeEvents(c, TwoSteps(), sys, OnClient(Poll(0)), OnClient(Answer(id)), OnClient(Deliver(0)));
  }

  ghost predicate SucceedsIncomplete(c: Config, steps: seq<WorkflowStep>, start: SessionId, workers: set<WorkerId>,
                                     events: seq<Event>)
  {
    && WellFormed(steps)
    && CanAll(c, steps, Mounted(workers, start), events)
    && var client := DoAll(c, steps, Mounted(workers, start), events).client;
       Success(client) && client.pending.None? && !Complete(steps, client)
  }

  /** Success does not mean complete: some run from the start ends with every known job succeeded, nothing left to
      render, and the workflow incomplete. */
  lemma SuccessIsNotComplete()
    ensures exists c, steps, start, workers, events :: SucceedsIncomplete(c, steps, start, workers, events)
  {
    var c, id := OneHandler(), Uuid(0);
    var run := WakeUpRun(id);
    var sys := Mounted({0}, id);
    ServerRuns(c, TwoSteps(), sys, run);
    var served := sys.(server := After(c, sys.server, run));
    FetchOnce(c, served, id);
    var fetch := [OnClient(Poll(0)), OnClient(Answer(id)), OnClient(Deliver(0))];
    RunsThrough(c, TwoSteps(), sys, Served(run), fetch);
    assert SucceedsIncomplete(c, TwoSteps(), id, {0}, Served(run) + fetch);
  }
}
