/** What every run of a coordinator keeps: the pending queue, capacity, and the ownership of a task. */
module SwarmRuns {
  import opened Prelude
  import opened Swarm

  datatype Event =
    | Upgraded(tier: nat)
    | Learned(cap: Capability)
    | Created(id: TaskId, now: nat)
    | Claimed(id: TaskId, now: nat)
    | Progressed(id: TaskId, progress: nat, now: nat)
    | Finished(id: TaskId, output: string, qiCost: nat, now: nat)
    | GaveUp(id: TaskId, error: string, now: nat)
    | Got(msg: Message, now: nat)

  function Next(c: Coordinator, e: Event): Coordinator {
    match e
    case Upgraded(tier) => UpgradeTier(c, tier)
    case Learned(cap) => AddCapability(c, cap)
    case Created(id, now) => CreateTask(c, id, now)
    case Claimed(id, now) => Claim(c, id, now).0
    case Progressed(id, progress, now) => UpdateProgress(c, id, progress, now).0
    case Finished(id, output, qiCost, now) => Complete(c, id, output, qiCost, now).0
    case GaveUp(id, error, now) => Fail(c, id, error, now).0
    case Got(msg, now) => Handle(c, msg, now).0
  }

  function Run(c: Coordinator, events: seq<Event>): Coordinator
    decreases |events|
  {
    if events == [] then c else Run(Next(c, events[0]), events[1..])
  }

  lemma {:induction false} RetainMembers(q: seq<TaskId>, id: TaskId)
    ensures forall x :: x in Retain(q, id) <==> x in q && x != id
    ensures |Retain(q, id)| <= |q|
  {
    if q == [] {
    } else {
      RetainMembers(q[1..], id);
      assert forall x :: x in q <==> x == q[0] || x in q[1..];
    }
  }

  /** No id occurs more often than before. */
  lemma {:induction false} RetainCounts(q: seq<TaskId>, id: TaskId)
    ensures multiset(Retain(q, id)) <= multiset(q)
  {
    if q == [] {
    } else {
      RetainCounts(q[1..], id);
      assert multiset(q) == multiset{q[0]} + multiset(q[1..]) by {
        assert q == [q[0]] + q[1..];
      }
    }
  }

  /** Taking a queued id out leaves the others where they were. */
  lemma {:induction false} RetainTakesOut(a: seq<TaskId>, id: TaskId, b: seq<TaskId>)
    requires id !in a && id !in b
    ensures Retain(a + [id] + b, id) == a + b
  {
    if a == [] {
      assert [] + [id] + b == [id] + b && ([id] + b)[1..] == b;
      RetainAbsent(b, id);
    } else {
      assert (a + [id] + b)[1..] == a[1..] + [id] + b;
      RetainTakesOut(a[1..], id, b);
      assert a + b == [a[0]] + (a[1..] + b);
    }
  }

  lemma {:induction false} RetainAbsent(q: seq<TaskId>, id: TaskId)
    requires id !in q
    ensures Retain(q, id) == q
  {
    if q == [] {
    } else {
      RetainAbsent(q[1..], id);
    }
  }

  // ----- what holds whatever anyone calls or sends -----

  ghost predicate Indexed(c: Coordinator) {
    && (forall id :: id in c.tasks ==> c.tasks[id].id == id)
    && (forall id :: id in c.tasks && c.tasks[id].state.Pending? ==> id in c.queue)
    && (forall id :: id in c.queue ==> id in c.tasks)
    && |c.currentTasks| <= c.maxTasks
  }

  lemma SubmissionKeepsIndexed(c: Coordinator, task: Task)
    requires Indexed(c)
    ensures Indexed(c.(tasks := c.tasks[task.id := task], queue := c.queue + [task.id]))
  {
  }

  lemma ClaimKeepsIndexed(c: Coordinator, id: TaskId, agentId: AgentId, current: seq<TaskId>, now: nat)
    requires Indexed(c) && id in c.tasks && |current| <= c.maxTasks
    ensures Indexed(WithState(c, id, Assigned(agentId), now).(currentTasks := current, queue := Retain(c.queue, id)))
  {
    RetainMembers(c.queue, id);
  }

  lemma UpdateKeepsIndexed(c: Coordinator, id: TaskId, state: TaskState, current: seq<TaskId>, now: nat)
    requires Indexed(c) && id in c.tasks && !state.Pending? && |current| <= c.maxTasks
    ensures Indexed(WithState(c, id, state, now).(currentTasks := current))
  {
  }

  lemma MessageKeepsIndexed(c: Coordinator, msg: Message, now: nat)
    requires Indexed(c)
    ensures Indexed(Handle(c, msg, now).0)
  {
    if msg.SubmitTask? {
      SubmissionKeepsIndexed(c, msg.task);
    } else if msg.ClaimTask? {
      if msg.id in c.tasks {
        ClaimKeepsIndexed(c, msg.id, msg.agentId, c.currentTasks, now);
      }
    } else if msg.TaskProgress? || msg.TaskComplete? || msg.TaskFailed? {
      if msg.id in c.tasks && Held(c.tasks[msg.id].state) {
        UpdateKeepsIndexed(c, msg.id, Handle(c, msg, now).0.tasks[msg.id].state, c.currentTasks, now);
      }
    }
  }

  lemma StepKeepsIndexed(c: Coordinator, e: Event)
    requires Indexed(c)
    ensures Indexed(Next(c, e))
  {
    match e
    case Created(id, now) => SubmissionKeepsIndexed(c, Task(id, Pending, now, now, 0, []));
    case Got(msg, now) => MessageKeepsIndexed(c, msg, now);
    case Claimed(id, now) =>
      if Claim(c, id, now).1.Ok? {
        ClaimKeepsIndexed(c, id, c.self, c.currentTasks + [id], now);
      }
    case Upgraded(tier) =>
    case Learned(cap) =>
    case _ =>
      if e.id in c.tasks {
        RetainMembers(c.currentTasks, e.id);
        UpdateKeepsIndexed(c, e.id, Next(c, e).tasks[e.id].state, Next(c, e).currentTasks, e.now);
      }
  }

  /** Every pending task is queued, every queued id is stored, and the agent is never over capacity. */
  lemma {:induction false} RunsKeepIndexed(c: Coordinator, events: seq<Event>)
    requires Indexed(c)
    ensures Indexed(Run(c, events))
    decreases |events|
  {
    if events == [] {
    } else {
      StepKeepsIndexed(c, events[0]);
      RunsKeepIndexed(Next(c, events[0]), events[1..]);
    }
  }

  lemma NewIsIndexed(self: AgentId)
    ensures Indexed(NewCoordinator(self)) && Exact(NewCoordinator(self))
  {
  }

  // ----- when the queue is exactly the pending tasks -----

  predicate PendingHere(c: Coordinator, id: TaskId) { id in c.tasks && c.tasks[id].state.Pending? }

  /** The queue is exactly the set of pending ids, each once. */
  ghost predicate Exact(c: Coordinator) {
    && (forall id :: id in c.queue <==> PendingHere(c, id))
    && (forall id :: multiset(c.queue)[id] <= 1)
  }

  /** What the queue needs: nobody creates or updates a task that is pending, and submitted tasks are pending and do not
      replace a pending one. */
  predicate Careful(c: Coordinator, e: Event) {
    match e
    case Created(id, _) => !PendingHere(c, id)
    case Progressed(id, _, _) => !PendingHere(c, id)
    case Finished(id, _, _, _) => !PendingHere(c, id)
    case GaveUp(id, _, _) => !PendingHere(c, id)
    case Got(msg, _) => msg.SubmitTask? ==> msg.task.state.Pending? && !PendingHere(c, msg.task.id)
    case _ => true
  }

  lemma SubmissionExactIff(c: Coordinator, task: Task)
    requires Exact(c)
    ensures Exact(c.(tasks := c.tasks[task.id := task], queue := c.queue + [task.id]))
       <==> task.state.Pending? && !PendingHere(c, task.id)
  {
    var c' := c.(tasks := c.tasks[task.id := task], queue := c.queue + [task.id]);
    assert c'.queue[|c.queue|] == task.id && task.id in c'.queue;
    assert multiset(c'.queue)[task.id] == multiset(c.queue)[task.id] + 1;
    if task.state.Pending? && !PendingHere(c, task.id) {
      assert forall id :: id in c'.queue <==> id in c.queue || id == task.id;
    }
  }

  lemma ClaimKeepsExact(c: Coordinator, id: TaskId, agentId: AgentId, now: nat)
    requires Exact(c) && id in c.tasks
    ensures Exact(WithState(c, id, Assigned(agentId), now).(queue := Retain(c.queue, id)))
  {
    RetainMembers(c.queue, id);
    RetainCounts(c.queue, id);
  }

  lemma UpdateExactIff(c: Coordinator, id: TaskId, state: TaskState, current: seq<TaskId>, now: nat)
    requires Exact(c) && id in c.tasks && !state.Pending?
    ensures Exact(WithState(c, id, state, now).(currentTasks := current)) <==> !PendingHere(c, id)
  {
    var c' := WithState(c, id, state, now).(currentTasks := current);
    assert !PendingHere(c', id) && c'.queue == c.queue;
    if !PendingHere(c, id) {
      assert forall x :: PendingHere(c', x) <==> PendingHere(c, x);
    }
  }

  lemma MessageExactIff(c: Coordinator, msg: Message, now: nat)
    requires Exact(c)
    ensures Exact(Handle(c, msg, now).0) <==> Careful(c, Got(msg, now))
  {
    if msg.SubmitTask? {
      SubmissionExactIff(c, msg.task);
    } else if msg.ClaimTask? {
      if msg.id in c.tasks {
        ClaimKeepsExact(c, msg.id, msg.agentId, now);
      }
    } else if msg.TaskProgress? || msg.TaskComplete? || msg.TaskFailed? {
      if msg.id in c.tasks && Held(c.tasks[msg.id].state) {
        UpdateExactIff(c, msg.id, Handle(c, msg, now).0.tasks[msg.id].state, c.currentTasks, now);
      }
    } else {
      OthersKeepTasks(c, msg, now);
    }
  }

  lemma OthersKeepTasks(c: Coordinator, msg: Message, now: nat)
    requires !msg.SubmitTask? && !msg.ClaimTask? && !msg.TaskProgress? && !msg.TaskComplete? && !msg.TaskFailed?
    ensures Handle(c, msg, now).0.tasks == c.tasks && Handle(c, msg, now).0.queue == c.queue
  {
  }

  /** A step keeps the queue exact if and only if it is careful. */
  lemma StepExactIff(c: Coordinator, e: Event)
    requires Exact(c)
    ensures Exact(Next(c, e)) <==> Careful(c, e)
  {
    match e
    case Created(id, now) => SubmissionExactIff(c, Task(id, Pending, now, now, 0, []));
    case Claimed(id, now) =>
      if id in c.tasks {
        ClaimKeepsExact(c, id, c.self, now);
      }
    case Got(msg, now) => MessageExactIff(c, msg, now);
    case Upgraded(tier) =>
    case Learned(cap) =>
    case _ =>
      if e.id in c.tasks {
        UpdateExactIff(c, e.id, Next(c, e).tasks[e.id].state, Next(c, e).currentTasks, e.now);
      }
  }

  predicate CarefulRun(c: Coordinator, events: seq<Event>)
    decreases |events|
  {
    events != [] ==> Careful(c, events[0]) && CarefulRun(Next(c, events[0]), events[1..])
  }

  ghost predicate AlwaysExact(c: Coordinator, events: seq<Event>)
    decreases |events|
  {
    Exact(c) && (events != [] ==> AlwaysExact(Next(c, events[0]), events[1..]))
  }

  /** The queue is exact in every state of a run if and only if every step of it is careful. */
  lemma {:induction false} RunExactIff(c: Coordinator, events: seq<Event>)
    requires Exact(c)
    ensures AlwaysExact(c, events) <==> CarefulRun(c, events)
    decreases |events|
  {
    if events == [] {
    } else {
      var c' := Next(c, events[0]);
      StepExactIff(c, events[0]);
      if Exact(c') {
        RunExactIff(c', events[1..]);
      } else {
        assert !AlwaysExact(c', events[1..]);
      }
    }
  }

  lemma {:induction false} RunsKeepExact(c: Coordinator, events: seq<Event>)
    requires Indexed(c) && Exact(c) && CarefulRun(c, events)
    ensures Indexed(Run(c, events)) && Exact(Run(c, events))
    decreases |events|
  {
    if events == [] {
    } else {
      StepKeepsIndexed(c, events[0]);
      StepExactIff(c, events[0]);
      RunsKeepExact(Next(c, events[0]), events[1..]);
    }
  }

  // ----- which listed tasks can be claimed -----

  lemma {:induction false} StoredMembers(tasks: map<TaskId, Task>, ids: seq<TaskId>)
    ensures forall t :: t in StoredIn(tasks, ids) <==> exists id :: id in ids && id in tasks && t == tasks[id]
  {
    if ids == [] {
    } else {
      StoredMembers(tasks, ids[1..]);
      assert forall id :: id in ids <==> id == ids[0] || id in ids[1..];
    }
  }

  lemma {:induction false} SuitableMembers(c: Coordinator, tasks: seq<Task>)
    ensures forall t :: t in Suitable(c, tasks) <==> t in tasks && Suits(c, t)
  {
    if tasks == [] {
    } else {
      SuitableMembers(c, tasks[1..]);
    }
  }

  /** Listed as claimable are exactly the stored tasks of queued ids that this agent's tier and capabilities suit. */
  lemma ClaimableIff(c: Coordinator, t: Task)
    ensures t in ClaimableTasks(c) <==> Suits(c, t) && exists id :: id in c.queue && id in c.tasks && t == c.tasks[id]
  {
    SuitableMembers(c, StoredIn(c.tasks, c.queue));
    StoredMembers(c.tasks, c.queue);
  }

  /** Whatever was called before, a listed task can be claimed if and only if it is pending and capacity is left. */
  lemma ListedClaimIff(c: Coordinator, t: Task, now: nat)
    requires Indexed(c) && t in ClaimableTasks(c)
    ensures Claim(c, t.id, now).1.Ok? <==> t.state.Pending? && |c.currentTasks| < c.maxTasks
  {
    ClaimableIff(c, t);
  }

  /** After every careful run, whatever is listed can be claimed as long as capacity is left. */
  lemma ClaimableCanBeClaimed(self: AgentId, events: seq<Event>, t: Task, now: nat)
    requires CarefulRun(NewCoordinator(self), events)
    requires t in ClaimableTasks(Run(NewCoordinator(self), events))
    ensures var c := Run(NewCoordinator(self), events);
      |c.currentTasks| < c.maxTasks ==> Claim(c, t.id, now).1.Ok?
  {
    NewIsIndexed(self);
    RunsKeepExact(NewCoordinator(self), events);
    var c := Run(NewCoordinator(self), events);
    ClaimableIff(c, t);
  }

  lemma RunTwo(c: Coordinator, a: Event, b: Event)
    ensures Run(c, [a, b]) == Next(Next(c, a), b)
  {
    assert [a, b][1..] == [b] && [b][1..] == [];
    assert Run(Next(Next(c, a), b), []) == Next(Next(c, a), b);
    assert Run(Next(c, a), [b]) == Next(Next(c, a), b);
  }

  /** A careless run: updating a pending task leaves it queued, and it is listed though nobody can claim it. */
  lemma CarelessQueueGoesStale(self: AgentId, id: TaskId, now: nat)
    ensures var c := Run(NewCoordinator(self), [Created(id, now), Progressed(id, 10, now)]);
      && |ClaimableTasks(c)| == 1 && ClaimableTasks(c)[0].id == id
      && |c.currentTasks| < c.maxTasks && Claim(c, id, now).1.Err?
  {
    var c0 := NewCoordinator(self);
    RunTwo(c0, Created(id, now), Progressed(id, 10, now));
    var c := Next(Next(c0, Created(id, now)), Progressed(id, 10, now));
    assert c.queue == [id] && [id][1..] == [];
    assert StoredIn(c.tasks, [id]) == [c.tasks[id]];
    assert [c.tasks[id]][1..] == [];
    assert Suitable(c, [c.tasks[id]]) == [c.tasks[id]];
  }

  // ----- ownership of one task -----

  /** This agent holds the task unfinished. */
  predicate HeldBySelf(c: Coordinator, id: TaskId) {
    id in c.tasks && Held(c.tasks[id].state) && c.tasks[id].state.agent == c.self
  }

  /** A submission may replace a task by one that is no less far along and in the same hands. */
  predicate MayReplace(s: TaskState, t: TaskState) {
    if s.Pending? then t.Pending?
    else if Terminal(s) then t == s
    else Holder(t) == Holder(s)
  }

  /** What the owner of a task needs: it is not created again unless it is pending; local updates come only while this
      agent holds it, or change nothing; and a submission under its id agrees with it. */
  predicate Respects(c: Coordinator, e: Event, id: TaskId)
    requires id in c.tasks
  {
    match e
    case Created(x, _) => x == id ==> c.tasks[id].state.Pending?
    case Progressed(x, _, _) => x == id ==> HeldBySelf(c, id)
    case Finished(x, output, qiCost, now) => x == id ==>
      HeldBySelf(c, id)
      || c.tasks[id].state == Completed(c.self, TaskResult(output, [], DurationMs(now, c.tasks[id].createdAt), qiCost))
    case GaveUp(x, error, _) => x == id ==> HeldBySelf(c, id) || c.tasks[id].state == Failed(c.self, error)
    case Got(msg, _) => msg.SubmitTask? && msg.task.id == id ==> MayReplace(c.tasks[id].state, msg.task.state)
    case _ => true
  }

  /** Who claims the task with this event, if anyone tries and is able to. */
  function Claimant(c: Coordinator, e: Event, id: TaskId): Option<AgentId> {
    match e
    case Got(ClaimTask(x, agentId), _) => if x == id then Some(agentId) else None
    case Claimed(x, _) =>
      if x == id && id in c.tasks && |c.currentTasks| < c.maxTasks && c.tasks[id].minTier <= c.tier
      then Some(c.self) else None
    case _ => None
  }

  /** From one state to the next a task does not forget its owner or leave a final state, and gets an owner only by
      being claimed. */
  predicate Keeps(s: TaskState, s': TaskState, claimant: Option<AgentId>) {
    && (s.Pending? ==> Holder(s') == claimant && (s'.Pending? || s'.Assigned?))
    && (!s.Pending? ==> Holder(s') == Holder(s) && !s'.Pending?)
    && (Terminal(s) ==> s' == s)
  }

  lemma TasksStayStored(c: Coordinator, e: Event, id: TaskId)
    requires id in c.tasks
    ensures id in Next(c, e).tasks
  {
  }

  lemma MessageOwnerIff(c: Coordinator, msg: Message, now: nat, id: TaskId)
    requires id in c.tasks && id in Handle(c, msg, now).0.tasks
    ensures Keeps(c.tasks[id].state, Handle(c, msg, now).0.tasks[id].state, Claimant(c, Got(msg, now), id))
       <==> Respects(c, Got(msg, now), id)
  {
  }

  /** A step keeps the owner and the finality of a task if and only if it respects the task. */
  lemma StepOwnerIff(c: Coordinator, e: Event, id: TaskId)
    requires id in c.tasks
    ensures id in Next(c, e).tasks
    ensures Keeps(c.tasks[id].state, Next(c, e).tasks[id].state, Claimant(c, e, id)) <==> Respects(c, e, id)
  {
    TasksStayStored(c, e, id);
    if e.Got? {
      MessageOwnerIff(c, e.msg, e.now, id);
    }
  }

  predicate RespectfulRun(c: Coordinator, events: seq<Event>, id: TaskId)
    decreases |events|
  {
    id in c.tasks && (events != [] ==> Respects(c, events[0], id) && RespectfulRun(Next(c, events[0]), events[1..], id))
  }

  /** Every step of the run keeps owner and finality. */
  predicate AlwaysKeeps(c: Coordinator, events: seq<Event>, id: TaskId)
    decreases |events|
  {
    id in c.tasks && (events != [] ==>
      var c' := Next(c, events[0]);
      && id in c'.tasks && Keeps(c.tasks[id].state, c'.tasks[id].state, Claimant(c, events[0], id))
      && AlwaysKeeps(c', events[1..], id))
  }

  /** So it is over whole runs. */
  lemma {:induction false} RunOwnerIff(c: Coordinator, events: seq<Event>, id: TaskId)
    requires id in c.tasks
    ensures AlwaysKeeps(c, events, id) <==> RespectfulRun(c, events, id)
    decreases |events|
  {
    if events == [] {
    } else {
      StepOwnerIff(c, events[0], id);
      RunOwnerIff(Next(c, events[0]), events[1..], id);
    }
  }

  /** The first claimant of a run. */
  function FirstClaimant(c: Coordinator, events: seq<Event>, id: TaskId): Option<AgentId>
    decreases |events|
  {
    if events == [] then None
    else if Claimant(c, events[0], id).Some? then Claimant(c, events[0], id)
    else FirstClaimant(Next(c, events[0]), events[1..], id)
  }

  /** From a pending task on, in every interleaving, the recorded owner is the first claimant and nobody else. */
  lemma {:induction false} FirstClaimantOwns(c: Coordinator, events: seq<Event>, id: TaskId)
    requires RespectfulRun(c, events, id)
    ensures id in Run(c, events).tasks
    ensures c.tasks[id].state.Pending? ==> Holder(Run(c, events).tasks[id].state) == FirstClaimant(c, events, id)
    ensures !c.tasks[id].state.Pending? ==> Holder(Run(c, events).tasks[id].state) == Holder(c.tasks[id].state)
    decreases |events|
  {
    if events == [] {
    } else {
      StepOwnerIff(c, events[0], id);
      FirstClaimantOwns(Next(c, events[0]), events[1..], id);
    }
  }

  /** A completed, failed or cancelled task stays exactly as it is. */
  lemma {:induction false} FinalStatesAreFinal(c: Coordinator, events: seq<Event>, id: TaskId)
    requires RespectfulRun(c, events, id) && Terminal(c.tasks[id].state)
    ensures id in Run(c, events).tasks && Run(c, events).tasks[id].state == c.tasks[id].state
    decreases |events|
  {
    if events == [] {
    } else {
      StepOwnerIff(c, events[0], id);
      FinalStatesAreFinal(Next(c, events[0]), events[1..], id);
    }
  }

  /** A disrespectful run of a new coordinator: another agent claims and completes a task, then this agent completes it
      again; the first claimant is no longer the owner and the final state has been left. */
  lemma CompletingTakesOver(self: AgentId, id: TaskId, other: AgentId, result: TaskResult, output: string, qiCost: nat,
                            now: nat)
    requires other != self
    ensures var done := [Created(id, now), Got(ClaimTask(id, other), now), Got(TaskComplete(id, result), now)];
      var c := Run(NewCoordinator(self), done);
      var c' := Run(NewCoordinator(self), done + [Finished(id, output, qiCost, now)]);
      && id in c.tasks && c.tasks[id].state == Completed(other, result)
      && id in c'.tasks && Holder(c'.tasks[id].state) == Some(self)
  {
    var c0 := NewCoordinator(self);
    var e1, e2, e3 := Created(id, now), Got(ClaimTask(id, other), now), Got(TaskComplete(id, result), now);
    var c1 := Next(c0, e1);
    RunTwo(c1, e2, e3);
    assert [e1, e2, e3][1..] == [e2, e3];
    var c3 := Next(Next(c1, e2), e3);
    assert Run(c0, [e1, e2, e3]) == Run(c1, [e2, e3]) == c3;
    RunAppend(c0, [e1, e2, e3], Finished(id, output, qiCost, now));
  }

  lemma {:induction false} RunAppend(c: Coordinator, events: seq<Event>, e: Event)
    ensures Run(c, events + [e]) == Next(Run(c, events), e)
    decreases |events|
  {
    if events == [] {
      assert events + [e] == [e] && [e][1..] == [];
      assert Run(Next(c, e), []) == Next(c, e);
    } else {
      assert (events + [e])[1..] == events[1..] + [e];
      RunAppend(Next(c, events[0]), events[1..], e);
    }
  }

  // ----- what the agent is busy with -----

  /** Everything the agent counts as current it holds unfinished. */
  predicate Occupied(c: Coordinator) {
    forall id :: id in c.currentTasks ==> HeldBySelf(c, id)
  }

  /** What that needs: no current task is reported done or failed by others, created anew, or replaced by a submission
      that is not held by this agent. */
  predicate Considerate(c: Coordinator, e: Event) {
    match e
    case Created(id, _) => id !in c.currentTasks
    case Got(TaskComplete(id, _), _) => id !in c.currentTasks
    case Got(TaskFailed(id, _), _) => id !in c.currentTasks
    case Got(SubmitTask(task), _) =>
      task.id in c.currentTasks ==> Held(task.state) && task.state.agent == c.self
    case _ => true
  }

  lemma MessageOccupiedIff(c: Coordinator, msg: Message, now: nat)
    requires Occupied(c)
    ensures Occupied(Handle(c, msg, now).0) <==> Considerate(c, Got(msg, now))
  {
    var c' := Handle(c, msg, now).0;
    assert c'.currentTasks == c.currentTasks && c'.self == c.self;
    if !Considerate(c, Got(msg, now)) {
      var id := if msg.SubmitTask? then msg.task.id else msg.id;
      assert id in c.currentTasks && HeldBySelf(c, id) && !HeldBySelf(c', id);
    }
  }

  /** A step keeps every current task held if and only if it is considerate. */
  lemma StepOccupiedIff(c: Coordinator, e: Event)
    requires Occupied(c)
    ensures Occupied(Next(c, e)) <==> Considerate(c, e)
  {
    match e
    case Got(msg, now) => MessageOccupiedIff(c, msg, now);
    case Finished(id, _, _, _) => RetainMembers(c.currentTasks, id);
    case GaveUp(id, _, _) => RetainMembers(c.currentTasks, id);
    case Created(id, _) =>
      if id in c.currentTasks {
        assert !HeldBySelf(Next(c, e), id);
      }
    case _ =>
  }

  predicate ConsiderateRun(c: Coordinator, events: seq<Event>)
    decreases |events|
  {
    events != [] ==> Considerate(c, events[0]) && ConsiderateRun(Next(c, events[0]), events[1..])
  }

  predicate AlwaysOccupied(c: Coordinator, events: seq<Event>)
    decreases |events|
  {
    Occupied(c) && (events != [] ==> AlwaysOccupied(Next(c, events[0]), events[1..]))
  }

  lemma {:induction false} RunOccupiedIff(c: Coordinator, events: seq<Event>)
    requires Occupied(c)
    ensures AlwaysOccupied(c, events) <==> ConsiderateRun(c, events)
    decreases |events|
  {
    if events == [] {
    } else {
      var c' := Next(c, events[0]);
      StepOccupiedIff(c, events[0]);
      if Occupied(c') {
        RunOccupiedIff(c', events[1..]);
      } else {
        assert !AlwaysOccupied(c', events[1..]);
      }
    }
  }

  function LostTask(id: TaskId, result: TaskResult, now: nat): seq<Event> {
    [Created(id, now), Claimed(id, now)] + [Got(TaskComplete(id, result), now)]
  }

  /** A task claimed here and completed by others: its place stays taken. */
  lemma PlaceIsLost(c: Coordinator, id: TaskId, result: TaskResult, now: nat)
    requires id !in c.tasks && |c.currentTasks| < c.maxTasks
    ensures var c' := Run(c, LostTask(id, result, now));
      && c'.currentTasks == c.currentTasks + [id] && c'.maxTasks == c.maxTasks
      && c'.tasks == c.tasks[id := Task(id, Completed(c.self, result), now, now, 0, [])] && c'.self == c.self
  {
    RunTwo(c, Created(id, now), Claimed(id, now));
    RunAppend(c, [Created(id, now), Claimed(id, now)], Got(TaskComplete(id, result), now));
    CreatedAndClaimed(c, id, now);
    CompletedByOthers(Next(Next(c, Created(id, now)), Claimed(id, now)), id, result, now);
  }

  lemma CompletedByOthers(c: Coordinator, id: TaskId, result: TaskResult, now: nat)
    requires id in c.tasks && c.tasks[id].state == Assigned(c.self)
    ensures Next(c, Got(TaskComplete(id, result), now))
         == c.(tasks := c.tasks[id := c.tasks[id].(state := Completed(c.self, result), updatedAt := now)])
  {
  }

  lemma CreatedAndClaimed(c: Coordinator, id: TaskId, now: nat)
    requires |c.currentTasks| < c.maxTasks
    ensures var c2 := Next(Next(c, Created(id, now)), Claimed(id, now));
      && c2.tasks == c.tasks[id := Task(id, Assigned(c.self), now, now, 0, [])] && c2.self == c.self
      && c2.currentTasks == c.currentTasks + [id] && c2.maxTasks == c.maxTasks
  {
    var c1 := CreateTask(c, id, now);
    assert Next(c, Created(id, now)) == c1 && Next(c1, Claimed(id, now)) == Claim(c1, id, now).0;
  }

  lemma {:induction false} RunJoin(c: Coordinator, a: seq<Event>, b: seq<Event>)
    ensures Run(c, a + b) == Run(Run(c, a), b)
    decreases |a|
  {
    if a == [] {
      assert a + b == b;
    } else {
      assert (a + b)[1..] == a[1..] + b;
      RunJoin(Next(c, a[0]), a[1..], b);
    }
  }

  /** A run from a new coordinator that leaves the agent at capacity with nothing to do. */
  lemma CapacityIsLost(self: AgentId, result: TaskResult, now: nat)
    ensures var c := Run(NewCoordinator(self),
                         LostTask("a", result, now) + (LostTask("b", result, now) + LostTask("c", result, now)));
      && |c.currentTasks| == c.maxTasks
      && forall id :: id in c.currentTasks ==> id in c.tasks && Terminal(c.tasks[id].state)
  {
    var c0 := NewCoordinator(self);
    var a, b, c := LostTask("a", result, now), LostTask("b", result, now), LostTask("c", result, now);
    PlaceIsLost(c0, "a", result, now);
    var c1 := Run(c0, a);
    PlaceIsLost(c1, "b", result, now);
    var c2 := Run(c1, b);
    PlaceIsLost(c2, "c", result, now);
    RunJoin(c0, a, b + c);
    RunJoin(c1, b, c);
  }
}
