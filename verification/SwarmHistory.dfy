/** What the state of a coordinator tells about the run behind it: where task states, tier, capabilities and known
    agents come from, and what reports and questions come to (grid/swarm.rs). */
module SwarmHistory {
  import opened Prelude
  import opened Swarm
  import opened SwarmRuns

  // ----- where task states come from -----

  /** The event is one that can have brought the task into this state. */
  predicate Explains(self: AgentId, e: Event, id: TaskId, state: TaskState) {
    match e
    case Created(x, _) => x == id && state == Pending
    case Claimed(x, _) => x == id && state == Assigned(self)
    case Progressed(x, progress, _) => x == id && state == InProgress(self, if progress > 100 then 100 else progress)
    case Finished(x, output, qiCost, _) =>
      && x == id && state.Completed? && state.agent == self
      && state.result.output == output && state.result.qiCost == qiCost && state.result.artifacts == []
    case GaveUp(x, error, _) => x == id && state == TaskState.Failed(self, error)
    case Got(SubmitTask(task), _) => task.id == id && state == task.state
    case Got(ClaimTask(x, agentId), _) => x == id && state == Assigned(agentId)
    case Got(TaskProgress(x, progress), _) => x == id && state.InProgress? && state.progress == progress
    case Got(TaskComplete(x, result), _) => x == id && state.Completed? && state.result == result
    case Got(TaskFailed(x, error), _) => x == id && state.Failed? && state.error == error
    case _ => false
  }

  /** A step brings a task into a state that it explains, or leaves the task exactly as it is. */
  lemma StepExplained(c: Coordinator, e: Event, id: TaskId)
    requires id in Next(c, e).tasks
    ensures var task := Next(c, e).tasks[id];
      Explains(c.self, e, id, task.state) || (id in c.tasks && task == c.tasks[id])
  {
  }

  function StateAfter(c: Coordinator, events: seq<Event>, id: TaskId): Option<TaskState> {
    var tasks := Run(c, events).tasks;
    if id in tasks then Some(tasks[id].state) else None
  }

  /** From the k-th event on the task is in this state. */
  ghost predicate Lasts(c: Coordinator, events: seq<Event>, k: nat, id: TaskId, state: TaskState)
    requires k <= |events|
  {
    forall j :: k <= j <= |events| ==> StateAfter(c, events[..j], id) == Some(state)
  }

  lemma LastsFromNow(c: Coordinator, events: seq<Event>, id: TaskId, state: TaskState)
    requires StateAfter(c, events, id) == Some(state)
    ensures Lasts(c, events, |events|, id, state)
  {
    assert events[..|events|] == events;
  }

  lemma LastsLonger(c: Coordinator, events: seq<Event>, k: nat, id: TaskId, state: TaskState)
    requires k < |events| && Lasts(c, events[..|events| - 1], k, id, state)
    requires StateAfter(c, events, id) == Some(state)
    ensures Lasts(c, events, k, id, state)
  {
    var front := events[..|events| - 1];
    forall j | k <= j <= |events| ensures StateAfter(c, events[..j], id) == Some(state) {
      if j < |events| {
        assert front[..j] == events[..j];
      } else {
        assert events[..j] == events;
      }
    }
  }

  lemma LastStep(c: Coordinator, front: seq<Event>, e: Event, id: TaskId, state: TaskState)
    requires StateAfter(c, front + [e], id) == Some(state)
    ensures Explains(c.self, e, id, state) || StateAfter(c, front, id) == Some(state)
  {
    RunAppend(c, front, e);
    RunKeepsSelf(c, front);
    StepExplained(Run(c, front), e, id);
  }

  lemma {:induction false} StateIsExplained(c: Coordinator, events: seq<Event>, id: TaskId, state: TaskState)
    returns (k: nat)
    requires id !in c.tasks && StateAfter(c, events, id) == Some(state)
    ensures k < |events| && Explains(c.self, events[k], id, state) && Lasts(c, events, k + 1, id, state)
    decreases |events|
  {
    if events == [] {
    } else {
      var front, e := events[..|events| - 1], events[|events| - 1];
      assert events == front + [e];
      LastStep(c, front, e, id, state);
      if Explains(c.self, e, id, state) {
        k := |front|;
        LastsFromNow(c, events, id, state);
      } else {
        k := StateIsExplained(c, front, id, state);
        LastsLonger(c, events, k + 1, id, state);
      }
    }
  }

  /** In every run, each task has come into its state by an event that explains it, and has been in it ever since: a
      task is completed with a result or failed with an error only because someone reported or submitted just that. */
  lemma StatesAreExplained(self: AgentId, events: seq<Event>, id: TaskId) returns (k: nat)
    requires id in Run(NewCoordinator(self), events).tasks
    ensures var state := Run(NewCoordinator(self), events).tasks[id].state;
      k < |events| && Explains(self, events[k], id, state) && Lasts(NewCoordinator(self), events, k + 1, id, state)
  {
    k := StateIsExplained(NewCoordinator(self), events, id, Run(NewCoordinator(self), events).tasks[id].state);
  }

  lemma {:induction false} RunKeepsSelf(c: Coordinator, events: seq<Event>)
    ensures Run(c, events).self == c.self
    decreases |events|
  {
    if events == [] {
    } else {
      RunKeepsSelf(Next(c, events[0]), events[1..]);
    }
  }

  /** Conversely, what is reported about a task that somebody holds is what becomes of it, in the holder's name if it
      comes in a message and in this agent's name if it is a local call. */
  lemma ReportsTakeEffect(c: Coordinator, e: Event, id: TaskId)
    requires id in c.tasks && Held(c.tasks[id].state)
    ensures id in Next(c, e).tasks
    ensures var holder, task := c.tasks[id].state.agent, Next(c, e).tasks[id];
      match e
      case Got(TaskProgress(x, progress), now) =>
        x == id ==> task.state == InProgress(holder, progress) && task.updatedAt == now
      case Got(TaskComplete(x, result), now) =>
        x == id ==> task.state == Completed(holder, result) && task.updatedAt == now
      case Got(TaskFailed(x, error), now) =>
        x == id ==> task.state == TaskState.Failed(holder, error) && task.updatedAt == now
      case Progressed(x, progress, now) =>
        x == id ==> task.state == InProgress(c.self, if progress > 100 then 100 else progress) && task.updatedAt == now
      case Finished(x, output, qiCost, now) =>
        x == id ==>
          && task.state.Completed? && task.state.agent == c.self && task.updatedAt == now
          && task.state.result.output == output && task.state.result.qiCost == qiCost
          && task.state.result.artifacts == []
      case GaveUp(x, error, now) =>
        x == id ==> task.state == TaskState.Failed(c.self, error) && task.updatedAt == now
      case _ => true
  {
  }

  /** A completion records the time elapsed since creation, in milliseconds, if the clock has not gone back and the
      number fits 64 bits; a task from an agent whose clock is ahead gets the difference wrapped around. */
  lemma CompletionTakesElapsed(c: Coordinator, id: TaskId, output: string, qiCost: nat, now: nat)
    requires id in c.tasks
    ensures var task, created := Complete(c, id, output, qiCost, now).0.tasks[id], c.tasks[id].createdAt;
      && task.state.Completed?
      && (created <= now && (now - created) * 1000 < TWO_TO_64 ==>
            task.state.result.durationMs == (now - created) * 1000)
      && (now < created && (created - now) * 1000 <= TWO_TO_64 ==>
            task.state.result.durationMs == TWO_TO_64 - (created - now) * 1000)
  {
    var created := c.tasks[id].createdAt;
    if created <= now {
      if (now - created) * 1000 < TWO_TO_64 {
        assert (now - created) % TWO_TO_64 == now - created;
      }
    } else if (created - now) * 1000 <= TWO_TO_64 {
      WrappedProduct(created - now);
    }
  }

  lemma WrappedProduct(behind: int)
    requires 0 < behind && behind * 1000 <= TWO_TO_64
    ensures (((-behind) % TWO_TO_64) * 1000) % TWO_TO_64 == TWO_TO_64 - behind * 1000
  {
    Remainder(-1, TWO_TO_64 - behind);
    assert -TWO_TO_64 + (TWO_TO_64 - behind) == -behind;
    Remainder(999, TWO_TO_64 - behind * 1000);
    assert (TWO_TO_64 - behind) * 1000 == 999 * TWO_TO_64 + (TWO_TO_64 - behind * 1000);
  }

  lemma Remainder(q: int, r: int)
    requires 0 <= r < 0x1_0000_0000_0000_0000
    ensures (q * 0x1_0000_0000_0000_0000 + r) % 0x1_0000_0000_0000_0000 == r
  {
  }

  // ----- the order of the queue -----

  /** The queue is first come, first served: what is created or submitted goes to its end, what is claimed is taken out,
      and nothing else touches it. */
  lemma QueueKeepsOrder(c: Coordinator, e: Event)
    ensures Next(c, e).queue ==
      match e
      case Created(id, _) => c.queue + [id]
      case Got(SubmitTask(task), _) => c.queue + [task.id]
      case Claimed(id, now) =>
        if Claim(c, id, now).1.Ok? then Retain(c.queue, id) else c.queue
      case Got(ClaimTask(id, _), _) => if PendingHere(c, id) then Retain(c.queue, id) else c.queue
      case _ => c.queue
  {
  }

  // ----- the agent itself -----

  /** The tier of the last upgrade. */
  function LastTier(tier: nat, events: seq<Event>): nat
    decreases |events|
  {
    if events == [] then tier else LastTier(if events[0].Upgraded? then events[0].tier else tier, events[1..])
  }

  predicate Teaches(e: Event, cap: Capability) {
    e == Learned(cap) || (e.Upgraded? && e.tier >= 1 && cap == "LocalInference")
  }

  /** In every run, the agent has the tier of its last upgrade, and exactly the capabilities it began with, was taught,
      or got with a tier above the lowest. */
  lemma {:induction false} TierAndCapabilities(c: Coordinator, events: seq<Event>, cap: Capability)
    ensures Run(c, events).tier == LastTier(c.tier, events)
    ensures cap in Run(c, events).capabilities <==> cap in c.capabilities || exists e :: e in events && Teaches(e, cap)
    decreases |events|
  {
    if events == [] {
    } else {
      var e := events[0];
      StepTeaches(c, e, cap);
      TierAndCapabilities(Next(c, e), events[1..], cap);
      assert forall x :: x in events <==> x == e || x in events[1..];
    }
  }

  lemma StepTeaches(c: Coordinator, e: Event, cap: Capability)
    ensures Next(c, e).tier == if e.Upgraded? then e.tier else c.tier
    ensures cap in Next(c, e).capabilities <==> cap in c.capabilities || Teaches(e, cap)
  {
  }

  // ----- other agents -----

  predicate Announces(e: Event, id: AgentId) { e.Got? && e.msg.Announce? && e.msg.agent.id == id }

  lemma StepAnnounces(c: Coordinator, e: Event, id: AgentId)
    ensures id in Next(c, e).agents <==> id in c.agents || Announces(e, id)
  {
  }

  /** In every run, exactly the agents that have announced themselves are known. */
  lemma {:induction false} KnownIff(c: Coordinator, events: seq<Event>, id: AgentId)
    ensures id in Run(c, events).agents <==> id in c.agents || exists e :: e in events && Announces(e, id)
    decreases |events|
  {
    if events == [] {
    } else {
      StepAnnounces(c, events[0], id);
      KnownIff(Next(c, events[0]), events[1..], id);
      assert forall x :: x in events <==> x == events[0] || x in events[1..];
    }
  }

  predicate Beats(msg: Message, id: AgentId) { (msg.Ping? || msg.Pong?) && msg.agentId == id }

  /** What is recorded about a known agent is what it last announced, or, after a heartbeat, that it is ready and was
      seen at that time; a ping is answered with its own timestamp. */
  lemma HeartbeatsCount(c: Coordinator, msg: Message, now: nat, id: AgentId)
    requires id in Handle(c, msg, now).0.agents
    ensures var agent := Handle(c, msg, now).0.agents[id];
      if msg.Announce? && msg.agent.id == id then agent == msg.agent
      else id in c.agents && agent == if Beats(msg, id) then Agent(c.agents[id].id, Ready, now) else c.agents[id]
    ensures msg.Ping? ==> Handle(c, msg, now).1 == PongReply(c.self, msg.timestamp)
  {
  }

  // ----- questions -----

  predicate Asks(msg: Message) { msg.DiscoverAgents? || msg.GetTaskStatus? || msg.GetPendingTasks? }

  /** Questions change nothing; they are answered with the agents, the one task or all queued tasks that are stored, and
      if the queue is exact the latter are exactly the pending tasks. */
  lemma QuestionsAreAnswered(c: Coordinator, msg: Message, now: nat)
    requires Asks(msg)
    ensures Handle(c, msg, now).0 == c
    ensures var reply := Handle(c, msg, now).1;
      && (msg.DiscoverAgents? ==> reply == KnownAgents(c.agents))
      && (msg.GetTaskStatus? ==>
            reply == if msg.id in c.tasks then StatusReply(c.tasks[msg.id]) else NoReply)
      && (msg.GetPendingTasks? ==> reply.QueuedTasks? && forall t :: t in reply.tasks <==>
            exists id :: id in c.queue && id in c.tasks && t == c.tasks[id])
      && (msg.GetPendingTasks? && Exact(c) ==> forall t :: t in reply.tasks <==>
            exists id :: PendingHere(c, id) && t == c.tasks[id])
  {
    if msg.GetPendingTasks? {
      StoredMembers(c.tasks, c.queue);
    }
  }
}
