/** The swarm coordinator: tasks, the pending queue over them, and the messages that move them (grid/swarm.rs). */
module Swarm {
  import opened Prelude

  type TaskId = string
  type AgentId = string
  type Capability = string

  datatype TaskResult = TaskResult(output: string, artifacts: seq<string>, durationMs: nat, qiCost: nat)

  datatype TaskState =
    | Pending
    | Assigned(agent: AgentId)
    | InProgress(agent: AgentId, progress: nat)
    | Completed(agent: AgentId, result: TaskResult)
    | Failed(agent: AgentId, error: string)
    | Cancelled

  datatype Task = Task(
    id: TaskId, state: TaskState, createdAt: nat, updatedAt: nat, minTier: nat, needs: seq<Capability>)

  datatype AgentStatus = Ready | Busy | Offline | Paused

  datatype Agent = Agent(id: AgentId, status: AgentStatus, lastSeen: nat)

  /** All messages of the protocol; `handle_message` acts on some and ignores the others. */
  datatype Message =
    | Announce(agent: Agent)
    | DiscoverAgents
    | AgentList(agents: seq<Agent>)
    | SubmitTask(task: Task)
    | ClaimTask(id: TaskId, agentId: AgentId)
    | ReleaseTask(id: TaskId, agentId: AgentId)
    | TaskProgress(id: TaskId, progress: nat)
    | TaskComplete(id: TaskId, result: TaskResult)
    | TaskFailed(id: TaskId, error: string)
    | CancelTask(id: TaskId)
    | GetTaskStatus(id: TaskId)
    | TaskStatus(task: Task)
    | GetPendingTasks
    | PendingTasks(tasks: seq<Task>)
    | RequestAssist(id: TaskId, need: string)
    | OfferAssist(id: TaskId, agentId: AgentId)
    | Broadcast(from: AgentId, text: string)
    | Ping(agentId: AgentId, timestamp: nat)
    | Pong(agentId: AgentId, timestamp: nat)

  /** The answers; the agents come in no particular order. */
  datatype Reply =
    | NoReply
    | KnownAgents(agents: map<AgentId, Agent>)
    | StatusReply(task: Task)
    | QueuedTasks(tasks: seq<Task>)
    | PongReply(self: AgentId, timestamp: nat)

  datatype Coordinator = Coordinator(
    self: AgentId, tier: nat, capabilities: seq<Capability>, currentTasks: seq<TaskId>, maxTasks: nat,
    agents: map<AgentId, Agent>, tasks: map<TaskId, Task>, queue: seq<TaskId>)

  function NewCoordinator(self: AgentId): Coordinator {
    Coordinator(self, 0, ["FileSystem", "Git"], [], 3, map[], map[], [])
  }

  /** The ids of a queue other than `id`, in order. */
  function Retain(queue: seq<TaskId>, id: TaskId): seq<TaskId> {
    if queue == [] then []
    else (if queue[0] == id then [] else [queue[0]]) + Retain(queue[1..], id)
  }

  function WithState(c: Coordinator, id: TaskId, state: TaskState, now: nat): Coordinator
    requires id in c.tasks
  {
    c.(tasks := c.tasks[id := c.tasks[id].(state := state, updatedAt := now)])
  }

  /** Every tier above the lowest brings local inference, listed again at each upgrade. */
  function UpgradeTier(c: Coordinator, tier: nat): Coordinator {
    c.(tier := tier, capabilities := if tier >= 1 then c.capabilities + ["LocalInference"] else c.capabilities)
  }

  function AddCapability(c: Coordinator, cap: Capability): Coordinator {
    if cap in c.capabilities then c else c.(capabilities := c.capabilities + [cap])
  }

  function CreateTask(c: Coordinator, id: TaskId, now: nat): Coordinator {
    c.(tasks := c.tasks[id := Task(id, Pending, now, now, 0, [])], queue := c.queue + [id])
  }

  function Claim(c: Coordinator, id: TaskId, now: nat): (Coordinator, Result<(), string>) {
    if id !in c.tasks then (c, Err("Task not found"))
    else if !c.tasks[id].state.Pending? then (c, Err("Task is not pending"))
    else if |c.currentTasks| >= c.maxTasks then (c, Err("Agent at capacity"))
    else if c.tasks[id].minTier > c.tier then (c, Err("Agent tier too low"))
    else
      var c' := WithState(c, id, Assigned(c.self), now);
      (c'.(currentTasks := c.currentTasks + [id], queue := Retain(c.queue, id)), Ok(()))
  }

  function UpdateProgress(c: Coordinator, id: TaskId, progress: nat, now: nat): (Coordinator, Result<(), string>) {
    if id !in c.tasks then (c, Err("Task not found"))
    else (WithState(c, id, InProgress(c.self, if progress < 100 then progress else 100), now), Ok(()))
  }

  /** Seconds since creation in milliseconds, in 64-bit wrapping arithmetic: a remote task may carry a later clock. */
  function DurationMs(now: nat, createdAt: nat): nat {
    (((now - createdAt) % TWO_TO_64) * 1000) % TWO_TO_64
  }

  function Complete(c: Coordinator, id: TaskId, output: string, qiCost: nat, now: nat)
    : (Coordinator, Result<(), string>)
  {
    if id !in c.tasks then (c, Err("Task not found"))
    else
      var result := TaskResult(output, [], DurationMs(now, c.tasks[id].createdAt), qiCost);
      (WithState(c, id, Completed(c.self, result), now).(currentTasks := Retain(c.currentTasks, id)), Ok(()))
  }

  function Fail(c: Coordinator, id: TaskId, error: string, now: nat): (Coordinator, Result<(), string>) {
    if id !in c.tasks then (c, Err("Task not found"))
    else (WithState(c, id, Failed(c.self, error), now).(currentTasks := Retain(c.currentTasks, id)), Ok(()))
  }

  function Seen(c: Coordinator, id: AgentId, status: AgentStatus, now: nat): Coordinator {
    if id in c.agents then c.(agents := c.agents[id := c.agents[id].(status := status, lastSeen := now)]) else c
  }

  /** The stored tasks of a list of ids, in order. */
  function StoredIn(tasks: map<TaskId, Task>, ids: seq<TaskId>): seq<Task> {
    if ids == [] then []
    else (if ids[0] in tasks then [tasks[ids[0]]] else []) + StoredIn(tasks, ids[1..])
  }

  /** The agent a state names. */
  function Holder(s: TaskState): Option<AgentId> {
    match s
    case Assigned(a) => Some(a)
    case InProgress(a, _) => Some(a)
    case Completed(a, _) => Some(a)
    case Failed(a, _) => Some(a)
    case _ => None
  }

  predicate Held(s: TaskState) { s.Assigned? || s.InProgress? }

  predicate Terminal(s: TaskState) { s.Completed? || s.Failed? || s.Cancelled? }

  function Handle(c: Coordinator, msg: Message, now: nat): (Coordinator, Reply) {
    match msg
    case Announce(agent) => (c.(agents := c.agents[agent.id := agent]), NoReply)
    case DiscoverAgents => (c, KnownAgents(c.agents))
    case SubmitTask(task) => (c.(tasks := c.tasks[task.id := task], queue := c.queue + [task.id]), NoReply)
    case ClaimTask(id, agentId) =>
      (if id in c.tasks && c.tasks[id].state.Pending?
       then WithState(c, id, Assigned(agentId), now).(queue := Retain(c.queue, id))
       else c, NoReply)
    case TaskProgress(id, progress) =>
      (if id in c.tasks && Held(c.tasks[id].state)
       then WithState(c, id, InProgress(c.tasks[id].state.agent, progress), now) else c, NoReply)
    case TaskComplete(id, result) =>
      (if id in c.tasks && Held(c.tasks[id].state)
       then WithState(c, id, Completed(c.tasks[id].state.agent, result), now) else c, NoReply)
    case TaskFailed(id, error) =>
      (if id in c.tasks && Held(c.tasks[id].state)
       then WithState(c, id, Failed(c.tasks[id].state.agent, error), now) else c, NoReply)
    case GetTaskStatus(id) => (c, if id in c.tasks then StatusReply(c.tasks[id]) else NoReply)
    case GetPendingTasks => (c, QueuedTasks(StoredIn(c.tasks, c.queue)))
    case Ping(agentId, timestamp) => (Seen(c, agentId, Ready, now), PongReply(c.self, timestamp))
    case Pong(agentId, _) => (Seen(c, agentId, Ready, now), NoReply)
    case _ => (c, NoReply)
  }

  predicate Suits(c: Coordinator, t: Task) {
    t.minTier <= c.tier && forall cap :: cap in t.needs ==> cap in c.capabilities
  }

  function Suitable(c: Coordinator, tasks: seq<Task>): seq<Task> {
    if tasks == [] then []
    else (if Suits(c, tasks[0]) then [tasks[0]] else []) + Suitable(c, tasks[1..])
  }

  function ClaimableTasks(c: Coordinator): seq<Task> {
    Suitable(c, StoredIn(c.tasks, c.queue))
  }

  class SwarmCoordinator {
    const self: AgentId
    var tier: nat
    var capabilities: seq<Capability>
    var currentTasks: seq<TaskId>
    const maxTasks: nat
    var agents: map<AgentId, Agent>
    var tasks: map<TaskId, Task>
    var queue: seq<TaskId>

    ghost function Value(): Coordinator
      reads this
    {
      Coordinator(self, tier, capabilities, currentTasks, maxTasks, agents, tasks, queue)
    }

    constructor (id: AgentId)
      ensures Value() == NewCoordinator(id)
    {
      self, tier, capabilities := id, 0, ["FileSystem", "Git"];
      currentTasks, maxTasks := [], 3;
      agents, tasks, queue := map[], map[], [];
    }

    method Upgrade(newTier: nat)
      modifies this
      ensures Value() == UpgradeTier(old(Value()), newTier)
    {
      tier := newTier;
      if newTier >= 1 {
        capabilities := capabilities + ["LocalInference"];
      }
    }

    method Learn(cap: Capability)
      modifies this
      ensures Value() == AddCapability(old(Value()), cap)
    {
      if cap !in capabilities {
        capabilities := capabilities + [cap];
      }
    }

    method Create(id: TaskId, now: nat)
      modifies this
      ensures Value() == CreateTask(old(Value()), id, now)
    {
      tasks := tasks[id := Task(id, Pending, now, now, 0, [])];
      queue := queue + [id];
    }

    method ClaimForSelf(id: TaskId, now: nat) returns (r: Result<(), string>)
      modifies this
      ensures (Value(), r) == Claim(old(Value()), id, now)
      ensures r == if id !in old(tasks) then Err("Task not found")
                   else if old(tasks)[id].state != Pending then Err("Task is not pending")
                   else if |old(currentTasks)| >= maxTasks then Err("Agent at capacity")
                   else if old(tasks)[id].minTier > tier then Err("Agent tier too low") else Ok(())
      ensures r.Err? ==> Value() == old(Value())
    {
      if id !in tasks {
        return Err("Task not found");
      }
      var task := tasks[id];
      if task.state != Pending {
        return Err("Task is not pending");
      }
      if |currentTasks| >= maxTasks {
        return Err("Agent at capacity");
      }
      if task.minTier > tier {
        return Err("Agent tier too low");
      }
      task := task.(state := Assigned(self));
      task := task.(updatedAt := now);
      tasks := tasks[id := task];
      currentTasks := currentTasks + [id];
      queue := Retain(queue, id);
      return Ok(());
    }

    method Progress(id: TaskId, progress: nat, now: nat) returns (r: Result<(), string>)
      modifies this
      ensures (Value(), r) == UpdateProgress(old(Value()), id, progress, now)
      ensures r == if id in old(tasks) then Ok(()) else Err("Task not found")
      ensures r.Err? ==> Value() == old(Value())
    {
      if id !in tasks {
        return Err("Task not found");
      }
      var capped := if progress < 100 then progress else 100;
      tasks := tasks[id := tasks[id].(state := InProgress(self, capped), updatedAt := now)];
      return Ok(());
    }

    method CompleteTask(id: TaskId, output: string, qiCost: nat, now: nat) returns (r: Result<(), string>)
      modifies this
      ensures (Value(), r) == Complete(old(Value()), id, output, qiCost, now)
      ensures r == if id in old(tasks) then Ok(()) else Err("Task not found")
      ensures r.Err? ==> Value() == old(Value())
    {
      if id !in tasks {
        return Err("Task not found");
      }
      var durationMs := DurationMs(now, tasks[id].createdAt);
      var result := TaskResult(output, [], durationMs, qiCost);
      tasks := tasks[id := tasks[id].(state := Completed(self, result), updatedAt := now)];
      currentTasks := Retain(currentTasks, id);
      return Ok(());
    }

    method FailTask(id: TaskId, error: string, now: nat) returns (r: Result<(), string>)
      modifies this
      ensures (Value(), r) == Fail(old(Value()), id, error, now)
      ensures r == if id in old(tasks) then Ok(()) else Err("Task not found")
      ensures r.Err? ==> Value() == old(Value())
    {
      if id !in tasks {
        return Err("Task not found");
      }
      tasks := tasks[id := tasks[id].(state := Failed(self, error), updatedAt := now)];
      currentTasks := Retain(currentTasks, id);
      return Ok(());
    }

    method UpdateAgentStatus(id: AgentId, status: AgentStatus, now: nat)
      modifies this
      ensures Value() == Seen(old(Value()), id, status, now)
      ensures agents.Keys == old(agents).Keys
      ensures forall a :: a in agents ==>
        agents[a] == if a == id then old(agents)[a].(status := status, lastSeen := now) else old(agents)[a]
    {
      if id in agents {
        agents := agents[id := agents[id].(status := status, lastSeen := now)];
      }
    }

    method HandleMessage(msg: Message, now: nat) returns (reply: Reply)
      modifies this
      ensures (Value(), reply) == Handle(old(Value()), msg, now)
    {
      reply := NoReply;
      match msg {
        case Announce(agent) => agents := agents[agent.id := agent];
        case DiscoverAgents => reply := KnownAgents(agents);
        case SubmitTask(task) =>
          tasks := tasks[task.id := task];
          queue := queue + [task.id];
        case ClaimTask(id, agentId) =>
          if id in tasks && tasks[id].state == Pending {
            tasks := tasks[id := tasks[id].(state := Assigned(agentId), updatedAt := now)];
            queue := Retain(queue, id);
          }
        case TaskProgress(id, progress) =>
          if id in tasks && Held(tasks[id].state) {
            tasks := tasks[id := tasks[id].(state := InProgress(tasks[id].state.agent, progress), updatedAt := now)];
          }
        case TaskComplete(id, result) =>
          if id in tasks && Held(tasks[id].state) {
            tasks := tasks[id := tasks[id].(state := Completed(tasks[id].state.agent, result), updatedAt := now)];
          }
        case TaskFailed(id, error) =>
          if id in tasks && Held(tasks[id].state) {
            tasks := tasks[id := tasks[id].(state := Failed(tasks[id].state.agent, error), updatedAt := now)];
          }
        case GetTaskStatus(id) =>
          if id in tasks {
            reply := StatusReply(tasks[id]);
          }
        case GetPendingTasks => reply := QueuedTasks(StoredIn(tasks, queue));
        case Ping(agentId, timestamp) =>
          UpdateAgentStatus(agentId, Ready, now);
          reply := PongReply(self, timestamp);
        case Pong(agentId, timestamp) => UpdateAgentStatus(agentId, Ready, now);
        case _ =>
      }
    }
  }
}
