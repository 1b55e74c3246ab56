/** When the bounded channel of an exit tunnel stops a node for good (grid/tunnel.rs). A delivery holds the table of
    exit tunnels while it waits for a place in the channel, and the channel's reader needs that table. */
module TunnelBackpressure {
  import opened Prelude
  import opened TunnelManager

  /** Places in a tunnel's channel to its target. */
  const CAPACITY: nat := 256

  /** The exit, and the delivery that waits for a place while it holds the table of exit tunnels for reading. */
  datatype Gate = Gate(exit: Manager, waiting: Option<(TunnelId, Bytes)>)

  datatype Move =
    | Arrive(id: TunnelId, data: Bytes)       // the event loop hands on data
    | Resume                                  // the waiting delivery goes on
    | Receive(id: TunnelId)
    | Write(id: TunnelId, fault: Option<nat>)
    | Meter(id: TunnelId, now: nat)
    | Count(id: TunnelId)                     // needs the table for writing
    | TargetCloses(id: TunnelId, client: PeerId) // needs the table for writing

  predicate Alive(exit: Manager, id: TunnelId) {
    id in exit.writers && !exit.writers[id].phase.Failed? && !exit.writers[id].phase.Ended?
  }

  predicate Full(exit: Manager, id: TunnelId) {
    id in exit.writers && |exit.writers[id].queue| >= CAPACITY
  }

  predicate Enabled(g: Gate, m: Move) {
    match m
    case Arrive(_, _) => g.waiting.None?
    case Resume => g.waiting.Some? && !(Alive(g.exit, g.waiting.value.0) && Full(g.exit, g.waiting.value.0))
    case Count(_) => g.waiting.None?
    case TargetCloses(id, _) => g.waiting.None? && id in g.exit.exitTunnels
    case _ => true
  }

  /** A move that is not enabled changes nothing. */
  function Next(g: Gate, m: Move): Gate {
    if !Enabled(g, m) then g
    else
      match m
      case Arrive(id, data) =>
        if id in g.exit.exitTunnels && Alive(g.exit, id) && Full(g.exit, id) then g.(waiting := Some((id, data)))
        else g.(exit := HandleExitTunnelData(g.exit, id, data))
      case Resume => Gate(HandleExitTunnelData(g.exit, g.waiting.value.0, g.waiting.value.1), None)
      case Receive(id) => g.(exit := WriterReceive(g.exit, id))
      case Write(id, fault) => g.(exit := WriterWrite(g.exit, id, fault))
      case Meter(id, now) => g.(exit := WriterMeter(g.exit, id, now))
      case Count(id) => g.(exit := WriterCount(g.exit, id))
      case TargetCloses(id, client) => g.(exit := TargetClosed(g.exit, id, client))
  }

  function Run(g: Gate, moves: seq<Move>): Gate
    decreases |moves|
  {
    if moves == [] then g else Run(Next(g, moves[0]), moves[1..])
  }

  /** A write task past its write, or sure to get there: writing nothing cannot fail. */
  predicate PastWriting(p: Phase) {
    p.Metering? || p.Counting? || (p.Writing? && p.chunk == [])
  }

  /** A delivery waits for a place in a full channel whose reader has first to count what it has written. */
  predicate Stuck(g: Gate) {
    && g.waiting.Some? && Full(g.exit, g.waiting.value.0)
    && PastWriting(g.exit.writers[g.waiting.value.0].phase)
  }

  lemma StepKeepsStuck(g: Gate, m: Move)
    requires Stuck(g)
    ensures Stuck(Next(g, m)) && Next(g, m).waiting == g.waiting
  {
  }

  /** Once stuck the delivery waits forever, and with it the event loop that makes it. */
  lemma {:induction false} StuckForGood(g: Gate, moves: seq<Move>)
    requires Stuck(g)
    ensures Stuck(Run(g, moves)) && Run(g, moves).waiting == g.waiting
    decreases |moves|
  {
    if moves == [] {
    } else {
      StepKeepsStuck(g, moves[0]);
      StuckForGood(Next(g, moves[0]), moves[1..]);
    }
  }

  ghost predicate CanResume(g: Gate) {
    exists moves :: Run(g, moves).waiting.None?
  }

  lemma RunOne(g: Gate, a: Move)
    ensures Run(g, [a]) == Next(g, a)
  {
    assert [a][1..] == [];
  }

  lemma RunTwo(g: Gate, a: Move, b: Move)
    ensures Run(g, [a, b]) == Next(Next(g, a), b)
  {
    assert [a, b][1..] == [b];
    RunOne(Next(g, a), b);
  }

  predicate WithinCapacity(exit: Manager) {
    forall id :: id in exit.writers ==> |exit.writers[id].queue| <= CAPACITY
  }

  lemma WaitingCanResume(g: Gate)
    requires g.waiting.Some? && !Stuck(g) && WithinCapacity(g.exit)
    ensures CanResume(g)
  {
    var id := g.waiting.value.0;
    if Enabled(g, Resume) {
      RunOne(g, Resume);
      assert Run(g, [Resume]).waiting.None?;
    } else if g.exit.writers[id].phase.Receiving? {
      RunTwo(g, Receive(id), Resume);
      assert Run(g, [Receive(id), Resume]).waiting.None?;
    } else {
      RunTwo(g, Write(id, Some(0)), Resume);
      assert Run(g, [Write(id, Some(0)), Resume]).waiting.None?;
    }
  }

  /** A waiting delivery can still go on if and only if it is not stuck; from a chunk being written, only a socket that
      fails helps it. */
  lemma ResumesIff(g: Gate)
    requires g.waiting.Some? && WithinCapacity(g.exit)
    ensures CanResume(g) <==> !Stuck(g)
  {
    if Stuck(g) {
      forall moves ensures Run(g, moves).waiting.Some? {
        StuckForGood(g, moves);
      }
    } else {
      WaitingCanResume(g);
    }
  }

  lemma StepKeepsCapacity(g: Gate, m: Move)
    requires WithinCapacity(g.exit)
    ensures WithinCapacity(Next(g, m).exit)
  {
  }

  // ----- getting stuck -----

  function Arrivals(id: TunnelId, data: Bytes, n: nat): seq<Move> { seq(n, _ => Arrive(id, data)) }

  lemma {:induction false} Filling(g: Gate, id: TunnelId, data: Bytes, n: nat)
    requires g.waiting.None? && id in g.exit.exitTunnels && Alive(g.exit, id)
    requires |g.exit.writers[id].queue| + n == CAPACITY
    ensures var g' := Run(g, Arrivals(id, data, n));
      && g'.waiting.None? && id in g'.exit.exitTunnels && Alive(g'.exit, id) && Full(g'.exit, id)
      && g'.exit.writers[id].phase == g.exit.writers[id].phase
    decreases n
  {
    if n == 0 {
    } else {
      assert Arrivals(id, data, n)[1..] == Arrivals(id, data, n - 1);
      Filling(Next(g, Arrive(id, data)), id, data, n - 1);
    }
  }

  lemma {:induction false} RunAppend(g: Gate, a: seq<Move>, b: seq<Move>)
    ensures Run(g, a + b) == Run(Run(g, a), b)
    decreases |a|
  {
    if a == [] {
      assert a + b == b;
    } else {
      assert (a + b)[1..] == a[1..] + b;
      RunAppend(Next(g, a[0]), a[1..], b);
    }
  }

  /** A client that sends on while the target is slow: one chunk is written, the channel fills before the write task has
      counted it, and one chunk more stops the exit. */
  function Flood(id: TunnelId, data: Bytes): seq<Move> {
    [Receive(id), Write(id, None)] + (Arrivals(id, data, CAPACITY) + [Arrive(id, data)])
  }

  lemma FloodGetsStuck(g: Gate, id: TunnelId, data: Bytes)
    requires g.waiting.None? && id in g.exit.exitTunnels && id in g.exit.writers
    requires g.exit.writers[id].phase.Receiving? && |g.exit.writers[id].queue| == 1
    ensures Stuck(Run(g, Flood(id, data)))
  {
    RunTwo(g, Receive(id), Write(id, None));
    var g1 := Next(Next(g, Receive(id)), Write(id, None));
    assert g1.exit.writers[id].phase.Metering? && g1.exit.writers[id].queue == [];
    Filling(g1, id, data, CAPACITY);
    RunAppend(g, [Receive(id), Write(id, None)], Arrivals(id, data, CAPACITY) + [Arrive(id, data)]);
    RunAppend(g1, Arrivals(id, data, CAPACITY), [Arrive(id, data)]);
    RunOne(Run(g1, Arrivals(id, data, CAPACITY)), Arrive(id, data));
  }

  lemma FreshTunnelTakesOne(g: Gate, id: TunnelId, data: Bytes)
    requires g.waiting.None? && id in g.exit.exitTunnels && id in g.exit.writers
    requires g.exit.writers[id].phase.Receiving? && g.exit.writers[id].queue == []
    ensures var g' := Run(g, [Arrive(id, data)]);
      && g'.waiting.None? && id in g'.exit.exitTunnels && id in g'.exit.writers
      && g'.exit.writers[id].phase.Receiving? && |g'.exit.writers[id].queue| == 1
  {
    RunOne(g, Arrive(id, data));
  }

  /** So a fresh exit that has just opened its first tunnel can get stuck, on any data. */
  lemma FreshExitGetsStuck(now: nat, id: TunnelId, client: PeerId, host: string, port: nat, data: Bytes)
    ensures var exit := CreateExitTunnel(Configured(NewManager(now)), id, client, host, port, None).0;
      Stuck(Run(Gate(exit, None), [Arrive(id, data)] + Flood(id, data)))
  {
    var exit := CreateExitTunnel(Configured(NewManager(now)), id, client, host, port, None).0;
    FreshTunnelTakesOne(Gate(exit, None), id, data);
    FloodGetsStuck(Run(Gate(exit, None), [Arrive(id, data)]), id, data);
    RunAppend(Gate(exit, None), [Arrive(id, data)], Flood(id, data));
  }
}
