/** When a node's event loop stops for good in an arm other than a delivery (grid/node.rs, grid/tunnel.rs,
    grid/proxy.rs). The loop is the only reader of the outbound channel. A tunnelled SOCKS connection holds the
    manager's lock for reading from the creation of its tunnel to its end, because the guard lives as long as the match
    on the result; and several arms need that lock for writing, or a place in the outbound channel. */
module EventLoop {
  import opened Prelude
  import opened TunnelManager

  /** Places in the outbound channel. */
  const CAPACITY: nat := 256

  /** A tunnelled connection; all of them hold the manager for reading. */
  datatype Conn =
    | Creating // waits for a place for its connect
    | Awaiting // waits for the readiness signal, ten seconds at most
    | Relaying // its receiving task waits for returning data as long as the tunnel exists, and none is delivered
    | Sending  // waits for a place for data, and holds the client tunnels for reading as well

  datatype Arm = Asked(from: PeerId, request: Request, refused: Option<string>) | Told(response: Response)

  datatype Busy = Idle | Handling(arm: Arm)

  /** A message that waits for a place, and the connection whose it is; none if it comes from the read loop of an exit
      tunnel. */
  datatype Waiting = Waiting(msg: P2PMessage, conn: Option<TunnelId>)

  datatype Node = Node(m: Manager, conns: map<TunnelId, Conn>, waiting: seq<Waiting>, busy: Busy)

  function Fresh(now: nat): Node { Node(Configured(NewManager(now)), map[], [], Idle) }

  // ----- arms -----

  function Effect(m: Manager, arm: Arm): Manager {
    match arm
    case Asked(from, request, refused) => HandleRequest(m, from, request, refused).0
    case Told(response) => HandleResponse(m, response)
  }

  /** The arm needs the manager for writing. */
  predicate Excludes(arm: Arm) {
    match arm
    case Asked(_, request, _) => !request.ProxyData?
    case Told(response) => response.ProxyClosed?
  }

  /** The arm needs the client tunnels for writing, with the manager held for reading only. */
  predicate Signals(arm: Arm) { arm.Told? && arm.response.ProxyConnected? }

  /** The arm puts a message into the outbound channel. */
  predicate Places(m: Manager, arm: Arm) { |Effect(m, arm).outbound| > |m.outbound| }

  lemma PlacesIff(m: Manager, arm: Arm)
    ensures Places(m, arm) <==>
      m.configured && match arm
                      case Asked(_, request, refused) => request.ProxyConnect? && refused.None?
                      case Told(response) => response.ProxyClosed? && response.tunnel in m.clientTunnels
  {
  }

  predicate Full(n: Node) { |n.m.outbound| >= CAPACITY }

  predicate CanFinish(n: Node, arm: Arm) {
    && (Excludes(arm) ==> n.conns == map[])
    && (Signals(arm) ==> forall id :: id in n.conns ==> !n.conns[id].Sending?)
    && (Places(n.m, arm) ==> !Full(n))
  }

  // ----- the machine -----

  datatype Turn =
    | Create(exitPeer: PeerId, host: string, port: nat)
    | Wake(id: TunnelId)                // a connection sees Ok and has told its client so
    | Leave(id: TunnelId)               // it sees an error, gives up, or its client has gone
    | Send(id: TunnelId, data: Bytes)
    | Return(msg: P2PMessage)           // from the read loop of an exit tunnel
    | Pump                              // the loop sends on the oldest outbound message
    | Take(arm: Arm)
    | Finish

  /** The message has its place: its connection goes on. */
  function GoneOn(n: Node, conn: Option<TunnelId>): Node {
    if conn.Some? && conn.value in n.conns then
      match n.conns[conn.value]
      case Creating => n.(conns := n.conns[conn.value := Awaiting])
      case Sending => n.(conns := n.conns[conn.value := Relaying])
      case _ => n
    else n
  }

  function Queued(n: Node, msg: P2PMessage, conn: Option<TunnelId>): Node {
    if Full(n) then n.(waiting := n.waiting + [Waiting(msg, conn)])
    else GoneOn(n.(m := n.m.(outbound := n.m.outbound + [msg])), conn)
  }

  function Created(n: Node, exitPeer: PeerId, host: string, port: nat): Node {
    var id := n.m.nextId;
    var (m, r) := CreateClientTunnel(n.m, exitPeer, host, port);
    if r.Err? then n.(m := m)
    else
      Queued(n.(m := m.(outbound := n.m.outbound), conns := n.conns[id := Creating]),
             P2PMessage(exitPeer, id, Connect(host, port)), Some(id))
  }

  /** The freed place goes to the message that has waited longest. */
  function Pumped(n: Node): Node
    requires n.m.outbound != []
  {
    var rest := n.m.outbound[1..];
    if n.waiting == [] then n.(m := n.m.(outbound := rest))
    else
      var first := n.waiting[0];
      GoneOn(n.(m := n.m.(outbound := rest + [first.msg]), waiting := n.waiting[1..]), first.conn)
  }

  predicate In(n: Node, id: TunnelId, c: Conn) { id in n.conns && n.conns[id] == c }

  /** A turn that is not possible changes nothing. Deliveries of data are not taken up here. */
  function Turned(n: Node, t: Turn): Node {
    match t
    case Create(exitPeer, host, port) => Created(n, exitPeer, host, port)
    case Wake(id) =>
      if In(n, id, Awaiting) && id in n.m.fired && n.m.fired[id] == [ReadyOk]
      then n.(conns := n.conns[id := Relaying]) else n
    case Leave(id) => if In(n, id, Awaiting) then n.(conns := n.conns - {id}) else n
    case Send(id, data) =>
      if In(n, id, Relaying) && id in n.m.clientTunnels && n.m.configured then
        var msg := P2PMessage(n.m.clientTunnels[id].exitPeer, id, Data(data));
        Queued(n.(conns := n.conns[id := Sending]), msg, Some(id))
      else n
    case Return(msg) => if msg.tunnel in n.m.writers && n.m.configured then Queued(n, msg, None) else n
    case Pump => if n.busy.Idle? && n.m.outbound != [] then Pumped(n) else n
    case Take(arm) =>
      if n.busy.Idle? && !(arm.Asked? && arm.request.ProxyData?) then n.(busy := Handling(arm)) else n
    case Finish =>
      if n.busy.Handling? && CanFinish(n, n.busy.arm) then n.(m := Effect(n.m, n.busy.arm), busy := Idle) else n
  }

  function Run(n: Node, turns: seq<Turn>): Node
    decreases |turns|
  {
    if turns == [] then n else Run(Turned(n, turns[0]), turns[1..])
  }

  // ----- when the loop stops -----

  /** A connection that cannot end while the loop is busy: one that waits for a place, or one that relays. */
  ghost predicate Held(n: Node) { exists id :: id in n.conns && !n.conns[id].Awaiting? }

  ghost predicate TableHeld(n: Node) { exists id :: id in n.conns && n.conns[id].Sending? }

  /** What an arm waits for never comes. */
  ghost predicate StopsIn(n: Node, arm: Arm) {
    || (Excludes(arm) && Held(n))
    || (Signals(arm) && TableHeld(n))
    || (Places(n.m, arm) && Full(n))
  }

  ghost predicate Stopped(n: Node) { n.busy.Handling? && StopsIn(n, n.busy.arm) }

  /** While the loop is busy no connection gets rid of what it holds, no place becomes free and no tunnel disappears. */
  ghost predicate Persists(n: Node, n': Node) {
    && n'.busy == n.busy
    && (forall id :: id in n.conns && !n.conns[id].Awaiting? ==> id in n'.conns && !n'.conns[id].Awaiting?)
    && (forall id :: id in n.conns && n.conns[id].Sending? ==> id in n'.conns && n'.conns[id].Sending?)
    && |n'.m.outbound| >= |n.m.outbound|
    && n'.m.configured == n.m.configured && n.m.clientTunnels.Keys <= n'.m.clientTunnels.Keys
  }

  /** Tunnel ids are handed out in order, so a new one is nobody's. */
  ghost predicate Sound(n: Node) {
    forall id :: id in n.conns ==> id < n.m.nextId
  }

  lemma QueuedPersists(n: Node, n1: Node, msg: P2PMessage, id: TunnelId, waits: Conn)
    requires n.busy.Handling? && (waits == Creating || waits == Sending)
    requires n1 == n.(m := n1.m, conns := n.conns[id := waits])
    requires n1.m.outbound == n.m.outbound && n1.m.configured == n.m.configured
    requires n.m.clientTunnels.Keys <= n1.m.clientTunnels.Keys
    requires id in n.conns ==> n.conns[id].Relaying? && waits.Sending?
    ensures Persists(n, Queued(n1, msg, Some(id)))
  {
  }

  lemma CreatedPersists(n: Node, exitPeer: PeerId, host: string, port: nat)
    requires Sound(n) && n.busy.Handling?
    ensures Persists(n, Created(n, exitPeer, host, port))
  {
    var id := n.m.nextId;
    var (m, r) := CreateClientTunnel(n.m, exitPeer, host, port);
    if r.Ok? {
      QueuedPersists(n, n.(m := m.(outbound := n.m.outbound), conns := n.conns[id := Creating]),
                     P2PMessage(exitPeer, id, Connect(host, port)), id, Creating);
    }
  }

  lemma TurnPersists(n: Node, t: Turn)
    requires Sound(n) && n.busy.Handling? && !(t.Finish? && CanFinish(n, n.busy.arm))
    ensures Persists(n, Turned(n, t))
  {
    match t
    case Create(exitPeer, host, port) => CreatedPersists(n, exitPeer, host, port);
    case Send(id, data) =>
      if Turned(n, t) != n {
        QueuedPersists(n, n.(conns := n.conns[id := Sending]),
                       P2PMessage(n.m.clientTunnels[id].exitPeer, id, Data(data)), id, Sending);
      }
    case _ =>
  }

  lemma StoppedCannotFinish(n: Node)
    requires Stopped(n)
    ensures !CanFinish(n, n.busy.arm)
  {
  }

  lemma PersistsStopped(n: Node, n': Node)
    requires Stopped(n) && Persists(n, n')
    ensures Stopped(n')
  {
    PlacesIff(n.m, n.busy.arm);
    PlacesIff(n'.m, n.busy.arm);
    if Excludes(n.busy.arm) && Held(n) {
      var id :| id in n.conns && !n.conns[id].Awaiting?;
      assert id in n'.conns && !n'.conns[id].Awaiting?;
    } else if Signals(n.busy.arm) && TableHeld(n) {
      var id :| id in n.conns && n.conns[id].Sending?;
      assert id in n'.conns && n'.conns[id].Sending?;
    }
  }

  lemma TurnKeepsSound(n: Node, t: Turn)
    requires Sound(n)
    ensures Sound(Turned(n, t))
  {
  }

  /** Once stopped, the loop stays in its arm whatever the connections and read loops do. */
  lemma {:induction false} StoppedForGood(n: Node, turns: seq<Turn>)
    requires Sound(n) && Stopped(n)
    ensures Stopped(Run(n, turns)) && Run(n, turns).busy == n.busy
    decreases |turns|
  {
    if turns == [] {
    } else {
      StoppedCannotFinish(n);
      TurnPersists(n, turns[0]);
      PersistsStopped(n, Turned(n, turns[0]));
      TurnKeepsSound(n, turns[0]);
      StoppedForGood(Turned(n, turns[0]), turns[1..]);
    }
  }

  ghost predicate CanGetIdle(n: Node) { exists turns :: Run(n, turns).busy.Idle? }

  lemma {:induction false} RunAppend(n: Node, a: seq<Turn>, b: seq<Turn>)
    ensures Run(n, a + b) == Run(Run(n, a), b)
    decreases |a|
  {
    if a == [] {
      assert a + b == b;
    } else {
      assert (a + b)[1..] == a[1..] + b;
      RunAppend(Turned(n, a[0]), a[1..], b);
    }
  }

  lemma RunOne(n: Node, t: Turn)
    ensures Run(n, [t]) == Turned(n, t)
  {
    assert [t][1..] == [];
  }

  /** Connections that await their signal give up in the end. */
  lemma {:induction false} AllLeave(n: Node) returns (turns: seq<Turn>)
    requires !Held(n)
    ensures Run(n, turns) == n.(conns := map[])
    decreases |n.conns|
  {
    if n.conns == map[] {
      turns := [];
    } else {
      var id :| id in n.conns;
      var n' := n.(conns := n.conns - {id});
      assert n'.conns.Keys == n.conns.Keys - {id};
      assert Turned(n, Leave(id)) == n';
      var rest := AllLeave(n');
      turns := [Leave(id)] + rest;
      assert turns[1..] == rest;
    }
  }

  lemma BusyCanGetIdle(n: Node)
    requires n.busy.Handling? && !StopsIn(n, n.busy.arm)
    ensures CanGetIdle(n)
  {
    if Excludes(n.busy.arm) {
      var turns := AllLeave(n);
      var n' := n.(conns := map[]);
      assert CanFinish(n', n.busy.arm);
      RunAppend(n, turns, [Finish]);
      RunOne(n', Finish);
      assert Run(n, turns + [Finish]).busy.Idle?;
    } else {
      assert CanFinish(n, n.busy.arm);
      RunOne(n, Finish);
      assert Run(n, [Finish]).busy.Idle?;
    }
  }

  /** The loop can get back to its channels if and only if it is not stopped. */
  lemma IdlesIff(n: Node)
    requires Sound(n)
    ensures CanGetIdle(n) <==> !Stopped(n)
  {
    if Stopped(n) {
      forall turns ensures !Run(n, turns).busy.Idle? {
        StoppedForGood(n, turns);
      }
    } else if n.busy.Idle? {
      assert Run(n, []).busy.Idle?;
    } else {
      BusyCanGetIdle(n);
    }
  }

  lemma {:induction false} RunKeepsSound(n: Node, turns: seq<Turn>)
    requires Sound(n)
    ensures Sound(Run(n, turns))
    decreases |turns|
  {
    if turns == [] {
    } else {
      TurnKeepsSound(n, turns[0]);
      RunKeepsSound(Turned(n, turns[0]), turns[1..]);
    }
  }

  /** So it is in every state a fresh node can reach. */
  lemma RunIdlesIff(now: nat, turns: seq<Turn>)
    ensures CanGetIdle(Run(Fresh(now), turns)) <==> !Stopped(Run(Fresh(now), turns))
  {
    RunKeepsSound(Fresh(now), turns);
    IdlesIff(Run(Fresh(now), turns));
  }

  /** What an idle loop can tell before it takes up an arm: it will get back if and only if no connection relays or
      waits for a place where the arm needs the manager, none waits to send where it needs the client tunnels, and the
      channel has a place where it needs one. */
  lemma TakenIdlesIff(n: Node, arm: Arm)
    requires Sound(n) && n.busy.Idle? && !(arm.Asked? && arm.request.ProxyData?)
    ensures CanGetIdle(Turned(n, Take(arm))) <==> !StopsIn(n, arm)
  {
    IdlesIff(Turned(n, Take(arm)));
  }

  // ----- one relaying connection -----

  predicate Relays(n: Node, id: TunnelId) { id in n.conns && (n.conns[id].Relaying? || n.conns[id].Sending?) }

  lemma TurnKeepsRelaying(n: Node, t: Turn, id: TunnelId)
    requires Sound(n) && Relays(n, id)
    ensures Relays(Turned(n, t), id)
  {
  }

  lemma {:induction false} RunKeepsRelaying(n: Node, turns: seq<Turn>, id: TunnelId)
    requires Sound(n) && Relays(n, id)
    ensures Sound(Run(n, turns)) && Relays(Run(n, turns), id)
    decreases |turns|
  {
    if turns == [] {
    } else {
      TurnKeepsSound(n, turns[0]);
      TurnKeepsRelaying(n, turns[0], id);
      RunKeepsRelaying(Turned(n, turns[0]), turns[1..], id);
    }
  }

  /** From the moment a connection relays, however long ago, the next request to open or close an exit tunnel, and the
      next answer that one has been closed, stops the loop for good. */
  lemma RelayingDoomsTheLoop(n: Node, id: TunnelId, before: seq<Turn>, arm: Arm, after: seq<Turn>)
    requires Sound(n) && Relays(n, id) && Run(n, before).busy.Idle? && Excludes(arm)
    ensures Run(Turned(Run(n, before), Take(arm)), after).busy == Handling(arm)
  {
    RunKeepsRelaying(n, before, id);
    var n' := Turned(Run(n, before), Take(arm));
    assert id in n'.conns && !n'.conns[id].Awaiting?;
    StoppedForGood(n', after);
  }

  lemma RunSix(n: Node, a: Turn, b: Turn, c: Turn, d: Turn, e: Turn, f: Turn)
    ensures Run(n, [a, b, c] + [d, e, f])
         == Turned(Turned(Turned(Turned(Turned(Turned(n, a), b), c), d), e), f)
  {
    RunThree(n, a, b, c);
    RunThree(Turned(Turned(Turned(n, a), b), c), d, e, f);
    RunAppend(n, [a, b, c], [d, e, f]);
  }

  lemma RunThree(n: Node, a: Turn, b: Turn, c: Turn)
    ensures Run(n, [a, b, c]) == Turned(Turned(Turned(n, a), b), c)
  {
    assert [a, b, c] == [a] + ([b] + [c]);
    RunAppend(n, [a], [b] + [c]);
    RunAppend(Turned(n, a), [b], [c]);
    RunOne(n, a);
    RunOne(Turned(n, a), b);
    RunOne(Turned(Turned(n, a), b), c);
  }

  /** A run from a fresh node that stops with every channel empty: one connection is tunnelled, and then a request comes
      to close an exit tunnel. */
  lemma OneConnectionStopsTheNode(now: nat, exitPeer: PeerId, host: string, port: nat, other: PeerId, closed: TunnelId)
    ensures var n := Run(Fresh(now),
                         [Create(exitPeer, host, port), Pump, Take(Told(ProxyConnected(1, true, None)))]
                         + [Finish, Wake(1), Take(Asked(other, ProxyClose(closed), None))]);
      Stopped(n) && n.m.outbound == [] && n.waiting == []
  {
    var n0 := Fresh(now);
    var told, asked := Told(ProxyConnected(1, true, None)), Asked(other, ProxyClose(closed), None);
    RunSix(n0, Create(exitPeer, host, port), Pump, Take(told), Finish, Wake(1), Take(asked));
    var n1 := Turned(n0, Create(exitPeer, host, port));
    assert n1.conns == map[1 := Awaiting] && |n1.m.outbound| == 1;
    var n2 := Turned(n1, Pump);
    assert n2.m.outbound == [];
    var n4 := Turned(Turned(n2, Take(told)), Finish);
    assert n4.m.fired[1] == [] + [ReadyOk] == [ReadyOk] && n4.busy.Idle? && n4.conns == n2.conns;
    var n5 := Turned(n4, Wake(1));
    assert n5.conns[1] == Relaying;
    assert Excludes(asked) && Turned(n5, Take(asked)).conns[1] == Relaying;
  }

  // ----- a full channel and no connection at all -----

  function Returns(msg: P2PMessage, k: nat): seq<Turn> { seq(k, _ => Return(msg)) }

  lemma {:induction false} ReturnsFill(n: Node, msg: P2PMessage, k: nat)
    requires msg.tunnel in n.m.writers && n.m.configured && |n.m.outbound| + k == CAPACITY
    ensures var n' := Run(n, Returns(msg, k));
      && Full(n') && n'.m.configured && n'.busy == n.busy && n'.conns == n.conns && n'.waiting == n.waiting
    decreases k
  {
    if k == 0 {
    } else {
      assert Returns(msg, k)[1..] == Returns(msg, k - 1);
      ReturnsFill(Turned(n, Return(msg)), msg, k - 1);
    }
  }

  /** An exit that relays nothing itself: a tunnel is opened, its target sends 255 messages before the loop reads any,
      and then another tunnel is asked for. */
  lemma BusyTargetStopsTheExit(now: nat, client: PeerId, host: string, port: nat, data: Bytes)
    ensures var first, second := Asked(client, ProxyConnect(1, host, port), None),
                                 Asked(client, ProxyConnect(2, host, port), None);
      var n := Run(Fresh(now), [Take(first), Finish]
                               + (Returns(P2PMessage(client, 1, Data(data)), 255) + [Take(second)]));
      Stopped(n) && n.conns == map[]
  {
    var n0, msg := Fresh(now), P2PMessage(client, 1, Data(data));
    var first := Asked(client, ProxyConnect(1, host, port), None);
    var second := Asked(client, ProxyConnect(2, host, port), None);
    assert [Take(first), Finish] == [Take(first)] + [Finish];
    RunAppend(n0, [Take(first)], [Finish]);
    RunOne(n0, Take(first));
    RunOne(Turned(n0, Take(first)), Finish);
    PlacesIff(n0.m, first);
    var n1 := Turned(Turned(n0, Take(first)), Finish);
    assert |n1.m.outbound| == 1 && 1 in n1.m.writers && n1.busy.Idle?;
    ReturnsFill(n1, msg, 255);
    var n2 := Run(n1, Returns(msg, 255));
    RunAppend(n0, [Take(first), Finish], Returns(msg, 255) + [Take(second)]);
    RunAppend(n1, Returns(msg, 255), [Take(second)]);
    RunOne(n2, Take(second));
    PlacesIff(n2.m, second);
  }
}
