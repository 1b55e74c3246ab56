/** The tunnel protocol between one client node and one exit node, as a machine over every interleaving of SOCKS
    connections, event loops, link and write tasks. Assumed of the environment: fixed roles, one client per exit
    (tunnel ids come from the client's own counter), and only the client-to-target direction.
    (grid/tunnel.rs, the proxy arms of grid/node.rs, the relay tasks of grid/proxy.rs) */
module TunnelProtocol {
  import opened Prelude
  import opened TunnelManager

  const CLIENT: PeerId := "client"
  const EXIT: PeerId := "exit"

  /** An ordered link delivers requests first in, first out and loses none; an unordered one may do both. */
  datatype LinkKind = Ordered | Unordered

  /** The task serving one SOCKS connection. */
  datatype Conn =
    | Waiting   // awaiting the readiness signal
    | Relaying  // success reply sent, reading from the SOCKS client
    | Draining  // the send loop is over
    | Finished

  datatype Target = Target(host: string, port: nat)

  datatype Net = Net(
    client: Manager, exit: Manager,
    link: seq<Request>, answers: seq<Response>,
    conns: map<TunnelId, Conn>,
    asked: map<TunnelId, Target>,          // what each connection asked for
    handed: map<TunnelId, seq<Bytes>>)     // what each SOCKS client handed to its tunnel

  datatype Step =
    | Open(host: string, port: nat)
    | Pump                                   // the client's event loop sends its next outbound message
    | Deliver(i: nat, refused: Option<string>)
    | LoseRequest(i: nat)
    | Answer(i: nat)
    | LoseAnswer(i: nat)
    | Wake(id: TunnelId)                     // the connection sees the readiness signal
    | GiveUp(id: TunnelId)                   // the ten seconds are over
    | Send(id: TunnelId, data: Bytes)
    | StopSending(id: TunnelId)
    | Hangup(id: TunnelId)                   // close_client_tunnel
    | Receive(id: TunnelId)
    | Write(id: TunnelId, fault: Option<nat>)
    | Meter(id: TunnelId, now: nat)
    | Count(id: TunnelId)
    | TargetCloses(id: TunnelId)

  function Start(now: nat): Net {
    Net(Configured(NewManager(now)), Configured(NewManager(now)), [], [], map[], map[], map[])
  }

  function Without<T>(s: seq<T>, i: nat): seq<T>
    requires i < |s|
  {
    s[..i] + s[i + 1..]
  }

  predicate InState(s: Net, id: TunnelId, c: Conn) {
    id in s.conns && s.conns[id] == c
  }

  predicate Enabled(kind: LinkKind, s: Net, step: Step) {
    match step
    case Open(_, _) => true
    case Pump => s.client.outbound != []
    case Deliver(i, _) => i < |s.link| && (kind.Ordered? ==> i == 0)
    case LoseRequest(i) => i < |s.link| && kind.Unordered?
    case Answer(i) => i < |s.answers|
    case LoseAnswer(i) => i < |s.answers|
    case Wake(id) => InState(s, id, Waiting) && id in s.client.fired && s.client.fired[id] != []
    case GiveUp(id) => InState(s, id, Waiting)
    case Send(id, _) => InState(s, id, Relaying) && id in s.handed
    case StopSending(id) => InState(s, id, Relaying)
    case Hangup(id) => InState(s, id, Draining)
    case Receive(id) => id in s.exit.writers
    case Write(id, _) => id in s.exit.writers
    case Meter(id, _) => id in s.exit.writers
    case Count(id) => id in s.exit.writers
    case TargetCloses(id) => id in s.exit.exitTunnels
  }

  predicate OwnStep(step: Step) {
    step.Receive? || step.Write? || step.Meter? || step.Count? || step.TargetCloses?
  }

  /** The steps the exit takes on its own: its write tasks and the ends of its read loops. */
  function ExitStep(exit: Manager, step: Step): Manager
    requires OwnStep(step)
  {
    match step
    case Receive(id) => WriterReceive(exit, id)
    case Write(id, fault) => WriterWrite(exit, id, fault)
    case Meter(id, now) => WriterMeter(exit, id, now)
    case Count(id) => WriterCount(exit, id)
    case TargetCloses(id) => TargetClosed(exit, id, CLIENT)
  }

  function Opened(s: Net, host: string, port: nat): Net {
    var (client, r) := CreateClientTunnel(s.client, EXIT, host, port);
    var id := s.client.nextId;
    s.(client := client, conns := s.conns[id := Waiting], asked := s.asked[id := Target(host, port)],
       handed := s.handed[id := []])
  }

  function Pumped(s: Net): Net
    requires s.client.outbound != []
  {
    s.(client := s.client.(outbound := s.client.outbound[1..]), link := s.link + AsRequests(s.client.outbound[0]))
  }

  function Delivered(s: Net, i: nat, refused: Option<string>): Net
    requires i < |s.link|
  {
    var (exit, response) := HandleRequest(s.exit, CLIENT, s.link[i], refused);
    s.(exit := exit, link := Without(s.link, i), answers := s.answers + [response])
  }

  function Answered(s: Net, i: nat): Net
    requires i < |s.answers|
  {
    s.(client := HandleResponse(s.client, s.answers[i]), answers := Without(s.answers, i))
  }

  function Moved(s: Net, id: TunnelId, c: Conn): Net {
    s.(conns := s.conns[id := c])
  }

  function HandedOver(s: Net, id: TunnelId, data: Bytes): Net
    requires id in s.handed
  {
    var (client, r) := SendThrough(s.client, id, data);
    s.(client := client, handed := s.handed[id := s.handed[id] + [data]],
       conns := s.conns[id := if r.Ok? then Relaying else Draining])
  }

  function HungUp(s: Net, id: TunnelId): Net {
    s.(client := CloseClientTunnel(s.client, id), conns := s.conns[id := Finished])
  }

  /** A step that is not enabled leaves the machine as it is. */
  function Next(kind: LinkKind, s: Net, step: Step): Net {
    if !Enabled(kind, s, step) then s
    else if OwnStep(step) then s.(exit := ExitStep(s.exit, step))
    else
      match step
      case Open(host, port) => Opened(s, host, port)
      case Pump => Pumped(s)
      case Deliver(i, refused) => Delivered(s, i, refused)
      case LoseRequest(i) => s.(link := Without(s.link, i))
      case Answer(i) => Answered(s, i)
      case LoseAnswer(i) => s.(answers := Without(s.answers, i))
      case Wake(id) => Moved(s, id, if s.client.fired[id][0].ReadyOk? then Relaying else Finished)
      case GiveUp(id) => Moved(s, id, Finished)
      case Send(id, data) => HandedOver(s, id, data)
      case StopSending(id) => Moved(s, id, Draining)
      case Hangup(id) => HungUp(s, id)
  }

  function Run(kind: LinkKind, s: Net, steps: seq<Step>): Net
    decreases |steps|
  {
    if steps == [] then s else Run(kind, Next(kind, s, steps[0]), steps[1..])
  }

  // ----- requests under way -----

  function AsRequests(msg: P2PMessage): seq<Request> {
    var r := ToRequest(msg.tunnel, msg.data);
    if r.Some? then [r.value] else []
  }

  function ToRequests(out: seq<P2PMessage>): seq<Request> {
    if out == [] then [] else AsRequests(out[0]) + ToRequests(out[1..])
  }

  /** All requests under way, oldest first: those on the link, then those still in the client's outbound channel. */
  function Flight(s: Net): seq<Request> {
    s.link + ToRequests(s.client.outbound)
  }

  function DataFor(rs: seq<Request>, id: TunnelId): seq<Bytes> {
    if rs == [] then []
    else (if rs[0].ProxyData? && rs[0].tunnel == id then [rs[0].data] else []) + DataFor(rs[1..], id)
  }

  function Connects(rs: seq<Request>, id: TunnelId): nat {
    if rs == [] then 0
    else (if rs[0].ProxyConnect? && rs[0].tunnel == id then 1 else 0) + Connects(rs[1..], id)
  }

  lemma {:induction false} ToRequestsAppend(out: seq<P2PMessage>, msg: P2PMessage)
    ensures ToRequests(out + [msg]) == ToRequests(out) + AsRequests(msg)
  {
    if out == [] {
      assert out + [msg] == [msg];
    } else {
      assert (out + [msg])[1..] == out[1..] + [msg];
      ToRequestsAppend(out[1..], msg);
    }
  }

  lemma {:induction false} DataForAppend(a: seq<Request>, b: seq<Request>, id: TunnelId)
    ensures DataFor(a + b, id) == DataFor(a, id) + DataFor(b, id)
  {
    if a == [] {
      assert a + b == b;
    } else {
      assert (a + b)[1..] == a[1..] + b;
      DataForAppend(a[1..], b, id);
    }
  }

  lemma {:induction false} ConnectsAppend(a: seq<Request>, b: seq<Request>, id: TunnelId)
    ensures Connects(a + b, id) == Connects(a, id) + Connects(b, id)
  {
    if a == [] {
      assert a + b == b;
    } else {
      assert (a + b)[1..] == a[1..] + b;
      ConnectsAppend(a[1..], b, id);
    }
  }

  lemma {:induction false} NothingFor(rs: seq<Request>, id: TunnelId)
    requires forall r :: r in rs ==> r.tunnel != id
    ensures DataFor(rs, id) == [] && Connects(rs, id) == 0
  {
    if rs == [] {
    } else {
      NothingFor(rs[1..], id);
    }
  }

  lemma {:induction false} NoDataFor(rs: seq<Request>, id: TunnelId)
    requires forall r :: r in rs && r.ProxyData? ==> r.tunnel != id
    ensures DataFor(rs, id) == []
  {
    if rs == [] {
    } else {
      NoDataFor(rs[1..], id);
    }
  }

  lemma {:induction false} ConnectCounted(rs: seq<Request>, r: Request)
    requires r in rs && r.ProxyConnect?
    ensures Connects(rs, r.tunnel) >= 1
  {
    if rs[0] == r {
    } else {
      ConnectCounted(rs[1..], r);
    }
  }

  /** What one request contributes. */
  function One(r: Request, id: TunnelId): seq<Bytes> {
    if r.ProxyData? && r.tunnel == id then [r.data] else []
  }

  lemma TakenOut(a: seq<Request>, r: Request, b: seq<Request>, id: TunnelId)
    ensures DataFor(a + [r] + b, id) == DataFor(a, id) + One(r, id) + DataFor(b, id)
    ensures DataFor(a + b, id) == DataFor(a, id) + DataFor(b, id)
    ensures Connects(a + [r] + b, id) == Connects(a + b, id) + (if r.ProxyConnect? && r.tunnel == id then 1 else 0)
  {
    DataForAppend(a + [r], b, id);
    DataForAppend(a, [r], id);
    DataForAppend(a, b, id);
    ConnectsAppend(a + [r], b, id);
    ConnectsAppend(a, [r], id);
    ConnectsAppend(a, b, id);
  }

  lemma FlightAfterPump(s: Net)
    requires s.client.outbound != []
    ensures Flight(Pumped(s)) == Flight(s)
  {
  }

  /** A client that queues one more message has one more request under way. */
  lemma FlightAfterMessage(s: Net, s': Net, msg: P2PMessage)
    requires s'.link == s.link && s'.client.outbound == s.client.outbound + [msg]
    ensures Flight(s') == Flight(s) + AsRequests(msg)
  {
    ToRequestsAppend(s.client.outbound, msg);
  }

  lemma FlightAfterOpen(s: Net, host: string, port: nat)
    requires s.client.configured
    ensures Flight(Opened(s, host, port)) == Flight(s) + [ProxyConnect(s.client.nextId, host, port)]
  {
    FlightAfterMessage(s, Opened(s, host, port), P2PMessage(EXIT, s.client.nextId, Connect(host, port)));
  }

  lemma FlightAfterSend(s: Net, id: TunnelId, data: Bytes)
    requires s.client.configured && id in s.handed
    ensures Flight(HandedOver(s, id, data))
         == Flight(s) + (if id in s.client.clientTunnels then [ProxyData(id, data)] else [])
  {
    if id in s.client.clientTunnels {
      FlightAfterMessage(s, HandedOver(s, id, data), P2PMessage(s.client.clientTunnels[id].exitPeer, id, Data(data)));
    }
  }

  lemma FlightAfterHangup(s: Net, id: TunnelId)
    requires s.client.configured
    ensures Flight(HungUp(s, id)) == Flight(s) + (if id in s.client.clientTunnels then [ProxyClose(id)] else [])
  {
    if id in s.client.clientTunnels {
      FlightAfterMessage(s, HungUp(s, id), P2PMessage(s.client.clientTunnels[id].exitPeer, id, Close));
    }
  }

  /** The close request an answer provokes, if it provokes one. */
  function Provoked(s: Net, i: nat): seq<Request>
    requires i < |s.answers|
  {
    var a := s.answers[i];
    if a.ProxyClosed? && a.tunnel in s.client.clientTunnels then [ProxyClose(a.tunnel)] else []
  }

  lemma FlightAfterAnswer(s: Net, i: nat)
    requires s.client.configured && i < |s.answers|
    ensures Flight(Answered(s, i)) == Flight(s) + Provoked(s, i)
  {
    var a := s.answers[i];
    if a.ProxyClosed? && a.tunnel in s.client.clientTunnels {
      FlightAfterMessage(s, Answered(s, i), P2PMessage(s.client.clientTunnels[a.tunnel].exitPeer, a.tunnel, Close));
    }
  }

  /** What is under way after the i-th request on the link. */
  function Behind(s: Net, i: nat): seq<Request>
    requires i < |s.link|
  {
    s.link[i + 1..] + ToRequests(s.client.outbound)
  }

  lemma FlightAround(s: Net, i: nat)
    requires i < |s.link|
    ensures Flight(s) == s.link[..i] + [s.link[i]] + Behind(s, i)
    ensures Flight(s.(link := Without(s.link, i))) == s.link[..i] + Behind(s, i)
  {
  }
}
