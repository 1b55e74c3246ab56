/** The tunnel manager of one node: client tunnels, exit tunnels and their write tasks (grid/tunnel.rs),
    and the node's dispatch of tunnel requests and responses (grid/node.rs). */
module TunnelManager {
  import opened Prelude
  import opened Metrics

  type TunnelId = nat

  /** What a oneshot readiness channel delivers. */
  datatype Ready = ReadyOk | ReadyErr(reason: string)

  datatype ClientTunnel = ClientTunnel(host: string, port: nat, exitPeer: PeerId, readyPending: bool)

  datatype ExitTunnel = ExitTunnel(host: string, port: nat, clientPeer: PeerId, bytesSent: nat)

  datatype P2PMessageData =
    | Connect(host: string, port: nat)
    | Connected(success: bool, error: Option<string>)
    | Data(data: Bytes)
    | Close

  datatype P2PMessage = P2PMessage(peer: PeerId, tunnel: TunnelId, data: P2PMessageData)

  datatype Request =
    | ProxyConnect(tunnel: TunnelId, host: string, port: nat)
    | ProxyData(tunnel: TunnelId, data: Bytes)
    | ProxyClose(tunnel: TunnelId)

  datatype Response =
    | ProxyConnected(tunnel: TunnelId, success: bool, error: Option<string>)
    | ProxyClosed(tunnel: TunnelId)
    | Pong

  /** Where a write task stands between two awaits. */
  datatype Phase =
    | Receiving
    | Writing(chunk: Bytes)             // taken from the channel, not yet on the socket
    | Metering(written: nat)            // on the socket, metrics not yet updated
    | Counting(metered: nat)            // in the metrics, tunnel counter not yet updated
    | Failed(lost: Bytes, partial: nat) // the socket took `partial` bytes of the last chunk, then failed
    | Ended

  /** A write task with its channel and the chunks it has fully written to its target. */
  datatype Writer = Writer(host: string, port: nat, peer: PeerId, queue: seq<Bytes>, phase: Phase, fully: seq<Bytes>)

  datatype Manager = Manager(
    configured: bool,                       // the P2P outbound channel is set
    nextId: TunnelId,
    clientTunnels: map<TunnelId, ClientTunnel>,
    fired: map<TunnelId, seq<Ready>>,       // what each readiness channel has delivered
    exitTunnels: map<TunnelId, ExitTunnel>,
    writers: map<TunnelId, Writer>,
    meter: Meter,
    outbound: seq<P2PMessage>)

  function NewManager(now: nat): Manager {
    Manager(false, 1, map[], map[], map[], map[], NewMeter(now), [])
  }

  /** The node hands over its outbound channel when it starts. */
  function Configured(m: Manager): Manager { m.(configured := true) }

  // ----- client side -----

  function CreateClientTunnel(m: Manager, exitPeer: PeerId, host: string, port: nat)
    : (Manager, Result<TunnelId, string>)
  {
    var id := m.nextId;
    var m1 := m.(nextId := id + 1,
                 clientTunnels := m.clientTunnels[id := ClientTunnel(host, port, exitPeer, true)],
                 fired := m.fired[id := []]);
    if m.configured then
      (m1.(outbound := m.outbound + [P2PMessage(exitPeer, id, Connect(host, port))]), Ok(id))
    else
      (m1, Err("P2P outbound channel not configured"))
  }

  function ReadyOutcome(success: bool, error: Option<string>): Ready {
    if success then ReadyOk else ReadyErr(if error.Some? then error.value else "Unknown error")
  }

  function HandleTunnelConnected(m: Manager, id: TunnelId, success: bool, error: Option<string>): Manager {
    if id in m.clientTunnels && m.clientTunnels[id].readyPending then
      var sofar := if id in m.fired then m.fired[id] else [];
      m.(clientTunnels := m.clientTunnels[id := m.clientTunnels[id].(readyPending := false)],
         fired := m.fired[id := sofar + [ReadyOutcome(success, error)]])
    else m
  }

  function SendThrough(m: Manager, id: TunnelId, data: Bytes): (Manager, Result<(), string>) {
    if id !in m.clientTunnels then (m, Err("Tunnel not found"))
    else if !m.configured then (m, Err("P2P outbound not configured"))
    else (m.(outbound := m.outbound + [P2PMessage(m.clientTunnels[id].exitPeer, id, Data(data))]), Ok(()))
  }

  function CloseClientTunnel(m: Manager, id: TunnelId): Manager {
    var m1 := if id in m.clientTunnels && m.configured
              then m.(outbound := m.outbound + [P2PMessage(m.clientTunnels[id].exitPeer, id, Close)])
              else m;
    m1.(clientTunnels := m1.clientTunnels - {id})
  }

  // ----- exit side -----

  /** `refused` is the TCP connect error, if there is one. */
  function CreateExitTunnel(m: Manager, id: TunnelId, client: PeerId, host: string, port: nat, refused: Option<string>)
    : (Manager, Result<(), string>)
  {
    if refused.Some? then (m, Err(refused.value))
    else
      var m1 := m.(exitTunnels := m.exitTunnels[id := ExitTunnel(host, port, client, 0)],
                   writers := m.writers[id := Writer(host, port, client, [], Receiving, [])]);
      var connected := P2PMessage(client, id, Connected(true, None));
      (if m.configured then m1.(outbound := m.outbound + [connected]) else m1, Ok(()))
  }

  /** Data for an unknown tunnel, or for one whose write task is gone, is dropped. */
  function HandleExitTunnelData(m: Manager, id: TunnelId, data: Bytes): Manager {
    if id in m.exitTunnels && id in m.writers && !m.writers[id].phase.Failed? && !m.writers[id].phase.Ended? then
      m.(writers := m.writers[id := m.writers[id].(queue := m.writers[id].queue + [data])])
    else m
  }

  function CloseExitTunnel(m: Manager, id: TunnelId): Manager {
    m.(exitTunnels := m.exitTunnels - {id})
  }

  /** The end of the read loop: announce the close, then drop the tunnel. */
  function TargetClosed(m: Manager, id: TunnelId, client: PeerId): Manager {
    var m1 := if m.configured then m.(outbound := m.outbound + [P2PMessage(client, id, Close)]) else m;
    m1.(exitTunnels := m1.exitTunnels - {id})
  }

  // ----- the write task, one await at a time -----

  /** The channel is closed once the exit tunnel, which holds its only sender, is gone. */
  function WriterReceive(m: Manager, id: TunnelId): Manager {
    if id !in m.writers || !m.writers[id].phase.Receiving? then m
    else
      var w := m.writers[id];
      if w.queue != [] then m.(writers := m.writers[id := w.(queue := w.queue[1..], phase := Writing(w.queue[0]))])
      else if id !in m.exitTunnels then m.(writers := m.writers[id := w.(phase := Ended)])
      else m
  }

  /** `fault` is the number of bytes the socket takes before it fails; a chunk that fits does not fail. */
  function WriterWrite(m: Manager, id: TunnelId, fault: Option<nat>): Manager {
    if id !in m.writers || !m.writers[id].phase.Writing? then m
    else
      var w := m.writers[id];
      var chunk := w.phase.chunk;
      if fault.Some? && fault.value < |chunk|
      then m.(writers := m.writers[id := w.(phase := Failed(chunk, fault.value))])
      else m.(writers := m.writers[id := w.(phase := Metering(|chunk|), fully := w.fully + [chunk])])
  }

  function WriterMeter(m: Manager, id: TunnelId, now: nat): Manager {
    if id !in m.writers || !m.writers[id].phase.Metering? then m
    else
      var w := m.writers[id];
      m.(writers := m.writers[id := w.(phase := Counting(w.phase.written))],
         meter := RecordReceived(m.meter, w.peer, w.phase.written, now))
  }

  function WriterCount(m: Manager, id: TunnelId): Manager {
    if id !in m.writers || !m.writers[id].phase.Counting? then m
    else
      var w := m.writers[id];
      var m1 := m.(writers := m.writers[id := w.(phase := Receiving)]);
      if id in m.exitTunnels then
        var t := m.exitTunnels[id];
        m1.(exitTunnels := m.exitTunnels[id := t.(bytesSent := t.bytesSent + w.phase.metered)])
      else m1
  }

  /** One pass of the write loop with nothing in between. */
  function WriterPass(m: Manager, id: TunnelId, fault: Option<nat>, now: nat): Manager {
    WriterCount(WriterMeter(WriterWrite(WriterReceive(m, id), id, fault), id, now), id)
  }

  /** What a whole pass comes to when it starts with a chunk in the channel. */
  function Passed(m: Manager, id: TunnelId, fault: Option<nat>, now: nat): Manager
    requires id in m.writers && m.writers[id].queue != []
  {
    var w := m.writers[id];
    var chunk := w.queue[0];
    if fault.Some? && fault.value < |chunk| then
      m.(writers := m.writers[id := w.(queue := w.queue[1..], phase := Failed(chunk, fault.value))])
    else
      m.(writers := m.writers[id := w.(queue := w.queue[1..], fully := w.fully + [chunk])],
         meter := RecordReceived(m.meter, w.peer, |chunk|, now),
         exitTunnels := if id in m.exitTunnels
                        then m.exitTunnels[id := m.exitTunnels[id].(bytesSent := m.exitTunnels[id].bytesSent + |chunk|)]
                        else m.exitTunnels)
  }

  lemma PassEffect(m: Manager, id: TunnelId, fault: Option<nat>, now: nat)
    requires id in m.writers && m.writers[id].phase.Receiving? && m.writers[id].queue != []
    ensures WriterPass(m, id, fault, now) == Passed(m, id, fault, now)
  {
    var w := m.writers[id];
    var chunk := w.queue[0];
    var m1 := WriterReceive(m, id);
    var m2 := WriterWrite(m1, id, fault);
    if fault.Some? && fault.value < |chunk| {
      assert m2.writers == m.writers[id := w.(queue := w.queue[1..], phase := Failed(chunk, fault.value))];
      assert WriterCount(WriterMeter(m2, id, now), id) == m2;
    } else {
      PassCompletes(m, id, now);
      assert m2 == WriterWrite(m1, id, None);
    }
  }

  lemma PassCompletes(m: Manager, id: TunnelId, now: nat)
    requires id in m.writers && m.writers[id].phase.Receiving? && m.writers[id].queue != []
    ensures WriterPass(m, id, None, now) == Passed(m, id, None, now)
  {
    var w := m.writers[id];
    var m2 := WriterWrite(WriterReceive(m, id), id, None);
    var done := w.(queue := w.queue[1..], fully := w.fully + [w.queue[0]]);
    assert m2.writers[id] == done.(phase := Metering(|w.queue[0]|));
    var m3 := WriterMeter(m2, id, now);
    assert m3.writers[id] == done.(phase := Counting(|w.queue[0]|));
    var m4 := WriterCount(m3, id);
    assert m4.writers == m.writers[id := done];
  }

  /** The write loop with nothing in between, until its channel is empty or the socket fails on chunk `faultAt`. */
  function Drain(m: Manager, id: TunnelId, pass: nat, faultAt: nat, fault: Option<nat>, now: nat): Manager
    decreases if id in m.writers then |m.writers[id].queue| else 0
  {
    if id in m.writers && m.writers[id].phase.Receiving? && m.writers[id].queue != [] then
      Drain(Passed(m, id, if pass == faultAt then fault else None, now), id, pass + 1, faultAt, fault, now)
    else WriterReceive(m, id)
  }

  // ----- node dispatch -----

  function ToRequest(id: TunnelId, data: P2PMessageData): Option<Request> {
    match data
    case Connect(host, port) => Some(ProxyConnect(id, host, port))
    case Data(bytes) => Some(ProxyData(id, bytes))
    case Close => Some(ProxyClose(id))
    case Connected(_, _) => None
  }

  function HandleRequest(m: Manager, from: PeerId, r: Request, refused: Option<string>): (Manager, Response) {
    match r
    case ProxyConnect(id, host, port) =>
      var (m1, result) := CreateExitTunnel(m, id, from, host, port, refused);
      (m1, match result
           case Ok(_) => ProxyConnected(id, true, None)
           case Err(e) => ProxyConnected(id, false, Some(e)))
    case ProxyData(id, data) => (HandleExitTunnelData(m, id, data), Pong)
    case ProxyClose(id) => (CloseExitTunnel(m, id), ProxyClosed(id))
  }

  function HandleResponse(m: Manager, r: Response): Manager {
    match r
    case ProxyConnected(id, success, error) => HandleTunnelConnected(m, id, success, error)
    case ProxyClosed(id) => CloseClientTunnel(m, id)
    case Pong => m
  }

  // ----- the manager as the mutable object it is -----

  class TunnelTable {
    var configured: bool
    var nextId: TunnelId
    var clientTunnels: map<TunnelId, ClientTunnel>
    var fired: map<TunnelId, seq<Ready>>
    var exitTunnels: map<TunnelId, ExitTunnel>
    var writers: map<TunnelId, Writer>
    var meter: Meter
    var outbound: seq<P2PMessage>

    ghost function Value(): Manager
      reads this
    {
      Manager(configured, nextId, clientTunnels, fired, exitTunnels, writers, meter, outbound)
    }

    constructor (now: nat)
      ensures Value() == NewManager(now)
    {
      configured, nextId := false, 1;
      clientTunnels, fired, exitTunnels, writers := map[], map[], map[], map[];
      meter, outbound := NewMeter(now), [];
    }

    method SetOutbound()
      modifies this`configured
      ensures Value() == Configured(old(Value()))
    {
      configured := true;
    }

    method Create(exitPeer: PeerId, host: string, port: nat) returns (r: Result<TunnelId, string>)
      modifies this
      ensures (Value(), r) == CreateClientTunnel(old(Value()), exitPeer, host, port)
      ensures r == if configured then Ok(old(nextId)) else Err("P2P outbound channel not configured")
      ensures old(nextId) in clientTunnels && clientTunnels[old(nextId)] == ClientTunnel(host, port, exitPeer, true)
      ensures outbound == old(outbound) +
        if configured then [P2PMessage(exitPeer, old(nextId), Connect(host, port))] else []
    {
      var id := nextId;
      nextId := nextId + 1;
      fired := fired[id := []];
      clientTunnels := clientTunnels[id := ClientTunnel(host, port, exitPeer, true)];
      if configured {
        outbound := outbound + [P2PMessage(exitPeer, id, Connect(host, port))];
      } else {
        return Err("P2P outbound channel not configured");
      }
      return Ok(id);
    }

    method TunnelConnected(id: TunnelId, success: bool, error: Option<string>)
      modifies this
      ensures Value() == HandleTunnelConnected(old(Value()), id, success, error)
    {
      if id in clientTunnels {
        var tunnel := clientTunnels[id];
        if tunnel.readyPending {
          clientTunnels := clientTunnels[id := tunnel.(readyPending := false)];
          var outcome := ReadyErr("Unknown error");
          if success {
            outcome := ReadyOk;
          } else if error.Some? {
            outcome := ReadyErr(error.value);
          }
          fired := fired[id := (if id in fired then fired[id] else []) + [outcome]];
        }
      }
    }

    method Send(id: TunnelId, data: Bytes) returns (r: Result<(), string>)
      modifies this
      ensures (Value(), r) == SendThrough(old(Value()), id, data)
      ensures r == if id !in clientTunnels then Err("Tunnel not found")
                   else if configured then Ok(()) else Err("P2P outbound not configured")
      ensures r.Err? ==> Value() == old(Value())
      ensures r.Ok? ==> outbound == old(outbound) + [P2PMessage(clientTunnels[id].exitPeer, id, Data(data))]
    {
      if id in clientTunnels {
        if configured {
          outbound := outbound + [P2PMessage(clientTunnels[id].exitPeer, id, Data(data))];
          r := Ok(());
        } else {
          r := Err("P2P outbound not configured");
        }
      } else {
        r := Err("Tunnel not found");
      }
    }

    method CloseClient(id: TunnelId)
      modifies this
      ensures Value() == CloseClientTunnel(old(Value()), id)
      ensures id !in clientTunnels && outbound == old(outbound) +
        if id in old(clientTunnels) && configured then [P2PMessage(old(clientTunnels)[id].exitPeer, id, Close)] else []
    {
      if id in clientTunnels && configured {
        outbound := outbound + [P2PMessage(clientTunnels[id].exitPeer, id, Close)];
      }
      clientTunnels := clientTunnels - {id};
    }

    method CreateExit(id: TunnelId, client: PeerId, host: string, port: nat, refused: Option<string>)
      returns (r: Result<(), string>)
      modifies this
      ensures (Value(), r) == CreateExitTunnel(old(Value()), id, client, host, port, refused)
      ensures r == if refused.Some? then Err(refused.value) else Ok(())
      ensures r.Err? ==> Value() == old(Value())
      ensures outbound == old(outbound) +
        if r.Ok? && configured then [P2PMessage(client, id, Connected(true, None))] else []
    {
      if refused.Some? {
        return Err(refused.value);
      }
      exitTunnels := exitTunnels[id := ExitTunnel(host, port, client, 0)];
      writers := writers[id := Writer(host, port, client, [], Receiving, [])];
      if configured {
        outbound := outbound + [P2PMessage(client, id, Connected(true, None))];
      }
      return Ok(());
    }

    method ExitData(id: TunnelId, data: Bytes)
      modifies this
      ensures Value() == HandleExitTunnelData(old(Value()), id, data)
    {
      if id in exitTunnels && id in writers {
        var w := writers[id];
        if !w.phase.Failed? && !w.phase.Ended? {
          writers := writers[id := w.(queue := w.queue + [data])];
        }
      }
    }

    method CloseExit(id: TunnelId)
      modifies this
      ensures Value() == CloseExitTunnel(old(Value()), id)
      ensures id !in exitTunnels && forall other :: other in old(exitTunnels) && other != id ==>
        other in exitTunnels && exitTunnels[other] == old(exitTunnels)[other]
    {
      exitTunnels := exitTunnels - {id};
    }

    /** The event loop's arms for tunnel requests. */
    method OnRequest(from: PeerId, request: Request, refused: Option<string>) returns (response: Response)
      modifies this
      ensures (Value(), response) == HandleRequest(old(Value()), from, request, refused)
    {
      match request {
        case ProxyConnect(id, host, port) =>
          var result := CreateExit(id, from, host, port, refused);
          response := ProxyConnected(id, result.Ok?, if result.Ok? then None else Some(result.error));
        case ProxyData(id, data) =>
          ExitData(id, data);
          response := Pong;
        case ProxyClose(id) =>
          CloseExit(id);
          response := ProxyClosed(id);
      }
    }

    /** The event loop's arms for responses. */
    method OnResponse(response: Response)
      modifies this
      ensures Value() == HandleResponse(old(Value()), response)
    {
      match response {
        case ProxyConnected(id, success, error) => TunnelConnected(id, success, error);
        case ProxyClosed(id) => CloseClient(id);
        case Pong =>
      }
    }

    /** One chunk from the channel to the socket, the metrics and the counter; `alive` is false if the socket fails. */
    method Forward(id: TunnelId, fault: Option<nat>, now: nat) returns (alive: bool)
      requires id in writers && writers[id].phase.Receiving? && writers[id].queue != []
      modifies this`writers, this`meter, this`exitTunnels
      ensures Value() == Passed(old(Value()), id, fault, now)
      ensures id in writers && (alive <==> writers[id].phase.Receiving?)
      ensures !alive ==> fault.Some? && writers[id].phase == Failed(old(writers[id].queue[0]), fault.value)
    {
      var w := writers[id];
      var data := w.queue[0];
      var length := |data|;
      if fault.Some? && fault.value < length {
        writers := writers[id := w.(queue := w.queue[1..], phase := Failed(data, fault.value))];
        return false;
      }
      writers := writers[id := w.(queue := w.queue[1..], fully := w.fully + [data])];
      meter := RecordReceived(meter, w.peer, length, now);
      if id in exitTunnels {
        var t := exitTunnels[id];
        exitTunnels := exitTunnels[id := t.(bytesSent := t.bytesSent + length)];
      }
      return true;
    }

    /** The write task run without interruption; the socket fails on chunk `faultAt` if `fault` says so. */
    method WriteLoop(id: TunnelId, faultAt: nat, fault: Option<nat>, now: nat)
      requires id in writers && writers[id].phase.Receiving?
      modifies this`writers, this`meter, this`exitTunnels
      ensures Value() == Drain(old(Value()), id, 0, faultAt, fault, now)
    {
      var received := 0;
      while writers[id].queue != []
        invariant id in writers && writers[id].phase.Receiving?
        invariant Drain(Value(), id, received, faultAt, fault, now) == Drain(old(Value()), id, 0, faultAt, fault, now)
        decreases |writers[id].queue|
      {
        DrainUnfolds(Value(), id, received, faultAt, fault, now);
        var alive := Forward(id, if received == faultAt then fault else None, now);
        if !alive {
          return;
        }
        received := received + 1;
      }
      if id !in exitTunnels {
        writers := writers[id := writers[id].(phase := Ended)];
      }
    }
  }

  function Lost(w: Writer): seq<Bytes> { if w.phase.Failed? then [w.phase.lost] else [] }

  /** Everything taken from the channel is on the socket, except a chunk that failed; and exactly the chunks on the
      socket are metered for the peer and counted for the tunnel. */
  ghost predicate Accounted(m: Manager, m': Manager, id: TunnelId) {
    && id in m.writers && id in m'.writers
    && var w, w' := m.writers[id], m'.writers[id];
    && w'.peer == w.peer
    && w'.fully + Lost(w') + w'.queue == w.fully + Lost(w) + w.queue
    && ReceivedFrom(m'.meter, w.peer) - TotalLen(w'.fully) == ReceivedFrom(m.meter, w.peer) - TotalLen(w.fully)
    && m'.exitTunnels.Keys == m.exitTunnels.Keys
    && (id in m.exitTunnels ==>
          m'.exitTunnels[id].bytesSent - TotalLen(w'.fully) == m.exitTunnels[id].bytesSent - TotalLen(w.fully))
  }

  /** The channel is empty, or the socket has failed. */
  predicate Drained(m: Manager, id: TunnelId) {
    id in m.writers && (m.writers[id].phase.Failed? || m.writers[id].queue == [])
  }

  lemma PassAccounted(m: Manager, id: TunnelId, fault: Option<nat>, now: nat)
    requires id in m.writers && m.writers[id].phase.Receiving? && m.writers[id].queue != []
    ensures Accounted(m, Passed(m, id, fault, now), id)
  {
    var w := m.writers[id];
    var chunk, rest := w.queue[0], w.queue[1..];
    assert w.queue == [chunk] + rest;
    if fault.Some? && fault.value < |chunk| {
      assert w.fully + [chunk] + rest == w.fully + [] + w.queue;
    } else {
      assert (w.fully + [chunk]) + [] + rest == w.fully + [] + w.queue;
      TotalLenAppend(w.fully, [chunk]);
      assert TotalLen([chunk]) == |chunk|;
    }
  }

  lemma NothingToDrain(m: Manager, id: TunnelId)
    requires id in m.writers && m.writers[id].phase.Receiving? && m.writers[id].queue == []
    ensures Accounted(m, WriterReceive(m, id), id) && WriterReceive(m, id).writers[id].queue == []
  {
  }

  /** A pass either leaves the loop waiting for the next chunk or ends it. */
  lemma DrainUnfolds(m: Manager, id: TunnelId, pass: nat, faultAt: nat, fault: Option<nat>, now: nat)
    requires id in m.writers && m.writers[id].phase.Receiving? && m.writers[id].queue != []
    ensures var m1 := Passed(m, id, if pass == faultAt then fault else None, now);
      && id in m1.writers && |m1.writers[id].queue| < |m.writers[id].queue|
      && (m1.writers[id].phase.Receiving? || m1.writers[id].phase.Failed?)
      && Drain(m, id, pass, faultAt, fault, now)
         == if m1.writers[id].phase.Receiving? then Drain(m1, id, pass + 1, faultAt, fault, now) else m1
  {
  }

  lemma {:induction false} DrainAccounts(m: Manager, id: TunnelId, pass: nat, faultAt: nat, fault: Option<nat>,
                                         now: nat)
    requires id in m.writers && m.writers[id].phase.Receiving?
    ensures Accounted(m, Drain(m, id, pass, faultAt, fault, now), id)
    ensures Drained(Drain(m, id, pass, faultAt, fault, now), id)
    decreases |m.writers[id].queue|
  {
    if m.writers[id].queue == [] {
      NothingToDrain(m, id);
    } else {
      var f := if pass == faultAt then fault else None;
      var m1 := Passed(m, id, f, now);
      DrainUnfolds(m, id, pass, faultAt, fault, now);
      PassAccounted(m, id, f, now);
      if m1.writers[id].phase.Receiving? {
        DrainAccounts(m1, id, pass + 1, faultAt, fault, now);
        AccountedChain(m, m1, Drain(m1, id, pass + 1, faultAt, fault, now), id);
      }
    }
  }

  lemma AccountedChain(a: Manager, b: Manager, c: Manager, id: TunnelId)
    requires Accounted(a, b, id) && Accounted(b, c, id)
    ensures Accounted(a, c, id)
  {
  }
}
