/** Readiness in the tunnel protocol: the invariant every step keeps. */
module TunnelSafety {
  import opened Prelude
  import opened TunnelManager
  import opened TunnelProtocol

  /** Ids are fresh and the tables agree on their keys. */
  ghost predicate Wired(s: Net) {
    && s.client.configured && s.exit.configured
    && s.conns.Keys == s.asked.Keys == s.handed.Keys == s.client.fired.Keys
    && (forall id :: id in s.conns ==> id < s.client.nextId)
    && s.client.clientTunnels.Keys <= s.conns.Keys
    && s.exit.writers.Keys <= s.conns.Keys
    && s.exit.exitTunnels.Keys <= s.exit.writers.Keys
  }

  /** A signal fires at most once, and only as long as its tunnel waits for it; Ok is for registered tunnels; and only
      connections that have seen Ok go beyond waiting. */
  ghost predicate Signals(tunnels: map<TunnelId, ClientTunnel>, fired: map<TunnelId, seq<Ready>>,
                          conns: map<TunnelId, Conn>, registered: set<TunnelId>)
    requires tunnels.Keys <= fired.Keys == conns.Keys
  {
    && (forall id :: id in tunnels ==> (tunnels[id].readyPending <==> fired[id] == []))
    && (forall id :: id in fired ==> |fired[id]| <= 1)
    && (forall id :: id in fired && fired[id] == [ReadyOk] ==> id in registered)
    && (forall id :: id in conns && (conns[id].Relaying? || conns[id].Draining?) ==> fired[id] == [ReadyOk])
  }

  /** Signals are in order, Ok answers speak of registered tunnels, and these connect to what was asked for. */
  ghost predicate Signalled(s: Net)
    requires Wired(s)
  {
    && Signals(s.client.clientTunnels, s.client.fired, s.conns, s.exit.writers.Keys)
    && (forall a :: a in s.answers && a.ProxyConnected? && a.success ==> a.tunnel in s.exit.writers)
    && (forall id :: id in s.exit.writers ==> s.asked[id] == Target(s.exit.writers[id].host, s.exit.writers[id].port))
  }

  /** Requests under way: each belongs to an opened connection, a connect is unique and comes before registration,
      and data is there only after Ok. */
  ghost predicate FlightOk(rs: seq<Request>, fired: map<TunnelId, seq<Ready>>, asked: map<TunnelId, Target>,
                           registered: set<TunnelId>)
  {
    && (forall r :: r in rs ==> r.tunnel in fired && r.tunnel in asked)
    && (forall r :: r in rs && r.ProxyData? ==> fired[r.tunnel] == [ReadyOk])
    && (forall r :: r in rs && r.ProxyConnect? ==> asked[r.tunnel] == Target(r.host, r.port) && r.tunnel !in registered)
    && (forall id :: Connects(rs, id) <= 1)
  }

  ghost predicate ReadyInv(s: Net) {
    && Wired(s)
    && Signalled(s)
    && FlightOk(Flight(s), s.client.fired, s.asked, s.exit.writers.Keys)
  }

  lemma FlightLoses(a: seq<Request>, r: Request, b: seq<Request>, fired: map<TunnelId, seq<Ready>>,
                    asked: map<TunnelId, Target>, registered: set<TunnelId>)
    requires FlightOk(a + [r] + b, fired, asked, registered)
    ensures FlightOk(a + b, fired, asked, if r.ProxyConnect? then registered + {r.tunnel} else registered)
    ensures r.tunnel in fired && r.tunnel in asked
    ensures r.ProxyData? ==> fired[r.tunnel] == [ReadyOk]
    ensures r.ProxyConnect? ==> asked[r.tunnel] == Target(r.host, r.port) && r.tunnel !in registered
  {
    var all, rest := a + [r] + b, a + b;
    assert r in all;
    assert forall x :: x in rest ==> x in all;
    forall id ensures Connects(rest, id) <= 1 && (r.ProxyConnect? ==> Connects(rest, r.tunnel) == 0) {
      TakenOut(a, r, b, id);
      TakenOut(a, r, b, r.tunnel);
    }
    forall x | x in rest && x.ProxyConnect?
      ensures r.ProxyConnect? ==> x.tunnel != r.tunnel
    {
      ConnectCounted(rest, x);
    }
  }

  lemma FlightGains(rs: seq<Request>, r: Request, fired: map<TunnelId, seq<Ready>>, asked: map<TunnelId, Target>,
                    registered: set<TunnelId>)
    requires FlightOk(rs, fired, asked, registered)
    requires r.tunnel in fired && r.tunnel in asked && !r.ProxyConnect?
    requires r.ProxyData? ==> fired[r.tunnel] == [ReadyOk]
    ensures FlightOk(rs + [r], fired, asked, registered)
  {
    forall id ensures Connects(rs + [r], id) == Connects(rs, id) {
      ConnectsAppend(rs, [r], id);
    }
  }

  lemma FlightOpens(rs: seq<Request>, id: TunnelId, t: Target, fired: map<TunnelId, seq<Ready>>,
                    asked: map<TunnelId, Target>, registered: set<TunnelId>)
    requires FlightOk(rs, fired, asked, registered) && id !in fired && id !in registered
    ensures FlightOk(rs + [ProxyConnect(id, t.host, t.port)], fired[id := []], asked[id := t], registered)
  {
    var r := ProxyConnect(id, t.host, t.port);
    forall other ensures Connects(rs + [r], other) <= 1 {
      ConnectsAppend(rs, [r], other);
      NothingFor(rs, id);
    }
  }

  lemma StartIsReady(now: nat)
    ensures ReadyInv(Start(now))
  {
  }

  lemma DeliverKeepsTables(s: Net, i: nat, refused: Option<string>)
    requires Wired(s) && Signalled(s) && i < |s.link| && s.link[i].tunnel in s.conns
    requires s.link[i].ProxyConnect? ==>
      s.asked[s.link[i].tunnel] == Target(s.link[i].host, s.link[i].port) && s.link[i].tunnel !in s.exit.writers
    ensures var s' := Delivered(s, i, refused);
      && Wired(s') && Signalled(s')
      && s'.exit.writers.Keys <= s.exit.writers.Keys + (if s.link[i].ProxyConnect? then {s.link[i].tunnel} else {})
  {
  }

  lemma FlightOkUnderFewer(rs: seq<Request>, fired: map<TunnelId, seq<Ready>>, asked: map<TunnelId, Target>,
                           registered: set<TunnelId>, fewer: set<TunnelId>)
    requires FlightOk(rs, fired, asked, registered) && fewer <= registered
    ensures FlightOk(rs, fired, asked, fewer)
  {
  }

  lemma DeliverKeepsReady(s: Net, i: nat, refused: Option<string>)
    requires ReadyInv(s) && i < |s.link|
    ensures ReadyInv(Delivered(s, i, refused))
  {
    FlightAround(s, i);
    var s', r := Delivered(s, i, refused), s.link[i];
    assert Flight(s') == s.link[..i] + Behind(s, i);
    FlightLoses(s.link[..i], r, Behind(s, i), s.client.fired, s.asked, s.exit.writers.Keys);
    DeliverKeepsTables(s, i, refused);
    FlightOkUnderFewer(Flight(s'), s.client.fired, s.asked,
                       if r.ProxyConnect? then s.exit.writers.Keys + {r.tunnel} else s.exit.writers.Keys,
                       s'.exit.writers.Keys);
  }

  lemma LoseKeepsReady(s: Net, i: nat)
    requires ReadyInv(s) && i < |s.link|
    ensures ReadyInv(s.(link := Without(s.link, i)))
  {
    FlightAround(s, i);
    FlightLoses(s.link[..i], s.link[i], Behind(s, i), s.client.fired, s.asked, s.exit.writers.Keys);
    var keys := s.exit.writers.Keys;
    FlightOkUnderFewer(s.link[..i] + Behind(s, i), s.client.fired, s.asked,
                       if s.link[i].ProxyConnect? then keys + {s.link[i].tunnel} else keys, keys);
  }

  lemma OpenKeepsWired(s: Net, host: string, port: nat)
    requires Wired(s)
    ensures Wired(Opened(s, host, port))
  {
  }

  lemma SignalsOpen(tunnels: map<TunnelId, ClientTunnel>, fired: map<TunnelId, seq<Ready>>, conns: map<TunnelId, Conn>,
                    registered: set<TunnelId>, id: TunnelId, t: ClientTunnel)
    requires tunnels.Keys <= fired.Keys == conns.Keys && Signals(tunnels, fired, conns, registered)
    requires id !in fired && t.readyPending
    ensures (tunnels[id := t]).Keys <= (fired[id := []]).Keys == (conns[id := Waiting]).Keys
    ensures Signals(tunnels[id := t], fired[id := []], conns[id := Waiting], registered)
  {
  }

  lemma OpenKeepsSignals(s: Net, host: string, port: nat)
    requires Wired(s) && Signalled(s) && Wired(Opened(s, host, port))
    ensures Signalled(Opened(s, host, port))
  {
    var id := s.client.nextId;
    assert id !in s.conns && id !in s.client.clientTunnels && id !in s.exit.writers;
    SignalsOpen(s.client.clientTunnels, s.client.fired, s.conns, s.exit.writers.Keys, id,
                ClientTunnel(host, port, EXIT, true));
  }

  lemma OpenKeepsReady(s: Net, host: string, port: nat)
    requires ReadyInv(s)
    ensures ReadyInv(Opened(s, host, port))
  {
    OpenKeepsWired(s, host, port);
    OpenKeepsSignals(s, host, port);
    FlightAfterOpen(s, host, port);
    FlightOpens(Flight(s), s.client.nextId, Target(host, port), s.client.fired, s.asked, s.exit.writers.Keys);
  }

  lemma ConnectedKeepsTables(s: Net, i: nat)
    requires Wired(s) && Signalled(s) && i < |s.answers| && s.answers[i].ProxyConnected?
    ensures var s' := Answered(s, i);
      && Wired(s') && Signalled(s')
      && (forall id :: id in s.client.fired && s.client.fired[id] == [ReadyOk] ==> s'.client.fired[id] == [ReadyOk])
  {
    var s', a := Answered(s, i), s.answers[i];
    assert forall x :: x in s'.answers ==> x in s.answers;
    assert a in s.answers;
    if a.tunnel in s.client.clientTunnels && s.client.clientTunnels[a.tunnel].readyPending {
      var outcome := ReadyOutcome(a.success, a.error);
      assert [] + [outcome] == [outcome];
      FireKeepsWired(s, a.tunnel, outcome);
      SignalFires(s.client.clientTunnels, s.client.fired, s.conns, s.exit.writers.Keys, a.tunnel, outcome);
      SignalledWithFewerAnswers(Fire(s, a.tunnel, outcome), s'.answers);
      assert s' == Fire(s, a.tunnel, outcome).(answers := s'.answers);
    } else {
      SignalledWithFewerAnswers(s, s'.answers);
      assert s' == s.(answers := s'.answers);
    }
  }

  function Fire(s: Net, id: TunnelId, outcome: Ready): Net
    requires id in s.client.clientTunnels
  {
    var tunnel := s.client.clientTunnels[id].(readyPending := false);
    s.(client := s.client.(clientTunnels := s.client.clientTunnels[id := tunnel],
                           fired := s.client.fired[id := [outcome]]))
  }

  lemma FireKeepsWired(s: Net, id: TunnelId, outcome: Ready)
    requires Wired(s) && id in s.client.clientTunnels
    ensures Wired(Fire(s, id, outcome))
  {
  }

  lemma SignalFires(tunnels: map<TunnelId, ClientTunnel>, fired: map<TunnelId, seq<Ready>>, conns: map<TunnelId, Conn>,
                    registered: set<TunnelId>, id: TunnelId, outcome: Ready)
    requires tunnels.Keys <= fired.Keys == conns.Keys && Signals(tunnels, fired, conns, registered)
    requires id in tunnels && tunnels[id].readyPending && (outcome.ReadyOk? ==> id in registered)
    ensures (tunnels[id := tunnels[id].(readyPending := false)]).Keys <= (fired[id := [outcome]]).Keys == conns.Keys
    ensures Signals(tunnels[id := tunnels[id].(readyPending := false)], fired[id := [outcome]], conns, registered)
  {
    assert fired[id] == [] && [outcome] != [];
  }

  lemma SignalledWithFewerAnswers(s: Net, answers: seq<Response>)
    requires Wired(s) && Signalled(s)
    requires forall a :: a in answers ==> a in s.answers
    ensures Wired(s.(answers := answers)) && Signalled(s.(answers := answers))
  {
  }

  lemma ClosedKeepsTables(s: Net, i: nat)
    requires Wired(s) && Signalled(s) && i < |s.answers| && !s.answers[i].ProxyConnected?
    ensures Wired(Answered(s, i)) && Signalled(Answered(s, i)) && Answered(s, i).client.fired == s.client.fired
  {
    assert forall x :: x in Answered(s, i).answers ==> x in s.answers;
  }

  lemma AnswerKeepsReady(s: Net, i: nat)
    requires ReadyInv(s) && i < |s.answers|
    ensures ReadyInv(Answered(s, i))
  {
    FlightAfterAnswer(s, i);
    var a := s.answers[i];
    if a.ProxyConnected? {
      ConnectedKeepsTables(s, i);
      assert Flight(s) + [] == Flight(s);
    } else {
      ClosedKeepsTables(s, i);
      if Provoked(s, i) == [] {
        assert Flight(s) + [] == Flight(s);
      } else {
        FlightGains(Flight(s), ProxyClose(a.tunnel), s.client.fired, s.asked, s.exit.writers.Keys);
      }
    }
  }

  lemma SendKeepsTables(s: Net, id: TunnelId, data: Bytes)
    requires Wired(s) && Signalled(s) && InState(s, id, Relaying)
    ensures Wired(HandedOver(s, id, data)) && Signalled(HandedOver(s, id, data))
  {
  }

  lemma SendKeepsReady(s: Net, id: TunnelId, data: Bytes)
    requires ReadyInv(s) && InState(s, id, Relaying)
    ensures ReadyInv(HandedOver(s, id, data))
  {
    FlightAfterSend(s, id, data);
    SendKeepsTables(s, id, data);
    if id in s.client.clientTunnels {
      FlightGains(Flight(s), ProxyData(id, data), s.client.fired, s.asked, s.exit.writers.Keys);
    } else {
      assert Flight(s) + [] == Flight(s);
    }
  }

  lemma HangupKeepsReady(s: Net, id: TunnelId)
    requires ReadyInv(s) && id in s.conns
    ensures ReadyInv(HungUp(s, id))
  {
    FlightAfterHangup(s, id);
    if id in s.client.clientTunnels {
      FlightGains(Flight(s), ProxyClose(id), s.client.fired, s.asked, s.exit.writers.Keys);
    } else {
      assert Flight(s) + [] == Flight(s);
    }
  }

  lemma MoveKeepsReady(s: Net, id: TunnelId, c: Conn)
    requires ReadyInv(s) && id in s.conns
    requires c.Relaying? || c.Draining? ==> s.client.fired[id] == [ReadyOk]
    ensures ReadyInv(Moved(s, id, c))
  {
  }

  lemma PumpKeepsReady(s: Net)
    requires ReadyInv(s) && s.client.outbound != []
    ensures ReadyInv(Pumped(s))
  {
    FlightAfterPump(s);
  }

  lemma LoseAnswerKeepsReady(s: Net, i: nat)
    requires ReadyInv(s) && i < |s.answers|
    ensures ReadyInv(s.(answers := Without(s.answers, i)))
  {
  }

  /** No writer is started or retargeted and no tunnel registered. */
  ghost predicate SameTargets(exit: Manager, exit': Manager) {
    && exit'.configured == exit.configured
    && exit'.writers.Keys == exit.writers.Keys
    && exit'.exitTunnels.Keys <= exit.exitTunnels.Keys
    && (forall id :: id in exit.writers ==>
          exit'.writers[id].host == exit.writers[id].host && exit'.writers[id].port == exit.writers[id].port)
  }

  lemma WriterMoves(exit: Manager, exit': Manager, id: TunnelId, w: Writer)
    requires id in exit.writers && exit'.writers == exit.writers[id := w] && exit'.configured == exit.configured
    requires w.host == exit.writers[id].host && w.port == exit.writers[id].port
    requires exit'.exitTunnels.Keys <= exit.exitTunnels.Keys
    ensures SameTargets(exit, exit')
  {
  }

  lemma ReceiveKeepsTargets(exit: Manager, id: TunnelId)
    ensures SameTargets(exit, WriterReceive(exit, id))
  {
    var exit' := WriterReceive(exit, id);
    if exit' != exit {
      WriterMoves(exit, exit', id, exit'.writers[id]);
    }
  }

  lemma WriteKeepsTargets(exit: Manager, id: TunnelId, fault: Option<nat>)
    ensures SameTargets(exit, WriterWrite(exit, id, fault))
  {
    var exit' := WriterWrite(exit, id, fault);
    if exit' != exit {
      WriterMoves(exit, exit', id, exit'.writers[id]);
    }
  }

  lemma MeterKeepsTargets(exit: Manager, id: TunnelId, now: nat)
    ensures SameTargets(exit, WriterMeter(exit, id, now))
  {
    var exit' := WriterMeter(exit, id, now);
    if exit' != exit {
      WriterMoves(exit, exit', id, exit'.writers[id]);
    }
  }

  lemma CountKeepsTargets(exit: Manager, id: TunnelId)
    ensures SameTargets(exit, WriterCount(exit, id))
  {
    var exit' := WriterCount(exit, id);
    if exit' != exit {
      WriterMoves(exit, exit', id, exit'.writers[id]);
    }
  }

  lemma OwnStepKeepsTargets(exit: Manager, step: Step)
    requires OwnStep(step)
    ensures SameTargets(exit, ExitStep(exit, step))
  {
    match step
    case Receive(id) => ReceiveKeepsTargets(exit, id);
    case Write(id, fault) => WriteKeepsTargets(exit, id, fault);
    case Meter(id, now) => MeterKeepsTargets(exit, id, now);
    case Count(id) => CountKeepsTargets(exit, id);
    case TargetCloses(id) =>
  }

  lemma ExitKeepsReady(s: Net, exit': Manager)
    requires ReadyInv(s)
    requires SameTargets(s.exit, exit')
    ensures ReadyInv(s.(exit := exit'))
  {
    assert Flight(s.(exit := exit')) == Flight(s);
  }

  lemma StepKeepsReady(kind: LinkKind, s: Net, step: Step)
    requires ReadyInv(s)
    ensures ReadyInv(Next(kind, s, step))
  {
    if Enabled(kind, s, step) {
      if OwnStep(step) {
        OwnStepKeepsTargets(s.exit, step);
        ExitKeepsReady(s, ExitStep(s.exit, step));
      } else {
        match step
        case Open(host, port) => OpenKeepsReady(s, host, port);
        case Pump => PumpKeepsReady(s);
        case Deliver(i, refused) => DeliverKeepsReady(s, i, refused);
        case LoseRequest(i) => LoseKeepsReady(s, i);
        case Answer(i) => AnswerKeepsReady(s, i);
        case LoseAnswer(i) => LoseAnswerKeepsReady(s, i);
        case Wake(id) => MoveKeepsReady(s, id, if s.client.fired[id][0].ReadyOk? then Relaying else Finished);
        case GiveUp(id) => MoveKeepsReady(s, id, Finished);
        case Send(id, data) => SendKeepsReady(s, id, data);
        case StopSending(id) => MoveKeepsReady(s, id, Draining);
        case Hangup(id) => HangupKeepsReady(s, id);
      }
    }
  }
}
