/** What the readiness signals mean and what reaches the targets, in every run of the tunnel protocol. */
module TunnelDelivery {
  import opened Prelude
  import opened TunnelManager
  import opened TunnelProtocol
  import opened TunnelSafety

  // ----- readiness over whole runs -----

  lemma {:induction false} RunKeepsReady(kind: LinkKind, s: Net, steps: seq<Step>)
    requires ReadyInv(s)
    ensures ReadyInv(Run(kind, s, steps))
    decreases |steps|
  {
    if steps == [] {
    } else {
      StepKeepsReady(kind, s, steps[0]);
      RunKeepsReady(kind, Next(kind, s, steps[0]), steps[1..]);
    }
  }

  /** In every run: a signal has fired at most once; Ok means the exit connected to the target asked for and registered
      the tunnel; data is under way only after Ok, so an exit without a tunnel for it must have had and removed one. */
  lemma ReadinessIsSound(kind: LinkKind, now: nat, steps: seq<Step>, id: TunnelId)
    ensures var s := Run(kind, Start(now), steps);
      && (id in s.client.fired ==> |s.client.fired[id]| <= 1)
      && (id in s.client.fired && s.client.fired[id] == [ReadyOk] ==>
            && id in s.exit.writers && id in s.asked
            && s.asked[id] == Target(s.exit.writers[id].host, s.exit.writers[id].port))
      && (forall r :: r in Flight(s) && r.ProxyData? && r.tunnel == id ==>
            id in s.client.fired && s.client.fired[id] == [ReadyOk] && id in s.exit.writers)
  {
    StartIsReady(now);
    RunKeepsReady(kind, Start(now), steps);
  }

  lemma AnswerKeepsSignal(s: Net, i: nat, id: TunnelId)
    requires ReadyInv(s) && i < |s.answers| && id in s.client.fired && s.client.fired[id] != []
    ensures id in Answered(s, i).client.fired && Answered(s, i).client.fired[id] == s.client.fired[id]
  {
    var a := s.answers[i];
    if a.ProxyConnected? && a.tunnel == id && id in s.client.clientTunnels {
      assert !s.client.clientTunnels[id].readyPending;
    }
  }

  lemma OpenKeepsSignal(s: Net, host: string, port: nat, id: TunnelId)
    requires Wired(s) && id in s.client.fired
    ensures id in Opened(s, host, port).client.fired && Opened(s, host, port).client.fired[id] == s.client.fired[id]
  {
  }

  lemma StepKeepsSignal(kind: LinkKind, s: Net, step: Step, id: TunnelId)
    requires ReadyInv(s) && id in s.client.fired && s.client.fired[id] != []
    ensures id in Next(kind, s, step).client.fired && Next(kind, s, step).client.fired[id] == s.client.fired[id]
  {
    if Enabled(kind, s, step) {
      if step.Answer? {
        AnswerKeepsSignal(s, step.i, id);
      } else if step.Open? {
        OpenKeepsSignal(s, step.host, step.port, id);
      } else {
        OthersKeepFired(kind, s, step);
      }
    }
  }

  /** Only opening a tunnel and handling an answer touch the signals. */
  lemma OthersKeepFired(kind: LinkKind, s: Net, step: Step)
    requires !step.Open? && !step.Answer?
    ensures Next(kind, s, step).client.fired == s.client.fired
  {
    if Enabled(kind, s, step) && !OwnStep(step) {
      match step
      case Send(id, data) => assert HandedOver(s, id, data).client.fired == s.client.fired;
      case Hangup(id) => assert HungUp(s, id).client.fired == s.client.fired;
      case _ =>
    }
  }

  /** A signal that has fired stays what it is, whatever happens later. */
  lemma {:induction false} SignalIsFinal(kind: LinkKind, s: Net, steps: seq<Step>, id: TunnelId)
    requires ReadyInv(s) && id in s.client.fired && s.client.fired[id] != []
    ensures var s' := Run(kind, s, steps); id in s'.client.fired && s'.client.fired[id] == s.client.fired[id]
    decreases |steps|
  {
    if steps == [] {
    } else {
      StepKeepsReady(kind, s, steps[0]);
      StepKeepsSignal(kind, s, steps[0], id);
      SignalIsFinal(kind, Next(kind, s, steps[0]), steps[1..], id);
    }
  }

  // ----- delivery -----

  function InHand(w: Writer): seq<Bytes> {
    match w.phase
    case Writing(chunk) => [chunk]
    case Failed(lost, _) => [lost]
    case _ => []
  }

  /** Every chunk that entered the write task's channel, in order. */
  function AcceptedBy(w: Writer): seq<Bytes> {
    w.fully + InHand(w) + w.queue
  }

  function Accepted(exit: Manager, id: TunnelId): seq<Bytes> {
    if id in exit.writers then AcceptedBy(exit.writers[id]) else []
  }

  /** Data arriving now for this tunnel would enter its channel. */
  predicate Accepting(exit: Manager, id: TunnelId) {
    id in exit.exitTunnels && id in exit.writers && !exit.writers[id].phase.Failed? && !exit.writers[id].phase.Ended?
  }

  /** On any link: what was accepted and what is under way for a tunnel was drawn from what was handed to it. */
  ghost predicate Drawn(s: Net, id: TunnelId) {
    id in s.handed ==>
      && multiset(Accepted(s.exit, id)) + multiset(DataFor(Flight(s), id)) <= multiset(s.handed[id])
      && (id in s.client.fired && s.client.fired[id] != [ReadyOk] ==> s.handed[id] == [])
  }

  /** Accepted chunks are a prefix of those handed over; while the tunnel accepts, so are those under way after them;
      and while the connection relays as well, nothing is missing. */
  ghost predicate Aligned(accepted: seq<Bytes>, underWay: seq<Bytes>, handed: seq<Bytes>, accepting: bool,
                          relaying: bool)
  {
    && accepted <= handed
    && (accepting ==> accepted + underWay <= handed)
    && (accepting && relaying ==> accepted + underWay == handed)
  }

  /** What holds of every tunnel on an ordered link. */
  ghost predicate InOrder(s: Net, id: TunnelId) {
    id in s.handed ==>
      && Aligned(Accepted(s.exit, id), DataFor(Flight(s), id), s.handed[id], Accepting(s.exit, id),
                 InState(s, id, Relaying))
      && (InState(s, id, Waiting) ==> s.handed[id] == [])
      && (id in s.client.fired && s.client.fired[id] != [ReadyOk] ==> s.handed[id] == [])
  }

  lemma OldestAbsorbed(accepted: seq<Bytes>, oldest: seq<Bytes>, rest: seq<Bytes>, handed: seq<Bytes>,
                       accepting: bool, accepting': bool, relaying: bool)
    requires Aligned(accepted, oldest + rest, handed, accepting, relaying)
    requires accepting' ==> accepting || (handed == [] && rest == [])
    ensures Aligned(accepted + (if accepting then oldest else []), rest, handed, accepting', relaying)
  {
  }

  /** What a tunnel accepted stays what it is, and no tunnel begins to accept. */
  ghost predicate SameAccepted(exit: Manager, exit': Manager, id: TunnelId) {
    Accepted(exit', id) == Accepted(exit, id) && (Accepting(exit', id) ==> Accepting(exit, id))
  }

  /** One write task changes in a way that keeps what it accepted; no tunnel is registered. */
  lemma WriterKeepsAccepted(exit: Manager, exit': Manager, other: TunnelId, w: Writer, id: TunnelId)
    requires other in exit.writers && exit'.writers == exit.writers[other := w]
    requires exit'.exitTunnels.Keys <= exit.exitTunnels.Keys
    requires AcceptedBy(w) == AcceptedBy(exit.writers[other])
    requires !exit.writers[other].phase.Failed? && !exit.writers[other].phase.Ended?
    ensures SameAccepted(exit, exit', id)
  {
  }

  lemma ReceiveKeepsAccepted(exit: Manager, other: TunnelId, id: TunnelId)
    ensures SameAccepted(exit, WriterReceive(exit, other), id)
  {
    if other in exit.writers && exit.writers[other].phase.Receiving? {
      var w, exit' := exit.writers[other], WriterReceive(exit, other);
      if w.queue != [] {
        assert w.fully + [] + w.queue == w.fully + [w.queue[0]] + w.queue[1..];
      }
      assert exit'.writers == exit.writers[other := exit'.writers[other]];
      WriterKeepsAccepted(exit, exit', other, exit'.writers[other], id);
    }
  }

  lemma WriteKeepsAccepted(exit: Manager, other: TunnelId, fault: Option<nat>, id: TunnelId)
    ensures SameAccepted(exit, WriterWrite(exit, other, fault), id)
  {
    if other in exit.writers && exit.writers[other].phase.Writing? {
      var w, exit' := exit.writers[other], WriterWrite(exit, other, fault);
      assert (w.fully + [w.phase.chunk]) + [] + w.queue == w.fully + [w.phase.chunk] + w.queue;
      WriterKeepsAccepted(exit, exit', other, exit'.writers[other], id);
    }
  }

  lemma MeterKeepsAccepted(exit: Manager, other: TunnelId, now: nat, id: TunnelId)
    ensures SameAccepted(exit, WriterMeter(exit, other, now), id)
  {
    if other in exit.writers && exit.writers[other].phase.Metering? {
      var exit' := WriterMeter(exit, other, now);
      WriterKeepsAccepted(exit, exit', other, exit'.writers[other], id);
    }
  }

  lemma CountKeepsAccepted(exit: Manager, other: TunnelId, id: TunnelId)
    ensures SameAccepted(exit, WriterCount(exit, other), id)
  {
    if other in exit.writers && exit.writers[other].phase.Counting? {
      var exit' := WriterCount(exit, other);
      assert exit'.exitTunnels.Keys == exit.exitTunnels.Keys;
      WriterKeepsAccepted(exit, exit', other, exit'.writers[other], id);
    }
  }

  lemma OwnStepKeepsAccepted(exit: Manager, step: Step, id: TunnelId)
    requires OwnStep(step)
    ensures SameAccepted(exit, ExitStep(exit, step), id)
  {
    match step
    case Receive(other) => ReceiveKeepsAccepted(exit, other, id);
    case Write(other, fault) => WriteKeepsAccepted(exit, other, fault, id);
    case Meter(other, now) => MeterKeepsAccepted(exit, other, now, id);
    case Count(other) => CountKeepsAccepted(exit, other, id);
    case TargetCloses(other) => assert ExitStep(exit, step).writers == exit.writers;
  }

  /** The effect of a delivery on one tunnel: its data, if it is accepting, is appended. */
  lemma DeliveryEffect(s: Net, i: nat, refused: Option<string>, id: TunnelId)
    requires i < |s.link| && (s.link[i].ProxyConnect? ==> s.link[i].tunnel !in s.exit.writers)
    ensures Accepted(Delivered(s, i, refused).exit, id)
         == Accepted(s.exit, id) + (if Accepting(s.exit, id) then One(s.link[i], id) else [])
    ensures Accepting(Delivered(s, i, refused).exit, id) ==>
         Accepting(s.exit, id) || (s.link[i].ProxyConnect? && s.link[i].tunnel == id)
  {
  }

  lemma LinkHeadMatches(s: Net, i: nat)
    requires ReadyInv(s) && i < |s.link|
    ensures s.link[i] in Flight(s)
  {
  }

  lemma DeliverKeepsDrawn(s: Net, i: nat, refused: Option<string>, id: TunnelId)
    requires ReadyInv(s) && Drawn(s, id) && i < |s.link|
    ensures Drawn(Delivered(s, i, refused), id)
  {
    LinkHeadMatches(s, i);
    DeliveryEffect(s, i, refused, id);
    FlightAround(s, i);
    assert Flight(Delivered(s, i, refused)) == s.link[..i] + Behind(s, i);
    TakenOut(s.link[..i], s.link[i], Behind(s, i), id);
  }

  lemma LoseKeepsDrawn(s: Net, i: nat, id: TunnelId)
    requires Drawn(s, id) && i < |s.link|
    ensures Drawn(s.(link := Without(s.link, i)), id)
  {
    FlightAround(s, i);
    TakenOut(s.link[..i], s.link[i], Behind(s, i), id);
  }

  /** What a send adds to the data under way for a tunnel. */
  lemma SendAdds(s: Net, other: TunnelId, data: Bytes, id: TunnelId)
    requires s.client.configured && other in s.handed
    ensures DataFor(Flight(HandedOver(s, other, data)), id)
         == DataFor(Flight(s), id) + (if other in s.client.clientTunnels && other == id then [data] else [])
  {
    FlightAfterSend(s, other, data);
    if other in s.client.clientTunnels {
      DataForAppend(Flight(s), [ProxyData(other, data)], id);
      assert DataFor([ProxyData(other, data)], id) == One(ProxyData(other, data), id);
    } else {
      assert Flight(s) + [] == Flight(s) && DataFor(Flight(s), id) + [] == DataFor(Flight(s), id);
    }
  }

  /** A send leaves the exit alone, and every other tunnel on the client as well. */
  lemma SendKeepsRest(s: Net, other: TunnelId, data: Bytes, id: TunnelId)
    requires Wired(s) && InState(s, other, Relaying)
    ensures var s' := HandedOver(s, other, data);
      && s'.exit == s.exit && s'.client.fired == s.client.fired
      && (other != id ==>
            (id in s'.handed <==> id in s.handed) && (forall c :: InState(s', id, c) <==> InState(s, id, c)))
      && (other != id && id in s.handed ==> s'.handed[id] == s.handed[id])
      && (id in s'.handed && other == id ==> s'.handed[id] == s.handed[id] + [data])
      && (InState(s', other, Relaying) <==> other in s.client.clientTunnels) && !InState(s', other, Waiting)
  {
  }

  lemma SendKeepsDrawn(s: Net, other: TunnelId, data: Bytes, id: TunnelId)
    requires ReadyInv(s) && Drawn(s, id) && InState(s, other, Relaying)
    ensures Drawn(HandedOver(s, other, data), id)
  {
    SendAdds(s, other, data, id);
    SendKeepsRest(s, other, data, id);
    if id in s.handed {
      DrawnWithMore(Accepted(s.exit, id), DataFor(Flight(s), id), s.handed[id], data);
      assert other == id ==> s.client.fired[id] == [ReadyOk];
    }
  }

  lemma DrawnWithMore(accepted: seq<Bytes>, underWay: seq<Bytes>, handed: seq<Bytes>, data: Bytes)
    requires multiset(accepted) + multiset(underWay) <= multiset(handed)
    ensures multiset(accepted) + multiset(underWay + [data]) <= multiset(handed + [data])
    ensures multiset(accepted) + multiset(underWay + []) <= multiset(handed + [data])
    ensures underWay + [] == underWay
  {
  }

  lemma AddingKeepsData(s: Net, s': Net, extra: seq<Request>, id: TunnelId)
    requires Flight(s') == Flight(s) + extra && forall r :: r in extra ==> !r.ProxyData?
    ensures DataFor(Flight(s'), id) == DataFor(Flight(s), id)
  {
    DataForAppend(Flight(s), extra, id);
    NoDataFor(extra, id);
  }

  predicate Quiet(step: Step) {
    !step.Deliver? && !step.LoseRequest? && !step.Send?
  }

  lemma QuietStepKeepsData(kind: LinkKind, s: Net, step: Step, id: TunnelId)
    requires s.client.configured && Enabled(kind, s, step) && Quiet(step)
    ensures DataFor(Flight(Next(kind, s, step)), id) == DataFor(Flight(s), id)
  {
    var s' := Next(kind, s, step);
    if OwnStep(step) {
      assert Flight(s') == Flight(s);
    } else {
      match step
      case Open(host, port) =>
        FlightAfterOpen(s, host, port);
        AddingKeepsData(s, s', [ProxyConnect(s.client.nextId, host, port)], id);
      case Pump => FlightAfterPump(s);
      case Answer(i) =>
        FlightAfterAnswer(s, i);
        AddingKeepsData(s, s', Provoked(s, i), id);
      case Hangup(other) =>
        FlightAfterHangup(s, other);
        AddingKeepsData(s, s', if other in s.client.clientTunnels then [ProxyClose(other)] else [], id);
      case LoseAnswer(i) => assert Flight(s') == Flight(s);
      case Wake(other) => assert Flight(s') == Flight(s);
      case GiveUp(other) => assert Flight(s') == Flight(s);
      case StopSending(other) => assert Flight(s') == Flight(s);
    }
  }

  lemma QuietStepKeepsExit(kind: LinkKind, s: Net, step: Step, id: TunnelId)
    requires Enabled(kind, s, step) && Quiet(step)
    ensures var s' := Next(kind, s, step);
      && Accepted(s'.exit, id) == Accepted(s.exit, id)
      && (Accepting(s'.exit, id) ==> Accepting(s.exit, id))
  {
    if OwnStep(step) {
      OwnStepKeepsAccepted(s.exit, step, id);
    } else {
      assert Next(kind, s, step).exit == s.exit;
    }
  }

  lemma QuietStepKeepsConn(kind: LinkKind, s: Net, step: Step, id: TunnelId)
    requires Wired(s) && Enabled(kind, s, step) && Quiet(step) && id in s.handed
    ensures var s' := Next(kind, s, step);
      && id in s'.handed && s'.handed[id] == s.handed[id]
      && (InState(s', id, Waiting) ==> InState(s, id, Waiting))
      && (InState(s', id, Relaying) ==> InState(s, id, Relaying) || InState(s, id, Waiting))
  {
    assert id in s.conns && id != s.client.nextId;
  }

  /** Every step other than a delivery, a loss or a send leaves the tunnel's data where it is. */
  lemma QuietStep(kind: LinkKind, s: Net, step: Step, id: TunnelId)
    requires ReadyInv(s) && Enabled(kind, s, step) && Quiet(step) && id in s.handed
    ensures var s' := Next(kind, s, step);
      && id in s'.handed && s'.handed[id] == s.handed[id]
      && (InState(s', id, Waiting) ==> InState(s, id, Waiting))
      && (InState(s', id, Relaying) ==> InState(s, id, Relaying) || InState(s, id, Waiting))
      && Accepted(s'.exit, id) == Accepted(s.exit, id)
      && (Accepting(s'.exit, id) ==> Accepting(s.exit, id))
      && DataFor(Flight(s'), id) == DataFor(Flight(s), id)
      && id in s'.client.fired && (s.client.fired[id] == [ReadyOk] ==> s'.client.fired[id] == [ReadyOk])
  {
    if s.client.fired[id] != [] {
      StepKeepsSignal(kind, s, step, id);
    }
    StepKeepsReady(kind, s, step);
    QuietStepKeepsConn(kind, s, step, id);
    QuietStepKeepsExit(kind, s, step, id);
    QuietStepKeepsData(kind, s, step, id);
  }

  lemma NewTunnelIsEmpty(kind: LinkKind, s: Net, step: Step, id: TunnelId)
    requires ReadyInv(s) && id !in s.handed && id in Next(kind, s, step).handed
    ensures var s' := Next(kind, s, step);
      s'.handed[id] == [] && Accepted(s'.exit, id) == [] && DataFor(Flight(s'), id) == [] && !Accepting(s'.exit, id)
  {
    assert step.Open? && id == s.client.nextId;
    var s' := Next(kind, s, step);
    FlightAfterOpen(s, step.host, step.port);
    AddingKeepsData(s, s', [ProxyConnect(id, step.host, step.port)], id);
    NothingFor(Flight(s), id);
  }

  lemma StepKeepsDrawn(kind: LinkKind, s: Net, step: Step, id: TunnelId)
    requires ReadyInv(s) && Drawn(s, id)
    ensures Drawn(Next(kind, s, step), id)
  {
    var s' := Next(kind, s, step);
    if Enabled(kind, s, step) && id in s'.handed {
      if id !in s.handed {
        NewTunnelIsEmpty(kind, s, step, id);
      } else if step.Deliver? {
        DeliverKeepsDrawn(s, step.i, step.refused, id);
      } else if step.LoseRequest? {
        LoseKeepsDrawn(s, step.i, id);
      } else if step.Send? {
        SendKeepsDrawn(s, step.id, step.data, id);
      } else {
        QuietStep(kind, s, step, id);
      }
    }
  }

  lemma HeadDelivered(s: Net, refused: Option<string>, id: TunnelId)
    requires s.link != []
    ensures DataFor(Flight(s), id) == One(s.link[0], id) + DataFor(Flight(Delivered(s, 0, refused)), id)
    ensures Flight(Delivered(s, 0, refused)) == Behind(s, 0) && Flight(s) == [s.link[0]] + Behind(s, 0)
  {
    FlightAround(s, 0);
    assert s.link[..0] == [] && [] + [s.link[0]] == [s.link[0]] && [] + Behind(s, 0) == Behind(s, 0);
    assert Flight(Delivered(s, 0, refused)) == Flight(s.(link := Without(s.link, 0)));
    DataForAppend([s.link[0]], Behind(s, 0), id);
    assert DataFor([s.link[0]], id) == One(s.link[0], id);
  }

  /** While the connect is under way no data is. */
  lemma ConnectComesFirst(s: Net, r: Request)
    requires ReadyInv(s) && r in Flight(s) && r.ProxyConnect?
    ensures DataFor(Flight(s), r.tunnel) == [] && r.tunnel in s.client.fired && s.client.fired[r.tunnel] != [ReadyOk]
  {
    NoDataFor(Flight(s), r.tunnel);
  }

  lemma DeliverKeepsInOrder(s: Net, refused: Option<string>, id: TunnelId)
    requires ReadyInv(s) && InOrder(s, id) && s.link != []
    ensures InOrder(Delivered(s, 0, refused), id)
  {
    var s', r := Delivered(s, 0, refused), s.link[0];
    LinkHeadMatches(s, 0);
    HeadDelivered(s, refused, id);
    DeliveryEffect(s, 0, refused, id);
    if r.ProxyConnect? && r.tunnel == id {
      ConnectComesFirst(s, r);
    }
    if id in s.handed {
      OldestAbsorbed(Accepted(s.exit, id), One(r, id), DataFor(Flight(s'), id), s.handed[id],
                     Accepting(s.exit, id), Accepting(s'.exit, id), InState(s, id, Relaying));
    }
  }

  lemma NewestAligned(accepted: seq<Bytes>, underWay: seq<Bytes>, handed: seq<Bytes>, accepting: bool, data: Bytes,
                      sent: bool)
    requires Aligned(accepted, underWay, handed, accepting, true)
    ensures Aligned(accepted, underWay + (if sent then [data] else []), handed + [data], accepting, sent)
  {
  }

  lemma SendKeepsInOrder(s: Net, other: TunnelId, data: Bytes, id: TunnelId)
    requires ReadyInv(s) && InOrder(s, id) && InState(s, other, Relaying)
    ensures InOrder(HandedOver(s, other, data), id)
  {
    SendAdds(s, other, data, id);
    SendKeepsRest(s, other, data, id);
    if other != id {
      assert DataFor(Flight(s), id) + [] == DataFor(Flight(s), id);
    } else {
      NewestAligned(Accepted(s.exit, id), DataFor(Flight(s), id), s.handed[id], Accepting(s.exit, id), data,
                    id in s.client.clientTunnels);
      assert s.client.fired[id] == [ReadyOk];
    }
  }

  lemma StepKeepsInOrder(s: Net, step: Step, id: TunnelId)
    requires ReadyInv(s) && InOrder(s, id)
    ensures InOrder(Next(Ordered, s, step), id)
  {
    var s' := Next(Ordered, s, step);
    if Enabled(Ordered, s, step) && id in s'.handed {
      if id !in s.handed {
        NewTunnelIsEmpty(Ordered, s, step, id);
      } else if step.Deliver? {
        DeliverKeepsInOrder(s, step.refused, id);
      } else if step.Send? {
        SendKeepsInOrder(s, step.id, step.data, id);
      } else {
        QuietStep(Ordered, s, step, id);
      }
    }
  }

  // ----- delivery over whole runs -----

  lemma {:induction false} RunKeepsDrawn(kind: LinkKind, s: Net, steps: seq<Step>, id: TunnelId)
    requires ReadyInv(s) && Drawn(s, id)
    ensures Drawn(Run(kind, s, steps), id)
    decreases |steps|
  {
    if steps == [] {
    } else {
      StepKeepsReady(kind, s, steps[0]);
      StepKeepsDrawn(kind, s, steps[0], id);
      RunKeepsDrawn(kind, Next(kind, s, steps[0]), steps[1..], id);
    }
  }

  lemma {:induction false} RunKeepsInOrder(s: Net, steps: seq<Step>, id: TunnelId)
    requires ReadyInv(s) && InOrder(s, id)
    ensures InOrder(Run(Ordered, s, steps), id)
    decreases |steps|
  {
    if steps == [] {
    } else {
      StepKeepsReady(Ordered, s, steps[0]);
      StepKeepsInOrder(s, steps[0], id);
      RunKeepsInOrder(Next(Ordered, s, steps[0]), steps[1..], id);
    }
  }

  /** The bytes the target has seen: whole chunks, and the beginning of one the socket failed on. */
  function TargetBytes(w: Writer): Bytes {
    Concat(w.fully)
    + (if w.phase.Failed? && w.phase.partial <= |w.phase.lost| then w.phase.lost[..w.phase.partial] else [])
  }

  lemma TargetSeesAccepted(w: Writer)
    ensures TargetBytes(w) <= Concat(AcceptedBy(w))
  {
    ConcatAppend(w.fully + InHand(w), w.queue);
    ConcatAppend(w.fully, InHand(w));
    if w.phase.Failed? {
      assert Concat([w.phase.lost]) == w.phase.lost + Concat([]);
    }
  }

  lemma ConcatOfPrefix(a: seq<Bytes>, b: seq<Bytes>)
    requires a <= b
    ensures Concat(a) <= Concat(b)
  {
  }

  /** On an ordered link, in every run, a target has seen a prefix of the bytes its own SOCKS client handed over. */
  lemma TargetSeesPrefix(now: nat, steps: seq<Step>, id: TunnelId)
    ensures var s := Run(Ordered, Start(now), steps);
      id in s.exit.writers ==> id in s.handed && TargetBytes(s.exit.writers[id]) <= Concat(s.handed[id])
  {
    var s := Run(Ordered, Start(now), steps);
    StartIsReady(now);
    RunKeepsReady(Ordered, Start(now), steps);
    RunKeepsInOrder(Start(now), steps, id);
    if id in s.exit.writers {
      TargetSeesAccepted(s.exit.writers[id]);
      ConcatOfPrefix(Accepted(s.exit, id), s.handed[id]);
    }
  }

  /** Nothing is lost either: on an ordered link, in every run, a connection that relays into a tunnel that accepts,
      with nothing under way and an idle write task, has had everything delivered that its SOCKS client handed over. */
  lemma QuietTunnelHasDelivered(now: nat, steps: seq<Step>, id: TunnelId)
    ensures var s := Run(Ordered, Start(now), steps);
      InState(s, id, Relaying) && Accepting(s.exit, id) && DataFor(Flight(s), id) == []
      && s.exit.writers[id].queue == [] && InHand(s.exit.writers[id]) == [] ==>
        id in s.handed && s.exit.writers[id].fully == s.handed[id]
        && TargetBytes(s.exit.writers[id]) == Concat(s.handed[id])
  {
    var s := Run(Ordered, Start(now), steps);
    StartIsReady(now);
    RunKeepsReady(Ordered, Start(now), steps);
    RunKeepsInOrder(Start(now), steps, id);
    if InState(s, id, Relaying) && Accepting(s.exit, id) && DataFor(Flight(s), id) == []
       && s.exit.writers[id].queue == [] && InHand(s.exit.writers[id]) == [] {
      var w := s.exit.writers[id];
      assert Accepted(s.exit, id) + [] == w.fully;
      assert Concat(w.fully) + [] == Concat(w.fully);
    }
  }

  /** On any link, in every run, no chunk on a target's socket is duplicated, invented or another tunnel's. */
  lemma TargetSeesOnlyHanded(kind: LinkKind, now: nat, steps: seq<Step>, id: TunnelId)
    ensures var s := Run(kind, Start(now), steps);
      id in s.exit.writers ==>
        id in s.handed && multiset(s.exit.writers[id].fully + InHand(s.exit.writers[id])) <= multiset(s.handed[id])
  {
    var s := Run(kind, Start(now), steps);
    StartIsReady(now);
    RunKeepsReady(kind, Start(now), steps);
    RunKeepsDrawn(kind, Start(now), steps, id);
    if id in s.exit.writers {
      var w := s.exit.writers[id];
      assert multiset(AcceptedBy(w)) == multiset(w.fully + InHand(w)) + multiset(w.queue);
    }
  }

  lemma {:induction false} RunAppend(kind: LinkKind, s: Net, a: seq<Step>, b: seq<Step>)
    ensures Run(kind, s, a + b) == Run(kind, Run(kind, s, a), b)
    decreases |a|
  {
    if a == [] {
      assert a + b == b;
    } else {
      assert (a + b)[1..] == a[1..] + b;
      RunAppend(kind, Next(kind, s, a[0]), a[1..], b);
    }
  }

  lemma RunOne(kind: LinkKind, s: Net, a: Step)
    ensures Run(kind, s, [a]) == Next(kind, s, a)
  {
  }

  lemma RunTwo(kind: LinkKind, s: Net, a: Step, b: Step)
    ensures Run(kind, s, [a, b]) == Next(kind, Next(kind, s, a), b)
  {
    assert [a] + [b] == [a, b];
    RunAppend(kind, s, [a], [b]);
    RunOne(kind, s, a);
    RunOne(kind, Next(kind, s, a), b);
  }

  /** A tunnel that has just been established: relaying on one side, registered on the other, nothing under way. */
  predicate Established(s: Net) {
    && s.client.configured && s.client.outbound == [] && s.link == []
    && 1 in s.client.clientTunnels && InState(s, 1, Relaying)
    && 1 in s.handed && s.handed[1] == []
    && 1 in s.exit.exitTunnels && 1 in s.exit.writers
    && s.exit.writers[1].queue == [] && s.exit.writers[1].phase.Receiving? && s.exit.writers[1].fully == []
  }

  const REQUESTED: seq<Step> := [Open("h", 80), Pump]
  const GRANTED: seq<Step> := [Deliver(0, None), Answer(0)]
  const HANDSHAKE: seq<Step> := REQUESTED + GRANTED + [Wake(1)]

  /** The first tunnel as the client sees it while it waits. */
  predicate AwaitingFirst(s: Net) {
    && s.client.configured && s.client.outbound == [] && s.answers == []
    && 1 in s.client.clientTunnels && s.client.clientTunnels[1].readyPending
    && 1 in s.client.fired && s.client.fired[1] == []
    && InState(s, 1, Waiting) && 1 in s.handed && s.handed[1] == []
  }

  lemma RequestArrives(kind: LinkKind, now: nat)
    ensures AwaitingFirst(Run(kind, Start(now), REQUESTED))
    ensures Run(kind, Start(now), REQUESTED).link == [ProxyConnect(1, "h", 80)]
  {
    var s0 := Start(now);
    RunTwo(kind, s0, Open("h", 80), Pump);
    assert Next(kind, s0, Open("h", 80)) == Opened(s0, "h", 80);
    assert Next(kind, Opened(s0, "h", 80), Pump) == Pumped(Opened(s0, "h", 80));
  }

  lemma RequestGranted(kind: LinkKind, s: Net)
    requires AwaitingFirst(s) && s.link == [ProxyConnect(1, "h", 80)]
    ensures Established(Moved(Run(kind, s, GRANTED), 1, Relaying))
    ensures var s' := Run(kind, s, GRANTED);
      InState(s', 1, Waiting) && 1 in s'.client.fired && s'.client.fired[1] == [ReadyOk]
  {
    RunTwo(kind, s, Deliver(0, None), Answer(0));
    assert Next(kind, s, Deliver(0, None)) == Delivered(s, 0, None);
    var s1 := Delivered(s, 0, None);
    assert s1.answers == [ProxyConnected(1, true, None)];
    assert Next(kind, s1, Answer(0)) == Answered(s1, 0);
    assert Answered(s1, 0).client.fired[1] == [] + [ReadyOk] == [ReadyOk];
  }

  lemma HandshakeEstablishes(kind: LinkKind, now: nat)
    ensures Established(Run(kind, Start(now), HANDSHAKE))
  {
    var s0 := Start(now);
    RunAppend(kind, s0, REQUESTED + GRANTED, [Wake(1)]);
    RunAppend(kind, s0, REQUESTED, GRANTED);
    RequestArrives(kind, now);
    RequestGranted(kind, Run(kind, s0, REQUESTED));
    var s1 := Run(kind, s0, REQUESTED + GRANTED);
    RunOne(kind, s1, Wake(1));
    assert Next(kind, s1, Wake(1)) == Moved(s1, 1, Relaying);
  }

  /** Two chunks handed over and queued. */
  lemma SendTwo(s: Net)
    requires Established(s)
    ensures var s' := Run(Unordered, s, [Send(1, [1]), Send(1, [2])]);
      && s'.link == [] && s'.exit == s.exit && 1 in s'.handed && s'.handed[1] == [[1], [2]]
      && |s'.client.outbound| == 2
      && AsRequests(s'.client.outbound[0]) == [ProxyData(1, [1])]
      && AsRequests(s'.client.outbound[1]) == [ProxyData(1, [2])]
  {
    RunTwo(Unordered, s, Send(1, [1]), Send(1, [2]));
    assert Next(Unordered, s, Send(1, [1])) == HandedOver(s, 1, [1]);
    var s1 := HandedOver(s, 1, [1]);
    assert s1.handed[1] == [[1]] && InState(s1, 1, Relaying);
    assert Next(Unordered, s1, Send(1, [2])) == HandedOver(s1, 1, [2]);
  }

  lemma PumpTwo(s: Net)
    requires |s.client.outbound| == 2 && s.link == []
    ensures var s' := Run(Unordered, s, [Pump, Pump]);
      && s'.link == AsRequests(s.client.outbound[0]) + AsRequests(s.client.outbound[1])
      && s'.exit == s.exit && s'.handed == s.handed
  {
    RunTwo(Unordered, s, Pump, Pump);
    assert Next(Unordered, s, Pump) == Pumped(s) && Next(Unordered, Pumped(s), Pump) == Pumped(Pumped(s));
  }

  /** The second chunk delivered and written first. */
  lemma TakeSecond(s: Net)
    requires s.link == [ProxyData(1, [1]), ProxyData(1, [2])]
    requires 1 in s.exit.exitTunnels && 1 in s.exit.writers
    requires s.exit.writers[1].queue == [] && s.exit.writers[1].phase.Receiving? && s.exit.writers[1].fully == []
    ensures var s' := Run(Unordered, s, [Deliver(1, None), Receive(1)] + [Write(1, None)]);
      1 in s'.exit.writers && s'.exit.writers[1].fully == [[2]] && s'.handed == s.handed
  {
    RunAppend(Unordered, s, [Deliver(1, None), Receive(1)], [Write(1, None)]);
    RunTwo(Unordered, s, Deliver(1, None), Receive(1));
    var s1 := Next(Unordered, s, Deliver(1, None));
    assert s1.exit.writers[1].queue == [[2]];
    var s2 := Next(Unordered, s1, Receive(1));
    assert s2.exit.writers[1].phase == Writing([2]);
    RunOne(Unordered, s2, Write(1, None));
  }

  /** The ordering of the link matters: two chunks that overtake each other break the prefix. */
  lemma ReorderingBreaksPrefix(now: nat)
    ensures exists steps :: var s := Run(Unordered, Start(now), steps);
      1 in s.exit.writers && 1 in s.handed && s.handed[1] == [[1], [2]] && s.exit.writers[1].fully == [[2]]
  {
    HandshakeEstablishes(Unordered, now);
    var sends := [Send(1, [1]), Send(1, [2])];
    var pumps := [Pump, Pump];
    var takes := [Deliver(1, None), Receive(1)] + [Write(1, None)];
    var s := Run(Unordered, Start(now), HANDSHAKE);
    SendTwo(s);
    PumpTwo(Run(Unordered, s, sends));
    TakeSecond(Run(Unordered, Run(Unordered, s, sends), pumps));
    RunAppend(Unordered, Start(now), HANDSHAKE, sends);
    RunAppend(Unordered, Start(now), HANDSHAKE + sends, pumps);
    RunAppend(Unordered, Start(now), HANDSHAKE + sends + pumps, takes);
  }
}
