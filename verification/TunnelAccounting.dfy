/** Byte accounting of the exit node in every run of the tunnel protocol. */
module TunnelAccounting {
  import opened Prelude
  import Metrics
  import opened TunnelManager
  import opened TunnelProtocol
  import opened TunnelSafety
  import opened TunnelDelivery

  /** Bytes of whole chunks on the socket that the metrics know of, and that the tunnel's own counter knows of. */
  function Metered(w: Writer): int {
    TotalLen(w.fully) - (if w.phase.Metering? then w.phase.written else 0)
  }

  function Counted(w: Writer): int {
    Metered(w) - (if w.phase.Counting? then w.phase.metered else 0)
  }

  ghost function MeteredPer(exit: Manager): map<TunnelId, int> {
    map id | id in exit.writers :: Metered(exit.writers[id])
  }

  ghost function WrittenPer(exit: Manager): map<TunnelId, int> {
    map id | id in exit.writers :: TotalLen(exit.writers[id].fully)
  }

  ghost function HandedPer(s: Net): map<TunnelId, int> { map id | id in s.handed :: TotalLen(s.handed[id]) }

  ghost predicate Booked(exit: Manager) {
    && (forall id :: id in exit.writers ==> exit.writers[id].peer == CLIENT)
    && Metrics.ReceivedFrom(exit.meter, CLIENT) == Sum(MeteredPer(exit))
    && (forall id :: id in exit.exitTunnels ==>
          id in exit.writers && exit.exitTunnels[id].bytesSent == Counted(exit.writers[id]))
  }

  /** A writer may change as long as what it has metered and counted does not. */
  lemma ReplaceWriter(exit: Manager, id: TunnelId, w: Writer)
    requires Booked(exit) && id in exit.writers
    requires w.peer == CLIENT && Metered(w) == Metered(exit.writers[id]) && Counted(w) == Counted(exit.writers[id])
    ensures Booked(exit.(writers := exit.writers[id := w]))
  {
    ReplaceTunnel(exit, exit.(writers := exit.writers[id := w]), id, w);
  }

  lemma DropTunnel(exit: Manager, exit': Manager)
    requires Booked(exit) && exit'.meter == exit.meter && exit'.writers == exit.writers
    requires exit'.exitTunnels.Keys <= exit.exitTunnels.Keys
    requires forall id :: id in exit'.exitTunnels ==> exit'.exitTunnels[id] == exit.exitTunnels[id]
    ensures Booked(exit')
  {
  }

  lemma ReceiveKeepsBooks(exit: Manager, id: TunnelId)
    requires Booked(exit)
    ensures Booked(WriterReceive(exit, id))
  {
    if id in exit.writers && exit.writers[id].phase.Receiving? {
      ReplaceWriter(exit, id, WriterReceive(exit, id).writers[id]);
    }
  }

  lemma WriteKeepsBooks(exit: Manager, id: TunnelId, fault: Option<nat>)
    requires Booked(exit)
    ensures Booked(WriterWrite(exit, id, fault))
  {
    if id in exit.writers && exit.writers[id].phase.Writing? {
      TotalLenAppend(exit.writers[id].fully, [exit.writers[id].phase.chunk]);
      ReplaceWriter(exit, id, WriterWrite(exit, id, fault).writers[id]);
    }
  }

  /** The metered total grows by what one writer has metered more. */
  lemma MeteredGrows(exit: Manager, exit': Manager, id: TunnelId, w: Writer)
    requires exit'.writers == exit.writers[id := w]
    ensures Sum(MeteredPer(exit'))
         == Sum(MeteredPer(exit)) + Metered(w) - (if id in exit.writers then Metered(exit.writers[id]) else 0)
  {
    SumUpdate(MeteredPer(exit), id, Metered(w));
    assert MeteredPer(exit') == MeteredPer(exit)[id := Metered(w)];
  }

  lemma MeterKeepsBooks(exit: Manager, id: TunnelId, now: nat)
    requires Booked(exit)
    ensures Booked(WriterMeter(exit, id, now))
  {
    if id in exit.writers && exit.writers[id].phase.Metering? {
      var exit', w := WriterMeter(exit, id, now), exit.writers[id];
      var w' := w.(phase := Counting(w.phase.written));
      MeteredGrows(exit, exit', id, w');
      assert Metered(w') == Metered(w) + w.phase.written && Counted(w') == Counted(w);
    }
  }

  /** Changing the exit side of one tunnel keeps the books if its writer has metered as much as before. */
  lemma ReplaceTunnel(exit: Manager, exit': Manager, id: TunnelId, w: Writer)
    requires Booked(exit) && exit'.meter == exit.meter && exit'.writers == exit.writers[id := w]
    requires w.peer == CLIENT && Metered(w) == (if id in exit.writers then Metered(exit.writers[id]) else 0)
    requires forall other :: other in exit'.exitTunnels && other != id ==>
      other in exit.exitTunnels && exit'.exitTunnels[other] == exit.exitTunnels[other]
    requires id in exit'.exitTunnels ==> exit'.exitTunnels[id].bytesSent == Counted(w)
    ensures Booked(exit')
  {
    MeteredGrows(exit, exit', id, w);
  }

  lemma CountKeepsBooks(exit: Manager, id: TunnelId)
    requires Booked(exit)
    ensures Booked(WriterCount(exit, id))
  {
    if id in exit.writers && exit.writers[id].phase.Counting? {
      ReplaceTunnel(exit, WriterCount(exit, id), id, exit.writers[id].(phase := Receiving));
    }
  }

  lemma RegisterKeepsBooks(exit: Manager, id: TunnelId, host: string, port: nat)
    requires Booked(exit) && id !in exit.writers
    ensures Booked(CreateExitTunnel(exit, id, CLIENT, host, port, None).0)
  {
    ReplaceTunnel(exit, CreateExitTunnel(exit, id, CLIENT, host, port, None).0, id,
                  Writer(host, port, CLIENT, [], Receiving, []));
  }

  lemma RequestKeepsBooks(exit: Manager, r: Request, refused: Option<string>)
    requires Booked(exit) && (r.ProxyConnect? ==> r.tunnel !in exit.writers)
    ensures Booked(HandleRequest(exit, CLIENT, r, refused).0)
  {
    match r
    case ProxyConnect(id, host, port) =>
      if refused.None? {
        RegisterKeepsBooks(exit, id, host, port);
      }
    case ProxyData(id, data) =>
      if Accepting(exit, id) {
        ReplaceWriter(exit, id, HandleExitTunnelData(exit, id, data).writers[id]);
      }
    case ProxyClose(id) => DropTunnel(exit, CloseExitTunnel(exit, id));
  }

  lemma OwnStepKeepsBooks(exit: Manager, step: Step)
    requires Booked(exit) && OwnStep(step)
    ensures Booked(ExitStep(exit, step))
  {
    match step
    case Receive(id) => ReceiveKeepsBooks(exit, id);
    case Write(id, fault) => WriteKeepsBooks(exit, id, fault);
    case Meter(id, now) => MeterKeepsBooks(exit, id, now);
    case Count(id) => CountKeepsBooks(exit, id);
    case TargetCloses(id) => DropTunnel(exit, TargetClosed(exit, id, CLIENT));
  }

  /** Only deliveries and the exit's own steps touch the exit. */
  lemma OthersKeepExit(kind: LinkKind, s: Net, step: Step)
    requires !step.Deliver? && !OwnStep(step)
    ensures Next(kind, s, step).exit == s.exit
  {
  }

  lemma StepKeepsBooks(kind: LinkKind, s: Net, step: Step)
    requires ReadyInv(s) && Booked(s.exit)
    ensures Booked(Next(kind, s, step).exit)
  {
    if Enabled(kind, s, step) {
      if step.Deliver? {
        LinkHeadMatches(s, step.i);
        RequestKeepsBooks(s.exit, s.link[step.i], step.refused);
      } else if OwnStep(step) {
        OwnStepKeepsBooks(s.exit, step);
      } else {
        OthersKeepExit(kind, s, step);
      }
    }
  }

  lemma {:induction false} RunKeepsBooks(kind: LinkKind, s: Net, steps: seq<Step>)
    requires ReadyInv(s) && Booked(s.exit)
    ensures Booked(Run(kind, s, steps).exit)
    decreases |steps|
  {
    if steps == [] {
    } else {
      StepKeepsReady(kind, s, steps[0]);
      StepKeepsBooks(kind, s, steps[0]);
      RunKeepsBooks(kind, Next(kind, s, steps[0]), steps[1..]);
    }
  }

  /** No write task stands between a completed write and the metrics update for it. */
  ghost predicate Settled(exit: Manager) {
    forall id :: id in exit.writers ==> !exit.writers[id].phase.Metering?
  }

  lemma MeteredIsWritten(exit: Manager)
    ensures Settled(exit) ==> MeteredPer(exit) == WrittenPer(exit)
  {
  }

  /** In every run: the exit has recorded from the client exactly the chunks fully written for it, closed tunnels
      included, save those between write and metrics update; never more than was handed over; and a live tunnel's
      counter is its share. */
  lemma ExitAccounting(kind: LinkKind, now: nat, steps: seq<Step>)
    ensures var s := Run(kind, Start(now), steps);
      && Metrics.ReceivedFrom(s.exit.meter, CLIENT) == Sum(MeteredPer(s.exit))
      && (Settled(s.exit) ==> Metrics.ReceivedFrom(s.exit.meter, CLIENT) == Sum(WrittenPer(s.exit)))
      && Metrics.ReceivedFrom(s.exit.meter, CLIENT) <= Sum(WrittenPer(s.exit)) <= Sum(HandedPer(s))
      && (forall id :: id in s.exit.exitTunnels ==>
            id in s.exit.writers && s.exit.exitTunnels[id].bytesSent == Counted(s.exit.writers[id]))
  {
    var s := Run(kind, Start(now), steps);
    StartIsReady(now);
    assert MeteredPer(Start(now).exit) == map[];
    RunKeepsBooks(kind, Start(now), steps);
    RunKeepsReady(kind, Start(now), steps);
    MeteredIsWritten(s.exit);
    SumMonotone(MeteredPer(s.exit), WrittenPer(s.exit));
    forall id | id in s.exit.writers ensures id in s.handed && WrittenPer(s.exit)[id] <= HandedPer(s)[id] {
      TargetSeesOnlyHanded(kind, now, steps, id);
      var w := s.exit.writers[id];
      TotalLenAppend(w.fully, InHand(w));
      TotalLenOfSubMultiset(w.fully + InHand(w), s.handed[id]);
    }
    SumMonotone(WrittenPer(s.exit), HandedPer(s));
  }
}
