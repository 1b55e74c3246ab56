/** How a tunnel begins and ends: how the outcome of a connect reaches the client, and what closing leaves behind in
    every continuation of a run. */
module TunnelLifecycle {
  import opened Prelude
  import opened TunnelManager
  import opened TunnelProtocol
  import opened TunnelSafety
  import opened TunnelDelivery
  import TunnelAccounting

  // ----- who is registered -----

  /** The step ends the exit side of the tunnel: its close request arrives, or its target closes. */
  predicate EndsExit(kind: LinkKind, s: Net, step: Step, id: TunnelId) {
    Enabled(kind, s, step)
    && (step == TargetCloses(id) || (step.Deliver? && s.link[step.i] == ProxyClose(id)))
  }

  /** The step registers the tunnel on the exit: its connect request arrives and the target accepts. */
  predicate BeginsExit(kind: LinkKind, s: Net, step: Step, id: TunnelId) {
    Enabled(kind, s, step) && step.Deliver? && step.refused.None?
    && s.link[step.i].ProxyConnect? && s.link[step.i].tunnel == id
  }

  lemma OwnStepExitTunnels(exit: Manager, step: Step, id: TunnelId)
    requires OwnStep(step)
    ensures id in ExitStep(exit, step).exitTunnels <==> id in exit.exitTunnels && step != TargetCloses(id)
  {
  }

  lemma RequestExitTunnels(exit: Manager, r: Request, refused: Option<string>, id: TunnelId)
    ensures id in HandleRequest(exit, CLIENT, r, refused).0.exitTunnels
       <==> (r.ProxyConnect? && r.tunnel == id && refused.None?) || (id in exit.exitTunnels && r != ProxyClose(id))
  {
  }

  /** The exit has a tunnel exactly from the connect that its target accepts to the close or the end of the target. */
  lemma ExitTunnelsIff(kind: LinkKind, s: Net, step: Step, id: TunnelId)
    ensures id in Next(kind, s, step).exit.exitTunnels
       <==> BeginsExit(kind, s, step, id) || (id in s.exit.exitTunnels && !EndsExit(kind, s, step, id))
  {
    if Enabled(kind, s, step) {
      if OwnStep(step) {
        OwnStepExitTunnels(s.exit, step, id);
      } else if step.Deliver? {
        RequestExitTunnels(s.exit, s.link[step.i], step.refused, id);
      } else {
        TunnelAccounting.OthersKeepExit(kind, s, step);
      }
    }
  }

  /** The step ends the client side of the tunnel: its connection hangs up, or the exit answers that it is closed. */
  predicate EndsClient(kind: LinkKind, s: Net, step: Step, id: TunnelId) {
    Enabled(kind, s, step) && (step == Hangup(id) || (step.Answer? && s.answers[step.i] == ProxyClosed(id)))
  }

  lemma AnswerClientTunnels(s: Net, i: nat, id: TunnelId)
    requires i < |s.answers|
    ensures id in Answered(s, i).client.clientTunnels
       <==> id in s.client.clientTunnels && s.answers[i] != ProxyClosed(id)
  {
  }

  lemma OthersKeepClientTunnels(kind: LinkKind, s: Net, step: Step)
    requires !step.Open? && !step.Answer? && !step.Hangup?
    ensures Next(kind, s, step).client.clientTunnels == s.client.clientTunnels
  {
    if Enabled(kind, s, step) && step.Send? {
      assert Next(kind, s, step) == HandedOver(s, step.id, step.data);
    }
  }

  /** The client has a tunnel exactly from its opening to one of these. */
  lemma ClientTunnelsIff(kind: LinkKind, s: Net, step: Step, id: TunnelId)
    ensures id in Next(kind, s, step).client.clientTunnels
       <==> (step.Open? && id == s.client.nextId)
            || (id in s.client.clientTunnels && !EndsClient(kind, s, step, id))
  {
    if Enabled(kind, s, step) {
      match step
      case Open(host, port) => assert Next(kind, s, step) == Opened(s, host, port);
      case Answer(i) => AnswerClientTunnels(s, i, id);
      case Hangup(other) => assert Next(kind, s, step) == HungUp(s, other);
      case _ => OthersKeepClientTunnels(kind, s, step);
    }
  }

  // ----- the exit side of a closed tunnel -----

  /** The exit has had the tunnel and has it no more. */
  predicate Closed(s: Net, id: TunnelId) { id in s.exit.writers && id !in s.exit.exitTunnels }

  lemma DeliverKeepsClosed(s: Net, i: nat, refused: Option<string>, id: TunnelId)
    requires ReadyInv(s) && Closed(s, id) && i < |s.link|
    ensures Closed(Delivered(s, i, refused), id)
    ensures Accepted(Delivered(s, i, refused).exit, id) == Accepted(s.exit, id)
  {
    LinkHeadMatches(s, i);
    DeliveryEffect(s, i, refused, id);
    assert Accepted(s.exit, id) + [] == Accepted(s.exit, id);
  }

  lemma StepKeepsClosed(kind: LinkKind, s: Net, step: Step, id: TunnelId)
    requires ReadyInv(s) && Closed(s, id)
    ensures Closed(Next(kind, s, step), id)
    ensures Accepted(Next(kind, s, step).exit, id) == Accepted(s.exit, id)
  {
    if Enabled(kind, s, step) {
      if step.Deliver? {
        DeliverKeepsClosed(s, step.i, step.refused, id);
      } else if OwnStep(step) {
        OwnStepKeepsTargets(s.exit, step);
        OwnStepKeepsAccepted(s.exit, step, id);
      } else {
        TunnelAccounting.OthersKeepExit(kind, s, step);
      }
    }
  }

  lemma {:induction false} RunKeepsClosed(kind: LinkKind, s: Net, steps: seq<Step>, id: TunnelId)
    requires ReadyInv(s) && Closed(s, id)
    ensures Closed(Run(kind, s, steps), id)
    ensures Accepted(Run(kind, s, steps).exit, id) == Accepted(s.exit, id)
    decreases |steps|
  {
    if steps == [] {
    } else {
      StepKeepsReady(kind, s, steps[0]);
      StepKeepsClosed(kind, s, steps[0], id);
      RunKeepsClosed(kind, Next(kind, s, steps[0]), steps[1..], id);
    }
  }

  /** A close request that reaches the exit is answered and ends the tunnel for good, on any link and whatever follows:
      it is not registered again, and nothing more enters the channel of its write task. */
  lemma CloseIsFinal(kind: LinkKind, s: Net, i: nat, refused: Option<string>, steps: seq<Step>)
    requires ReadyInv(s) && i < |s.link| && s.link[i].ProxyClose? && s.link[i].tunnel in s.exit.writers
    ensures var id, s' := s.link[i].tunnel, Run(kind, Delivered(s, i, refused), steps);
      && Delivered(s, i, refused).answers == s.answers + [ProxyClosed(id)]
      && id !in s'.exit.exitTunnels
      && Accepted(s'.exit, id) == Accepted(s.exit, id)
  {
    var id := s.link[i].tunnel;
    var s1 := Delivered(s, i, refused);
    DeliverKeepsReady(s, i, refused);
    DeliveryEffect(s, i, refused, id);
    assert Accepted(s.exit, id) + [] == Accepted(s.exit, id);
    RunKeepsClosed(kind, s1, steps, id);
  }

  /** So does the end of the target, which the exit also announces to the client. */
  lemma TargetEndIsFinal(kind: LinkKind, s: Net, id: TunnelId, steps: seq<Step>)
    requires ReadyInv(s) && id in s.exit.exitTunnels
    ensures var s1 := Next(kind, s, TargetCloses(id)); var s' := Run(kind, s1, steps);
      && s1.exit.outbound == s.exit.outbound + [P2PMessage(CLIENT, id, Close)]
      && id !in s'.exit.exitTunnels
      && Accepted(s'.exit, id) == Accepted(s.exit, id)
  {
    var s1 := Next(kind, s, TargetCloses(id));
    OwnNext(kind, s, TargetCloses(id));
    StepKeepsReady(kind, s, TargetCloses(id));
    RunKeepsClosed(kind, s1, steps, id);
  }

  // ----- the end of a write task -----

  /** A write task that has ended had nothing left to write and belongs to a closed tunnel. */
  ghost predicate EndedClean(exit: Manager) {
    forall id :: id in exit.writers && exit.writers[id].phase.Ended? ==>
      id !in exit.exitTunnels && exit.writers[id].queue == []
  }

  lemma OwnStepKeepsEndedClean(exit: Manager, step: Step)
    requires EndedClean(exit) && OwnStep(step)
    ensures EndedClean(ExitStep(exit, step))
  {
  }

  lemma DeliverKeepsEndedClean(s: Net, i: nat, refused: Option<string>)
    requires ReadyInv(s) && EndedClean(s.exit) && i < |s.link|
    ensures EndedClean(Delivered(s, i, refused).exit)
  {
    LinkHeadMatches(s, i);
    RequestKeepsEndedClean(s.exit, s.link[i], refused);
  }

  lemma RequestKeepsEndedClean(exit: Manager, r: Request, refused: Option<string>)
    requires EndedClean(exit) && (r.ProxyConnect? ==> r.tunnel !in exit.writers)
    ensures EndedClean(HandleRequest(exit, CLIENT, r, refused).0)
  {
  }

  lemma StepKeepsEndedClean(kind: LinkKind, s: Net, step: Step)
    requires ReadyInv(s) && EndedClean(s.exit)
    ensures EndedClean(Next(kind, s, step).exit)
  {
    if Enabled(kind, s, step) {
      if OwnStep(step) {
        OwnStepKeepsEndedClean(s.exit, step);
      } else if step.Deliver? {
        DeliverKeepsEndedClean(s, step.i, step.refused);
      } else {
        TunnelAccounting.OthersKeepExit(kind, s, step);
      }
    }
  }

  lemma {:induction false} RunKeepsEndedClean(kind: LinkKind, s: Net, steps: seq<Step>)
    requires ReadyInv(s) && EndedClean(s.exit)
    ensures EndedClean(Run(kind, s, steps).exit)
    decreases |steps|
  {
    if steps == [] {
    } else {
      StepKeepsReady(kind, s, steps[0]);
      StepKeepsEndedClean(kind, s, steps[0]);
      RunKeepsEndedClean(kind, Next(kind, s, steps[0]), steps[1..]);
    }
  }

  /** In every run, a write task that has ended has written everything that ever entered its channel. */
  lemma EndedHasWrittenAll(kind: LinkKind, now: nat, steps: seq<Step>, id: TunnelId)
    ensures var s := Run(kind, Start(now), steps);
      id in s.exit.writers && s.exit.writers[id].phase.Ended? ==>
        id !in s.exit.exitTunnels && s.exit.writers[id].fully == Accepted(s.exit, id)
  {
    var s := Run(kind, Start(now), steps);
    StartIsReady(now);
    RunKeepsEndedClean(kind, Start(now), steps);
    if id in s.exit.writers && s.exit.writers[id].phase.Ended? {
      assert s.exit.writers[id].fully + [] + [] == s.exit.writers[id].fully;
    }
  }

  /** How many more steps a write task needs until its channel is empty and it is waiting. */
  function Work(w: Writer): nat {
    4 * |w.queue| + match w.phase
                    case Receiving => 1
                    case Writing(_) => 4
                    case Metering(_) => 3
                    case Counting(_) => 2
                    case _ => 0
  }

  /** The next step of a write task. */
  function Onward(w: Writer, id: TunnelId): Step {
    match w.phase
    case Writing(_) => Write(id, None)
    case Metering(_) => Meter(id, 0)
    case Counting(_) => Count(id)
    case _ => Receive(id)
  }

  lemma OwnNext(kind: LinkKind, s: Net, step: Step)
    requires Enabled(kind, s, step) && OwnStep(step)
    ensures Next(kind, s, step) == s.(exit := ExitStep(s.exit, step))
  {
  }

  lemma OnwardWorks(exit: Manager, id: TunnelId)
    requires id in exit.writers && id !in exit.exitTunnels
    requires !exit.writers[id].phase.Failed? && !exit.writers[id].phase.Ended?
    ensures var w, exit' := exit.writers[id], ExitStep(exit, Onward(exit.writers[id], id));
      id in exit'.writers && !exit'.writers[id].phase.Failed? && Work(exit'.writers[id]) < Work(w)
  {
  }

  /** These steps of the exit alone lead to the end of the write task, with these chunks written. */
  ghost predicate LeadsToEnd(kind: LinkKind, s: Net, id: TunnelId, steps: seq<Step>, written: seq<Bytes>) {
    && (forall step :: step in steps ==> OwnStep(step))
    && var s' := Run(kind, s, steps);
    && id in s'.exit.writers && s'.exit.writers[id].phase.Ended? && s'.exit.writers[id].fully == written
  }

  lemma LeadsFurther(kind: LinkKind, s: Net, id: TunnelId, step: Step, rest: seq<Step>, written: seq<Bytes>)
    requires OwnStep(step) && LeadsToEnd(kind, Next(kind, s, step), id, rest, written)
    ensures LeadsToEnd(kind, s, id, [step] + rest, written)
  {
    assert ([step] + rest)[1..] == rest;
  }

  lemma EndReached(kind: LinkKind, s: Net, id: TunnelId)
    requires EndedClean(s.exit) && id in s.exit.writers && s.exit.writers[id].phase.Ended?
    ensures LeadsToEnd(kind, s, id, [], Accepted(s.exit, id))
  {
    var w := s.exit.writers[id];
    assert w.queue == [] && w.fully + [] + [] == w.fully;
  }

  lemma OnwardGoesOn(kind: LinkKind, s: Net, id: TunnelId)
    requires EndedClean(s.exit) && Closed(s, id)
    requires !s.exit.writers[id].phase.Failed? && !s.exit.writers[id].phase.Ended?
    ensures var s' := Next(kind, s, Onward(s.exit.writers[id], id));
      && EndedClean(s'.exit) && Closed(s', id)
      && Accepted(s'.exit, id) == Accepted(s.exit, id)
      && !s'.exit.writers[id].phase.Failed? && Work(s'.exit.writers[id]) < Work(s.exit.writers[id])
  {
    var step := Onward(s.exit.writers[id], id);
    OwnNext(kind, s, step);
    OwnStepKeepsTargets(s.exit, step);
    OwnStepKeepsAccepted(s.exit, step, id);
    OwnStepKeepsEndedClean(s.exit, step);
    OnwardWorks(s.exit, id);
  }

  lemma {:induction false} StepsToEnd(kind: LinkKind, s: Net, id: TunnelId) returns (steps: seq<Step>)
    requires EndedClean(s.exit) && Closed(s, id) && !s.exit.writers[id].phase.Failed?
    ensures LeadsToEnd(kind, s, id, steps, Accepted(s.exit, id))
    decreases Work(s.exit.writers[id])
  {
    if s.exit.writers[id].phase.Ended? {
      steps := [];
      EndReached(kind, s, id);
    } else {
      var step := Onward(s.exit.writers[id], id);
      OnwardGoesOn(kind, s, id);
      var rest := StepsToEnd(kind, Next(kind, s, step), id);
      steps := [step] + rest;
      LeadsFurther(kind, s, id, step, rest, Accepted(s.exit, id));
    }
  }

  /** In every run, a closed tunnel can come to its end: as long as its socket works, steps of the exit alone lead to
      the end of its write task, with everything written that was accepted. */
  lemma ClosedTunnelCanEnd(kind: LinkKind, now: nat, steps: seq<Step>, id: TunnelId) returns (more: seq<Step>)
    requires var s := Run(kind, Start(now), steps); Closed(s, id) && !s.exit.writers[id].phase.Failed?
    ensures var s := Run(kind, Start(now), steps); LeadsToEnd(kind, s, id, more, Accepted(s.exit, id))
  {
    StartIsReady(now);
    RunKeepsEndedClean(kind, Start(now), steps);
    more := StepsToEnd(kind, Run(kind, Start(now), steps), id);
  }

  /** A waiting write task ends exactly if its channel is empty and its tunnel closed. */
  lemma EndsIff(kind: LinkKind, s: Net, id: TunnelId)
    requires id in s.exit.writers && s.exit.writers[id].phase.Receiving?
    ensures var s' := Next(kind, s, Receive(id));
      id in s'.exit.writers
      && (s'.exit.writers[id].phase.Ended? <==> s.exit.writers[id].queue == [] && Closed(s, id))
  {
  }

  // ----- the client side -----

  /** The tunnel was opened and is no longer known. */
  predicate Gone(s: Net, id: TunnelId) { id in s.conns && id !in s.client.clientTunnels }

  lemma ConnsStay(kind: LinkKind, s: Net, step: Step, id: TunnelId)
    requires id in s.conns
    ensures id in Next(kind, s, step).conns
  {
  }

  lemma {:induction false} RunKeepsGone(kind: LinkKind, s: Net, steps: seq<Step>, id: TunnelId)
    requires ReadyInv(s) && Gone(s, id)
    ensures Gone(Run(kind, s, steps), id)
    decreases |steps|
  {
    if steps == [] {
    } else {
      StepKeepsReady(kind, s, steps[0]);
      ClientTunnelsIff(kind, s, steps[0], id);
      ConnsStay(kind, s, steps[0], id);
      RunKeepsGone(kind, Next(kind, s, steps[0]), steps[1..], id);
    }
  }

  /** Once its connection has hung up, or the exit has answered that it is closed, a tunnel is known to the client in
      no continuation of the run. */
  lemma ClientEndIsFinal(kind: LinkKind, s: Net, step: Step, id: TunnelId, steps: seq<Step>)
    requires ReadyInv(s) && id in s.conns && EndsClient(kind, s, step, id)
    ensures id !in Run(kind, Next(kind, s, step), steps).client.clientTunnels
  {
    StepKeepsReady(kind, s, step);
    ClientTunnelsIff(kind, s, step, id);
    RunKeepsGone(kind, Next(kind, s, step), steps, id);
  }

  // ----- from the client to the exit -----

  /** Nothing but a delivery or a loss takes a request off its way. */
  lemma FlightGrows(kind: LinkKind, s: Net, step: Step)
    requires s.client.configured && !step.Deliver? && !step.LoseRequest?
    ensures Flight(s) <= Flight(Next(kind, s, step))
  {
    if Enabled(kind, s, step) && !OwnStep(step) {
      match step
      case Open(host, port) => FlightAfterOpen(s, host, port);
      case Pump => FlightAfterPump(s);
      case Answer(i) => FlightAfterAnswer(s, i);
      case Send(id, data) => FlightAfterSend(s, id, data);
      case Hangup(id) => FlightAfterHangup(s, id);
      case _ =>
    }
  }

  /** The exit has had the tunnel; it has it no more, or the close is under way. */
  ghost predicate Closing(s: Net, id: TunnelId) {
    id in s.exit.writers && (id !in s.exit.exitTunnels || ProxyClose(id) in Flight(s))
  }

  lemma DeliverKeepsClosing(s: Net, i: nat, refused: Option<string>, id: TunnelId)
    requires ReadyInv(s) && Closing(s, id) && i < |s.link|
    ensures Closing(Delivered(s, i, refused), id)
  {
    if id !in s.exit.exitTunnels {
      DeliverKeepsClosed(s, i, refused, id);
    } else {
      FlightAround(s, i);
      assert Flight(Delivered(s, i, refused)) == s.link[..i] + Behind(s, i);
    }
  }

  lemma StepKeepsClosing(kind: LinkKind, s: Net, step: Step, id: TunnelId)
    requires ReadyInv(s) && Closing(s, id) && !(kind.Unordered? && step.LoseRequest?)
    ensures Closing(Next(kind, s, step), id)
  {
    if Enabled(kind, s, step) {
      if step.Deliver? {
        DeliverKeepsClosing(s, step.i, step.refused, id);
      } else {
        FlightGrows(kind, s, step);
        if OwnStep(step) {
          OwnStepKeepsTargets(s.exit, step);
        } else {
          TunnelAccounting.OthersKeepExit(kind, s, step);
        }
      }
    }
  }

  lemma {:induction false} RunKeepsClosing(kind: LinkKind, s: Net, steps: seq<Step>, id: TunnelId)
    requires ReadyInv(s) && Closing(s, id)
    requires kind.Unordered? ==> forall step :: step in steps ==> !step.LoseRequest?
    ensures Closing(Run(kind, s, steps), id)
    decreases |steps|
  {
    if steps == [] {
    } else {
      assert steps[0] in steps;
      StepKeepsReady(kind, s, steps[0]);
      StepKeepsClosing(kind, s, steps[0], id);
      RunKeepsClosing(kind, Next(kind, s, steps[0]), steps[1..], id);
    }
  }

  /** A connection that hangs up takes the exit side down with it: as long as the link loses no request, in every
      continuation the close is still under way or the exit has forgotten the tunnel. */
  lemma HangupReachesExit(kind: LinkKind, s: Net, id: TunnelId, steps: seq<Step>)
    requires ReadyInv(s) && InState(s, id, Draining) && id in s.client.clientTunnels
    requires kind.Unordered? ==> forall step :: step in steps ==> !step.LoseRequest?
    ensures var s' := Run(kind, Next(kind, s, Hangup(id)), steps);
      ProxyClose(id) in Flight(s') || id !in s'.exit.exitTunnels
  {
    FlightAfterHangup(s, id);
    HangupKeepsReady(s, id);
    assert Next(kind, s, Hangup(id)) == HungUp(s, id);
    RunKeepsClosing(kind, HungUp(s, id), steps, id);
  }

  lemma HangupQueuesClose(s: Net)
    requires Established(s)
    ensures var s' := Run(Unordered, s, [StopSending(1), Hangup(1)]);
      && s'.client.outbound == [P2PMessage(s.client.clientTunnels[1].exitPeer, 1, Close)]
      && s'.link == [] && s'.exit == s.exit
  {
    RunTwo(Unordered, s, StopSending(1), Hangup(1));
    var s1 := Moved(s, 1, Draining);
    assert Next(Unordered, s, StopSending(1)) == s1 && Next(Unordered, s1, Hangup(1)) == HungUp(s1, 1);
  }

  lemma CloseIsLost(s: Net)
    requires |s.client.outbound| == 1 && s.client.outbound[0].data.Close? && s.link == []
    ensures var s' := Run(Unordered, s, [Pump, LoseRequest(0)]);
      Flight(s') == [] && s'.exit == s.exit
  {
    RunTwo(Unordered, s, Pump, LoseRequest(0));
    var s1 := Pumped(s);
    assert Next(Unordered, s, Pump) == s1 && |s1.link| == 1 && s1.client.outbound == [];
    assert Next(Unordered, s1, LoseRequest(0)) == s1.(link := Without(s1.link, 0));
  }

  lemma GoneAfterHangup(s: Net, more: seq<Step>)
    requires ReadyInv(s) && Established(s)
    ensures 1 !in Run(Unordered, Run(Unordered, s, [StopSending(1), Hangup(1)]), more).client.clientTunnels
  {
    RunTwo(Unordered, s, StopSending(1), Hangup(1));
    var s1 := Moved(s, 1, Draining);
    assert Next(Unordered, s, StopSending(1)) == s1 && Enabled(Unordered, s1, Hangup(1));
    StepKeepsReady(Unordered, s, StopSending(1));
    ClientEndIsFinal(Unordered, s1, Hangup(1), 1, more);
  }

  /** A lost close is not repeated: a run after which the connection has hung up, nothing is under way, and the exit
      keeps the tunnel. */
  lemma LostCloseLeavesTunnel(now: nat)
    ensures exists steps :: var s := Run(Unordered, Start(now), steps);
      1 !in s.client.clientTunnels && Flight(s) == [] && 1 in s.exit.exitTunnels
  {
    HandshakeEstablishes(Unordered, now);
    var hangup, loss := [StopSending(1), Hangup(1)], [Pump, LoseRequest(0)];
    var s := Run(Unordered, Start(now), HANDSHAKE);
    HangupQueuesClose(s);
    CloseIsLost(Run(Unordered, s, hangup));
    RunAppend(Unordered, Start(now), HANDSHAKE, hangup);
    RunAppend(Unordered, Start(now), HANDSHAKE + hangup, loss);
    StartIsReady(now);
    RunKeepsReady(Unordered, Start(now), HANDSHAKE);
    GoneAfterHangup(s, loss);
  }

  // ----- how the outcome of a connect reaches the client -----

  /** The connection waits for the readiness signal of a tunnel whose connect is the i-th request on the link. */
  predicate Awaited(s: Net, i: nat, id: TunnelId) {
    && i < |s.link| && s.link[i].ProxyConnect? && s.link[i].tunnel == id
    && id in s.client.clientTunnels && id in s.client.fired && s.client.fired[id] == [] && InState(s, id, Waiting)
  }

  lemma AnswerFires(s: Net, i: nat, id: TunnelId, success: bool, error: Option<string>)
    requires i < |s.answers| && s.answers[i] == ProxyConnected(id, success, error)
    requires id in s.client.clientTunnels && s.client.clientTunnels[id].readyPending
    requires id in s.client.fired && s.client.fired[id] == []
    ensures var s' := Answered(s, i);
      && id in s'.client.fired && s'.conns == s.conns
      && (success ==> s'.client.fired[id] == [ReadyOk])
      && (!success && error.Some? ==> s'.client.fired[id] == [ReadyErr(error.value)])
      && (!success && error.None? ==> s'.client.fired[id] == [ReadyErr("Unknown error")])
  {
    var outcome := ReadyOutcome(success, error);
    assert [] + [outcome] == [outcome];
  }

  lemma WakeMoves(kind: LinkKind, s: Net, id: TunnelId)
    requires InState(s, id, Waiting) && id in s.client.fired && |s.client.fired[id]| == 1
    ensures InState(Next(kind, s, Wake(id)), id, if s.client.fired[id] == [ReadyOk] then Relaying else Finished)
  {
  }

  /** A refused connect registers nothing, and its answer fires the signal with the error of the refusal; the connection
      then gives up. */
  lemma RefusalReachesClient(kind: LinkKind, s: Net, i: nat, error: string, id: TunnelId)
    requires ReadyInv(s) && Awaited(s, i, id)
    ensures var s1 := Delivered(s, i, Some(error)); var s2 := Answered(s1, |s.answers|);
      && s1.exit == s.exit
      && id in s2.client.fired && s2.client.fired[id] == [ReadyErr(error)]
      && InState(Next(kind, s2, Wake(id)), id, Finished)
  {
    var s1 := Delivered(s, i, Some(error));
    AnswerFires(s1, |s.answers|, id, false, Some(error));
    WakeMoves(kind, Answered(s1, |s.answers|), id);
  }

  lemma GrantRegisters(s: Net, i: nat, id: TunnelId)
    requires ReadyInv(s) && i < |s.link| && s.link[i].ProxyConnect? && s.link[i].tunnel == id
    ensures var s1 := Delivered(s, i, None);
      && Accepting(s1.exit, id) && Accepted(s1.exit, id) == [] && id in s.asked
      && s1.exit.exitTunnels[id] == ExitTunnel(s.asked[id].host, s.asked[id].port, CLIENT, 0)
      && s1.exit.outbound == s.exit.outbound + [P2PMessage(CLIENT, id, Connected(true, None))]
      && s1.answers == s.answers + [ProxyConnected(id, true, None)]
      && s1.client == s.client && s1.conns == s.conns
  {
    LinkHeadMatches(s, i);
  }

  /** An accepted connect registers the tunnel to the target asked for, with an empty channel and nothing written, and
      announces it; its answer fires the signal with Ok, and the connection begins to relay. */
  lemma GrantReachesClient(kind: LinkKind, s: Net, i: nat, id: TunnelId)
    requires ReadyInv(s) && Awaited(s, i, id)
    ensures var s1 := Delivered(s, i, None); var s2 := Answered(s1, |s.answers|);
      && Accepting(s1.exit, id) && Accepted(s1.exit, id) == [] && id in s.asked
      && s1.exit.exitTunnels[id] == ExitTunnel(s.asked[id].host, s.asked[id].port, CLIENT, 0)
      && s1.exit.outbound == s.exit.outbound + [P2PMessage(CLIENT, id, Connected(true, None))]
      && id in s2.client.fired && s2.client.fired[id] == [ReadyOk]
      && InState(Next(kind, s2, Wake(id)), id, Relaying)
  {
    var s1 := Delivered(s, i, None);
    GrantRegisters(s, i, id);
    AnswerFires(s1, |s.answers|, id, true, None);
    WakeMoves(kind, Answered(s1, |s.answers|), id);
  }
}
