/** Bandwidth metering: per-peer counters, a resettable session, and all-time totals (grid/metrics.rs). */
module Metrics {
  import opened Prelude

  datatype PeerBandwidth = PeerBandwidth(
    bytesSent: nat, bytesReceived: nat, transferCount: nat, firstSeen: nat, lastSeen: nat)

  datatype Session = Session(
    startedAt: nat, bytesSent: nat, bytesReceived: nat, activeConnections: nat, handshakes: nat)

  /** The value of a `BandwidthMetrics` object. */
  datatype Meter = Meter(
    peers: map<PeerId, PeerBandwidth>, session: Session, totalSent: nat, totalReceived: nat, trackingStarted: nat)

  function NewMeter(now: nat): Meter {
    Meter(map[], Session(now, 0, 0, 0, 0), 0, 0, now)
  }

  function Entry(m: Meter, peer: PeerId, now: nat): PeerBandwidth {
    if peer in m.peers then m.peers[peer] else PeerBandwidth(0, 0, 0, now, now)
  }

  function RecordSent(m: Meter, peer: PeerId, bytes: nat, now: nat): Meter {
    var p := Entry(m, peer, now);
    var p' := p.(bytesSent := p.bytesSent + bytes, lastSeen := now, transferCount := p.transferCount + 1);
    m.(peers := m.peers[peer := p'],
       session := m.session.(bytesSent := m.session.bytesSent + bytes),
       totalSent := m.totalSent + bytes)
  }

  function RecordReceived(m: Meter, peer: PeerId, bytes: nat, now: nat): Meter {
    var p := Entry(m, peer, now);
    var p' := p.(bytesReceived := p.bytesReceived + bytes, lastSeen := now, transferCount := p.transferCount + 1);
    m.(peers := m.peers[peer := p'],
       session := m.session.(bytesReceived := m.session.bytesReceived + bytes),
       totalReceived := m.totalReceived + bytes)
  }

  /** What the meter says was received from one peer. */
  function ReceivedFrom(m: Meter, peer: PeerId): nat {
    if peer in m.peers then m.peers[peer].bytesReceived else 0
  }

  class BandwidthMetrics {
    var peers: map<PeerId, PeerBandwidth>
    var session: Session
    var totalSent: nat
    var totalReceived: nat
    var trackingStarted: nat

    ghost function Value(): Meter
      reads this
    {
      Meter(peers, session, totalSent, totalReceived, trackingStarted)
    }

    constructor (now: nat)
      ensures Value() == NewMeter(now)
    {
      peers := map[];
      session := Session(now, 0, 0, 0, 0);
      totalSent, totalReceived := 0, 0;
      trackingStarted := now;
    }

    method RecordBytesSent(peer: PeerId, bytes: nat, now: nat)
      modifies this
      ensures Value() == RecordSent(old(Value()), peer, bytes, now)
    {
      var entry := if peer in peers then peers[peer] else PeerBandwidth(0, 0, 0, now, now);
      entry := entry.(bytesSent := entry.bytesSent + bytes);
      entry := entry.(lastSeen := now);
      entry := entry.(transferCount := entry.transferCount + 1);
      peers := peers[peer := entry];
      session := session.(bytesSent := session.bytesSent + bytes);
      totalSent := totalSent + bytes;
    }

    method RecordBytesReceived(peer: PeerId, bytes: nat, now: nat)
      modifies this
      ensures Value() == RecordReceived(old(Value()), peer, bytes, now)
    {
      var entry := if peer in peers then peers[peer] else PeerBandwidth(0, 0, 0, now, now);
      entry := entry.(bytesReceived := entry.bytesReceived + bytes);
      entry := entry.(lastSeen := now);
      entry := entry.(transferCount := entry.transferCount + 1);
      peers := peers[peer := entry];
      session := session.(bytesReceived := session.bytesReceived + bytes);
      totalReceived := totalReceived + bytes;
    }

    method RecordHandshake()
      modifies this
      ensures Value() == old(Value()).(session := old(session).(handshakes := old(session).handshakes + 1))
    {
      session := session.(handshakes := session.handshakes + 1);
    }

    method ResetSession(now: nat)
      modifies this
      ensures Value() == old(Value()).(session := Session(now, 0, 0, 0, 0))
    {
      session := Session(now, 0, 0, 0, 0);
    }
  }

  // ----- runs -----

  datatype Event =
    | Sent(peer: PeerId, bytes: nat, now: nat)
    | Received(peer: PeerId, bytes: nat, now: nat)
    | Handshake
    | Connections(count: nat)
    | Reset(now: nat)

  /** A meter together with the sessions that resets have ended, oldest first. */
  datatype Books = Books(meter: Meter, ended: seq<Session>)

  function Step(b: Books, e: Event): Books {
    match e
    case Sent(peer, bytes, now) => b.(meter := RecordSent(b.meter, peer, bytes, now))
    case Received(peer, bytes, now) => b.(meter := RecordReceived(b.meter, peer, bytes, now))
    case Handshake => b.(meter := b.meter.(session := b.meter.session.(handshakes := b.meter.session.handshakes + 1)))
    case Connections(count) => b.(meter := b.meter.(session := b.meter.session.(activeConnections := count)))
    case Reset(now) => Books(b.meter.(session := Session(now, 0, 0, 0, 0)), b.ended + [b.meter.session])
  }

  function Run(b: Books, events: seq<Event>): Books
    decreases |events|
  {
    if events == [] then b else Run(Step(b, events[0]), events[1..])
  }

  ghost function PeerSent(m: Meter): map<PeerId, int> { map p | p in m.peers :: m.peers[p].bytesSent }

  ghost function PeerReceived(m: Meter): map<PeerId, int> { map p | p in m.peers :: m.peers[p].bytesReceived }

  function SessionsSent(s: seq<Session>): nat {
    if s == [] then 0 else SessionsSent(s[..|s| - 1]) + s[|s| - 1].bytesSent
  }

  function SessionsReceived(s: seq<Session>): nat {
    if s == [] then 0 else SessionsReceived(s[..|s| - 1]) + s[|s| - 1].bytesReceived
  }

  /** The three views of the traffic agree: all-time totals, per-peer counters, sessions. */
  ghost predicate Balanced(b: Books) {
    && b.meter.totalSent == Sum(PeerSent(b.meter))
    && b.meter.totalReceived == Sum(PeerReceived(b.meter))
    && b.meter.totalSent == SessionsSent(b.ended) + b.meter.session.bytesSent
    && b.meter.totalReceived == SessionsReceived(b.ended) + b.meter.session.bytesReceived
  }

  lemma SentAfterEntry(m: Meter, m': Meter, peer: PeerId, p: PeerBandwidth)
    requires m'.peers == m.peers[peer := p]
    ensures Sum(PeerSent(m'))
         == Sum(PeerSent(m)) - (if peer in m.peers then m.peers[peer].bytesSent else 0) + p.bytesSent
  {
    SumUpdate(PeerSent(m), peer, p.bytesSent);
    assert PeerSent(m') == PeerSent(m)[peer := p.bytesSent];
  }

  lemma ReceivedAfterEntry(m: Meter, m': Meter, peer: PeerId, p: PeerBandwidth)
    requires m'.peers == m.peers[peer := p]
    ensures Sum(PeerReceived(m'))
         == Sum(PeerReceived(m)) - (if peer in m.peers then m.peers[peer].bytesReceived else 0) + p.bytesReceived
  {
    SumUpdate(PeerReceived(m), peer, p.bytesReceived);
    assert PeerReceived(m') == PeerReceived(m)[peer := p.bytesReceived];
  }

  lemma SentKeepsBalance(b: Books, peer: PeerId, bytes: nat, now: nat)
    requires Balanced(b)
    ensures Balanced(Step(b, Sent(peer, bytes, now)))
  {
    var m' := RecordSent(b.meter, peer, bytes, now);
    SentAfterEntry(b.meter, m', peer, m'.peers[peer]);
    ReceivedAfterEntry(b.meter, m', peer, m'.peers[peer]);
  }

  lemma ReceivedKeepsBalance(b: Books, peer: PeerId, bytes: nat, now: nat)
    requires Balanced(b)
    ensures Balanced(Step(b, Received(peer, bytes, now)))
  {
    var m' := RecordReceived(b.meter, peer, bytes, now);
    SentAfterEntry(b.meter, m', peer, m'.peers[peer]);
    ReceivedAfterEntry(b.meter, m', peer, m'.peers[peer]);
  }

  lemma StepKeepsBalance(b: Books, e: Event)
    requires Balanced(b)
    ensures Balanced(Step(b, e))
  {
    match e
    case Sent(peer, bytes, now) => SentKeepsBalance(b, peer, bytes, now);
    case Received(peer, bytes, now) => ReceivedKeepsBalance(b, peer, bytes, now);
    case Reset(now) => assert (b.ended + [b.meter.session])[..|b.ended|] == b.ended;
    case Handshake =>
    case Connections(count) =>
  }

  /** Conservation of bytes over every sequence of recording and reset calls. */
  lemma RunsConserveBytes(now: nat, events: seq<Event>)
    ensures Balanced(Run(Books(NewMeter(now), []), events))
  {
    var start := Books(NewMeter(now), []);
    assert PeerSent(start.meter) == map[] && PeerReceived(start.meter) == map[];
    RunKeepsBalance(start, events);
  }

  lemma {:induction false} RunKeepsBalance(b: Books, events: seq<Event>)
    requires Balanced(b)
    ensures Balanced(Run(b, events))
    decreases |events|
  {
    if events == [] {
    } else {
      StepKeepsBalance(b, events[0]);
      RunKeepsBalance(Step(b, events[0]), events[1..]);
    }
  }

  // ----- what the counters have counted -----

  function SentTo(m: Meter, peer: PeerId): nat {
    if peer in m.peers then m.peers[peer].bytesSent else 0
  }

  function Transfers(m: Meter, peer: PeerId): nat {
    if peer in m.peers then m.peers[peer].transferCount else 0
  }

  predicate Concerns(e: Event, peer: PeerId) { (e.Sent? || e.Received?) && e.peer == peer }

  /** The bytes that a run sends to a peer and receives from it, and in how many transfers. */
  function SentIn(events: seq<Event>, peer: PeerId): nat {
    if events == [] then 0
    else (if events[0].Sent? && events[0].peer == peer then events[0].bytes else 0) + SentIn(events[1..], peer)
  }

  function ReceivedIn(events: seq<Event>, peer: PeerId): nat {
    if events == [] then 0
    else (if events[0].Received? && events[0].peer == peer then events[0].bytes else 0) + ReceivedIn(events[1..], peer)
  }

  function TransfersIn(events: seq<Event>, peer: PeerId): nat {
    if events == [] then 0 else (if Concerns(events[0], peer) then 1 else 0) + TransfersIn(events[1..], peer)
  }

  /** When the run last concerns the peer, if it does, and otherwise `before`. */
  function LastIn(events: seq<Event>, peer: PeerId, before: nat): nat {
    if events == [] then before
    else LastIn(events[1..], peer, if Concerns(events[0], peer) then events[0].now else before)
  }

  /** Handshakes since the last reset. */
  function HandshakesIn(events: seq<Event>, n: nat): nat {
    if events == [] then n
    else HandshakesIn(events[1..], if events[0].Reset? then 0 else if events[0].Handshake? then n + 1 else n)
  }

  lemma StepCounts(b: Books, e: Event, peer: PeerId)
    ensures var m, m' := b.meter, Step(b, e).meter;
      && SentTo(m', peer) == SentTo(m, peer) + SentIn([e], peer)
      && ReceivedFrom(m', peer) == ReceivedFrom(m, peer) + ReceivedIn([e], peer)
      && Transfers(m', peer) == Transfers(m, peer) + TransfersIn([e], peer)
      && (peer in m'.peers <==> peer in m.peers || Concerns(e, peer))
      && (peer in m'.peers ==>
            m'.peers[peer].lastSeen == if Concerns(e, peer) then e.now else m.peers[peer].lastSeen)
      && (peer in m'.peers ==>
            m'.peers[peer].firstSeen == if peer in m.peers then m.peers[peer].firstSeen else e.now)
      && m'.session.handshakes == HandshakesIn([e], m.session.handshakes)
  {
    assert [e][1..] == [];
  }

  /** In every run, the counters of a peer grow by exactly the bytes and transfers recorded for it; a known peer has
      been last seen in the last of them and keeps when it was first seen; and the handshakes are those since the last
      reset. */
  lemma {:induction false} CountersHoldTheRun(b: Books, events: seq<Event>, peer: PeerId)
    ensures var m, m' := b.meter, Run(b, events).meter;
      && SentTo(m', peer) == SentTo(m, peer) + SentIn(events, peer)
      && ReceivedFrom(m', peer) == ReceivedFrom(m, peer) + ReceivedIn(events, peer)
      && Transfers(m', peer) == Transfers(m, peer) + TransfersIn(events, peer)
      && (peer in m'.peers <==> peer in m.peers || TransfersIn(events, peer) > 0)
      && (peer in m.peers ==>
            && m'.peers[peer].lastSeen == LastIn(events, peer, m.peers[peer].lastSeen)
            && m'.peers[peer].firstSeen == m.peers[peer].firstSeen)
      && m'.session.handshakes == HandshakesIn(events, m.session.handshakes)
    decreases |events|
  {
    if events == [] {
    } else {
      var e := events[0];
      StepCounts(b, e, peer);
      assert [e][1..] == [];
      CountersHoldTheRun(Step(b, e), events[1..], peer);
    }
  }
}
