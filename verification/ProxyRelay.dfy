/** The task that forwards what a SOCKS client sends into its tunnel (the send task in grid/proxy.rs). */
module ProxyRelay {
  import opened Prelude
  import opened Metrics
  import opened TunnelManager

  /** Forward the chunks the reads return, in order, until one is refused; a chunk is metered once it is accepted. */
  function SendAll(m: Manager, id: TunnelId, peer: PeerId, chunks: seq<Bytes>, now: nat): (Manager, nat)
    decreases |chunks|
  {
    if chunks == [] then (m, 0)
    else
      var (m1, r) := SendThrough(m, id, chunks[0]);
      if r.Err? then (m1, 0)
      else
        var metered := m1.(meter := RecordSent(m1.meter, peer, |chunks[0]|, now));
        var (m2, total) := SendAll(metered, id, peer, chunks[1..], now);
        (m2, |chunks[0]| + total)
  }

  method SendLoop(table: TunnelTable, id: TunnelId, peer: PeerId, chunks: seq<Bytes>, now: nat) returns (total: nat)
    modifies table
    ensures (table.Value(), total) == SendAll(old(table.Value()), id, peer, chunks, now)
  {
    total := 0;
    var i := 0;
    while i < |chunks|
      invariant i <= |chunks|
      invariant var (m, rest) := SendAll(table.Value(), id, peer, chunks[i..], now);
        SendAll(old(table.Value()), id, peer, chunks, now) == (m, total + rest)
    {
      assert chunks[i..][0] == chunks[i] && chunks[i..][1..] == chunks[i + 1..];
      var sent := table.Send(id, chunks[i]);
      if sent.Err? {
        return;
      }
      total := total + |chunks[i]|;
      table.meter := RecordSent(table.meter, peer, |chunks[i]|, now);
      i := i + 1;
    }
  }

  function Messages(peer: PeerId, id: TunnelId, chunks: seq<Bytes>): seq<P2PMessage> {
    seq(|chunks|, i requires 0 <= i < |chunks| => P2PMessage(peer, id, Data(chunks[i])))
  }

  /** All or nothing: with a tunnel every chunk is queued for its exit peer, in order, and exactly their bytes are
      counted and metered; without one nothing is queued, counted or metered. */
  lemma {:induction false} SendAllOrNothing(m: Manager, id: TunnelId, peer: PeerId, chunks: seq<Bytes>, now: nat)
    ensures var (m', total) := SendAll(m, id, peer, chunks, now);
      if id in m.clientTunnels && m.configured then
        && m' == m.(outbound := m.outbound + Messages(m.clientTunnels[id].exitPeer, id, chunks), meter := m'.meter)
        && total == TotalLen(chunks)
        && SentTo(m'.meter, peer) == SentTo(m.meter, peer) + total && m'.meter.totalSent == m.meter.totalSent + total
      else m' == m && total == 0
    decreases |chunks|
  {
    if chunks == [] {
      assert m.outbound + [] == m.outbound;
    } else if id in m.clientTunnels && m.configured {
      var exitPeer := m.clientTunnels[id].exitPeer;
      var m1 := SendThrough(m, id, chunks[0]).0;
      SendAllOrNothing(m1.(meter := RecordSent(m1.meter, peer, |chunks[0]|, now)), id, peer, chunks[1..], now);
      assert Messages(exitPeer, id, chunks)
          == [P2PMessage(exitPeer, id, Data(chunks[0]))] + Messages(exitPeer, id, chunks[1..]);
      assert m.outbound + Messages(exitPeer, id, chunks)
          == m.outbound + [P2PMessage(exitPeer, id, Data(chunks[0]))] + Messages(exitPeer, id, chunks[1..]);
    }
  }
}
