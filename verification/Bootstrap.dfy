/** Saved peers: scoring, upserting, failing and pruning to the best (grid/bootstrap.rs). Scores are exact reals, and
    the clock is a parameter that no peer's last connection lies ahead of. */
module Bootstrap {
  import opened Prelude

  datatype Peer = Peer(id: PeerId, addresses: seq<string>, lastConnected: nat, successes: nat, failures: nat)

  datatype Config = Config(bootstraps: seq<string>, maxSaved: nat, maxAttempts: nat, startupCount: nat)

  datatype Storage = Storage(peers: map<PeerId, Peer>, config: Config)

  function NewPeer(id: PeerId, address: string, now: nat): Peer {
    Peer(id, [address], now, 1, 0)
  }

  /** One and the age in days. */
  function Age(p: Peer, now: nat): (a: real)
    requires p.lastConnected <= now
    ensures a >= 1.0 && (a == 1.0 <==> p.lastConnected == now)
  {
    1.0 + (now - p.lastConnected) as real / 3600.0 / 24.0
  }

  /** The weight of a connection falls with its age: 1 / (1 + hours / 24). */
  function Recency(p: Peer, now: nat): (r: real)
    requires p.lastConnected <= now
    ensures 0.0 < r <= 1.0 && (r == 1.0 <==> p.lastConnected == now)
  {
    InverseWithinOne(Age(p, now));
    1.0 / Age(p, now)
  }

  // ----- real arithmetic -----

  lemma ScaleMonotone(a: real, b: real, c: real)
    requires a <= b && 0.0 <= c
    ensures a * c <= b * c && c * a <= c * b
  {
  }

  lemma ScaleStrict(a: real, b: real, c: real)
    requires a < b && 0.0 < c
    ensures a * c < b * c && c * a < c * b
  {
  }

  lemma CancelScale(a: real, b: real, c: real)
    requires a * c <= b * c && 0.0 < c
    ensures a <= b
  {
    if b < a {
      ScaleStrict(b, a, c);
    }
  }

  lemma InverseWithinOne(a: real)
    requires a >= 1.0
    ensures 0.0 < 1.0 / a <= 1.0 && (1.0 / a == 1.0 <==> a == 1.0)
  {
    var x := 1.0 / a;
    assert x * a == 1.0;
    if x <= 0.0 {
      ScaleMonotone(x, 0.0, a);
    }
    if x > 1.0 {
      ScaleStrict(1.0, x, a);
    }
  }

  lemma InverseFalls(a: real, b: real)
    requires 1.0 <= a <= b
    ensures 1.0 / b <= 1.0 / a
  {
    var x, y := 1.0 / a, 1.0 / b;
    assert x * a == 1.0 && y * b == 1.0;
    InverseWithinOne(b);
    ScaleMonotone(a, b, y);
    CancelScale(y, x, a);
  }

  lemma LargerWholeSmallerFraction(s: real, t: real)
    requires 0.0 < s && 0.0 < t
    ensures s / (t + 1.0) < s / t
  {
    var x, y := s / t, s / (t + 1.0);
    assert x * t == s && y * (t + 1.0) == s;
    if y <= 0.0 {
      ScaleMonotone(y, 0.0, t + 1.0);
    }
    if x <= y {
      ScaleMonotone(x, y, t);
    }
  }

  function Score(p: Peer, now: nat): real
    requires p.lastConnected <= now
  {
    var total := p.successes + p.failures;
    if total == 0 then 0.5 else p.successes as real / total as real * Recency(p, now)
  }

  function Succeed(p: Peer, now: nat): Peer { p.(lastConnected := now, successes := p.successes + 1) }

  function Fail(p: Peer): Peer { p.(failures := p.failures + 1) }

  function AddAddress(p: Peer, address: string): Peer {
    if address in p.addresses then p else p.(addresses := p.addresses + [address])
  }

  lemma FractionBounds(s: real, t: real)
    requires 0.0 <= s <= t && 0.0 < t
    ensures 0.0 <= s / t <= 1.0 && (s / t == 1.0 <==> s == t) && (s / t == 0.0 <==> s == 0.0)
  {
    var x := s / t;
    assert x * t == s;
    if x < 0.0 {
      ScaleStrict(x, 0.0, t);
    }
    if x > 1.0 {
      ScaleStrict(1.0, x, t);
    }
  }

  function Rate(p: Peer): (rate: real)
    requires p.successes + p.failures > 0
    ensures 0.0 <= rate <= 1.0 && (rate == 1.0 <==> p.failures == 0) && (rate == 0.0 <==> p.successes == 0)
  {
    FractionBounds(p.successes as real, (p.successes + p.failures) as real);
    p.successes as real / (p.successes + p.failures) as real
  }

  lemma ProductOfShares(a: real, b: real)
    requires 0.0 <= a <= 1.0 && 0.0 < b <= 1.0
    ensures 0.0 <= a * b <= a && a * b <= b && (a * b == 1.0 <==> a == 1.0 && b == 1.0)
  {
    ScaleMonotone(0.0, a, b);
    ScaleMonotone(a, 1.0, b);
    ScaleMonotone(b, 1.0, a);
    assert a * b == b * a;
  }

  /** Scores lie between 0 and 1; 1 is reached exactly by a peer that connected this second and never failed. */
  lemma ScoreRange(p: Peer, now: nat)
    requires p.lastConnected <= now
    ensures 0.0 <= Score(p, now) <= 1.0
    ensures Score(p, now) == 1.0 <==> p.successes > 0 && p.failures == 0 && p.lastConnected == now
  {
    if p.successes + p.failures > 0 {
      assert Score(p, now) == Rate(p) * Recency(p, now);
      ProductOfShares(Rate(p), Recency(p, now));
    }
  }

  /** The score is the share of successes, shrunk by the age of the last connection in days: in whole numbers, with
      86400 seconds to a day. A peer never tried scores a half. */
  lemma ScoreIsShareByAge(p: Peer, now: nat)
    requires p.lastConnected <= now
    ensures p.successes + p.failures == 0 ==> Score(p, now) == 0.5
    ensures Score(p, now) * (p.successes + p.failures) as real * (86400 + (now - p.lastConnected)) as real
         == p.successes as real * 86400.0
  {
    if p.successes + p.failures > 0 {
      var s, t := p.successes as real, (p.successes + p.failures) as real;
      var a, r := Age(p, now), Recency(p, now);
      assert (86400 + (now - p.lastConnected)) as real == 86400.0 * a;
      ShareByAge(Rate(p), r, s, t, a);
    }
  }

  lemma ShareByAge(rate: real, r: real, s: real, t: real, a: real)
    requires rate * t == s && r * a == 1.0
    ensures rate * r * t * (86400.0 * a) == s * 86400.0
  {
    assert rate * r * t == (rate * t) * r;
    assert s * r * (86400.0 * a) == s * 86400.0 * (r * a);
  }

  /** The weight is at least a half exactly within a day of the last connection, and a half exactly a day after it. */
  lemma HalfWeightIff(p: Peer, now: nat)
    requires p.lastConnected <= now
    ensures Recency(p, now) >= 0.5 <==> now - p.lastConnected <= 86400
    ensures Recency(p, now) == 0.5 <==> now - p.lastConnected == 86400
  {
    var a, x := Age(p, now), Recency(p, now);
    assert x * a == 1.0;
    if x >= 0.5 {
      ScaleMonotone(0.5, x, a);
    }
    if a <= 2.0 {
      ScaleMonotone(a, 2.0, x);
    }
  }

  /** Time alone never raises a score. */
  lemma ScoresDecay(p: Peer, now: nat, later: nat)
    requires p.lastConnected <= now <= later
    ensures Score(p, later) <= Score(p, now)
  {
    if p.successes + p.failures > 0 {
      InverseFalls(Age(p, now), Age(p, later));
      ScaleMonotone(Recency(p, later), Recency(p, now), Rate(p));
      assert Score(p, now) == Rate(p) * Recency(p, now);
      assert Score(p, later) == Rate(p) * Recency(p, later);
    }
  }

  /** A failure strictly lowers the score exactly if there is something to lower: a peer that has only failed stays
      at 0. */
  lemma FailureLowersScoreIff(p: Peer, now: nat)
    requires p.lastConnected <= now
    ensures Score(Fail(p), now) <= Score(p, now)
    ensures Score(Fail(p), now) < Score(p, now) <==> p.successes > 0 || p.failures == 0
  {
    var r := Recency(p, now);
    assert Recency(Fail(p), now) == r && Score(Fail(p), now) == Rate(Fail(p)) * r;
    if p.successes > 0 {
      var s, t := p.successes as real, (p.successes + p.failures) as real;
      LargerWholeSmallerFraction(s, t);
      assert Rate(Fail(p)) == s / (t + 1.0) && Rate(p) == s / t;
      ScaleStrict(Rate(Fail(p)), Rate(p), r);
    } else {
      assert Rate(Fail(p)) == 0.0;
      if p.failures > 0 {
        assert Rate(p) == 0.0;
      }
    }
  }

  lemma FractionGrows(s: real, t: real)
    requires 0.0 <= s <= t && 0.0 < t
    ensures s / t <= (s + 1.0) / (t + 1.0)
  {
    var x, y := s / t, (s + 1.0) / (t + 1.0);
    FractionBounds(s, t);
    assert x * t == s && y * (t + 1.0) == s + 1.0;
    assert x * (t + 1.0) == x * t + x;
    if y < x {
      ScaleStrict(y, x, t + 1.0);
    }
  }

  /** A success never lowers the score. */
  lemma SuccessNeverLowersScore(p: Peer, now: nat)
    requires p.lastConnected <= now
    ensures Score(p, now) <= Score(Succeed(p, now), now)
  {
    var p' := Succeed(p, now);
    assert Recency(p', now) == 1.0 && Score(p', now) == Rate(p');
    if p.successes + p.failures > 0 {
      var s, t := p.successes as real, (p.successes + p.failures) as real;
      FractionGrows(s, t);
      assert Rate(p) == s / t && Rate(p') == (s + 1.0) / (t + 1.0);
      assert Score(p, now) == Rate(p) * Recency(p, now);
      ProductOfShares(Rate(p), Recency(p, now));
      assert Score(p, now) <= Rate(p) <= Rate(p') == Score(p', now);
    } else {
      assert Rate(p') == 1.0;
    }
  }

  // ----- keeping the best -----

  predicate ClockSane(peers: map<PeerId, Peer>, now: nat) {
    forall k :: k in peers ==> peers[k].lastConnected <= now
  }

  /** `kept` are the first `limit` keys of some order by falling score. */
  ghost predicate IsBest(kept: set<PeerId>, peers: map<PeerId, Peer>, limit: nat, now: nat)
    requires ClockSane(peers, now)
  {
    && kept <= peers.Keys
    && |kept| == (if limit < |peers| then limit else |peers|)
    && (forall k, d :: k in kept && d in peers && d !in kept ==> Score(peers[d], now) <= Score(peers[k], now))
  }

  function Restrict(peers: map<PeerId, Peer>, kept: set<PeerId>): map<PeerId, Peer> {
    map k | k in peers && k in kept :: peers[k]
  }

  /** Sorting a hash map leaves ties open, so pruning is a relation. */
  ghost predicate Pruned(s: Storage, s': Storage, now: nat)
    requires ClockSane(s.peers, now)
  {
    && s'.config == s.config
    && s'.peers.Keys <= s.peers.Keys && s'.peers == Restrict(s.peers, s'.peers.Keys)
    && IsBest(s'.peers.Keys, s.peers, s.config.maxSaved, now)
  }

  function Touched(s: Storage, id: PeerId, address: string, now: nat): Storage {
    var peer := if id in s.peers then Succeed(AddAddress(s.peers[id], address), now) else NewPeer(id, address, now);
    s.(peers := s.peers[id := peer])
  }

  function Failing(s: Storage, id: PeerId): Storage {
    if id !in s.peers then s
    else if s.peers[id].failures + 1 >= s.config.maxAttempts then s.(peers := s.peers - {id})
    else s.(peers := s.peers[id := Fail(s.peers[id])])
  }

  function Succeeding(s: Storage, id: PeerId, now: nat): Storage {
    if id in s.peers then s.(peers := s.peers[id := Succeed(s.peers[id], now)]) else s
  }

  /** One success more, connected now, and reachable under the address as well. */
  predicate Met(before: Peer, after: Peer, address: string, now: nat) {
    && after.id == before.id && after.lastConnected == now
    && after.successes == before.successes + 1 && after.failures == before.failures
    && after.addresses == before.addresses + if address in before.addresses then [] else [address]
  }

  lemma TouchedAndKept(s: Storage, id: PeerId, address: string, now: nat, s': Storage)
    requires ClockSane(Touched(s, id, address, now).peers, now) && Pruned(Touched(s, id, address, now), s', now)
    ensures id in s'.peers && id !in s.peers ==> s'.peers[id] == Peer(id, [address], now, 1, 0)
    ensures id in s'.peers && id in s.peers ==> Met(s.peers[id], s'.peers[id], address, now)
    ensures forall k :: k in s'.peers && k != id ==> k in s.peers && s'.peers[k] == s.peers[k]
  {
    var t := Touched(s, id, address, now);
    assert forall k :: k in s'.peers ==> k in t.peers && s'.peers[k] == t.peers[k];
  }

  lemma RemainingPeers(peers: map<PeerId, Peer>, k: PeerId)
    requires k in peers
    ensures |peers - {k}| == |peers| - 1
  {
  }

  class PeerStorage {
    var peers: map<PeerId, Peer>
    var config: Config

    ghost function Value(): Storage
      reads this
    {
      Storage(peers, config)
    }

    constructor (config: Config)
      ensures Value() == Storage(map[], config)
    {
      this.peers := map[];
      this.config := config;
    }

    /** `order` is the key order the sort produces: every key once, by falling score. */
    method PruneOldPeers(now: nat, order: seq<PeerId>)
      requires ClockSane(peers, now) && IsOrder(order, peers, now)
      modifies this`peers
      ensures Pruned(old(Value()), Value(), now)
    {
      if |peers| <= config.maxSaved {
        assert peers == Restrict(peers, peers.Keys);
        return;
      }
      OrderLength(order, peers, now);
      var toKeep := set k | k in order[..config.maxSaved];
      FirstAreBest(order, peers, config.maxSaved, now);
      peers := Restrict(peers, toKeep);
      assert peers.Keys == toKeep;
    }

    method UpsertPeer(id: PeerId, address: string, now: nat, order: seq<PeerId>)
      requires ClockSane(peers, now) && IsOrder(order, Touched(Value(), id, address, now).peers, now)
      modifies this`peers
      ensures ClockSane(Touched(old(Value()), id, address, now).peers, now)
      ensures Pruned(Touched(old(Value()), id, address, now), Value(), now)
      ensures id in peers && id !in old(peers) ==> peers[id] == Peer(id, [address], now, 1, 0)
      ensures id in peers && id in old(peers) ==> Met(old(peers)[id], peers[id], address, now)
      ensures forall k :: k in peers && k != id ==> k in old(peers) && peers[k] == old(peers)[k]
    {
      if id in peers {
        var peer := peers[id];
        if address !in peer.addresses {
          peer := peer.(addresses := peer.addresses + [address]);
        }
        peer := peer.(lastConnected := now, successes := peer.successes + 1);
        peers := peers[id := peer];
      } else {
        peers := peers[id := Peer(id, [address], now, 1, 0)];
      }
      assert Value() == Touched(old(Value()), id, address, now);
      PruneOldPeers(now, order);
      TouchedAndKept(old(Value()), id, address, now, Value());
    }

    method RecordConnectionFailure(id: PeerId)
      modifies this`peers
      ensures Value() == Failing(old(Value()), id)
      ensures id in peers <==> id in old(peers) && old(peers)[id].failures + 1 < config.maxAttempts
      ensures id in peers ==> peers[id] == old(peers)[id].(failures := old(peers)[id].failures + 1)
      ensures forall k :: k != id ==> (k in peers <==> k in old(peers)) && (k in peers ==> peers[k] == old(peers)[k])
    {
      if id in peers {
        var peer := peers[id].(failures := peers[id].failures + 1);
        peers := peers[id := peer];
        if peer.failures >= config.maxAttempts {
          peers := peers - {id};
        }
      }
    }

    method RecordConnectionSuccess(id: PeerId, now: nat)
      modifies this`peers
      ensures Value() == Succeeding(old(Value()), id, now)
      ensures peers.Keys == old(peers).Keys
      ensures id in peers ==>
        peers[id] == old(peers)[id].(lastConnected := now, successes := old(peers)[id].successes + 1)
      ensures forall k :: k in peers && k != id ==> peers[k] == old(peers)[k]
    {
      if id in peers {
        peers := peers[id := peers[id].(lastConnected := now, successes := peers[id].successes + 1)];
      }
    }

    /** The addresses to dial at startup: those of the best peers in order, then, if they are too few, every hardcoded
        bootstrap not already among them. */
    method GetBootstrapAddresses(now: nat, order: seq<PeerId>) returns (addresses: seq<string>)
      requires ClockSane(peers, now) && IsOrder(order, peers, now)
      ensures var own := FullAddresses(Taken(order, peers, config.startupCount));
        && own <= addresses
        && (|own| >= config.startupCount ==> addresses == own)
        && (|own| < config.startupCount ==> Completes(own, config.bootstraps, addresses))
    {
      addresses := SavedAddresses(Taken(order, peers, config.startupCount));
      if |addresses| < config.startupCount {
        ghost var own := addresses;
        assert own[|own|..] == [];
        for i := 0 to |config.bootstraps|
          invariant Completes(own, config.bootstraps[..i], addresses)
        {
          var bootstrap := config.bootstraps[i];
          assert config.bootstraps[..i + 1] == config.bootstraps[..i] + [bootstrap];
          if bootstrap !in addresses {
            CompletesWith(own, config.bootstraps[..i], addresses, bootstrap);
            addresses := addresses + [bootstrap];
          }
        }
        assert config.bootstraps[..|config.bootstraps|] == config.bootstraps;
      }
    }
  }

  method SavedAddresses(best: seq<Peer>) returns (addresses: seq<string>)
    ensures addresses == FullAddresses(best)
  {
    addresses := [];
    for i := 0 to |best|
      invariant addresses == FullAddresses(best[..i])
    {
      var peer := best[i];
      ghost var before := addresses;
      for j := 0 to |peer.addresses|
        invariant addresses == before + Full(peer, peer.addresses[..j])
      {
        var address := peer.addresses[j];
        var fullAddress := if Contains(address, "/p2p/") then address else address + "/p2p/" + peer.id;
        addresses := addresses + [fullAddress];
        assert peer.addresses[..j + 1] == peer.addresses[..j] + [address];
        FullAppend(peer, peer.addresses[..j], address);
      }
      assert peer.addresses[..|peer.addresses|] == peer.addresses;
      assert best[..i + 1] == best[..i] + [peer];
      FullAddressesAppend(best[..i], peer);
    }
    assert best[..|best|] == best;
  }

  /** The own addresses, then exactly the bootstraps not among them, each once. */
  ghost predicate Completes(own: seq<string>, bootstraps: seq<string>, addresses: seq<string>) {
    && own <= addresses
    && (forall b :: b in bootstraps ==> b in addresses)
    && (forall i :: |own| <= i < |addresses| ==> addresses[i] in bootstraps && addresses[i] !in own)
    && (forall i, j :: |own| <= i < j < |addresses| ==> addresses[i] != addresses[j])
  }

  lemma CompletesWith(own: seq<string>, bootstraps: seq<string>, addresses: seq<string>, b: string)
    requires Completes(own, bootstraps, addresses) && b !in addresses
    ensures Completes(own, bootstraps + [b], addresses + [b])
  {
    var more := addresses + [b];
    assert b in bootstraps + [b] && more[|addresses|] == b;
    forall x | x in bootstraps + [b] ensures x in more {
      assert x in bootstraps || x == b;
    }
    forall i | |own| <= i < |more| ensures more[i] in bootstraps + [b] && more[i] !in own {
      if i < |addresses| {
        assert more[i] == addresses[i];
      }
    }
  }

  // ----- sorted orders -----

  ghost predicate IsOrder(order: seq<PeerId>, peers: map<PeerId, Peer>, now: nat)
    requires ClockSane(peers, now)
  {
    && (forall k :: k in order <==> k in peers)
    && (forall i, j :: 0 <= i < j < |order| ==> order[i] != order[j])
    && (forall i, j :: 0 <= i < j < |order| ==> Score(peers[order[j]], now) <= Score(peers[order[i]], now))
  }

  lemma OrderLength(order: seq<PeerId>, peers: map<PeerId, Peer>, now: nat)
    requires ClockSane(peers, now) && IsOrder(order, peers, now)
    ensures |order| == |peers|
  {
    DistinctCount(order);
    assert (set k | k in order) == peers.Keys;
  }

  lemma FirstAreBest(order: seq<PeerId>, peers: map<PeerId, Peer>, limit: nat, now: nat)
    requires ClockSane(peers, now) && IsOrder(order, peers, now) && limit < |peers|
    ensures limit < |order| && IsBest((set k | k in order[..limit]), peers, limit, now)
  {
    OrderLength(order, peers, now);
    var first := order[..limit];
    DistinctCount(first);
    forall k, d | k in first && d in peers && d !in first ensures Score(peers[d], now) <= Score(peers[k], now) {
      var i :| 0 <= i < |first| && first[i] == k;
      var j :| 0 <= j < |order| && order[j] == d;
      assert order[i] == k && j >= limit;
    }
  }

  lemma BestFirst(best: PeerId, rest: seq<PeerId>, peers: map<PeerId, Peer>, now: nat)
    requires ClockSane(peers, now) && best in peers
    requires forall k :: k in peers ==> Score(peers[k], now) <= Score(peers[best], now)
    requires ClockSane(peers - {best}, now) && IsOrder(rest, peers - {best}, now)
    ensures IsOrder([best] + rest, peers, now)
  {
    var order, others := [best] + rest, peers - {best};
    assert forall k :: k in rest <==> k in peers && k != best;
    forall i, j | 0 <= i < j < |order|
      ensures order[i] != order[j] && Score(peers[order[j]], now) <= Score(peers[order[i]], now)
    {
      var d := order[j];
      assert d == rest[j - 1] && d in others && others[d] == peers[d];
      if i > 0 {
        var k := order[i];
        assert k == rest[i - 1] && k in others && others[k] == peers[k];
      }
    }
  }

  /** An order always exists. */
  lemma {:induction false} OrderExists(peers: map<PeerId, Peer>, now: nat) returns (order: seq<PeerId>)
    requires ClockSane(peers, now)
    ensures IsOrder(order, peers, now)
    decreases |peers|
  {
    if peers == map[] {
      order := [];
    } else {
      var best := BestPeer(peers, now);
      RemainingPeers(peers, best);
      var rest := OrderExists(peers - {best}, now);
      BestFirst(best, rest, peers, now);
      order := [best] + rest;
    }
  }

  lemma {:induction false} BestPeer(peers: map<PeerId, Peer>, now: nat) returns (best: PeerId)
    requires ClockSane(peers, now) && peers != map[]
    ensures best in peers && forall k :: k in peers ==> Score(peers[k], now) <= Score(peers[best], now)
    decreases |peers|
  {
    var first :| first in peers;
    var rest := peers - {first};
    RemainingPeers(peers, first);
    best := first;
    if rest != map[] {
      var other := BestPeer(rest, now);
      assert forall k :: k in peers && k != first ==> k in rest && rest[k] == peers[k];
      if Score(peers[first], now) < Score(peers[other], now) {
        best := other;
      }
    } else {
      assert forall k :: k in peers ==> k == first || k in rest;
    }
  }

  /** The peers of the first `n` keys of an order. */
  function Taken(order: seq<PeerId>, peers: map<PeerId, Peer>, n: nat): (taken: seq<Peer>)
    requires forall k :: k in order ==> k in peers
    ensures |taken| == if n < |order| then n else |order|
    ensures forall i :: 0 <= i < |taken| ==> taken[i] == peers[order[i]]
  {
    if order == [] || n == 0 then [] else [peers[order[0]]] + Taken(order[1..], peers, n - 1)
  }

  predicate Contains(s: string, part: string) {
    part <= s || (s != [] && Contains(s[1..], part))
  }

  function FullAddress(p: Peer, address: string): string {
    if Contains(address, "/p2p/") then address else address + "/p2p/" + p.id
  }

  /** An address to dial names its peer, or one of its own choosing. */
  lemma FullAddressNamesPeer(p: Peer, address: string)
    ensures var full := FullAddress(p, address);
      && address <= full && Contains(full, "/p2p/")
      && (full == address <==> Contains(address, "/p2p/"))
      && (full != address ==> full[|address|..] == "/p2p/" + p.id)
  {
    MarkerAdded(address, "/p2p/", p.id);
  }

  lemma MarkerAdded(address: string, marker: string, id: string)
    requires marker != ""
    ensures var full := if Contains(address, marker) then address else address + marker + id;
      && address <= full && Contains(full, marker)
      && (full == address <==> Contains(address, marker))
      && (full != address ==> full[|address|..] == marker + id)
  {
    ContainsAfter(address, marker, id);
    assert address + marker + id == address + (marker + id);
  }

  lemma {:induction false} ContainsAfter(front: string, part: string, back: string)
    ensures Contains(front + part + back, part)
  {
    if front == "" {
      assert front + part + back == part + back;
    } else {
      assert (front + part + back)[1..] == front[1..] + part + back;
      ContainsAfter(front[1..], part, back);
    }
  }

  function Full(p: Peer, addresses: seq<string>): seq<string> {
    if addresses == [] then [] else [FullAddress(p, addresses[0])] + Full(p, addresses[1..])
  }

  function FullAddresses(peers: seq<Peer>): seq<string> {
    if peers == [] then [] else Full(peers[0], peers[0].addresses) + FullAddresses(peers[1..])
  }

  lemma {:induction false} FullAppend(p: Peer, addresses: seq<string>, address: string)
    ensures Full(p, addresses + [address]) == Full(p, addresses) + [FullAddress(p, address)]
  {
    if addresses == [] {
      assert addresses + [address] == [address];
    } else {
      assert (addresses + [address])[1..] == addresses[1..] + [address];
      FullAppend(p, addresses[1..], address);
    }
  }

  lemma {:induction false} FullAddressesAppend(peers: seq<Peer>, p: Peer)
    ensures FullAddresses(peers + [p]) == FullAddresses(peers) + Full(p, p.addresses)
  {
    if peers == [] {
      assert peers + [p] == [p];
    } else {
      assert (peers + [p])[1..] == peers[1..] + [p];
      FullAddressesAppend(peers[1..], p);
    }
  }

  // ----- what upserting keeps -----

  /** After an upsert at most `maxSaved` peers remain, no dropped peer beats a kept one, and the peer just connected is
      dropped only if every peer kept in its stead has the maximal score 1 as well. */
  lemma UpsertKeepsBest(s: Storage, id: PeerId, address: string, now: nat, s': Storage)
    requires ClockSane(s.peers, now) && ClockSane(Touched(s, id, address, now).peers, now)
    requires Pruned(Touched(s, id, address, now), s', now)
    ensures |s'.peers| <= s.config.maxSaved
    ensures var t := Touched(s, id, address, now); forall k, d :: k in s'.peers && d in t.peers && d !in s'.peers ==>
      s'.peers[k] == t.peers[k] && Score(t.peers[d], now) <= Score(s'.peers[k], now)
    ensures id !in s.peers && id !in s'.peers ==>
      |s'.peers| == s.config.maxSaved && forall k :: k in s'.peers ==> Score(s'.peers[k], now) == 1.0
  {
    var t := Touched(s, id, address, now);
    assert |s'.peers| == |s'.peers.Keys|;
    if id !in s.peers && id !in s'.peers {
      ScoreRange(t.peers[id], now);
      forall k | k in s'.peers ensures Score(s'.peers[k], now) == 1.0 {
        assert s'.peers[k] == t.peers[k];
        ScoreRange(t.peers[k], now);
      }
      assert id in t.peers.Keys - s'.peers.Keys;
      if |s'.peers| == |t.peers| {
        SameSizeSubset(s'.peers.Keys, t.peers.Keys);
      }
    }
  }

  lemma SameSizeSubset(a: set<PeerId>, b: set<PeerId>)
    requires a <= b && |a| == |b|
    ensures a == b
  {
    assert |b - a| == |b| - |a|;
    assert b == a + (b - a);
  }

  // ----- runs from empty storage -----

  datatype Event =
    | Upserted(id: PeerId, address: string, now: nat)
    | Succeeded(id: PeerId, now: nat)
    | Failed(id: PeerId)

  function Clock(e: Event, last: nat): nat { if e.Failed? then last else e.now }

  /** Some run of these events leads from s to s'; the clock never goes back. */
  ghost predicate Runs(s: Storage, last: nat, events: seq<Event>, s': Storage)
    decreases |events|
  {
    if events == [] then s == s'
    else
      var e, rest := events[0], events[1..];
      last <= Clock(e, last) &&
      match e
      case Upserted(id, address, now) =>
        && ClockSane(Touched(s, id, address, now).peers, now)
        && exists m :: Pruned(Touched(s, id, address, now), m, now) && Runs(m, now, rest, s')
      case Succeeded(id, now) => Runs(Succeeding(s, id, now), now, rest, s')
      case Failed(id) => Runs(Failing(s, id), last, rest, s')
  }

  /** What holds of a storage that started empty. */
  ghost predicate Healthy(s: Storage, last: nat) {
    && ClockSane(s.peers, last)
    && (forall k :: k in s.peers ==>
          s.peers[k].id == k && s.peers[k].successes > 0 && s.peers[k].failures < s.config.maxAttempts)
  }

  lemma TouchKeepsHealthy(s: Storage, last: nat, id: PeerId, address: string, now: nat)
    requires Healthy(s, last) && s.config.maxAttempts >= 1 && last <= now
    ensures Healthy(Touched(s, id, address, now), now)
  {
  }

  lemma PruneKeepsHealthy(s: Storage, s': Storage, now: nat)
    requires Healthy(s, now) && Pruned(s, s', now)
    ensures Healthy(s', now)
  {
  }

  lemma FailKeepsHealthy(s: Storage, last: nat, id: PeerId)
    requires Healthy(s, last)
    ensures Healthy(Failing(s, id), last)
  {
  }

  lemma SucceedKeepsHealthy(s: Storage, last: nat, id: PeerId, now: nat)
    requires Healthy(s, last) && last <= now
    ensures Healthy(Succeeding(s, id, now), now)
  {
  }

  /** From empty storage with at least one attempt allowed: every stored peer has fewer failures than that, has
      succeeded once, and so loses score with every failure. */
  lemma {:induction false} RunsStayHealthy(s: Storage, last: nat, events: seq<Event>, s': Storage) returns (last': nat)
    requires Healthy(s, last) && s.config.maxAttempts >= 1 && Runs(s, last, events, s')
    ensures Healthy(s', last') && last <= last' && s'.config == s.config
    decreases |events|
  {
    if events == [] {
      return last;
    }
    match events[0] {
      case Upserted(id, address, now) =>
        var t := Touched(s, id, address, now);
        TouchKeepsHealthy(s, last, id, address, now);
        var m :| Pruned(t, m, now) && Runs(m, now, events[1..], s');
        PruneKeepsHealthy(t, m, now);
        last' := RunsStayHealthy(m, now, events[1..], s');
      case Succeeded(id, now) =>
        SucceedKeepsHealthy(s, last, id, now);
        last' := RunsStayHealthy(Succeeding(s, id, now), now, events[1..], s');
      case Failed(id) =>
        FailKeepsHealthy(s, last, id);
        last' := RunsStayHealthy(Failing(s, id), last, events[1..], s');
    }
  }

  /** The same, said of every run from empty storage. */
  lemma NoStoredPeerIsExhausted(config: Config, start: nat, events: seq<Event>, s': Storage, k: PeerId, now: nat)
    requires config.maxAttempts >= 1 && Runs(Storage(map[], config), start, events, s') && k in s'.peers
    requires s'.peers[k].lastConnected <= now
    ensures s'.peers[k].failures < config.maxAttempts
    ensures Score(Fail(s'.peers[k]), now) < Score(s'.peers[k], now)
  {
    var last := RunsStayHealthy(Storage(map[], config), start, events, s');
    FailureLowersScoreIff(s'.peers[k], now);
  }
}
