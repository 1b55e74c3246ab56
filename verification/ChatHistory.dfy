/** What the message store says about the calls behind it: which row a posted message leaves, and what the unread count
    of a conversation has counted (grid/chat.rs). */
module ChatHistory {
  import opened Prelude
  import opened Utf8
  import opened Chat

  /** The name a new conversation gets: the peer id if it takes at most eight bytes, else its first eight, if they end
      at a character. */
  lemma ShortIdIff(peer: PeerId)
    ensures ShortId(peer).Some? <==> ByteLen(peer) <= 8 || IsBoundary(peer, 8)
    ensures ByteLen(peer) <= 8 ==> ShortId(peer) == Some(peer)
    ensures ByteLen(peer) > 8 && ShortId(peer).Some? ==>
      ShortId(peer).value <= peer && ByteLen(ShortId(peer).value) == 8
  {
    SliceIff(peer, 8);
  }

  // ----- the row a message leaves -----

  /** A row says what the event said: a received one is incoming, delivered and from the peer; a written one is
      outgoing, pending and from this node. */
  predicate Records(row: Message, self: PeerId, e: Event)
    requires e.Received? || e.Wrote?
  {
    && row.id == e.id && row.content == e.content && row.timestamp == e.timestamp
    && (e.Received? ==> !row.outgoing && row.status == Delivered && row.sender == e.peer)
    && (e.Wrote? ==> row.outgoing && row.status == Status.Pending && row.sender == self)
  }

  /** A message that can be posted leaves exactly one row, the last one, which records it under the conversation with
      the peer; any other leaves the rows alone. */
  lemma PostingRecords(s: Store, self: PeerId, e: Event)
    requires e.Received? || e.Wrote?
    ensures var s' := Next(s, self, e);
      if Posts(s, e.peer, e.id, e.timestamp, e.newId) then
        && |s'.messages| == |s.messages| + 1 && s'.messages[..|s.messages|] == s.messages
        && var row := s'.messages[|s.messages|];
        && Records(row, self, e)
        && row.conv in s'.conversations && s'.conversations[row.conv].peer == e.peer
      else s'.messages == s.messages
  {
    if ShortId(e.peer).Some? {
      PostInserts(s, e.peer, Posted(self, e), e.newId);
    }
  }

  /** Every row of a run records one of its messages, whatever has become of its status. */
  lemma {:induction false} RowsAreRecorded(l: Ledger, self: PeerId, events: seq<Event>, k: nat)
    requires k < |Run(l, self, events).store.messages|
    ensures var row := Run(l, self, events).store.messages[k];
      || (k < |l.store.messages| && SameButStatus(row, l.store.messages[k]))
      || exists e :: e in events && RecordsButStatus(row, self, e)
    decreases |events|
  {
    if events == [] {
    } else {
      var e := events[0];
      var l' := Advance(l, self, e);
      RowsAreRecorded(l', self, events[1..], k);
      if k < |l'.store.messages| {
        StepRecords(l.store, self, e, k);
        assert e in events;
      }
    }
  }

  predicate SameButStatus(a: Message, b: Message) { a.(status := b.status) == b }

  predicate RecordsButStatus(row: Message, self: PeerId, e: Event) {
    (e.Received? || e.Wrote?) && Records(row.(status := if e.Received? then Delivered else Status.Pending), self, e)
  }

  lemma StepRecords(s: Store, self: PeerId, e: Event, k: nat)
    requires k < |Next(s, self, e).messages|
    ensures var row := Next(s, self, e).messages[k];
      (k < |s.messages| && SameButStatus(row, s.messages[k])) || (k == |s.messages| && RecordsButStatus(row, self, e))
  {
    if e.Received? || e.Wrote? {
      PostingRecords(s, self, e);
      var s' := Next(s, self, e);
      if k < |s.messages| && s'.messages != s.messages {
        assert s'.messages[..|s.messages|][k] == s.messages[k];
      }
    }
  }

  predicate TimesFit(s: Store) { forall m :: m in s.messages ==> m.timestamp < 0x8000_0000_0000_0000 }

  /** No run stores a time that SQLite cannot hold, so no page of a conversation ends with one. */
  lemma {:induction false} RunsKeepTimes(l: Ledger, self: PeerId, events: seq<Event>)
    requires TimesFit(l.store)
    ensures TimesFit(Run(l, self, events).store)
    decreases |events|
  {
    if events == [] {
    } else {
      var s, e := l.store, events[0];
      var s' := Next(s, self, e);
      if e.Received? || e.Wrote? {
        PostingRecords(s, self, e);
        assert s'.messages != s.messages ==> s'.messages == s.messages + [s'.messages[|s.messages|]];
      } else if e.StatusChanged? {
        StatusKeepsTimes(s, e.id, e.status);
      }
      RunsKeepTimes(Advance(l, self, e), self, events[1..]);
    }
  }

  lemma StatusKeepsTimes(s: Store, id: MsgId, status: Status)
    requires TimesFit(s)
    ensures TimesFit(UpdateStatus(s, id, status).0)
  {
    forall i | 0 <= i < |s.messages| ensures WithStatus(s.messages, id, status)[i].timestamp < 0x8000_0000_0000_0000 {
      assert s.messages[i] in s.messages;
    }
  }

  // ----- what the unread count has counted -----

  /** How a step moves the number of unread messages from a peer: one more if a message from it is stored, none left if
      its conversation is marked read. */
  ghost function Tally(s: Store, e: Event, peer: PeerId, n: nat): nat {
    if e.Received? && e.peer == peer && Posts(s, peer, e.id, e.timestamp, e.newId) then n + 1
    else if e.MarkedRead? && !s.poisoned && e.conv in s.conversations && s.conversations[e.conv].peer == peer then 0
    else n
  }

  /** The messages from a peer that a run stores after it last marks the conversation with that peer read. */
  ghost function StoredSinceRead(s: Store, self: PeerId, events: seq<Event>, peer: PeerId, n: nat): nat
    decreases |events|
  {
    if events == [] then n
    else StoredSinceRead(Next(s, self, events[0]), self, events[1..], peer, Tally(s, events[0], peer, n))
  }

  /** The conversation with the peer, if there is one, counts `n` unread messages; without one `n` is 0. */
  ghost predicate UnreadIs(s: Store, peer: PeerId, n: nat) {
    && (forall c :: c in s.conversations && s.conversations[c].peer == peer ==> s.conversations[c].unread == n)
    && (HasPeer(s, peer) || n == 0)
  }

  lemma CreateKeepsUnread(s: Store, other: PeerId, name: string, newId: ConvId, peer: PeerId, n: nat)
    requires UnreadIs(s, peer, n)
    ensures UnreadIs(GetOrCreate(s, other, name, newId).0, peer, n)
  {
    var s' := GetOrCreate(s, other, name, newId).0;
    if HasPeer(s, peer) {
      var c :| c in s.conversations && s.conversations[c].peer == peer;
      assert c in s'.conversations && s'.conversations[c].peer == peer;
    }
  }

  lemma StoreMovesUnread(s: Store, m: Message, peer: PeerId, n: nat)
    requires UniquePeers(s) && UnreadIs(s, peer, n) && (Inserts(s, m) ==> Fits(m.content))
    ensures var hit := Inserts(s, m) && !m.outgoing && s.conversations[m.conv].peer == peer;
      UnreadIs(StoreMessage(s, m).0, peer, if hit then n + 1 else n)
  {
    PreviewIff(m.content);
    var s' := StoreMessage(s, m).0;
    if HasPeer(s, peer) {
      var c :| c in s.conversations && s.conversations[c].peer == peer;
      assert c in s'.conversations && s'.conversations[c].peer == peer;
    }
  }

  lemma PostMovesUnread(s: Store, self: PeerId, e: Event, peer: PeerId, n: nat)
    requires e.Received? || e.Wrote?
    requires UniquePeers(s) && UnreadIs(s, peer, n) && !Cuts(s, e)
    ensures UnreadIs(Next(s, self, e), peer, Tally(s, e, peer, n))
  {
    if ShortId(e.peer).Some? {
      var m := Posted(self, e);
      PostInserts(s, e.peer, m, e.newId);
      CreateKeepsUnread(s, e.peer, ShortId(e.peer).value, e.newId, peer, n);
      var (s1, conv) := GetOrCreate(s, e.peer, ShortId(e.peer).value, e.newId);
      if conv.Ok? {
        StoreMovesUnread(s1, m.(conv := conv.value), peer, n);
      }
    }
  }

  lemma MarkMovesUnread(s: Store, self: PeerId, conv: ConvId, peer: PeerId, n: nat)
    requires UniquePeers(s) && UnreadIs(s, peer, n)
    ensures UnreadIs(Next(s, self, MarkedRead(conv)), peer, Tally(s, MarkedRead(conv), peer, n))
  {
    var s' := Next(s, self, MarkedRead(conv));
    if HasPeer(s, peer) {
      var c :| c in s.conversations && s.conversations[c].peer == peer;
      assert c in s'.conversations && s'.conversations[c].peer == peer;
    }
  }

  lemma StepMovesUnread(s: Store, self: PeerId, e: Event, peer: PeerId, n: nat)
    requires UniquePeers(s) && UnreadIs(s, peer, n) && !Cuts(s, e)
    ensures UnreadIs(Next(s, self, e), peer, Tally(s, e, peer, n))
  {
    match e
    case OpenedWith(other, name, newId) => CreateKeepsUnread(s, other, name, newId, peer, n);
    case MarkedRead(conv) => MarkMovesUnread(s, self, conv, peer, n);
    case StatusChanged(_, _) =>
    case Restarted =>
    case _ => PostMovesUnread(s, self, e, peer, n);
  }

  lemma {:induction false} RunMovesUnread(l: Ledger, self: PeerId, events: seq<Event>, peer: PeerId, n: nat)
    requires Consistent(l) && NeverCuts(l, self, events) && UnreadIs(l.store, peer, n)
    ensures UnreadIs(Run(l, self, events).store, peer, StoredSinceRead(l.store, self, events, peer, n))
    decreases |events|
  {
    if events == [] {
    } else {
      StepConsistentIff(l, self, events[0]);
      StepMovesUnread(l.store, self, events[0], peer, n);
      RunMovesUnread(Advance(l, self, events[0]), self, events[1..], peer, Tally(l.store, events[0], peer, n));
    }
  }

  /** In every run from the empty store that stores no message whose text does not fit, the unread count of a
      conversation is the number of messages received from its peer and stored since it was last marked read. What this
      node itself writes never counts, nor do refused messages, status changes and restarts. */
  lemma UnreadCountsReceived(self: PeerId, events: seq<Event>, conv: ConvId)
    requires NeverCuts(EMPTY, self, events) && conv in Run(EMPTY, self, events).store.conversations
    ensures var c := Run(EMPTY, self, events).store.conversations[conv];
      c.unread == StoredSinceRead(EMPTY.store, self, events, c.peer, 0)
  {
    EmptyIsConsistent();
    RunMovesUnread(EMPTY, self, events, Run(EMPTY, self, events).store.conversations[conv].peer, 0);
  }
}
