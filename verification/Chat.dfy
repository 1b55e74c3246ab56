/** The chat store: conversations and messages as keyed tables with cached aggregates (grid/chat.rs). */
module Chat {
  import opened Prelude
  import opened Utf8

  type ConvId = string
  type MsgId = string

  /** SQLite integers are signed 64-bit; a larger timestamp cannot be bound to a statement. */
  const MAX_TIMESTAMP: nat := 0x7fff_ffff_ffff_ffff

  datatype Status = Pending | Sent | Delivered | Read | Failed

  datatype Message = Message(
    id: MsgId, conv: ConvId, sender: PeerId, content: string, timestamp: nat, outgoing: bool, status: Status)

  datatype Conversation = Conversation(
    id: ConvId, peer: PeerId, displayName: string, lastMessage: Option<string>, lastMessageAt: Option<nat>, unread: nat)

  /** The two tables, conversations by primary key and messages as rows in insertion order with unique ids; and whether
      a panic has poisoned the lock around the database. */
  datatype Store = Store(conversations: map<ConvId, Conversation>, messages: seq<Message>, poisoned: bool)

  /** A call fails with an error, or it panics. */
  datatype Error = Refused(reason: string) | Panicked

  const LOCK_ERROR: Error := Refused("Lock error")

  /** The first 47 bytes and an ellipsis if the text takes more than 50. The slice panics inside a character. */
  function Preview(content: string): Option<string> {
    if ByteLen(content) <= 50 then Some(content)
    else if Slice(content, 47).None? then None
    else Some(Slice(content, 47).value + "...")
  }

  /** The first 8 bytes of a peer id, sliced before the lock is taken. */
  function ShortId(peer: PeerId): Option<string> {
    if ByteLen(peer) > 8 then Slice(peer, 8) else Some(peer)
  }

  predicate HasMessage(s: Store, id: MsgId) {
    exists k :: 0 <= k < |s.messages| && s.messages[k].id == id
  }

  predicate HasPeer(s: Store, peer: PeerId) {
    exists c :: c in s.conversations && s.conversations[c].peer == peer
  }

  /** The conversation with a peer; the peer column is unique, so there is one answer. */
  ghost function ByPeer(s: Store, peer: PeerId): ConvId
    requires HasPeer(s, peer)
  {
    var c :| c in s.conversations && s.conversations[c].peer == peer;
    c
  }

  /** `newId` is the UUID the source would generate; inserting fails if it is taken. */
  ghost function GetOrCreate(s: Store, peer: PeerId, name: string, newId: ConvId): (Store, Result<ConvId, Error>) {
    if s.poisoned then (s, Err(LOCK_ERROR))
    else if HasPeer(s, peer) then (s, Ok(ByPeer(s, peer)))
    else if newId in s.conversations then (s, Err(Refused("Failed to create conversation")))
    else (s.(conversations := s.conversations[newId := Conversation(newId, peer, name, None, None, 0)]), Ok(newId))
  }

  /** Whether the insert goes through: the id is free, the conversation exists (the bundled SQLite enforces foreign
      keys) and the timestamp is in range. */
  predicate Inserts(s: Store, m: Message) {
    !s.poisoned && m.timestamp <= MAX_TIMESTAMP && !HasMessage(s, m.id) && m.conv in s.conversations
  }

  /** Insert a message, then update its conversation. The insert is committed by itself; if cutting the preview panics
      after it, the row stays, its conversation is not updated and the lock is poisoned. */
  function StoreMessage(s: Store, m: Message): (Store, Result<(), Error>) {
    if s.poisoned then (s, Err(LOCK_ERROR))
    else if !Inserts(s, m) then (s, Err(Refused("Failed to store message")))
    else if Preview(m.content).None? then (s.(messages := s.messages + [m], poisoned := true), Err(Panicked))
    else
      var c := s.conversations[m.conv];
      var c' := c.(lastMessage := Preview(m.content), lastMessageAt := Some(m.timestamp),
                   unread := c.unread + (if m.outgoing then 0 else 1));
      (s.(conversations := s.conversations[m.conv := c'], messages := s.messages + [m]), Ok(()))
  }

  function Incoming(conv: ConvId, peer: PeerId, id: MsgId, content: string, timestamp: nat): Message {
    Message(id, conv, peer, content, timestamp, false, Delivered)
  }

  function Outgoing(conv: ConvId, self: PeerId, id: MsgId, content: string, timestamp: nat): Message {
    Message(id, conv, self, content, timestamp, true, Pending)
  }

  /** What storing an incoming or outgoing message has in common; `m` lacks only its conversation. */
  ghost function Post(s: Store, peer: PeerId, m: Message, newId: ConvId): (Store, Result<Message, Error>) {
    match ShortId(peer)
    case None => (s, Err(Panicked))
    case Some(name) =>
      var (s1, conv) := GetOrCreate(s, peer, name, newId);
      match conv
      case Err(e) => (s1, Err(e))
      case Ok(c) =>
        var (s2, r) := StoreMessage(s1, m.(conv := c));
        (s2, match r case Ok(_) => Ok(m.(conv := c)) case Err(e) => Err(e))
  }

  function MarkRead(s: Store, conv: ConvId): (Store, Result<(), Error>) {
    if s.poisoned then (s, Err(LOCK_ERROR))
    else if conv in s.conversations then
      (s.(conversations := s.conversations[conv := s.conversations[conv].(unread := 0)]), Ok(()))
    else (s, Ok(()))
  }

  function WithStatus(rows: seq<Message>, id: MsgId, status: Status): (r: seq<Message>)
    ensures |r| == |rows|
    ensures forall i :: 0 <= i < |rows| ==> r[i] == if rows[i].id == id then rows[i].(status := status) else rows[i]
  {
    seq(|rows|, i requires 0 <= i < |rows| => if rows[i].id == id then rows[i].(status := status) else rows[i])
  }

  function UpdateStatus(s: Store, id: MsgId, status: Status): (Store, Result<(), Error>) {
    if s.poisoned then (s, Err(LOCK_ERROR))
    else (s.(messages := WithStatus(s.messages, id, status)), Ok(()))
  }

  /** A restart opens the same tables under a new lock. */
  function Reopen(s: Store): Store { s.(poisoned := false) }

  class ChatManager {
    const self: PeerId
    var conversations: map<ConvId, Conversation>
    var messages: seq<Message>
    var poisoned: bool

    ghost function Value(): Store
      reads this
    {
      Store(conversations, messages, poisoned)
    }

    constructor (self: PeerId)
      ensures Value() == Store(map[], [], false) && this.self == self
    {
      this.self := self;
      conversations, messages, poisoned := map[], [], false;
    }

    method GetOrCreateConversation(peer: PeerId, name: string, newId: ConvId) returns (r: Result<ConvId, Error>)
      requires UniquePeers(Value())
      modifies this
      ensures (Value(), r) == GetOrCreate(old(Value()), peer, name, newId)
      ensures r.Ok? ==> r.value in conversations && conversations[r.value].peer == peer
      ensures r.Ok? && r.value !in old(conversations) ==>
        r.value == newId && conversations[newId] == Conversation(newId, peer, name, None, None, 0)
    {
      if poisoned {
        return Err(LOCK_ERROR);
      }
      if c :| c in conversations && conversations[c].peer == peer {
        return Ok(c);
      }
      if newId in conversations {
        return Err(Refused("Failed to create conversation"));
      }
      conversations := conversations[newId := Conversation(newId, peer, name, None, None, 0)];
      return Ok(newId);
    }

    method Put(m: Message) returns (r: Result<(), Error>)
      modifies this
      ensures (Value(), r) == StoreMessage(old(Value()), m)
    {
      if poisoned {
        return Err(LOCK_ERROR);
      }
      var known := HasMessage(Store(conversations, messages, poisoned), m.id);
      if m.timestamp > MAX_TIMESTAMP || known || m.conv !in conversations {
        return Err(Refused("Failed to store message"));
      }
      messages := messages + [m];
      var preview := m.content;
      if ByteLen(m.content) > 50 {
        var cut := Slice(m.content, 47);
        if cut.None? {
          poisoned := true;
          return Err(Panicked);
        }
        preview := cut.value + "...";
      }
      var c := conversations[m.conv].(lastMessage := Some(preview), lastMessageAt := Some(m.timestamp));
      if !m.outgoing {
        c := c.(unread := c.unread + 1);
      }
      conversations := conversations[m.conv := c];
      return Ok(());
    }

    method StoreIncomingMessage(peer: PeerId, id: MsgId, content: string, timestamp: nat, newId: ConvId)
      returns (r: Result<Message, Error>)
      requires UniquePeers(Value())
      modifies this
      ensures (Value(), r) == Post(old(Value()), peer, Incoming("", peer, id, content, timestamp), newId)
      ensures r.Ok? ==> messages == old(messages) + [r.value]
      ensures r.Ok? ==> r.value == Message(id, r.value.conv, peer, content, timestamp, false, Delivered)
    {
      var name := ShortId(peer);
      if name.None? {
        return Err(Panicked);
      }
      var conv := GetOrCreateConversation(peer, name.value, newId);
      if conv.Err? {
        return Err(conv.error);
      }
      var m := Message(id, conv.value, peer, content, timestamp, false, Delivered);
      var stored := Put(m);
      r := if stored.Ok? then Ok(m) else Err(stored.error);
    }

    method StoreOutgoingMessage(peer: PeerId, id: MsgId, content: string, timestamp: nat, newId: ConvId)
      returns (r: Result<Message, Error>)
      requires UniquePeers(Value())
      modifies this
      ensures (Value(), r) == Post(old(Value()), peer, Outgoing("", self, id, content, timestamp), newId)
      ensures r.Ok? ==> messages == old(messages) + [r.value]
      ensures r.Ok? ==> r.value == Message(id, r.value.conv, self, content, timestamp, true, Pending)
    {
      var name := ShortId(peer);
      if name.None? {
        return Err(Panicked);
      }
      var conv := GetOrCreateConversation(peer, name.value, newId);
      if conv.Err? {
        return Err(conv.error);
      }
      var m := Message(id, conv.value, self, content, timestamp, true, Pending);
      var stored := Put(m);
      r := if stored.Ok? then Ok(m) else Err(stored.error);
    }

    method MarkConversationRead(conv: ConvId) returns (r: Result<(), Error>)
      modifies this
      ensures (Value(), r) == MarkRead(old(Value()), conv)
      ensures r.Ok? ==> messages == old(messages) && (conv in conversations ==> conversations[conv].unread == 0)
    {
      if poisoned {
        return Err(LOCK_ERROR);
      }
      if conv in conversations {
        conversations := conversations[conv := conversations[conv].(unread := 0)];
      }
      return Ok(());
    }

    method UpdateMessageStatus(id: MsgId, status: Status) returns (r: Result<(), Error>)
      modifies this
      ensures (Value(), r) == UpdateStatus(old(Value()), id, status)
      ensures r.Ok? ==> conversations == old(conversations) && |messages| == |old(messages)|
      ensures r.Ok? ==> forall i :: 0 <= i < |messages| ==> var row := old(messages)[i];
        messages[i] == if row.id == id then row.(status := status) else row
    {
      if poisoned {
        return Err(LOCK_ERROR);
      }
      messages := WithStatus(messages, id, status);
      return Ok(());
    }
  }

  /** At most one conversation per peer. */
  ghost predicate UniquePeers(s: Store) {
    forall a, b :: a in s.conversations && b in s.conversations && s.conversations[a].peer == s.conversations[b].peer
                   ==> a == b
  }

  // ----- previews -----

  /** There is a preview exactly if the text fits 50 bytes or byte 47 is a character boundary; it fits 50 bytes, and is
      the text itself or its first 47 bytes and an ellipsis. */
  lemma PreviewIff(content: string)
    ensures Preview(content).Some? <==> ByteLen(content) <= 50 || IsBoundary(content, 47)
    ensures ByteLen(content) <= 50 <==> Preview(content) == Some(content)
    ensures ByteLen(content) > 50 && Preview(content).Some? ==>
      var front := Slice(content, 47).value;
      front <= content && ByteLen(front) == 47 && Preview(content) == Some(front + "...")
      && ByteLen(front + "...") == 50
  {
    SliceIff(content, 47);
    if ByteLen(content) > 50 && Preview(content).Some? {
      var front := Slice(content, 47).value;
      ByteLenAppend(front, "...");
      assert ByteLen("...") == 3;
    }
  }

  lemma AsciiAlwaysFits(content: string)
    requires forall c :: c in content ==> Width(c) == 1
    ensures Preview(content).Some?
  {
    PreviewIff(content);
    EvenWidths(content, 1, |content|);
    assert content[..|content|] == content;
    if |content| > 50 {
      EvenWidths(content, 1, 47);
    }
  }

  /** 47 is a prime: a long text in characters of one width has a preview only if it is ASCII. All-Cyrillic messages
      beyond 25 letters have none, nor have all-Chinese ones beyond 16. */
  lemma LongForeignTextsHaveNone(content: string, w: nat)
    requires 2 <= w <= 4 && ByteLen(content) > 50 && forall c :: c in content ==> Width(c) == w
    ensures Preview(content).None?
  {
    PreviewIff(content);
    forall k | 0 <= k <= |content| ensures ByteLen(content[..k]) != 47 {
      EvenWidths(content, w, k);
      if w == 2 {
      } else if w == 3 {
      } else {
      }
    }
  }

  // ----- runs -----

  datatype Event =
    | OpenedWith(peer: PeerId, name: string, newId: ConvId)
    | Received(peer: PeerId, id: MsgId, content: string, timestamp: nat, newId: ConvId)
    | Wrote(peer: PeerId, id: MsgId, content: string, timestamp: nat, newId: ConvId)
    | MarkedRead(conv: ConvId)
    | StatusChanged(id: MsgId, status: Status)
    | Restarted

  /** The message a posting event stores, as far as the event says. */
  function Posted(self: PeerId, e: Event): Message
    requires e.Received? || e.Wrote?
  {
    if e.Received? then Incoming("", e.peer, e.id, e.content, e.timestamp)
    else Outgoing("", self, e.id, e.content, e.timestamp)
  }

  ghost function Next(s: Store, self: PeerId, e: Event): Store {
    match e
    case OpenedWith(peer, name, newId) => GetOrCreate(s, peer, name, newId).0
    case Received(peer, _, _, _, newId) => Post(s, peer, Posted(self, e), newId).0
    case Wrote(peer, _, _, _, newId) => Post(s, peer, Posted(self, e), newId).0
    case MarkedRead(conv) => MarkRead(s, conv).0
    case StatusChanged(id, status) => UpdateStatus(s, id, status).0
    case Restarted => Reopen(s)
  }

  /** A store together with, per conversation, how many rows the table had when it was last marked read. */
  datatype Ledger = Ledger(store: Store, marks: map<ConvId, nat>)

  ghost function Advance(l: Ledger, self: PeerId, e: Event): Ledger {
    Ledger(Next(l.store, self, e),
           if e.MarkedRead? && !l.store.poisoned then l.marks[e.conv := |l.store.messages|] else l.marks)
  }

  ghost function Run(l: Ledger, self: PeerId, events: seq<Event>): Ledger
    decreases |events|
  {
    if events == [] then l else Run(Advance(l, self, events[0]), self, events[1..])
  }

  const EMPTY: Ledger := Ledger(Store(map[], [], false), map[])

  function CountIncoming(rows: seq<Message>, conv: ConvId): nat {
    if rows == [] then 0
    else
      var last := rows[|rows| - 1];
      CountIncoming(rows[..|rows| - 1], conv) + (if last.conv == conv && !last.outgoing then 1 else 0)
  }

  function Mark(l: Ledger, conv: ConvId): nat {
    if conv in l.marks then l.marks[conv] else 0
  }

  /** Primary, unique and foreign keys. */
  ghost predicate Keyed(s: Store) {
    && UniquePeers(s)
    && (forall c :: c in s.conversations ==> s.conversations[c].id == c)
    && (forall i, j :: 0 <= i < j < |s.messages| ==> s.messages[i].id != s.messages[j].id)
    && (forall i :: 0 <= i < |s.messages| ==> s.messages[i].conv in s.conversations)
  }

  /** Unread incoming rows of a conversation. */
  function Unread(rows: seq<Message>, mark: nat, conv: ConvId): nat
    requires mark <= |rows|
  {
    CountIncoming(rows[mark..], conv)
  }

  ghost predicate CountedFor(l: Ledger, c: ConvId) {
    && Mark(l, c) <= |l.store.messages|
    && (c in l.store.conversations ==> l.store.conversations[c].unread == Unread(l.store.messages, Mark(l, c), c))
  }

  ghost predicate Counted(l: Ledger) {
    forall c :: CountedFor(l, c)
  }

  /** The last row stored for a conversation. */
  function LastIn(rows: seq<Message>, conv: ConvId): Option<Message> {
    if rows == [] then None
    else if rows[|rows| - 1].conv == conv then Some(rows[|rows| - 1])
    else LastIn(rows[..|rows| - 1], conv)
  }

  predicate Shows(c: Conversation, last: Option<Message>) {
    match last
    case None => c.lastMessage == None && c.lastMessageAt == None
    case Some(m) => c.lastMessage.Some? && c.lastMessage == Preview(m.content) && c.lastMessageAt == Some(m.timestamp)
  }

  /** Every conversation shows the preview and time of the last row stored for it. */
  ghost predicate Previewed(s: Store) {
    forall c :: c in s.conversations ==> Shows(s.conversations[c], LastIn(s.messages, c))
  }

  /** Keys hold, counts are right and previews are current. The tables survive a restart, so the lock does not matter.
      */
  ghost predicate Consistent(l: Ledger) {
    Keyed(l.store) && Counted(l) && Previewed(l.store)
  }

  lemma {:induction false} NoRowsNoLast(rows: seq<Message>, conv: ConvId)
    requires forall i :: 0 <= i < |rows| ==> rows[i].conv != conv
    ensures LastIn(rows, conv) == None
  {
    if rows == [] {
    } else {
      NoRowsNoLast(rows[..|rows| - 1], conv);
    }
  }

  lemma {:induction false} LastAfterStatus(a: seq<Message>, b: seq<Message>, conv: ConvId)
    requires |a| == |b| && forall i :: 0 <= i < |a| ==>
      a[i].conv == b[i].conv && a[i].content == b[i].content && a[i].timestamp == b[i].timestamp
    ensures LastIn(a, conv).Some? <==> LastIn(b, conv).Some?
    ensures LastIn(a, conv).Some? ==>
      LastIn(a, conv).value.content == LastIn(b, conv).value.content
      && LastIn(a, conv).value.timestamp == LastIn(b, conv).value.timestamp
  {
    if a == [] {
    } else {
      LastAfterStatus(a[..|a| - 1], b[..|b| - 1], conv);
    }
  }

  lemma {:induction false} NoRowsNoCount(rows: seq<Message>, conv: ConvId)
    requires forall i :: 0 <= i < |rows| ==> rows[i].conv != conv
    ensures CountIncoming(rows, conv) == 0
  {
    if rows == [] {
    } else {
      NoRowsNoCount(rows[..|rows| - 1], conv);
    }
  }

  lemma {:induction false} CountDependsOnFlags(a: seq<Message>, b: seq<Message>, conv: ConvId)
    requires |a| == |b| && forall i :: 0 <= i < |a| ==> a[i].conv == b[i].conv && a[i].outgoing == b[i].outgoing
    ensures CountIncoming(a, conv) == CountIncoming(b, conv)
  {
    if a == [] {
    } else {
      CountDependsOnFlags(a[..|a| - 1], b[..|b| - 1], conv);
    }
  }

  // ----- creating a conversation -----

  lemma CreateKeepsCounts(l: Ledger, peer: PeerId, name: string, newId: ConvId)
    requires Keyed(l.store) && Counted(l)
    ensures Counted(l.(store := GetOrCreate(l.store, peer, name, newId).0))
  {
    var l' := l.(store := GetOrCreate(l.store, peer, name, newId).0);
    forall c ensures CountedFor(l', c) {
      assert CountedFor(l, c);
      if c in l'.store.conversations && c !in l.store.conversations {
        NoRowsNoCount(l.store.messages[Mark(l, c)..], c);
      }
    }
  }

  lemma CreateKeepsConsistent(l: Ledger, peer: PeerId, name: string, newId: ConvId)
    requires Consistent(l)
    ensures Consistent(l.(store := GetOrCreate(l.store, peer, name, newId).0))
  {
    CreateKeepsCounts(l, peer, name, newId);
    if newId !in l.store.conversations {
      NoRowsNoLast(l.store.messages, newId);
    }
  }

  // ----- storing a message -----

  /** The text can be stored with a preview: something the caller can see before the call. */
  ghost predicate Fits(content: string) { ByteLen(content) <= 50 || IsBoundary(content, 47) }

  lemma StoreKeepsKeys(s: Store, m: Message)
    requires Keyed(s)
    ensures Keyed(StoreMessage(s, m).0)
  {
  }

  lemma StoreKeepsCounts(l: Ledger, m: Message)
    requires Counted(l) && StoreMessage(l.store, m).1.Ok?
    ensures Counted(l.(store := StoreMessage(l.store, m).0))
  {
    var l' := l.(store := StoreMessage(l.store, m).0);
    forall c ensures CountedFor(l', c) {
      assert CountedFor(l, c);
      var tail := l.store.messages[Mark(l, c)..];
      var tail' := l'.store.messages[Mark(l, c)..];
      assert tail' == tail + [m] && tail'[..|tail'| - 1] == tail;
    }
  }

  lemma StoreKeepsPreviews(s: Store, m: Message)
    requires Previewed(s) && StoreMessage(s, m).1.Ok?
    ensures Previewed(StoreMessage(s, m).0)
  {
    assert (s.messages + [m])[..|s.messages|] == s.messages;
  }

  /** A cut that panics leaves the row behind and its conversation without the preview of it. */
  lemma PanicBreaksPreviews(s: Store, m: Message)
    requires Inserts(s, m) && Preview(m.content).None?
    ensures !Previewed(StoreMessage(s, m).0)
  {
    var s' := StoreMessage(s, m).0;
    assert s'.messages[|s'.messages| - 1] == m && LastIn(s'.messages, m.conv) == Some(m);
    assert !Shows(s'.conversations[m.conv], Some(m));
  }

  /** Storing keeps the tables consistent if and only if the insert is refused or the text fits. */
  lemma StoreConsistentIff(l: Ledger, m: Message)
    requires Consistent(l)
    ensures Consistent(l.(store := StoreMessage(l.store, m).0)) <==> !Inserts(l.store, m) || Fits(m.content)
  {
    PreviewIff(m.content);
    if Inserts(l.store, m) {
      if Fits(m.content) {
        StoreKeepsKeys(l.store, m);
        StoreKeepsCounts(l, m);
        StoreKeepsPreviews(l.store, m);
      } else {
        PanicBreaksPreviews(l.store, m);
      }
    } else {
      assert l.(store := StoreMessage(l.store, m).0) == l;
    }
  }

  /** What posting needs besides a text that fits. */
  ghost predicate Posts(s: Store, peer: PeerId, id: MsgId, timestamp: nat, newId: ConvId) {
    && !s.poisoned && ShortId(peer).Some?
    && timestamp <= MAX_TIMESTAMP && !HasMessage(s, id)
    && (HasPeer(s, peer) || newId !in s.conversations)
  }

  lemma PostInserts(s: Store, peer: PeerId, m: Message, newId: ConvId)
    requires ShortId(peer).Some?
    ensures var (s1, conv) := GetOrCreate(s, peer, ShortId(peer).value, newId);
      && (conv.Ok? && Inserts(s1, m.(conv := conv.value)) <==> Posts(s, peer, m.id, m.timestamp, newId))
      && (conv.Ok? ==> conv.value in s1.conversations && s1.conversations[conv.value].peer == peer)
      && Post(s, peer, m, newId).0 == if conv.Ok? then StoreMessage(s1, m.(conv := conv.value)).0 else s1
  {
    var (s1, conv) := GetOrCreate(s, peer, ShortId(peer).value, newId);
    assert HasMessage(s1, m.id) <==> HasMessage(s, m.id);
  }

  lemma PostConsistentIff(l: Ledger, peer: PeerId, m: Message, newId: ConvId)
    requires Consistent(l)
    ensures Consistent(l.(store := Post(l.store, peer, m, newId).0))
       <==> !Posts(l.store, peer, m.id, m.timestamp, newId) || Fits(m.content)
  {
    if ShortId(peer).Some? {
      PostInserts(l.store, peer, m, newId);
      CreateKeepsConsistent(l, peer, ShortId(peer).value, newId);
      var (s1, conv) := GetOrCreate(l.store, peer, ShortId(peer).value, newId);
      if conv.Ok? {
        StoreConsistentIff(l.(store := s1), m.(conv := conv.value));
      }
    } else {
      assert l.(store := Post(l.store, peer, m, newId).0) == l;
    }
  }

  // ----- statuses and marks -----

  lemma StatusKeepsUnread(s: Store, id: MsgId, status: Status, mark: nat, conv: ConvId)
    requires mark <= |s.messages|
    ensures Unread(WithStatus(s.messages, id, status), mark, conv) == Unread(s.messages, mark, conv)
  {
    var rows, rows' := s.messages, WithStatus(s.messages, id, status);
    var a, b := rows'[mark..], rows[mark..];
    forall i | 0 <= i < |a| ensures a[i].conv == b[i].conv && a[i].outgoing == b[i].outgoing {
      assert a[i] == rows'[mark + i] && b[i] == rows[mark + i];
    }
    CountDependsOnFlags(a, b, conv);
  }

  lemma StatusKeepsCounts(l: Ledger, id: MsgId, status: Status)
    requires Counted(l)
    ensures Counted(l.(store := UpdateStatus(l.store, id, status).0))
  {
    var l' := l.(store := UpdateStatus(l.store, id, status).0);
    forall c ensures CountedFor(l', c) {
      assert CountedFor(l, c);
      StatusKeepsUnread(l.store, id, status, Mark(l, c), c);
    }
  }

  lemma StatusKeepsPreviews(s: Store, id: MsgId, status: Status)
    requires Previewed(s)
    ensures Previewed(UpdateStatus(s, id, status).0)
  {
    var s' := UpdateStatus(s, id, status).0;
    forall c | c in s'.conversations ensures Shows(s'.conversations[c], LastIn(s'.messages, c)) {
      LastAfterStatus(s'.messages, s.messages, c);
    }
  }

  lemma StatusKeepsConsistent(l: Ledger, id: MsgId, status: Status)
    requires Consistent(l)
    ensures Consistent(l.(store := UpdateStatus(l.store, id, status).0))
  {
    StatusKeepsCounts(l, id, status);
    StatusKeepsPreviews(l.store, id, status);
  }

  lemma MarkKeepsConsistent(l: Ledger, self: PeerId, conv: ConvId)
    requires Consistent(l)
    ensures Consistent(Advance(l, self, MarkedRead(conv)))
  {
    var l' := Advance(l, self, MarkedRead(conv));
    forall c ensures CountedFor(l', c) {
      assert CountedFor(l, c);
    }
  }

  lemma RestartKeepsConsistent(l: Ledger)
    ensures Consistent(l.(store := Reopen(l.store))) <==> Consistent(l)
  {
    var l' := l.(store := Reopen(l.store));
    assert forall c :: CountedFor(l', c) <==> CountedFor(l, c);
  }

  // ----- consistency over whole runs -----

  /** The step would store a message whose text does not fit. */
  ghost predicate Cuts(s: Store, e: Event) {
    (e.Received? || e.Wrote?) && Posts(s, e.peer, e.id, e.timestamp, e.newId) && !Fits(e.content)
  }

  /** A step keeps consistent tables consistent if and only if it does not store a message whose text does not fit. */
  lemma StepConsistentIff(l: Ledger, self: PeerId, e: Event)
    requires Consistent(l)
    ensures Consistent(Advance(l, self, e)) <==> !Cuts(l.store, e)
  {
    match e
    case OpenedWith(peer, name, newId) => CreateKeepsConsistent(l, peer, name, newId);
    case Received(peer, _, _, _, newId) => PostConsistentIff(l, peer, Posted(self, e), newId);
    case Wrote(peer, _, _, _, newId) => PostConsistentIff(l, peer, Posted(self, e), newId);
    case MarkedRead(conv) => MarkKeepsConsistent(l, self, conv);
    case StatusChanged(id, status) => StatusKeepsConsistent(l, id, status);
    case Restarted => RestartKeepsConsistent(l);
  }

  ghost predicate NeverCuts(l: Ledger, self: PeerId, events: seq<Event>)
    decreases |events|
  {
    events != [] ==> !Cuts(l.store, events[0]) && NeverCuts(Advance(l, self, events[0]), self, events[1..])
  }

  ghost predicate AlwaysConsistent(l: Ledger, self: PeerId, events: seq<Event>)
    decreases |events|
  {
    Consistent(l) && (events != [] ==> AlwaysConsistent(Advance(l, self, events[0]), self, events[1..]))
  }

  /** In a run, restarts included, every state has one conversation per peer, unique message ids, each cached unread
      count equal to the number of incoming messages stored since the conversation was last marked read, and each cached
      preview and time those of its last message, if and only if no step stores a message whose text does not fit. */
  lemma {:induction false} RunConsistentIff(l: Ledger, self: PeerId, events: seq<Event>)
    requires Consistent(l)
    ensures AlwaysConsistent(l, self, events) <==> NeverCuts(l, self, events)
    decreases |events|
  {
    if events == [] {
    } else {
      var l' := Advance(l, self, events[0]);
      StepConsistentIff(l, self, events[0]);
      if Consistent(l') {
        RunConsistentIff(l', self, events[1..]);
      } else {
        assert !AlwaysConsistent(l', self, events[1..]);
      }
    }
  }

  lemma {:induction false} RunsKeepConsistent(l: Ledger, self: PeerId, events: seq<Event>)
    requires Consistent(l) && NeverCuts(l, self, events)
    ensures Consistent(Run(l, self, events))
    decreases |events|
  {
    if events == [] {
    } else {
      StepConsistentIff(l, self, events[0]);
      RunsKeepConsistent(Advance(l, self, events[0]), self, events[1..]);
    }
  }

  /** It is enough that all texts fit, as ASCII texts and texts of up to 50 bytes do. */
  lemma {:induction false} FittingTextsNeverCut(l: Ledger, self: PeerId, events: seq<Event>)
    requires forall e :: e in events && (e.Received? || e.Wrote?) ==> Fits(e.content)
    ensures NeverCuts(l, self, events)
    decreases |events|
  {
    if events == [] {
    } else {
      assert events[0] in events;
      FittingTextsNeverCut(Advance(l, self, events[0]), self, events[1..]);
    }
  }

  lemma EmptyIsConsistent()
    ensures Consistent(EMPTY)
  {
  }

  /** After a panic every call is refused until the restart. */
  lemma PoisonedIsInert(s: Store, self: PeerId, e: Event)
    requires s.poisoned && !e.Restarted?
    ensures Next(s, self, e) == s
  {
  }

  // ----- delivering a message again -----

  /** The peer has a conversation and the id is taken. */
  ghost predicate Known(s: Store, peer: PeerId, id: MsgId) {
    HasPeer(s, peer) && HasMessage(s, id)
  }

  /** Conversations keep their peer and name and rows keep their place and id, whatever happens. */
  ghost predicate KeepsRows(s: Store, s': Store) {
    && (forall c :: c in s.conversations ==>
          && c in s'.conversations && s'.conversations[c].peer == s.conversations[c].peer
          && s'.conversations[c].displayName == s.conversations[c].displayName)
    && |s.messages| <= |s'.messages|
    && (forall k :: 0 <= k < |s.messages| ==> s'.messages[k].id == s.messages[k].id)
  }

  lemma PostKeepsRows(s: Store, peer: PeerId, m: Message, newId: ConvId)
    ensures KeepsRows(s, Post(s, peer, m, newId).0)
  {
  }

  lemma StepKeepsRows(s: Store, self: PeerId, e: Event)
    ensures KeepsRows(s, Next(s, self, e))
  {
    if e.Received? || e.Wrote? {
      PostKeepsRows(s, e.peer, Posted(self, e), e.newId);
    }
  }

  lemma {:induction false} RunKeepsKnown(l: Ledger, self: PeerId, events: seq<Event>, peer: PeerId, id: MsgId)
    requires Known(l.store, peer, id)
    ensures Known(Run(l, self, events).store, peer, id)
    decreases |events|
  {
    if events == [] {
    } else {
      var s, s' := l.store, Next(l.store, self, events[0]);
      StepKeepsRows(s, self, events[0]);
      var c :| c in s.conversations && s.conversations[c].peer == peer;
      var k :| 0 <= k < |s.messages| && s.messages[k].id == id;
      assert c in s'.conversations && s'.conversations[c].peer == peer && s'.messages[k].id == id;
      RunKeepsKnown(Advance(l, self, events[0]), self, events[1..], peer, id);
    }
  }

  lemma PostedIsKnown(s: Store, peer: PeerId, m: Message, newId: ConvId)
    requires Posts(s, peer, m.id, m.timestamp, newId)
    ensures Known(Post(s, peer, m, newId).0, peer, m.id)
  {
    PostInserts(s, peer, m, newId);
    var (s0, conv) := GetOrCreate(s, peer, ShortId(peer).value, newId);
    var s1 := Post(s, peer, m, newId).0;
    assert conv.value in s1.conversations && s1.conversations[conv.value].peer == peer;
    assert s1.messages[|s1.messages| - 1].id == m.id;
  }

  /** Once the row of a message is stored, delivering its id again at any later time, whatever happened in between and
      whatever text or time it then carries, fails and changes nothing: no row, no preview, no unread count. */
  lemma RedeliveryIsIgnored(l: Ledger, self: PeerId, first: Event, between: seq<Event>, again: Event)
    requires first.Received? && Posts(l.store, first.peer, first.id, first.timestamp, first.newId)
    requires again.Received? && again.peer == first.peer && again.id == first.id
    ensures var s := Run(Advance(l, self, first), self, between).store;
      Post(s, again.peer, Posted(self, again), again.newId).0 == s
      && Post(s, again.peer, Posted(self, again), again.newId).1.Err?
  {
    PostedIsKnown(l.store, first.peer, Posted(self, first), first.newId);
    RunKeepsKnown(Advance(l, self, first), self, between, first.peer, first.id);
  }

  /** What becomes of a message: it is stored and shown if it can be posted and fits; its row is left behind by a panic
      if it can be posted and does not fit; otherwise every row and every conversation stays as it was. */
  lemma PostOutcome(s: Store, peer: PeerId, m: Message, newId: ConvId)
    ensures var (s', r) := Post(s, peer, m, newId);
      && (r.Ok? <==> Posts(s, peer, m.id, m.timestamp, newId) && Fits(m.content))
      && (s'.poisoned <==> s.poisoned || (Posts(s, peer, m.id, m.timestamp, newId) && !Fits(m.content)))
      && (r == Err(Panicked) <==>
            ShortId(peer).None? || (Posts(s, peer, m.id, m.timestamp, newId) && !Fits(m.content)))
      && (!Posts(s, peer, m.id, m.timestamp, newId) ==> s'.messages == s.messages)
      && (r.Ok? ==> s'.messages == s.messages + [r.value] && HasPeer(s', peer))
      && (r.Err? ==> forall c :: c in s.conversations ==>
            c in s'.conversations && s'.conversations[c] == s.conversations[c])
  {
    PreviewIff(m.content);
    if ShortId(peer).Some? {
      PostInserts(s, peer, m, newId);
      var (s0, conv) := GetOrCreate(s, peer, ShortId(peer).value, newId);
      var (s', r) := Post(s, peer, m, newId);
      if r.Ok? {
        assert conv.value in s'.conversations && s'.conversations[conv.value].peer == peer;
      }
    }
  }

  /** Posting is refused and yet leaves a new conversation behind, exactly if the peer had none, one could be created,
      and the row is then turned down for its time or its id. */
  lemma OrphanConversationIff(s: Store, peer: PeerId, m: Message, newId: ConvId)
    ensures var (s', r) := Post(s, peer, m, newId);
      r.Err? && r.error.Refused? && HasPeer(s', peer) && !HasPeer(s, peer)
      <==> !s.poisoned && ShortId(peer).Some? && !HasPeer(s, peer) && newId !in s.conversations
           && (m.timestamp > MAX_TIMESTAMP || HasMessage(s, m.id))
  {
    if ShortId(peer).Some? {
      PostInserts(s, peer, m, newId);
      var (s0, conv) := GetOrCreate(s, peer, ShortId(peer).value, newId);
      assert HasMessage(s0, m.id) <==> HasMessage(s, m.id);
    }
  }

  /** A first message with a time SQLite cannot hold: no row, but a conversation. */
  lemma LateMessageLeavesConversation(self: PeerId, e: Event)
    requires e.Received? && ShortId(e.peer).Some? && e.timestamp > MAX_TIMESTAMP
    ensures var s := Run(EMPTY, self, [e]).store;
      s.messages == [] && s.conversations.Keys == {e.newId} && HasPeer(s, e.peer)
  {
    assert [e][1..] == [];
    var s := Advance(EMPTY, self, e).store;
    assert Run(Advance(EMPTY, self, e), self, []).store == s;
    OrphanConversationIff(EMPTY.store, e.peer, Posted(self, e), e.newId);
    assert s.conversations == map[e.newId := Conversation(e.newId, e.peer, ShortId(e.peer).value, None, None, 0)];
  }

  // ----- the failing input -----

  /** Twenty-six accented letters, 52 bytes. */
  const ACCENTS: string := seq(26, _ => 'é')

  lemma AccentsDoNotFit()
    ensures ByteLen(ACCENTS) == 52 && !Fits(ACCENTS)
  {
    EvenWidths(ACCENTS, 2, 26);
    assert ACCENTS[..26] == ACCENTS;
    LongForeignTextsHaveNone(ACCENTS, 2);
    PreviewIff(ACCENTS);
  }

  lemma AfterPanic(self: PeerId, first: Event)
    requires first.Received? && ShortId(first.peer).Some? && first.timestamp <= MAX_TIMESTAMP && !Fits(first.content)
    ensures var l, c, m := Advance(EMPTY, self, first), first.newId, Posted(self, first).(conv := first.newId);
      && l.marks == map[] && l.store.poisoned && l.store.messages == [m]
      && l.store.conversations == map[c := Conversation(c, first.peer, ShortId(first.peer).value, None, None, 0)]
  {
    PreviewIff(first.content);
  }

  lemma RunThree(l: Ledger, self: PeerId, a: Event, b: Event, c: Event)
    ensures Run(l, self, [a, b, c]) == Advance(Advance(Advance(l, self, a), self, b), self, c)
  {
    var l1 := Advance(l, self, a);
    var l2 := Advance(l1, self, b);
    var l3 := Advance(l2, self, c);
    assert [a, b, c][1..] == [b, c] && [b, c][1..] == [c] && [c][1..] == [];
    assert Run(l3, self, []) == l3;
    assert Run(l2, self, [c]) == l3;
    assert Run(l1, self, [b, c]) == l3;
  }

  lemma OneRow(m: Message)
    ensures CountIncoming([m], m.conv) == (if m.outgoing then 0 else 1) && LastIn([m], m.conv) == Some(m)
  {
    assert [m][..0] == [];
    assert CountIncoming([], m.conv) == 0;
  }

  /** A first message that does not fit, a restart, and the same message again: one incoming row, and a conversation
      that counts none unread and shows nothing. */
  lemma PanicIsNotRepaired(self: PeerId, first: Event, again: Event)
    requires first.Received? && ShortId(first.peer).Some? && first.timestamp <= MAX_TIMESTAMP && !Fits(first.content)
    requires again.Received? && again.peer == first.peer && again.id == first.id
    ensures var l := Run(EMPTY, self, [first, Restarted, again]); var c := first.newId;
      && c in l.store.conversations && CountIncoming(l.store.messages, c) == 1
      && l.store.conversations[c].unread == 0 && l.store.conversations[c].lastMessage == None
      && !Previewed(l.store)
  {
    AfterPanic(self, first);
    RunThree(EMPTY, self, first, Restarted, again);
    var m := Posted(self, first).(conv := first.newId);
    var l := Advance(Advance(EMPTY, self, first), self, Restarted);
    assert l.store.conversations[first.newId].peer == first.peer && l.store.messages[0].id == first.id;
    assert HasPeer(l.store, first.peer) && HasMessage(l.store, first.id);
    assert Advance(l, self, again).store == l.store;
    assert l.store.messages == [m];
    OneRow(m);
    assert !Shows(l.store.conversations[first.newId], Some(m));
  }
}
