/** Reading a conversation backwards page by page (get_messages in grid/chat.rs). The query orders by timestamp only,
    so with equal timestamps SQLite is free to choose; a page is therefore a relation, not a function. */
module Paging {
  import opened Prelude
  import opened Chat

  /** The rows a query with this cursor ranges over. */
  ghost function History(s: Store, conv: ConvId): set<Message> {
    set i | 0 <= i < |s.messages| && s.messages[i].conv == conv :: s.messages[i]
  }

  ghost function Older(rows: set<Message>, before: nat): set<Message> {
    set m | m in rows && m.timestamp < before
  }

  ghost predicate Chronological(page: seq<Message>) {
    forall i, j :: 0 <= i < j < |page| ==> page[i].timestamp <= page[j].timestamp
  }

  ghost predicate Distinct(page: seq<Message>) {
    forall i, j :: 0 <= i < j < |page| ==> page[i] != page[j]
  }

  /** A possible answer: up to `limit` of the newest rows, each once, oldest first. */
  ghost predicate IsPage(rows: set<Message>, limit: nat, page: seq<Message>) {
    && Chronological(page) && Distinct(page)
    && (forall m :: m in page ==> m in rows)
    && |page| == (if limit < |rows| then limit else |rows|)
    && (forall m, p :: m in rows && m !in page && p in page ==> m.timestamp <= p.timestamp)
  }

  /** What the SELECT itself may return: the same rows newest first. */
  ghost predicate IsAnswer(rows: set<Message>, limit: nat, answer: seq<Message>) {
    && (forall i, j :: 0 <= i < j < |answer| ==> answer[i].timestamp >= answer[j].timestamp)
    && Distinct(answer)
    && (forall m :: m in answer ==> m in rows)
    && |answer| == (if limit < |rows| then limit else |rows|)
    && (forall m, p :: m in rows && m !in answer && p in answer ==> m.timestamp <= p.timestamp)
  }

  function Reversed(s: seq<Message>): (r: seq<Message>)
    ensures |r| == |s| && forall i :: 0 <= i < |s| ==> r[i] == s[|s| - 1 - i]
  {
    seq(|s|, i requires 0 <= i < |s| => s[|s| - 1 - i])
  }

  lemma ReversedAnswerIsPage(rows: set<Message>, limit: nat, answer: seq<Message>)
    requires IsAnswer(rows, limit, answer)
    ensures IsPage(rows, limit, Reversed(answer))
  {
    var page := Reversed(answer);
    forall m ensures m in page <==> m in answer {
      if m in answer {
        var i :| 0 <= i < |answer| && answer[i] == m;
        assert page[|answer| - 1 - i] == m;
      }
    }
  }

  /** The rows the WHERE clause selects. */
  ghost function Selected(s: Store, conv: ConvId, before: Option<nat>): set<Message> {
    if before.Some? then Older(History(s, conv), before.value) else History(s, conv)
  }

  lemma SubsetSmaller(a: set<Message>, b: set<Message>, m: Message)
    requires a <= b && m in b && m !in a
    ensures |a| < |b|
  {
    assert a <= b - {m};
    SubsetCount(a, b - {m});
  }

  /** A page that is not full holds all rows. */
  lemma ShortPageIsAll(rows: set<Message>, limit: nat, page: seq<Message>)
    requires IsPage(rows, limit, page) && |page| < limit
    ensures forall m :: m in rows ==> m in page
  {
    var found := set m | m in page;
    DistinctCount(page);
    forall m | m in rows ensures m in page {
      if m !in page {
        SubsetSmaller(found, rows, m);
      }
    }
  }

  /** `answer` is what the query returns. A poisoned lock and a cursor of 2^63 or more, which SQLite cannot hold, are
      errors; otherwise the result is a page of the rows before the cursor, and all of them if it is not full. */
  method GetMessages(s: Store, conv: ConvId, limit: nat, before: Option<nat>, answer: seq<Message>)
    returns (r: Result<seq<Message>, Error>)
    requires !s.poisoned && (before.Some? ==> before.value < 0x8000_0000_0000_0000) ==>
      IsAnswer(Selected(s, conv, before), limit, answer)
    ensures r.Ok? <==> !s.poisoned && (before.Some? ==> before.value < 0x8000_0000_0000_0000)
    ensures r.Err? ==> r.error == Refused(if s.poisoned then "Lock error" else "Failed to query")
    ensures r.Ok? ==> IsPage(Selected(s, conv, before), limit, r.value)
    ensures r.Ok? ==> forall m :: m in r.value ==>
      m in s.messages && m.conv == conv && (before.Some? ==> m.timestamp < before.value)
    ensures r.Ok? && |r.value| < limit ==> forall m ::
      m in s.messages && m.conv == conv && (before.Some? ==> m.timestamp < before.value) ==> m in r.value
  {
    if s.poisoned {
      return Err(LOCK_ERROR);
    }
    if before.Some? && before.value > MAX_TIMESTAMP {
      return Err(Refused("Failed to query"));
    }
    var page := Reversed(answer);
    ReversedAnswerIsPage(Selected(s, conv, before), limit, answer);
    if |page| < limit {
      ShortPageIsAll(Selected(s, conv, before), limit, page);
    }
    return Ok(page);
  }

  /** Conversely every page can come about in this way. */
  lemma PageIsReversedAnswer(rows: set<Message>, limit: nat, page: seq<Message>)
    requires IsPage(rows, limit, page)
    ensures IsAnswer(rows, limit, Reversed(page))
  {
    var answer := Reversed(page);
    forall m ensures m in answer <==> m in page {
      if m in page {
        var i :| 0 <= i < |page| && page[i] == m;
        assert answer[|page| - 1 - i] == m;
      }
    }
  }

  /** `pages` is what a reader gets who asks again with each page's oldest timestamp as the next cursor, and stops at
      the first empty page. */
  ghost predicate Walk(rows: set<Message>, limit: nat, pages: seq<seq<Message>>)
    decreases |pages|
  {
    pages != [] ==>
      && IsPage(rows, limit, pages[0])
      && if pages[0] == [] then |pages| == 1 else Walk(Older(rows, pages[0][0].timestamp), limit, pages[1..])
  }

  ghost predicate Complete(pages: seq<seq<Message>>) {
    pages != [] && pages[|pages| - 1] == []
  }

  lemma Newest(rows: set<Message>) returns (m: Message)
    requires rows != {}
    ensures m in rows && forall x :: x in rows ==> x.timestamp <= m.timestamp
    decreases |rows|
  {
    m :| m in rows;
    var rest := rows - {m};
    if rest != {} {
      var n := Newest(rest);
      if m.timestamp < n.timestamp {
        m := n;
      }
    }
  }

  /** There always is a page. */
  lemma {:induction false} PageExists(rows: set<Message>, limit: nat) returns (page: seq<Message>)
    ensures IsPage(rows, limit, page)
    decreases limit
  {
    if limit == 0 || rows == {} {
      page := [];
    } else {
      var m := Newest(rows);
      var front := PageExists(rows - {m}, limit - 1);
      page := front + [m];
      assert |rows - {m}| == |rows| - 1;
    }
  }

  /** With a positive limit the walk ends: there are at most as many non-empty pages as messages. */
  lemma {:induction false} WalkTerminates(rows: set<Message>, limit: nat, pages: seq<seq<Message>>)
    requires 0 < limit && Walk(rows, limit, pages)
    ensures |pages| <= |rows| + 1
    decreases |pages|
  {
    if pages == [] || pages[0] == [] {
    } else {
      var oldest := pages[0][0];
      assert oldest in pages[0];
      SubsetSmaller(Older(rows, oldest.timestamp), rows, oldest);
      WalkTerminates(Older(rows, oldest.timestamp), limit, pages[1..]);
    }
  }

  /** From every history, with every positive limit, there is a complete walk. */
  lemma {:induction false} WalkExists(rows: set<Message>, limit: nat) returns (pages: seq<seq<Message>>)
    requires 0 < limit
    ensures Walk(rows, limit, pages) && Complete(pages)
    decreases |rows|
  {
    var page := PageExists(rows, limit);
    if page == [] {
      pages := [page];
      assert pages[1..] == [];
    } else {
      var older := Older(rows, page[0].timestamp);
      assert page[0] in page;
      SubsetSmaller(older, rows, page[0]);
      var rest := WalkExists(older, limit);
      pages := [page] + rest;
      assert pages[1..] == rest;
    }
  }

  // ----- reading page by page -----

  /** `query` gives an answer to every question this reader can ask. */
  ghost predicate Answering(s: Store, conv: ConvId, limit: nat, query: Option<nat> -> seq<Message>) {
    forall before :: IsAnswer(Selected(s, conv, before), limit, query(before))
  }

  /** What a reader who has got this far can still get. */
  ghost predicate Leads(rows: set<Message>, limit: nat, pages: seq<seq<Message>>, left: set<Message>) {
    forall rest :: Walk(left, limit, rest) ==> Walk(rows, limit, pages + rest)
  }

  lemma NextPageLeads(rows: set<Message>, limit: nat, pages: seq<seq<Message>>, left: set<Message>, page: seq<Message>)
    requires Leads(rows, limit, pages, left) && IsPage(left, limit, page) && page != []
    ensures Leads(rows, limit, pages + [page], Older(left, page[0].timestamp))
    ensures |Older(left, page[0].timestamp)| < |left|
  {
    var older := Older(left, page[0].timestamp);
    forall rest | Walk(older, limit, rest) ensures Walk(rows, limit, pages + [page] + rest) {
      assert ([page] + rest)[1..] == rest;
      assert Walk(left, limit, [page] + rest);
      assert pages + ([page] + rest) == pages + [page] + rest;
    }
    assert page[0] in page;
    SubsetSmaller(older, left, page[0]);
  }

  lemma LastPageLeads(rows: set<Message>, limit: nat, pages: seq<seq<Message>>, left: set<Message>)
    requires Leads(rows, limit, pages, left) && IsPage(left, limit, [])
    ensures Walk(rows, limit, pages + [[]]) && Complete(pages + [[]])
  {
    assert Walk(left, limit, [[]]);
  }

  lemma OlderRows(s: Store, conv: ConvId, before: Option<nat>, m: Message)
    requires m in Selected(s, conv, before)
    ensures Older(Selected(s, conv, before), m.timestamp) == Selected(s, conv, Some(m.timestamp))
    ensures m in s.messages
  {
  }

  /** A reader who asks for page after page, each time with the oldest timestamp of the last page as the cursor, until a
      page is empty: as long as the lock is sound and the stored times are below 2^63, no question fails, and the pages
      are a complete walk through the rows of the conversation, one page more than there are messages at most. */
  method ReadAll(s: Store, conv: ConvId, limit: nat, query: Option<nat> -> seq<Message>)
    returns (r: Result<seq<seq<Message>>, Error>)
    requires Answering(s, conv, limit, query)
    requires forall m :: m in s.messages ==> m.timestamp < 0x8000_0000_0000_0000
    ensures r.Ok? <==> !s.poisoned
    ensures r.Ok? ==> Walk(History(s, conv), limit, r.value) && Complete(r.value)
    ensures r.Ok? && 0 < limit ==> |r.value| <= |History(s, conv)| + 1
    ensures r.Ok? && 0 < limit && DistinctTimes(History(s, conv)) ==> IsHistory(History(s, conv), Joined(r.value))
  {
    ghost var rows := History(s, conv);
    var pages: seq<seq<Message>> := [];
    var before: Option<nat> := None;
    assert forall rest: seq<seq<Message>> :: [] + rest == rest;
    while true
      invariant before.Some? ==> before.value < 0x8000_0000_0000_0000
      invariant Leads(rows, limit, pages, Selected(s, conv, before))
      decreases |Selected(s, conv, before)|
    {
      var page := GetMessages(s, conv, limit, before, query(before));
      if page.Err? {
        return Err(page.error);
      }
      if page.value == [] {
        LastPageLeads(rows, limit, pages, Selected(s, conv, before));
        pages := pages + [[]];
        break;
      }
      assert page.value[0] in page.value;
      NextPageLeads(rows, limit, pages, Selected(s, conv, before), page.value);
      OlderRows(s, conv, before, page.value[0]);
      pages, before := pages + [page.value], Some(page.value[0].timestamp);
    }
    if 0 < limit {
      WalkTerminates(rows, limit, pages);
      if DistinctTimes(rows) {
        DistinctTimesLoseNothing(rows, limit, pages);
      }
    }
    return Ok(pages);
  }

  lemma {:induction false} PagesWithin(rows: set<Message>, limit: nat, pages: seq<seq<Message>>, k: nat, m: Message)
    requires Walk(rows, limit, pages) && k < |pages| && m in pages[k]
    ensures m in rows
    decreases |pages|
  {
    if k == 0 {
    } else {
      PagesWithin(Older(rows, pages[0][0].timestamp), limit, pages[1..], k - 1, m);
    }
  }

  /** Everything on a later page is strictly older than everything on an earlier one. */
  lemma {:induction false} LaterPagesAreOlder(rows: set<Message>, limit: nat, pages: seq<seq<Message>>, i: nat, j: nat,
                                              a: Message, b: Message)
    requires Walk(rows, limit, pages) && i < j < |pages| && a in pages[i] && b in pages[j]
    ensures b.timestamp < a.timestamp
    decreases |pages|
  {
    var rest := Older(rows, pages[0][0].timestamp);
    if i == 0 {
      PagesWithin(rest, limit, pages[1..], j - 1, b);
      var n :| 0 <= n < |pages[0]| && pages[0][n] == a;
    } else {
      LaterPagesAreOlder(rest, limit, pages[1..], i - 1, j - 1, a, b);
    }
  }

  /** No message is returned twice, neither within a page nor across pages. */
  lemma NothingTwice(rows: set<Message>, limit: nat, pages: seq<seq<Message>>, i: nat, j: nat, p: nat, q: nat)
    requires Walk(rows, limit, pages) && i < |pages| && j < |pages| && p < |pages[i]| && q < |pages[j]|
    requires pages[i][p] == pages[j][q]
    ensures i == j && p == q
  {
    if i < j {
      LaterPagesAreOlder(rows, limit, pages, i, j, pages[i][p], pages[j][q]);
    } else if j < i {
      LaterPagesAreOlder(rows, limit, pages, j, i, pages[j][q], pages[i][p]);
    } else {
      PageIsDistinct(rows, limit, pages, i);
    }
  }

  lemma {:induction false} PageIsDistinct(rows: set<Message>, limit: nat, pages: seq<seq<Message>>, k: nat)
    requires Walk(rows, limit, pages) && k < |pages|
    ensures Distinct(pages[k]) && Chronological(pages[k])
    decreases |pages|
  {
    if k == 0 {
    } else {
      PageIsDistinct(Older(rows, pages[0][0].timestamp), limit, pages[1..], k - 1);
    }
  }

  /** The message is on some page. */
  ghost predicate Found(pages: seq<seq<Message>>, m: Message) {
    exists k :: 0 <= k < |pages| && m in pages[k]
  }

  /** The message shares its timestamp with the oldest message of a page it is not on. */
  ghost predicate CutOff(pages: seq<seq<Message>>, m: Message) {
    exists k :: 0 <= k < |pages| && m !in pages[k] && pages[k] != [] && m.timestamp == pages[k][0].timestamp
  }

  lemma EmptyPageMeansNoRows(rows: set<Message>, limit: nat)
    requires 0 < limit && IsPage(rows, limit, [])
    ensures rows == {}
  {
  }

  /** A complete walk skips a message only if a page cuts it off. */
  lemma {:induction false} OnlyCutOffAreSkipped(rows: set<Message>, limit: nat, pages: seq<seq<Message>>, m: Message)
    requires 0 < limit && Walk(rows, limit, pages) && Complete(pages) && m in rows
    ensures Found(pages, m) || CutOff(pages, m)
    decreases |pages|
  {
    var page := pages[0];
    if page == [] {
      EmptyPageMeansNoRows(rows, limit);
    } else if m !in page {
      assert page[0] in page && m.timestamp <= page[0].timestamp;
      if m.timestamp < page[0].timestamp {
        OnlyCutOffAreSkipped(Older(rows, page[0].timestamp), limit, pages[1..], m);
        if Found(pages[1..], m) {
          var k :| 0 <= k < |pages[1..]| && m in pages[1..][k];
          assert m in pages[k + 1];
        } else {
          var k :| 0 <= k < |pages[1..]| && m !in pages[1..][k] && pages[1..][k] != []
                   && m.timestamp == pages[1..][k][0].timestamp;
          assert m !in pages[k + 1] && pages[k + 1][0] == pages[1..][k][0];
        }
      }
    }
  }

  lemma CutOffIsNotFound(rows: set<Message>, limit: nat, pages: seq<seq<Message>>, m: Message)
    requires Walk(rows, limit, pages) && CutOff(pages, m)
    ensures !Found(pages, m)
  {
    var k :| 0 <= k < |pages| && m !in pages[k] && pages[k] != [] && m.timestamp == pages[k][0].timestamp;
    assert pages[k][0] in pages[k];
    forall j | 0 <= j < |pages| ensures m !in pages[j] {
      if m in pages[j] {
        if j < k {
          LaterPagesAreOlder(rows, limit, pages, j, k, m, pages[k][0]);
        } else if k < j {
          LaterPagesAreOlder(rows, limit, pages, k, j, pages[k][0], m);
        }
      }
    }
  }

  /** A complete walk skips exactly the messages that a page cuts off: those that share the oldest timestamp of a page
      they are not on. */
  lemma SkippedIff(rows: set<Message>, limit: nat, pages: seq<seq<Message>>, m: Message)
    requires 0 < limit && Walk(rows, limit, pages) && Complete(pages) && m in rows
    ensures !Found(pages, m) <==> CutOff(pages, m)
  {
    OnlyCutOffAreSkipped(rows, limit, pages, m);
    if CutOff(pages, m) {
      CutOffIsNotFound(rows, limit, pages, m);
    }
  }

  ghost predicate DistinctTimes(rows: set<Message>) {
    forall a, b :: a in rows && b in rows && a.timestamp == b.timestamp ==> a == b
  }

  /** No complete walk, whatever its limit, loses a message. */
  ghost predicate LosesNothing(rows: set<Message>) {
    forall limit: nat, pages, m ::
      0 < limit && Walk(rows, limit, pages) && Complete(pages) && m in rows ==> Found(pages, m)
  }

  lemma {:induction false} PageLength(rows: set<Message>, limit: nat, pages: seq<seq<Message>>, k: nat)
    requires Walk(rows, limit, pages) && k < |pages|
    ensures |pages[k]| <= limit
    decreases |pages|
  {
    if k == 0 {
    } else {
      PageLength(Older(rows, pages[0][0].timestamp), limit, pages[1..], k - 1);
    }
  }

  /** One message to a page: two messages of one instant are never both found. */
  lemma SinglePagesLoseTies(rows: set<Message>, pages: seq<seq<Message>>, a: Message, b: Message)
    requires Walk(rows, 1, pages) && a != b && a.timestamp == b.timestamp
    ensures !(Found(pages, a) && Found(pages, b))
  {
    forall i, j | 0 <= i < |pages| && 0 <= j < |pages| && a in pages[i] ensures b !in pages[j] {
      if b in pages[j] {
        PageLength(rows, 1, pages, i);
        if i < j {
          LaterPagesAreOlder(rows, 1, pages, i, j, a, b);
        } else if j < i {
          LaterPagesAreOlder(rows, 1, pages, j, i, b, a);
        }
      }
    }
  }

  lemma DistinctTimesAreFound(rows: set<Message>, limit: nat, pages: seq<seq<Message>>, m: Message)
    requires 0 < limit && Walk(rows, limit, pages) && Complete(pages) && m in rows && DistinctTimes(rows)
    ensures Found(pages, m)
  {
    OnlyCutOffAreSkipped(rows, limit, pages, m);
    if CutOff(pages, m) {
      var k :| 0 <= k < |pages| && m !in pages[k] && pages[k] != [] && m.timestamp == pages[k][0].timestamp;
      assert pages[k][0] in pages[k];
      PagesWithin(rows, limit, pages, k, pages[k][0]);
    }
  }

  /** Paging loses nothing, whatever the limit, if and only if no two messages share a timestamp. */
  lemma NothingLostIff(rows: set<Message>)
    ensures LosesNothing(rows) <==> DistinctTimes(rows)
  {
    if DistinctTimes(rows) {
      forall limit: nat, pages, m | 0 < limit && Walk(rows, limit, pages) && Complete(pages) && m in rows
        ensures Found(pages, m)
      {
        DistinctTimesAreFound(rows, limit, pages, m);
      }
    } else {
      var a, b :| a in rows && b in rows && a.timestamp == b.timestamp && a != b;
      var pages := WalkExists(rows, 1);
      SinglePagesLoseTies(rows, pages, a, b);
    }
  }

  /** The pages put together, the last page first. */
  function Joined(pages: seq<seq<Message>>): seq<Message> {
    if pages == [] then [] else Joined(pages[1..]) + pages[0]
  }

  /** The whole history in order: every row once, by time. */
  ghost predicate IsHistory(rows: set<Message>, all: seq<Message>) {
    && (forall m :: m in all <==> m in rows)
    && (forall i, j :: 0 <= i < j < |all| ==> all[i].timestamp < all[j].timestamp)
  }

  /** A page in front of which the older history is put. */
  lemma PageExtendsHistory(rows: set<Message>, limit: nat, page: seq<Message>, older: seq<Message>)
    requires DistinctTimes(rows) && IsPage(rows, limit, page) && page != []
    requires IsHistory(Older(rows, page[0].timestamp), older)
    ensures IsHistory(rows, older + page)
  {
    var rest := Older(rows, page[0].timestamp);
    assert page[0] in page;
    forall m ensures m in older + page <==> m in rows {
      if m in rows && m !in page {
        assert m.timestamp <= page[0].timestamp && m != page[0];
        assert m in rest;
      }
    }
    var all := older + page;
    forall i, j | 0 <= i < j < |all| ensures all[i].timestamp < all[j].timestamp {
      if i < |older| <= j {
        assert all[i] == older[i] && older[i] in rest;
        assert all[j] == page[j - |older|];
        assert page[0].timestamp <= page[j - |older|].timestamp;
      } else if |older| <= i {
        assert all[i] == page[i - |older|] && all[j] == page[j - |older|];
        assert page[i - |older|] in rows && page[j - |older|] in rows;
        assert page[i - |older|] != page[j - |older|];
      } else {
        assert all[i] == older[i] && all[j] == older[j];
      }
    }
  }

  /** With distinct timestamps a complete walk returns the whole history in order. */
  lemma {:induction false} DistinctTimesLoseNothing(rows: set<Message>, limit: nat, pages: seq<seq<Message>>)
    requires 0 < limit && DistinctTimes(rows) && Walk(rows, limit, pages) && Complete(pages)
    ensures IsHistory(rows, Joined(pages))
    decreases |pages|
  {
    var page := pages[0];
    if page == [] {
      EmptyPageMeansNoRows(rows, limit);
      assert pages[1..] == [];
    } else {
      DistinctTimesLoseNothing(Older(rows, page[0].timestamp), limit, pages[1..]);
      PageExtendsHistory(rows, limit, page, Joined(pages[1..]));
    }
  }

  /** There is only one history in order, so the joined pages do not depend on the limit. */
  lemma {:induction false} HistoryIsUnique(rows: set<Message>, a: seq<Message>, b: seq<Message>)
    requires IsHistory(rows, a) && IsHistory(rows, b)
    ensures a == b
    decreases |a|
  {
    EmptyHistory(rows, a);
    EmptyHistory(rows, b);
    if a == [] {
    } else {
      assert a[0] in rows && a[0] in b;
      var k :| 0 <= k < |b| && b[k] == a[0];
      assert b[0] in rows && b[0] in a;
      var l :| 0 <= l < |a| && a[l] == b[0];
      assert k == 0 && l == 0;
      var rest := rows - {a[0]};
      HistoryTail(rows, a);
      HistoryTail(rows, b);
      HistoryIsUnique(rest, a[1..], b[1..]);
    }
  }

  lemma EmptyHistory(rows: set<Message>, a: seq<Message>)
    requires IsHistory(rows, a)
    ensures a == [] <==> rows == {}
  {
    if a != [] {
      assert a[0] in rows;
    }
  }

  lemma HistoryTail(rows: set<Message>, a: seq<Message>)
    requires IsHistory(rows, a) && a != []
    ensures IsHistory(rows - {a[0]}, a[1..])
  {
  }

  /** Ties do lose messages: three messages of one instant, two to a page. */
  lemma TiesAreLost(a: Message, b: Message, c: Message)
    requires a != b && b != c && a != c && a.timestamp == b.timestamp == c.timestamp
    ensures Walk({a, b, c}, 2, [[a, b], []]) && Complete([[a, b], []]) && !Found([[a, b], []], c)
  {
  }
}
