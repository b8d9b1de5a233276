/**
 The history of a direct conversation, page by page. A page is asked for by the id of the oldest message
 already seen; the database answers newest first and the server turns the answer round in place.
 */
module Paging {
  import opened Media

  /** A message goes to one recipient or to one group. */
  datatype Message = Message(id: nat, sender: UserId, recipient: Option<UserId>, group: Option<int>)

  /** The messages in id order; ids start at one and only grow. */
  type Table = seq<Message>

  ghost predicate Valid(t: Table) {
    && (forall i, j :: 0 <= i < j < |t| ==> t[i].id < t[j].id)
    && (forall i :: 0 <= i < |t| ==> t[i].id >= 1 && (t[i].recipient.Some? <==> t[i].group.None?))
  }

  predicate Between(m: Message, a: UserId, b: UserId) {
    (m.sender == a && m.recipient == Some(b)) || (m.sender == b && m.recipient == Some(a))
  }

  /** The whole conversation, oldest first. */
  function History(t: Table, a: UserId, b: UserId): seq<Message> {
    if t == [] then []
    else History(t[..|t| - 1], a, b) + if Between(t[|t| - 1], a, b) then [t[|t| - 1]] else []
  }

  /** `before` zero means no cursor. */
  predicate Precedes(m: Message, before: nat) {
    before > 0 ==> m.id < before
  }

  function Older(h: seq<Message>, before: nat): seq<Message> {
    if h == [] then []
    else Older(h[..|h| - 1], before) + if Precedes(h[|h| - 1], before) then [h[|h| - 1]] else []
  }

  function LastOf(s: seq<Message>, limit: nat): seq<Message> {
    if |s| <= limit then s else s[|s| - limit..]
  }

  /** The newest `limit` messages of the conversation before the cursor, oldest first. */
  function Page(t: Table, a: UserId, b: UserId, before: nat, limit: nat): seq<Message> {
    LastOf(Older(History(t, a, b), before), limit)
  }

  /** What the query returns: matching rows newest first, at most `limit` of them. */
  function Fetch(t: Table, a: UserId, b: UserId, before: nat, limit: nat): seq<Message> {
    if t == [] || limit == 0 then []
    else
      var front, m := t[..|t| - 1], t[|t| - 1];
      if Between(m, a, b) && Precedes(m, before) then [m] + Fetch(front, a, b, before, limit - 1)
      else Fetch(front, a, b, before, limit)
  }

  function Reversed(s: seq<Message>): seq<Message> {
    if s == [] then [] else Reversed(s[1..]) + [s[0]]
  }

  lemma OlderAppend(h: seq<Message>, m: Message, before: nat)
    ensures Older(h + [m], before) == Older(h, before) + if Precedes(m, before) then [m] else []
  {
    assert (h + [m])[..|h|] == h;
  }

  /** The query's answer turned round is the page. */
  lemma {:induction false} FetchReversed(t: Table, a: UserId, b: UserId, before: nat, limit: nat)
    ensures Reversed(Fetch(t, a, b, before, limit)) == Page(t, a, b, before, limit)
    decreases |t|
  {
    if t != [] && limit > 0 {
      var front, m := t[..|t| - 1], t[|t| - 1];
      var h := History(front, a, b);
      if Between(m, a, b) { OlderAppend(h, m, before); }
      if Between(m, a, b) && Precedes(m, before) {
        FetchReversed(front, a, b, before, limit - 1);
        var o := Older(h, before);
        assert Fetch(t, a, b, before, limit)[1..] == Fetch(front, a, b, before, limit - 1);
        assert LastOf(o + [m], limit) == LastOf(o, limit - 1) + [m];
      } else {
        FetchReversed(front, a, b, before, limit);
        assert History(t, a, b) == if Between(m, a, b) then h + [m] else h;
      }
    } else if limit == 0 {
      var o := Older(History(t, a, b), before);
      assert LastOf(o, 0) == [];
    }
  }

  lemma {:induction false} ReversedAt(s: seq<Message>)
    ensures |Reversed(s)| == |s| && forall k :: 0 <= k < |s| ==> Reversed(s)[k] == s[|s| - 1 - k]
  {
    if s != [] { ReversedAt(s[1..]); }
  }

  /** Turn an array round, swapping from both ends. */
  method Reverse(out: array<Message>)
    modifies out
    ensures out[..] == Reversed(old(out[..]))
  {
    ReversedAt(out[..]);
    var i, j := 0, out.Length - 1;
    while i < j
      invariant 0 <= i && j == out.Length - 1 - i && i <= j + 1
      invariant forall k :: 0 <= k < i ==> out[k] == old(out[out.Length - 1 - k])
      invariant forall k :: j < k < out.Length ==> out[k] == old(out[out.Length - 1 - k])
      invariant forall k :: i <= k <= j ==> out[k] == old(out[k])
    {
      out[i], out[j] := out[j], out[i];
      i, j := i + 1, j - 1;
    }
    forall k | 0 <= k < out.Length ensures out[k] == old(out[out.Length - 1 - k]) {}
  }

  method ListMessages(t: Table, a: UserId, b: UserId, before: nat, limit: nat) returns (out: array<Message>)
    ensures fresh(out) && out[..] == Page(t, a, b, before, limit)
  {
    var rows := Fetch(t, a, b, before, limit);
    out := new Message[|rows|](i requires 0 <= i < |rows| => rows[i]);
    assert out[..] == rows;
    Reverse(out);
    FetchReversed(t, a, b, before, limit);
  }

  /** The cursor and the limit of a request; what is missing or out of range falls back. */
  function Paged(before: Option<int>, limit: Option<int>): (r: (nat, nat))
    ensures 1 <= r.1 <= 200 && (r.0 > 0 ==> before == Some(r.0))
    ensures forall n :: before == Some(n) && n > 0 ==> r.0 == n
    ensures forall n :: limit == Some(n) && 1 <= n <= 200 ==> r.1 == n
  {
    (if before.Some? && before.value > 0 then before.value else 0,
     if limit.Some? && 0 < limit.value <= 200 then limit.value else 50)
  }

  // ---- walking back ----

  ghost predicate Sorted(s: seq<Message>) {
    (forall i, j :: 0 <= i < j < |s| ==> s[i].id < s[j].id) && (forall m :: m in s ==> m.id >= 1)
  }

  lemma {:induction false} HistorySorted(t: Table, a: UserId, b: UserId)
    requires Valid(t)
    ensures Sorted(History(t, a, b))
    ensures forall m :: m in History(t, a, b) <==> m in t && Between(m, a, b)
  {
    if t != [] {
      var front, m := t[..|t| - 1], t[|t| - 1];
      HistorySorted(front, a, b);
      assert forall x :: x in front ==> x.id < m.id;
      assert t == front + [m];
    }
  }

  /** In a sorted history the older messages are a prefix. */
  lemma {:induction false} OlderIsPrefix(h: seq<Message>, before: nat)
    requires Sorted(h)
    ensures var o := Older(h, before);
            && |o| <= |h| && o == h[..|o|]
            && (forall i :: 0 <= i < |h| ==> (i < |o| <==> Precedes(h[i], before)))
  {
    if h != [] {
      var front := h[..|h| - 1];
      OlderIsPrefix(front, before);
      var o := Older(front, before);
      assert Sorted(front) && front + [h[|h| - 1]] == h;
      assert |o| < |front| ==> front[|o|] == h[|o|] && h[|o|].id < h[|h| - 1].id;
      assert Precedes(h[|h| - 1], before) ==> |o| == |front|;
      hide Sorted;
    }
  }

  /** Where the older part of a sorted history ends. */
  lemma OlderEnds(h: seq<Message>, before: nat, k: nat)
    requires Sorted(h) && k <= |h|
    requires forall i :: 0 <= i < k ==> Precedes(h[i], before)
    requires k < |h| ==> !Precedes(h[k], before)
    ensures Older(h, before) == h[..k]
  {
    OlderIsPrefix(h, before);
  }

  lemma {:induction false} HistoryGrows(t: Table, more: seq<Message>, a: UserId, b: UserId)
    ensures |History(t, a, b)| <= |History(t + more, a, b)| && History(t + more, a, b)[..|History(t, a, b)|] == History(t, a, b)
    decreases |more|
  {
    if more == [] {
      assert t + more == t;
    } else {
      var front := more[..|more| - 1];
      HistoryGrows(t, front, a, b);
      assert (t + more)[..|t + more| - 1] == t + front;
    }
  }

  /** Inserting newer messages does not change what precedes a cursor. */
  lemma OlderUndisturbed(t: Table, more: seq<Message>, a: UserId, b: UserId, before: nat)
    requires Valid(t + more) && Valid(t) && before > 0 && exists m :: m in t && before <= m.id
    ensures Older(History(t + more, a, b), before) == Older(History(t, a, b), before)
  {
    var h, g := History(t, a, b), History(t + more, a, b);
    HistorySorted(t, a, b);
    HistorySorted(t + more, a, b);
    HistoryGrows(t, more, a, b);
    hide Valid, History, Older, Sorted;
    OlderIsPrefix(h, before);
    OlderIsPrefix(g, before);
    var m :| m in t && before <= m.id;
    forall i | |h| <= i < |g| ensures !Precedes(g[i], before) {
      NewerThanAll(t, more, a, b, i, m);
    }
    assert forall i :: 0 <= i < |h| ==> g[i] == h[i];
    OlderEnds(g, before, |Older(h, before)|);
  }

  lemma NewerThanAll(t: Table, more: seq<Message>, a: UserId, b: UserId, i: nat, m: Message)
    requires Valid(t + more) && Valid(t) && m in t && |History(t, a, b)| <= i < |History(t + more, a, b)|
    ensures History(t + more, a, b)[i].id > m.id
  {
    var h, g := History(t, a, b), History(t + more, a, b);
    HistorySorted(t, a, b);
    HistorySorted(t + more, a, b);
    HistoryGrows(t, more, a, b);
    var x := g[i];
    assert x in g && x in t + more;
    forall k | 0 <= k < |h| ensures h[k] != x { assert g[k] == h[k] && g[k].id < g[i].id; }
    assert x !in h && x !in t;
    var p :| 0 <= p < |t| && t[p] == m;
    var q :| 0 <= q < |t + more| && (t + more)[q] == x;
    assert q >= |t| && (t + more)[p] == m;
  }

  /**
   All pages together, oldest first: ask for a page, then for the one before its first message, until a
   page is empty. Before the next request the messages `more[0]` are inserted, then `more[1]`, and so on.
   */
  function Walk(t: Table, more: seq<seq<Message>>, a: UserId, b: UserId, before: nat, limit: nat): seq<Message>
    decreases before == 0, before
  {
    var page := Page(t, a, b, before, limit);
    if page == [] || page[0].id == 0 || (before > 0 && page[0].id >= before) then []
    else
      var next := if more == [] then t else t + more[0];
      Walk(next, if more == [] then [] else more[1..], a, b, page[0].id, limit) + page
  }

  /** Every table along the way is in id order. */
  ghost predicate Growing(t: Table, more: seq<seq<Message>>)
    decreases |more|
  {
    Valid(t) && (more == [] || Growing(t + more[0], more[1..]))
  }

  /** A page and what is older than its first message make up everything before the cursor. */
  lemma PageSplits(t: Table, a: UserId, b: UserId, before: nat, limit: nat)
    requires Valid(t) && limit >= 1
    ensures var h := History(t, a, b); var page := Page(t, a, b, before, limit);
            && (page == [] <==> Older(h, before) == [])
            && (page != [] ==> page[0] in t && page[0].id >= 1 && Precedes(page[0], before)
                               && Older(h, page[0].id) + page == Older(h, before))
  {
    HistorySorted(t, a, b);
    LastOfSplits(History(t, a, b), before, limit);
    hide Valid, History, Older, LastOf;
    var page := Page(t, a, b, before, limit);
    if page != [] { assert page[0] in History(t, a, b); }
  }

  lemma LastOfSplits(h: seq<Message>, before: nat, limit: nat)
    requires Sorted(h) && limit >= 1
    ensures var o := Older(h, before); var page := LastOf(o, limit);
            && (page == [] <==> o == [])
            && (page != [] ==> page[0] in h && page[0].id >= 1 && Precedes(page[0], before) && Older(h, page[0].id) + page == o)
  {
    var o := Older(h, before);
    var page := LastOf(o, limit);
    OlderIsPrefix(h, before);
    if o != [] {
      var k := |o| - |page|;
      assert page[0] == h[k] && h[k] in h && Precedes(h[k], before);
      OlderEnds(h, h[k].id, k);
      assert o == h[..k] + page;
    }
  }

  lemma {:induction false} WalkFrom(t: Table, more: seq<seq<Message>>, a: UserId, b: UserId, before: nat, limit: nat)
    requires Growing(t, more) && limit >= 1
    ensures Walk(t, more, a, b, before, limit) == Older(History(t, a, b), before)
    decreases before == 0, before
  {
    hide Older, History, Page, Valid;
    PageSplits(t, a, b, before, limit);
    var page := Page(t, a, b, before, limit);
    if page != [] {
      var next := if more == [] then t else t + more[0];
      WalkFrom(next, if more == [] then [] else more[1..], a, b, page[0].id, limit);
      if more != [] {
        GrowingNext(t, more);
        OlderUndisturbed(t, more[0], a, b, page[0].id);
      }
    }
  }

  lemma GrowingNext(t: Table, more: seq<seq<Message>>)
    requires Growing(t, more) && more != []
    ensures Valid(t) && Valid(t + more[0])
  {
  }

  /**
   Paging back with any limit ends and yields the whole conversation as it was at the first request,
   every message once and in order, however many newer messages arrive meanwhile.
   */
  lemma PagingYieldsHistory(t: Table, more: seq<seq<Message>>, a: UserId, b: UserId, limit: nat)
    requires Growing(t, more) && limit >= 1
    ensures Walk(t, more, a, b, 0, limit) == History(t, a, b)
  {
    WalkFrom(t, more, a, b, 0, limit);
    HistorySorted(t, a, b);
    OlderIsPrefix(History(t, a, b), 0);
  }

  // ---- the newest message of every conversation ----

  predicate Mine(m: Message, u: UserId) {
    m.group.None? && (m.recipient == Some(u) || m.sender == u)
  }

  /** Whom `u` talks to in a message of theirs. */
  function Peer(m: Message, u: UserId): UserId {
    if m.sender == u && m.recipient.Some? then m.recipient.value else m.sender
  }

  /** What the query returns: newest first, the newest message of each of the newest `limit` conversations. */
  function Newest(t: Table, u: UserId, seen: set<UserId>, limit: nat): seq<Message> {
    if t == [] || limit == 0 then []
    else
      var front, m := t[..|t| - 1], t[|t| - 1];
      if Mine(m, u) && Peer(m, u) !in seen then [m] + Newest(front, u, seen + {Peer(m, u)}, limit - 1)
      else Newest(front, u, seen, limit)
  }

  function Peers(t: Table, u: UserId): set<UserId> {
    set m | m in t && Mine(m, u) :: Peer(m, u)
  }

  lemma MineIsBetween(m: Message, u: UserId, p: UserId)
    requires m.recipient.Some? <==> m.group.None?
    ensures Between(m, u, p) <==> Mine(m, u) && Peer(m, u) == p
  {
  }

  lemma ValidFront(t: Table)
    requires Valid(t) && t != []
    ensures Valid(t[..|t| - 1])
  {
  }

  ghost predicate IsLast(t: Table, u: UserId, m: Message) {
    var h := History(t, u, Peer(m, u)); h != [] && m == h[|h| - 1]
  }

  ghost predicate LastOfEach(t: Table, u: UserId, seen: set<UserId>, rows: seq<Message>) {
    && (forall m :: m in rows ==> Peer(m, u) !in seen && IsLast(t, u, m))
    && (forall i, j :: 0 <= i < j < |rows| ==> Peer(rows[i], u) != Peer(rows[j], u))
  }

  /** Each row is the last message of its conversation, of a peer not yet seen, and no peer comes twice. */
  lemma {:induction false} NewestAreLast(t: Table, u: UserId, seen: set<UserId>, limit: nat)
    requires Valid(t)
    ensures LastOfEach(t, u, seen, Newest(t, u, seen, limit))
    decreases |t|
  {
    if t != [] && limit > 0 {
      var front, m := t[..|t| - 1], t[|t| - 1];
      ValidFront(t);
      var p := Peer(m, u);
      var taken := Mine(m, u) && p !in seen;
      var rest := if taken then Newest(front, u, seen + {p}, limit - 1) else Newest(front, u, seen, limit);
      if taken { NewestAreLast(front, u, seen + {p}, limit - 1); } else { NewestAreLast(front, u, seen, limit); }
      forall x | x in rest ensures Peer(x, u) !in seen && IsLast(t, u, x) && (taken ==> Peer(x, u) != p) {
        assert Peer(x, u) !in seen && IsLast(front, u, x);
        NotOurs(t, u, Peer(x, u));
      }
      if taken {
        MineIsBetween(m, u, p);
        assert IsLast(t, u, m);
        Prepended(t, u, seen, m, rest);
      }
    }
  }

  lemma Prepended(t: Table, u: UserId, seen: set<UserId>, m: Message, rest: seq<Message>)
    requires LastOfEach(t, u, seen, rest) && IsLast(t, u, m) && Peer(m, u) !in seen
    requires forall x :: x in rest ==> Peer(x, u) != Peer(m, u)
    ensures LastOfEach(t, u, seen, [m] + rest)
  {
    var rows := [m] + rest;
    forall i, j | 0 <= i < j < |rows| ensures Peer(rows[i], u) != Peer(rows[j], u) {
      assert rows[j] == rest[j - 1] && rest[j - 1] in rest;
    }
  }

  /** A message of another conversation adds nothing to this one. */
  lemma NotOurs(t: Table, u: UserId, p: UserId)
    requires Valid(t) && t != [] && !(Mine(t[|t| - 1], u) && Peer(t[|t| - 1], u) == p)
    ensures History(t, u, p) == History(t[..|t| - 1], u, p)
  {
    MineIsBetween(t[|t| - 1], u, p);
  }

  /** Below the limit no conversation is missing. */
  lemma {:induction false} NewestAreAll(t: Table, u: UserId, seen: set<UserId>, limit: nat)
    requires |Newest(t, u, seen, limit)| < limit
    ensures forall p :: p in Peers(t, u) && p !in seen ==> exists m :: m in Newest(t, u, seen, limit) && Peer(m, u) == p
    decreases |t|
  {
    if t != [] {
      var front, m := t[..|t| - 1], t[|t| - 1];
      var taken := Mine(m, u) && Peer(m, u) !in seen;
      var rest := if taken then Newest(front, u, seen + {Peer(m, u)}, limit - 1) else Newest(front, u, seen, limit);
      if taken { NewestAreAll(front, u, seen + {Peer(m, u)}, limit - 1); } else { NewestAreAll(front, u, seen, limit); }
      forall p | p in Peers(t, u) && p !in seen ensures exists x :: x in Newest(t, u, seen, limit) && Peer(x, u) == p {
        if taken && p == Peer(m, u) {
          assert m == Newest(t, u, seen, limit)[0];
        } else {
          assert p in Peers(front, u) by {
            var y :| y in t && Mine(y, u) && Peer(y, u) == p;
            assert y != m && y in front;
          }
          var x :| x in rest && Peer(x, u) == p;
          assert x in Newest(t, u, seen, limit);
        }
      }
    }
  }

  /** The newest message per peer, for the sidebar. */
  method RecentDirectPeers(t: Table, u: UserId, limit: nat) returns (out: map<UserId, Message>)
    requires Valid(t)
    ensures forall p :: p in out ==> Peer(out[p], u) == p && IsLast(t, u, out[p])
    ensures |out.Keys| <= limit && (|out.Keys| < limit ==> forall p :: p in Peers(t, u) ==> p in out)
  {
    hide IsLast, Peer, Peers, Valid, Newest;
    var rows := Newest(t, u, {}, limit);
    NewestAreLast(t, u, {}, limit);
    NewestAtMost(t, u, {}, limit);
    out := ByPeer(rows, u);
    forall m | m in rows ensures Peer(m, u) in out { PeerBefore(rows, u, |rows|, Peer(m, u)); }
    if |rows| < limit {
      NewestAreAll(t, u, {}, limit);
    }
  }

  method PeerOf(m: Message, u: UserId) returns (peer: UserId)
    ensures peer == Peer(m, u)
  {
    peer := m.sender;
    if m.sender == u && m.recipient.Some? {
      peer := m.recipient.value;
    }
  }

  /** The peers of the first `i` rows. */
  function PeersBefore(rows: seq<Message>, u: UserId, i: nat): set<UserId>
    requires i <= |rows|
  {
    if i == 0 then {} else PeersBefore(rows, u, i - 1) + {Peer(rows[i - 1], u)}
  }

  lemma {:induction false} PeerBefore(rows: seq<Message>, u: UserId, i: nat, p: UserId)
    requires i <= |rows|
    ensures p in PeersBefore(rows, u, i) <==> exists j :: 0 <= j < i && Peer(rows[j], u) == p
  {
    if i > 0 { PeerBefore(rows, u, i - 1, p); }
  }

  /** The map holds the first `i` rows under their peers. */
  ghost predicate Gathered(rows: seq<Message>, u: UserId, i: nat, out: map<UserId, Message>)
    requires i <= |rows|
  {
    && out.Keys == PeersBefore(rows, u, i) && |out.Keys| == i
    && forall p :: p in out ==> out[p] in rows && Peer(out[p], u) == p
  }

  lemma GatherNext(rows: seq<Message>, u: UserId, i: nat, out: map<UserId, Message>)
    requires i < |rows| && Gathered(rows, u, i, out)
    requires forall j :: 0 <= j < i ==> Peer(rows[j], u) != Peer(rows[i], u)
    ensures Gathered(rows, u, i + 1, out[Peer(rows[i], u) := rows[i]])
  {
    hide Peer;
    var p, next := Peer(rows[i], u), out[Peer(rows[i], u) := rows[i]];
    PeerBefore(rows, u, i, p);
    assert p !in out.Keys && next.Keys == out.Keys + {p};
    assert rows[i] in rows;
    forall q | q in next ensures next[q] in rows && Peer(next[q], u) == q {
      assert q != p ==> q in out;
    }
  }

  method ByPeer(rows: seq<Message>, u: UserId) returns (out: map<UserId, Message>)
    requires forall i, j :: 0 <= i < j < |rows| ==> Peer(rows[i], u) != Peer(rows[j], u)
    ensures Gathered(rows, u, |rows|, out)
  {
    out := map[];
    for i := 0 to |rows|
      invariant Gathered(rows, u, i, out)
    {
      hide Peer, Gathered;
      var peer := PeerOf(rows[i], u);
      GatherNext(rows, u, i, out);
      out := out[peer := rows[i]];
    }
  }

  lemma {:induction false} NewestAtMost(t: Table, u: UserId, seen: set<UserId>, limit: nat)
    ensures |Newest(t, u, seen, limit)| <= limit
    decreases |t|
  {
    if t != [] && limit > 0 {
      var front, m := t[..|t| - 1], t[|t| - 1];
      NewestAtMost(front, u, seen + {Peer(m, u)}, limit - 1);
      NewestAtMost(front, u, seen, limit);
    }
  }
}
