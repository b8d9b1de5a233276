/**
 Placeholders for Postgres: each `?` outside a quoted literal becomes `$1`, `$2`, and so on. The loop
 looks one character ahead for a doubled quote; the specification only counts quotes.
 */
module Rebind {

  // ---- decimal numbers ----

  function Digit(d: nat): char
    requires d < 10
  {
    '0' + d as char
  }

  function Itoa(n: nat): string {
    if n < 10 then [Digit(n)] else Itoa(n / 10) + [Digit(n % 10)]
  }

  function Atoi(s: string): nat {
    if s == [] then 0
    else 10 * Atoi(s[..|s| - 1]) + if '0' <= s[|s| - 1] <= '9' then (s[|s| - 1] - '0') as nat else 0
  }

  lemma {:induction false} ItoaRoundTrip(n: nat)
    ensures Atoi(Itoa(n)) == n && |Itoa(n)| >= 1
    ensures forall c :: c in Itoa(n) ==> '0' <= c <= '9'
  {
    if n < 10 {
      assert Itoa(n)[..0] == [];
    } else {
      ItoaRoundTrip(n / 10);
      assert Itoa(n)[..|Itoa(n)| - 1] == Itoa(n / 10);
    }
  }

  // ---- what is to be replaced ----

  /** How many quote characters there are. */
  function Quotes(q: string): nat {
    if q == [] then 0 else Quotes(q[..|q| - 1]) + if q[|q| - 1] == '\'' then 1 else 0
  }

  /** Is the character after the prefix `q` inside a literal: has an odd number of quotes gone before? */
  predicate Quoted(q: string) {
    Quotes(q) % 2 == 1
  }

  predicate Placeholder(q: string, i: nat)
    requires i < |q|
  {
    q[i] == '?' && !Quoted(q[..i])
  }

  /** The positions of the placeholders, in order. */
  function Places(q: string): seq<nat> {
    if q == [] then []
    else Places(q[..|q| - 1]) + if Placeholder(q, |q| - 1) then [|q| - 1] else []
  }

  /** The rewritten query, character by character. */
  function Rewritten(q: string): string {
    if q == [] then []
    else
      Rewritten(q[..|q| - 1])
      + if Placeholder(q, |q| - 1) then "$" + Itoa(|Places(q)|) else [q[|q| - 1]]
  }

  lemma OneMore(q: string, c: char)
    ensures Quotes(q + [c]) == Quotes(q) + if c == '\'' then 1 else 0
    ensures Places(q + [c]) == Places(q) + if c == '?' && !Quoted(q) then [|q|] else []
    ensures Rewritten(q + [c]) == Rewritten(q) + if c == '?' && !Quoted(q) then "$" + Itoa(|Places(q)| + 1) else [c]
  {
    assert (q + [c])[..|q|] == q;
  }

  /** A query without question marks stays as it is. */
  lemma {:induction false} NothingToReplace(q: string)
    requires '?' !in q
    ensures Rewritten(q) == q
  {
    if q != [] {
      NothingToReplace(q[..|q| - 1]);
      assert q == q[..|q| - 1] + [q[|q| - 1]];
    }
  }

  lemma Nothing()
    ensures Rewritten([]) == [] && Places([]) == [] && Quotes([]) == 0
  {
  }

  method Rebind(postgres: bool, query: string) returns (b: string)
    ensures b == if postgres then Rewritten(query) else query
  {
    if !postgres { return query; }
    if '?' !in query {
      NothingToReplace(query);
      return query;
    }
    b := "";
    var n, inQuote, i := 0, false, 0;
    assert query[..0] == [];
    Nothing();
    hide Rewritten, Places, Quotes, Itoa;
    while i < |query|
      invariant i <= |query| && b == Rewritten(query[..i])
      invariant n == |Places(query[..i])| && inQuote == Quoted(query[..i])
    {
      var r := query[i];
      OneMore(query[..i], r);
      assert query[..i + 1] == query[..i] + [r];
      if r == '\'' {
        if inQuote && i + 1 < |query| && query[i + 1] == '\'' {
          OneMore(query[..i + 1], '\'');
          assert query[..i + 2] == query[..i + 1] + ['\''];
          b := b + ['\''];
          b := b + ['\''];
          i := i + 2;
          continue;
        }
        inQuote := !inQuote;
        b := b + ['\''];
      } else if r == '?' && !inQuote {
        n := n + 1;
        b := b + ("$" + Itoa(n));
      } else {
        b := b + [r];
      }
      i := i + 1;
    }
    assert query[..i] == query;
  }

  // ---- what replacing means ----

  /** Exactly the unquoted question marks are replaced, from left to right. */
  lemma {:induction false} PlacesAreTheQuestionMarks(q: string)
    ensures forall i, j :: 0 <= i < j < |Places(q)| ==> Places(q)[i] < Places(q)[j]
    ensures forall i: nat :: i in Places(q) <==> i < |q| && Placeholder(q, i)
  {
    if q != [] {
      var front := q[..|q| - 1];
      PlacesAreTheQuestionMarks(front);
      forall i: nat | i < |front| ensures Placeholder(front, i) <==> Placeholder(q, i) {
        assert front[..i] == q[..i];
      }
      forall k | 0 <= k < |Places(front)| ensures Places(front)[k] < |front| {
        assert Places(front)[k] in Places(front);
      }
    }
  }

  /** Ascending positions from `lo` to below `hi`. */
  ghost predicate InOrder(places: seq<nat>, lo: nat, hi: nat) {
    && (forall i :: 0 <= i < |places| ==> lo <= places[i] < hi)
    && (forall i, j :: 0 <= i < j < |places| ==> places[i] < places[j])
  }

  /** The pieces of the query between the given positions, with `$k`, `$(k+1)` and so on in their place. */
  ghost function Splice(q: string, start: nat, places: seq<nat>, k: nat): string
    requires start <= |q| && InOrder(places, start, |q|)
    decreases |places|
  {
    if places == [] then q[start..]
    else q[start..places[0]] + ("$" + Itoa(k)) + Splice(q, places[0] + 1, places[1..], k + 1)
  }

  lemma InOrderFacts(places: seq<nat>, lo: nat, last: nat)
    requires InOrder(places, lo, last) && lo <= last
    ensures InOrder(places, lo, last + 1) && InOrder(places + [last], lo, last + 1)
    ensures places != [] ==> lo <= places[0] < last && InOrder(places[1..], places[0] + 1, last)
  {
  }

  lemma SpliceStep(q: string, start: nat, places: seq<nat>, k: nat)
    requires start <= |q| && InOrder(places, start, |q|) && places != []
    ensures start <= places[0] < |q| && InOrder(places[1..], places[0] + 1, |q|)
    ensures Splice(q, start, places, k) == q[start..places[0]] + ("$" + Itoa(k)) + Splice(q, places[0] + 1, places[1..], k + 1)
  {
    hide Itoa;
  }

  lemma {:induction false} SpliceLast(q: string, start: nat, places: seq<nat>, k: nat, last: nat)
    requires start <= last && last + 1 == |q| && InOrder(places, start, last)
    ensures InOrder(places, start, |q|) && InOrder(places + [last], start, |q|)
    ensures Splice(q, start, places + [last], k) == Splice(q[..last], start, places, k) + ("$" + Itoa(k + |places|))
    ensures Splice(q, start, places, k) == Splice(q[..last], start, places, k) + [q[last]]
    decreases |places|
  {
    hide Itoa, Splice, InOrder;
    InOrderFacts(places, start, last);
    if places == [] {
      assert places + [last] == [last];
      LastPiece(q, start, k, last);
    } else {
      var p, rest := places[0], places[1..];
      InOrderFacts(rest, p + 1, last);
      SpliceLast(q, p + 1, rest, k + 1, last);
      assert (places + [last])[1..] == rest + [last] && (places + [last])[0] == p;
      assert q[..last][start..p] == q[start..p];
      SpliceStep(q, start, places, k);
      SpliceStep(q, start, places + [last], k);
      SpliceStep(q[..last], start, places, k);
    }
  }

  lemma LastPiece(q: string, start: nat, k: nat, last: nat)
    requires start <= last && last + 1 == |q|
    ensures InOrder([last], start, |q|) && Splice(q, start, [last], k) == q[start..last] + ("$" + Itoa(k))
    ensures Splice(q[..last], start, [], k) == q[start..last] && Splice(q, start, [], k) == q[start..last] + [q[last]]
  {
    hide Itoa;
    assert [last][1..] == [] && q[last + 1..] == [];
  }

  /**
   The rewriting cuts the query at its unquoted question marks, numbers them from one, and leaves
   every other character, quoted ones included, where it is.
   */
  lemma {:induction false} RewrittenIsSpliced(q: string)
    ensures InOrder(Places(q), 0, |q|) && Rewritten(q) == Splice(q, 0, Places(q), 1)
  {
    PlacesInOrder(q);
    if q != [] {
      var front := q[..|q| - 1];
      RewrittenIsSpliced(front);
      PlacesInOrder(front);
      hide Itoa, Placeholder;
      SpliceLast(q, 0, Places(front), 1, |q| - 1);
      OnePlaceMore(q);
    }
  }

  lemma OnePlaceMore(q: string)
    requires q != []
    ensures var front := q[..|q| - 1];
            && Places(q) == (if Placeholder(q, |q| - 1) then Places(front) + [|q| - 1] else Places(front))
            && Rewritten(q) == Rewritten(front) + (if Placeholder(q, |q| - 1) then "$" + Itoa(|Places(front)| + 1) else [q[|q| - 1]])
  {
  }

  lemma PlacesInOrder(q: string)
    ensures InOrder(Places(q), 0, |q|)
  {
    PlacesAreTheQuestionMarks(q);
    forall i | 0 <= i < |Places(q)| ensures 0 <= Places(q)[i] < |q| { assert Places(q)[i] in Places(q); }
  }
}
