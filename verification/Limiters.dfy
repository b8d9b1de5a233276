/**
 The two rate limiters. Both count grants inside a window that opens with the first request after the
 last window is over; time is a number that never goes back.
 */
module Limiters {
  import opened Media

  // ---- one window ----

  /** A fixed-window counter; a fresh one has `resetAt` before any time. */
  datatype Window = Window(count: nat, resetAt: int)

  const FRESH := Window(0, -1)

  function Allow(w: Window, now: nat, max: nat, length: nat): (Window, bool) {
    var v := if now > w.resetAt then Window(0, now + length) else w;
    if v.count >= max then (v, false) else (v.(count := v.count + 1), true)
  }

  predicate Ascending(times: seq<nat>) {
    forall i, j :: 0 <= i < j < |times| ==> times[i] <= times[j]
  }

  /** How many requests at these times are granted between `lo` and `hi`, both included. */
  function Granted(w: Window, times: seq<nat>, max: nat, length: nat, lo: int, hi: int): nat
    decreases times
  {
    if times == [] then 0
    else
      var (v, ok) := Allow(w, times[0], max, length);
      Bit(ok && lo <= times[0] <= hi) + Granted(v, times[1..], max, length, lo, hi)
  }

  /** How much of the budget is left before `hi`, seen from a window. */
  function Budget(w: Window, max: nat, lo: int, hi: int): int
    requires lo <= hi
  {
    if w.resetAt >= hi then max - w.count
    else if w.resetAt >= lo then 2 * max - w.count
    else Ceiling(max, hi - lo)
  }

  /** The most grants that fit into one window length. */
  function Ceiling(max: nat, length: nat): nat {
    if length == 0 || max == 0 then max else 2 * max - 1
  }

  lemma {:induction false} GrantedWithinBudget(w: Window, times: seq<nat>, max: nat, length: nat, lo: nat)
    requires Ascending(times) && w.count <= max
    ensures Granted(w, times, max, length, lo, lo + length) <= Budget(w, max, lo, lo + length)
    decreases times
  {
    if times != [] {
      var (v, ok) := Allow(w, times[0], max, length);
      if times[0] <= lo + length {
        GrantedWithinBudget(v, times[1..], max, length, lo);
      } else {
        TooLate(w, times, max, length, lo, lo + length);
      }
    }
  }

  lemma {:induction false} TooLate(w: Window, times: seq<nat>, max: nat, length: nat, lo: int, hi: int)
    requires Ascending(times) && (times != [] ==> times[0] > hi)
    ensures Granted(w, times, max, length, lo, hi) == 0
    decreases times
  {
    if times != [] { TooLate(Allow(w, times[0], max, length).0, times[1..], max, length, lo, hi); }
  }

  /** Any closed interval of one window length has less than twice `max` grants. */
  lemma LessThanTwiceMax(times: seq<nat>, max: nat, length: nat, lo: nat)
    requires Ascending(times)
    ensures Granted(FRESH, times, max, length, lo, lo + length) <= Ceiling(max, length)
  {
    GrantedWithinBudget(FRESH, times, max, length, lo);
  }

  function Times(t: nat, n: nat): seq<nat> {
    if n == 0 then [] else [t] + Times(t, n - 1)
  }

  lemma {:induction false} TimesAre(t: nat, n: nat)
    ensures |Times(t, n)| == n && forall x :: x in Times(t, n) ==> x == t
  {
    if n > 0 { TimesAre(t, n - 1); }
  }

  /** A burst inside a window that has room for it is granted in full. */
  lemma {:induction false} Burst(w: Window, t: nat, n: nat, rest: seq<nat>, max: nat, length: nat, lo: int, hi: int)
    requires t <= w.resetAt && w.count + n <= max && lo <= t <= hi
    ensures Granted(w, Times(t, n) + rest, max, length, lo, hi)
            == n + Granted(w.(count := w.count + n), rest, max, length, lo, hi)
    decreases n
  {
    if n == 0 {
      assert [] + rest == rest;
    } else {
      assert (Times(t, n) + rest)[1..] == Times(t, n - 1) + rest;
      Burst(w.(count := w.count + 1), t, n - 1, rest, max, length, lo, hi);
    }
  }

  lemma Joined(a: seq<nat>, b: seq<nat>)
    requires Ascending(a) && Ascending(b) && forall x, y :: x in a && y in b ==> x <= y
    ensures Ascending(a + b)
  {
    forall i, j | 0 <= i < j < |a + b| ensures (a + b)[i] <= (a + b)[j] {
      if i < |a| <= j {
        assert (a + b)[i] in a && (a + b)[j] in b;
      }
    }
  }

  lemma TimesAscending(t: nat, n: nat)
    ensures Ascending(Times(t, n))
  {
    TimesAre(t, n);
    forall i | 0 <= i < n ensures Times(t, n)[i] == t { assert Times(t, n)[i] in Times(t, n); }
  }

  /** A first request, the rest of its window at the very end, and a whole window right after it. */
  function Worst(max: nat, length: nat): seq<nat>
    requires max >= 1
  {
    [0] + (Times(length, max - 1) + ([length + 1] + (Times(length + 1, max - 1) + [])))
  }

  lemma WorstAscends(max: nat, length: nat)
    requires max >= 1
    ensures Ascending(Worst(max, length))
  {
    TimesAre(length, max - 1);
    TimesAre(length + 1, max - 1);
    TimesAscending(length, max - 1);
    TimesAscending(length + 1, max - 1);
    var last := Times(length + 1, max - 1) + [];
    assert last == Times(length + 1, max - 1);
    assert Ascending([0]) && Ascending([length + 1]);
    hide Ascending, Times;
    Joined([length + 1], last);
    Joined(Times(length, max - 1), [length + 1] + last);
    Joined([0], Times(length, max - 1) + ([length + 1] + last));
  }

  /** The bound is sharp: for every maximum and window length some requests meet it. */
  lemma CeilingIsReached(max: nat, length: nat) returns (times: seq<nat>)
    ensures Ascending(times) && Granted(FRESH, times, max, length, 1, length + 1) == Ceiling(max, length)
  {
    if max == 0 {
      times := [];
    } else if length == 0 {
      times := [1] + (Times(1, max - 1) + []);
      TimesAre(1, max - 1);
      TimesAscending(1, max - 1);
      assert Times(1, max - 1) + [] == Times(1, max - 1) && times[1..] == Times(1, max - 1) + [];
      Joined([1], Times(1, max - 1) + []);
      Burst(Window(1, 1), 1, max - 1, [], max, 0, 1, 1);
    } else {
      times := Worst(max, length);
      WorstIsWorst(max, length);
    }
  }

  lemma WorstIsWorst(max: nat, length: nat)
    requires max >= 1 && length >= 1
    ensures Ascending(Worst(max, length)) && Granted(FRESH, Worst(max, length), max, length, 1, length + 1) == Ceiling(max, length)
  {
    WorstAscends(max, length);
    hide Ascending, Times;
    var lo, hi := 1, length + 1;
    var last := Times(length + 1, max - 1) + [];
    var next := [length + 1] + last;
    var times := Worst(max, length);
    assert times[0] == 0 && times[1..] == Times(length, max - 1) + next && next[0] == length + 1 && next[1..] == last;
    Burst(Window(1, length), length, max - 1, next, max, length, lo, hi);
    Burst(Window(1, 2 * length + 1), length + 1, max - 1, [], max, length, lo, hi);
  }

  // ---- the login limiter ----

  datatype Attempt = Attempt(count: nat, until: int)

  type Attempts = map<string, Attempt>

  datatype Op =
    | Reserve(key: string, at: nat)
    | Allowed(key: string, at: nat)
    | Refund(key: string, at: nat)
    | Success(key: string, at: nat)
    | Cleanup(at: nat)

  predicate Over(a: Attempt, now: nat) {
    now > a.until
  }

  function Entry(l: Attempts, k: string, now: nat, length: nat): Attempt {
    if k !in l || Over(l[k], now) then Attempt(0, now + length) else l[k]
  }

  /** The table after an operation, and the answer of those that give one. */
  function Step(l: Attempts, op: Op, max: nat, length: nat): (Attempts, bool) {
    match op
    case Reserve(k, now) =>
      var a := Entry(l, k, now, length);
      if a.count >= max then (l[k := a], false) else (l[k := a.(count := a.count + 1)], true)
    case Allowed(k, now) =>
      if k !in l then (l, true)
      else if Over(l[k], now) then (l - {k}, true)
      else (l, l[k].count < max)
    case Refund(k, _) =>
      (if k in l && l[k].count > 0 then l[k := l[k].(count := l[k].count - 1)] else l, true)
    case Success(k, _) => (l - {k}, true)
    case Cleanup(now) => (map k | k in l && !Over(l[k], now) :: l[k], true)
  }

  predicate Ordered(ops: seq<Op>) {
    forall i, j :: 0 <= i < j < |ops| ==> ops[i].at <= ops[j].at
  }

  /** The answers of all operations but cleanups, in order. */
  function Answers(l: Attempts, ops: seq<Op>, max: nat, length: nat): seq<bool>
    decreases ops
  {
    if ops == [] then []
    else
      var (m, ok) := Step(l, ops[0], max, length);
      (if ops[0].Cleanup? then [] else [ok]) + Answers(m, ops[1..], max, length)
  }

  function WithoutCleanups(ops: seq<Op>): seq<Op> {
    if ops == [] then []
    else if ops[0].Cleanup? then WithoutCleanups(ops[1..])
    else [ops[0]] + WithoutCleanups(ops[1..])
  }

  // ---- cleaning up changes no answer ----

  /** Two tables agree on what has not run out. */
  ghost predicate Same(l: Attempts, m: Attempts, now: nat) {
    forall k :: (k in l && !Over(l[k], now) <==> k in m && !Over(m[k], now))
                && (k in l && !Over(l[k], now) ==> l[k] == m[k])
  }

  lemma SameLater(l: Attempts, m: Attempts, now: nat, later: nat)
    requires Same(l, m, now) && now <= later
    ensures Same(l, m, later)
  {
  }

  lemma SameStep(l: Attempts, m: Attempts, op: Op, max: nat, length: nat)
    requires Same(l, m, op.at)
    ensures op.Cleanup? ==> Same(Step(l, op, max, length).0, m, op.at)
    ensures !op.Cleanup? ==>
              Same(Step(l, op, max, length).0, Step(m, op, max, length).0, op.at)
              && Step(l, op, max, length).1 == Step(m, op, max, length).1
  {
  }

  lemma {:induction false} SameAnswers(l: Attempts, m: Attempts, ops: seq<Op>, max: nat, length: nat, now: nat)
    requires Ordered(ops) && Same(l, m, now) && (ops != [] ==> now <= ops[0].at)
    ensures Answers(l, ops, max, length) == Answers(m, WithoutCleanups(ops), max, length)
    decreases ops
  {
    if ops != [] {
      hide Same, Step;
      SameLater(l, m, now, ops[0].at);
      SameStep(l, m, ops[0], max, length);
      var l' := Step(l, ops[0], max, length).0;
      if ops[0].Cleanup? {
        SameAnswers(l', m, ops[1..], max, length, ops[0].at);
      } else {
        SameAnswers(l', Step(m, ops[0], max, length).0, ops[1..], max, length, ops[0].at);
        assert ([ops[0]] + WithoutCleanups(ops[1..]))[1..] == WithoutCleanups(ops[1..]);
      }
    }
  }

  /** Running the cleanup pass at any moments never changes any answer. */
  lemma CleanupIsInvisible(l: Attempts, ops: seq<Op>, max: nat, length: nat)
    requires Ordered(ops)
    ensures Answers(l, ops, max, length) == Answers(l, WithoutCleanups(ops), max, length)
  {
    SameAnswers(l, l, ops, max, length, 0);
  }

  // ---- grants in any interval ----

  predicate Clears(op: Op, k: string) {
    (op.Refund? || op.Success?) && op.key == k
  }

  function Reserved(l: Attempts, ops: seq<Op>, k: string, max: nat, length: nat, lo: int, hi: int): nat
    decreases ops
  {
    if ops == [] then 0
    else
      var (m, ok) := Step(l, ops[0], max, length);
      Bit(ops[0].Reserve? && ops[0].key == k && ok && lo <= ops[0].at <= hi) + Reserved(m, ops[1..], k, max, length, lo, hi)
  }

  /** When the requests for one key were made. */
  function TimesOf(ops: seq<Op>, k: string): seq<nat> {
    if ops == [] then []
    else (if ops[0].Reserve? && ops[0].key == k then [ops[0].at] else []) + TimesOf(ops[1..], k)
  }

  /** For one key the table is a window: an entry that is missing or has run out is a window that is over. */
  ghost predicate Mirrors(l: Attempts, k: string, w: Window, now: nat) {
    if k in l && !Over(l[k], now) then w == Window(l[k].count, l[k].until) else now > w.resetAt
  }

  lemma MirrorsStep(l: Attempts, k: string, w: Window, op: Op, max: nat, length: nat)
    requires Mirrors(l, k, w, op.at) && !Clears(op, k)
    ensures var (m, ok) := Step(l, op, max, length);
            if op.Reserve? && op.key == k
            then Mirrors(m, k, Allow(w, op.at, max, length).0, op.at) && ok == Allow(w, op.at, max, length).1
            else Mirrors(m, k, w, op.at)
  {
  }

  lemma MirrorsLater(l: Attempts, k: string, w: Window, now: nat, later: nat)
    requires Mirrors(l, k, w, now) && now <= later
    ensures Mirrors(l, k, w, later)
  {
  }

  /** No refund or success for this key. */
  ghost predicate Uncleared(ops: seq<Op>, k: string) {
    forall op :: op in ops ==> !Clears(op, k)
  }

  lemma UnclearedTail(ops: seq<Op>, k: string)
    requires Uncleared(ops, k) && ops != []
    ensures !Clears(ops[0], k) && Uncleared(ops[1..], k)
  {
  }

  lemma OrderedTail(ops: seq<Op>)
    requires Ordered(ops) && ops != []
    ensures Ordered(ops[1..]) && (ops[1..] != [] ==> ops[0].at <= ops[1..][0].at)
  {
  }

  lemma {:induction false} ReservedIsGranted(l: Attempts, k: string, w: Window, ops: seq<Op>, max: nat, length: nat, now: nat, lo: int, hi: int)
    requires Ordered(ops) && Mirrors(l, k, w, now) && (ops != [] ==> now <= ops[0].at)
    requires Uncleared(ops, k)
    ensures Reserved(l, ops, k, max, length, lo, hi) == Granted(w, TimesOf(ops, k), max, length, lo, hi)
    decreases ops
  {
    if ops != [] {
      OrderedTail(ops);
      UnclearedTail(ops, k);
      hide Mirrors, Step, Allow, Ordered, Uncleared, Clears;
      MirrorsLater(l, k, w, now, ops[0].at);
      MirrorsStep(l, k, w, ops[0], max, length);
      var m := Step(l, ops[0], max, length).0;
      if ops[0].Reserve? && ops[0].key == k {
        assert ([ops[0].at] + TimesOf(ops[1..], k))[1..] == TimesOf(ops[1..], k);
        ReservedIsGranted(m, k, Allow(w, ops[0].at, max, length).0, ops[1..], max, length, ops[0].at, lo, hi);
      } else {
        assert TimesOf(ops, k) == TimesOf(ops[1..], k);
        ReservedIsGranted(m, k, w, ops[1..], max, length, ops[0].at, lo, hi);
      }
    }
  }

  lemma {:induction false} TimesAscend(ops: seq<Op>, k: string)
    requires Ordered(ops)
    ensures Ascending(TimesOf(ops, k))
    ensures forall t :: t in TimesOf(ops, k) ==> ops != [] && ops[0].at <= t
    decreases ops
  {
    if ops != [] {
      TimesAscend(ops[1..], k);
      var rest := TimesOf(ops[1..], k);
      forall t | t in rest ensures ops[0].at <= t { assert ops[1].at <= t; }
      assert forall i :: 0 <= i < |rest| ==> rest[i] in rest;
    }
  }

  /** Without refunds and successes in between, a key gets less than twice `max` grants in any window length. */
  lemma ReservedLessThanTwiceMax(ops: seq<Op>, k: string, max: nat, length: nat, lo: nat)
    requires Ordered(ops) && Uncleared(ops, k)
    ensures Reserved(map[], ops, k, max, length, lo, lo + length) <= Ceiling(max, length)
  {
    ReservedIsGranted(map[], k, FRESH, ops, max, length, 0, lo, lo + length);
    TimesAscend(ops, k);
    LessThanTwiceMax(TimesOf(ops, k), max, length, lo);
  }

  // ---- one login window ----

  /** Grants and refunds of a key since its entry was made. */
  datatype Tally = Tally(grants: nat, refunds: nat)

  predicate Opens(l: Attempts, op: Op, k: string) {
    op.Reserve? && op.key == k && (k !in l || Over(l[k], op.at))
  }

  function Tallied(t: Tally, l: Attempts, op: Op, k: string, max: nat, length: nat): Tally {
    if Opens(l, op, k) then Tally(Bit(Step(l, op, max, length).1), 0)
    else if op.Reserve? && op.key == k then t.(grants := t.grants + Bit(Step(l, op, max, length).1))
    else if op.Refund? && op.key == k then t.(refunds := t.refunds + 1)
    else t
  }

  /** The tally of a key after a run, counted from where its current window opened. */
  function TallyOf(t: Tally, l: Attempts, ops: seq<Op>, k: string, max: nat, length: nat): (Tally, Attempts)
    decreases ops
  {
    if ops == [] then (t, l)
    else TallyOf(Tallied(t, l, ops[0], k, max, length), Step(l, ops[0], max, length).0, ops[1..], k, max, length)
  }

  /** The counter is at least the grants less the refunds, and never above the grants or the maximum. */
  ghost predicate Counted(t: Tally, l: Attempts, k: string, max: nat) {
    k in l ==> l[k].count <= t.grants <= l[k].count + t.refunds && l[k].count <= max
  }

  lemma TallyStep(t: Tally, l: Attempts, op: Op, k: string, max: nat, length: nat)
    requires Counted(t, l, k, max)
    ensures Counted(Tallied(t, l, op, k, max, length), Step(l, op, max, length).0, k, max)
  {
  }

  /** Within one window of a key grants are at most `max` plus the refunds. */
  lemma {:induction false} GrantsWithinWindow(t: Tally, l: Attempts, ops: seq<Op>, k: string, max: nat, length: nat)
    requires Counted(t, l, k, max)
    ensures var (u, m) := TallyOf(t, l, ops, k, max, length); k in m ==> u.grants <= max + u.refunds
    decreases ops
  {
    if ops != [] {
      TallyStep(t, l, ops[0], k, max, length);
      GrantsWithinWindow(Tallied(t, l, ops[0], k, max, length), Step(l, ops[0], max, length).0, ops[1..], k, max, length);
    }
  }

  /** And nobody is turned away before that many were granted in their window. */
  lemma {:induction false} RefusedMeansUsedUp(t: Tally, l: Attempts, ops: seq<Op>, k: string, now: nat, max: nat, length: nat)
    requires Counted(t, l, k, max) && max >= 1
    ensures var (u, m) := TallyOf(t, l, ops, k, max, length);
            !Step(m, Reserve(k, now), max, length).1 ==> k in m && !Over(m[k], now) && u.grants >= max
    decreases ops
  {
    if ops != [] {
      TallyStep(t, l, ops[0], k, max, length);
      RefusedMeansUsedUp(Tallied(t, l, ops[0], k, max, length), Step(l, ops[0], max, length).0, ops[1..], k, now, max, length);
    }
  }

  // ---- what the operations achieve ----

  /** How many attempts of a key count at a time. */
  function Used(l: Attempts, k: string, now: nat): nat {
    if k in l && !Over(l[k], now) then l[k].count else 0
  }

  /** The window in which they count: the one that is open, or the one that an attempt would open. */
  function Until(l: Attempts, k: string, now: nat, length: nat): int {
    if k in l && !Over(l[k], now) then l[k].until else now + length
  }

  /** For this key it is as if nothing had happened. */
  ghost predicate SameKey(l: Attempts, m: Attempts, k: string, now: nat) {
    (k in l && !Over(l[k], now) <==> k in m && !Over(m[k], now)) && (k in l && !Over(l[k], now) ==> m[k] == l[k])
  }

  /**
   A reservation is granted while fewer than `max` attempts count, and counts from then on. Asking counts nothing
   and hears what a reservation would. A refund gives one attempt back, if there is one, a success all of them;
   neither they nor a cleanup open or close a window or touch another key.
   */
  lemma OpOutcome(l: Attempts, op: Op, max: nat, length: nat)
    requires max >= 1
    ensures var (m, ok) := Step(l, op, max, length);
            && (forall k :: (op.Cleanup? || k != op.key) ==> SameKey(l, m, k, op.at))
            && match op
               case Reserve(k, now) =>
                 && (ok <==> Used(l, k, now) < max) && Used(m, k, now) == Used(l, k, now) + Bit(ok)
                 && Until(m, k, now, length) == Until(l, k, now, length)
               case Allowed(k, now) => (ok <==> Used(l, k, now) < max) && SameKey(l, m, k, now)
               case Refund(k, now) =>
                 && Used(m, k, now) == (if Used(l, k, now) > 0 then Used(l, k, now) - 1 else 0)
                 && Until(m, k, now, length) == Until(l, k, now, length)
               case Success(k, now) => k !in m
               case Cleanup(_) => true
  {
  }

  /** A refund undoes the attempt: whatever is asked later, it is as if neither had happened. */
  lemma RefundUndoes(l: Attempts, k: string, now: nat, later: nat, max: nat, length: nat)
    requires Step(l, Reserve(k, now), max, length).1 && now <= later
    ensures var m := Step(Step(l, Reserve(k, now), max, length).0, Refund(k, now), max, length).0;
            Used(m, k, later) == Used(l, k, later)
  {
  }

  /** How many reservations for one key a run asks for. */
  function Asked(ops: seq<Op>, k: string): nat {
    if ops == [] then 0 else Bit(ops[0].Reserve? && ops[0].key == k) + Asked(ops[1..], k)
  }

  function After(l: Attempts, ops: seq<Op>, max: nat, length: nat): Attempts
    decreases ops
  {
    if ops == [] then l else After(Step(l, ops[0], max, length).0, ops[1..], max, length)
  }

  lemma CountsLater(l: Attempts, k: string, now: nat, later: nat)
    requires now <= later
    ensures Used(l, k, later) <= Used(l, k, now)
  {
  }

  lemma {:induction false} UsedWasAsked(l: Attempts, ops: seq<Op>, k: string, now: nat, end: nat, max: nat, length: nat)
    requires max >= 1 && Ordered(ops) && (ops != [] ==> now <= ops[0].at) && now <= end && forall op :: op in ops ==> op.at <= end
    ensures Used(After(l, ops, max, length), k, end) <= Used(l, k, now) + Asked(ops, k)
    decreases ops
  {
    CountsLater(l, k, now, end);
    if ops != [] {
      OrderedTail(ops);
      hide Step, Used, Ordered;
      var m := Step(l, ops[0], max, length).0;
      CountsLater(l, k, now, ops[0].at);
      OneMoreAsked(l, ops[0], k, max, length);
      UsedWasAsked(m, ops[1..], k, ops[0].at, end, max, length);
    }
  }

  lemma OneMoreAsked(l: Attempts, op: Op, k: string, max: nat, length: nat)
    requires max >= 1
    ensures Used(Step(l, op, max, length).0, k, op.at) <= Used(l, k, op.at) + Bit(op.Reserve? && op.key == k)
  {
    OpOutcome(l, op, max, length);
    hide Step;
  }

  /** After a success, whatever else happens, `max` further attempts for the key are granted before one is refused. */
  lemma SuccessStartsOver(l: Attempts, ops: seq<Op>, k: string, now: nat, end: nat, max: nat, length: nat)
    requires max >= 1 && Ordered([Success(k, now)] + ops + [Reserve(k, end)]) && Asked(ops, k) < max
    ensures var m := Step(l, Success(k, now), max, length).0;
            Step(After(m, ops, max, length), Reserve(k, end), max, length).1
  {
    var m, all := Step(l, Success(k, now), max, length).0, [Success(k, now)] + ops + [Reserve(k, end)];
    OpOutcome(l, Success(k, now), max, length);
    assert all[0].at == now && all[|all| - 1].at == end;
    assert forall i :: 0 <= i < |ops| ==> all[i + 1] == ops[i];
    assert Ordered(ops) by { forall i, j | 0 <= i < j < |ops| ensures ops[i].at <= ops[j].at { assert all[i + 1].at <= all[j + 1].at; } }
    forall op | op in ops ensures now <= op.at <= end {
      var i :| 0 <= i < |ops| && ops[i] == op;
      assert all[0].at <= all[i + 1].at <= all[|all| - 1].at;
    }
    UsedWasAsked(m, ops, k, now, end, max, length);
    OpOutcome(After(m, ops, max, length), Reserve(k, end), max, length);
  }

  // ---- asking changes no answer ----

  predicate Asks(op: Op) {
    op.Allowed? || op.Cleanup?
  }

  /** The answers to all reservations, in order. */
  function Grants(l: Attempts, ops: seq<Op>, max: nat, length: nat): seq<bool>
    decreases ops
  {
    if ops == [] then []
    else
      var (m, ok) := Step(l, ops[0], max, length);
      (if ops[0].Reserve? then [ok] else []) + Grants(m, ops[1..], max, length)
  }

  function WithoutAsking(ops: seq<Op>): seq<Op> {
    if ops == [] then []
    else if Asks(ops[0]) then WithoutAsking(ops[1..])
    else [ops[0]] + WithoutAsking(ops[1..])
  }

  lemma AskingSame(l: Attempts, m: Attempts, op: Op, max: nat, length: nat)
    requires Same(l, m, op.at) && Asks(op)
    ensures Same(Step(l, op, max, length).0, m, op.at)
  {
  }

  lemma {:induction false} SameGrants(l: Attempts, m: Attempts, ops: seq<Op>, max: nat, length: nat, now: nat)
    requires Ordered(ops) && Same(l, m, now) && (ops != [] ==> now <= ops[0].at)
    ensures Grants(l, ops, max, length) == Grants(m, WithoutAsking(ops), max, length)
    decreases ops
  {
    if ops != [] {
      OrderedTail(ops);
      hide Same, Step;
      SameLater(l, m, now, ops[0].at);
      var l' := Step(l, ops[0], max, length).0;
      if Asks(ops[0]) {
        AskingSame(l, m, ops[0], max, length);
        SameGrants(l', m, ops[1..], max, length, ops[0].at);
      } else {
        SameStep(l, m, ops[0], max, length);
        SameGrants(l', Step(m, ops[0], max, length).0, ops[1..], max, length, ops[0].at);
        assert ([ops[0]] + WithoutAsking(ops[1..]))[1..] == WithoutAsking(ops[1..]);
      }
    }
  }

  /** Asking whether a key is allowed, and cleaning up, at any moments, never changes what is granted. */
  lemma AskingIsInvisible(l: Attempts, ops: seq<Op>, max: nat, length: nat)
    requires Ordered(ops)
    ensures Grants(l, ops, max, length) == Grants(l, WithoutAsking(ops), max, length)
  {
    SameGrants(l, l, ops, max, length, 0);
  }
}
