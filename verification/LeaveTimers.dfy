/**
 The delayed room departures of users whose socket dropped: a timer and a token per user. A timer that
 has run out still has to wait for the hub's lock, and stopping it then comes too late; its callback
 carries the token it was armed with, and the token on record decides whether it still counts.
 */
module LeaveTimers {
  import opened Media

  /** One armed timer; `serial` is its identity. */
  datatype Timer = Timer(user: UserId, token: nat, serial: nat)

  /**
   `timers` and `tokens` are the hub's tables; a missing token counts as zero. `running` are the timers
   that neither ran out nor were stopped, `queue` the callbacks waiting for the lock, oldest first.
   */
  datatype Clock = Clock(
    timers: map<UserId, Timer>,
    tokens: map<UserId, nat>,
    running: set<Timer>,
    queue: seq<Timer>,
    serials: nat)

  const IDLE := Clock(map[], map[], {}, [], 0)

  function Token(c: Clock, u: UserId): nat {
    if u in c.tokens then c.tokens[u] else 0
  }

  function Stop(c: Clock, u: UserId): Clock {
    if u in c.timers then c.(running := c.running - {c.timers[u]}) else c
  }

  /** Arm a timer for `u`, with the next token, in place of any earlier one. */
  function Schedule(c: Clock, u: UserId): Clock {
    var t := Timer(u, Token(c, u) + 1, c.serials);
    Stop(c, u).(timers := c.timers[u := t], tokens := c.tokens[u := t.token], running := Stop(c, u).running + {t},
                serials := c.serials + 1)
  }

  /** Stop the timer of `u` and outdate whatever callback may be waiting. */
  function Cancel(c: Clock, u: UserId): Clock {
    Stop(c, u).(timers := c.timers - {u}, tokens := c.tokens[u := Token(c, u) + 1])
  }

  /** A running timer runs out; its callback starts to wait. */
  function Fire(c: Clock, t: Timer): Clock {
    if t in c.running then c.(running := c.running - {t}, queue := c.queue + [t]) else c
  }

  predicate Counts(c: Clock, t: Timer) {
    Token(c, t.user) == t.token
  }

  /** A callback gets the lock: if its token is on record, timer and token are forgotten. */
  function Expire(c: Clock, t: Timer): Clock {
    if Counts(c, t) then c.(timers := c.timers - {t.user}, tokens := c.tokens - {t.user}) else c
  }

  /** The callback at position `k` gets the lock next. */
  function Take(c: Clock, k: nat): Clock
    requires k < |c.queue|
  {
    Expire(c.(queue := c.queue[..k] + c.queue[k + 1..]), c.queue[k])
  }

  /** Callbacks of one user get the lock in the order in which their timers ran out. */
  predicate InTurn(c: Clock, k: nat)
    requires k < |c.queue|
  {
    forall j :: 0 <= j < k ==> c.queue[j].user != c.queue[k].user
  }

  datatype Op = ScheduleOp(user: UserId) | CancelOp(user: UserId) | FireOp(timer: Timer) | TakeOp(index: nat)

  /** Is an operation possible; with `fair` callbacks get the lock in turn. */
  predicate Enabled(c: Clock, op: Op, fair: bool) {
    op.TakeOp? ==> op.index < |c.queue| && (fair ==> InTurn(c, op.index))
  }

  function Step(c: Clock, op: Op): Clock {
    match op
    case ScheduleOp(u) => Schedule(c, u)
    case CancelOp(u) => Cancel(c, u)
    case FireOp(t) => Fire(c, t)
    case TakeOp(k) => if k < |c.queue| then Take(c, k) else c
  }

  predicate Possible(c: Clock, ops: seq<Op>, fair: bool)
    decreases ops
  {
    ops == [] || (Enabled(c, ops[0], fair) && Possible(Step(c, ops[0]), ops[1..], fair))
  }

  function Run(c: Clock, ops: seq<Op>): Clock
    decreases ops
  {
    if ops == [] then c else Run(Step(c, ops[0]), ops[1..])
  }

  // ---- armed timers, whatever the order of callbacks ----

  /** A timer for `u` is on record with the current token, and its callback is still to come. */
  ghost predicate Armed(c: Clock, u: UserId) {
    u in c.timers && c.timers[u].token == Token(c, u) && c.timers[u].user == u
    && (c.timers[u] in c.running || c.timers[u] in c.queue)
  }

  ghost predicate AllArmed(c: Clock) {
    && (forall u :: u in c.timers ==> Armed(c, u) && c.timers[u].serial < c.serials)
    && (forall t :: t in c.running ==> t.serial < c.serials)
  }

  /** Timers on record stay armed, and an operation changes the record of one user at most. */
  lemma StepArmed(c: Clock, op: Op)
    requires AllArmed(c)
    ensures AllArmed(Step(c, op))
    ensures op.ScheduleOp? ==> Step(c, op).timers.Keys == c.timers.Keys + {op.user}
    ensures op.CancelOp? ==> Step(c, op).timers.Keys == c.timers.Keys - {op.user}
    ensures op.FireOp? ==> Step(c, op).timers == c.timers
    ensures op.TakeOp? && op.index < |c.queue| ==>
              var t := c.queue[op.index];
              Step(c, op).timers == if Counts(c, t) then c.timers - {t.user} else c.timers
  {
    match op
    case ScheduleOp(u) =>
    case CancelOp(u) =>
    case FireOp(t) => if t in c.running { FireArmed(c, t); }
    case TakeOp(k) => if k < |c.queue| { TakeArmed(c, k); }
  }

  lemma FireArmed(c: Clock, t: Timer)
    requires AllArmed(c) && t in c.running
    ensures AllArmed(Fire(c, t))
  {
    var d := Fire(c, t);
    assert d.queue[|c.queue|] == t;
    assert forall x :: x in c.queue ==> x in d.queue;
  }

  lemma TakeArmed(c: Clock, k: nat)
    requires AllArmed(c) && k < |c.queue|
    ensures AllArmed(Take(c, k))
  {
    var t, d := c.queue[k], Take(c, k);
    forall x | x in c.queue && x != t ensures x in d.queue {
      var i :| 0 <= i < |c.queue| && c.queue[i] == x;
      assert d.queue[if i < k then i else i - 1] == x;
    }
  }

  // ---- superseded callbacks ----

  /** Was `t` superseded or cancelled: is the timer on record no longer this one? */
  predicate Stale(c: Clock, t: Timer) {
    !(t.user in c.timers && c.timers[t.user] == t)
  }

  /** The timer on record carries the current token. */
  ghost predicate Current(c: Clock) {
    forall u :: u in c.timers ==> c.timers[u].user == u && 1 <= c.timers[u].token == Token(c, u) && c.timers[u].serial < c.serials
  }

  /** Only the timer on record can be running, and then its callback is not waiting. */
  ghost predicate OneRunning(c: Clock) {
    forall t :: t in c.running ==> !Stale(c, t) && t !in c.queue
  }

  ghost predicate Waiting(c: Clock) {
    forall t :: t in c.queue ==> 1 <= t.token && t.serial < c.serials
  }

  ghost predicate Base(c: Clock) {
    Current(c) && OneRunning(c) && Waiting(c)
  }

  /** No waiting callback that was superseded or cancelled would count. */
  predicate Safe(c: Clock) {
    forall t :: t in c.queue && Counts(c, t) ==> !Stale(c, t)
  }

  /** An arming or a cancelling issues a token that a waiting callback of the same user already carries. */
  predicate Reissues(c: Clock, op: Op) {
    (op.ScheduleOp? || op.CancelOp?) && exists t :: t in c.queue && t.user == op.user && t.token == Token(c, op.user) + 1
  }

  /** In whatever order callbacks get the lock, a step keeps superseded callbacks idle unless it reissues a token. */
  lemma StepSafe(c: Clock, op: Op)
    requires Base(c) && Safe(c)
    ensures Base(Step(c, op)) && (Safe(Step(c, op)) <==> !Reissues(c, op))
  {
    match op
    case ScheduleOp(u) => ScheduleSafe(c, u);
    case CancelOp(u) => CancelSafe(c, u);
    case FireOp(t) => if t in c.running { FireSafe(c, t); }
    case TakeOp(k) => if k < |c.queue| { TakeSafe(c, k); }
  }

  lemma ScheduleSafe(c: Clock, u: UserId)
    requires Base(c) && Safe(c)
    ensures Base(Schedule(c, u)) && (Safe(Schedule(c, u)) <==> !Reissues(c, ScheduleOp(u)))
  {
    var d := Schedule(c, u);
    assert d.timers[u].serial == c.serials && d.queue == c.queue;
    if t :| t in c.queue && t.user == u && t.token == Token(c, u) + 1 {
      assert t in d.queue && Counts(d, t) && Stale(d, t);
    }
  }

  lemma CancelSafe(c: Clock, u: UserId)
    requires Base(c) && Safe(c)
    ensures Base(Cancel(c, u)) && (Safe(Cancel(c, u)) <==> !Reissues(c, CancelOp(u)))
  {
    var d := Cancel(c, u);
    assert d.queue == c.queue;
    if t :| t in c.queue && t.user == u && t.token == Token(c, u) + 1 {
      assert t in d.queue && Counts(d, t) && Stale(d, t);
    }
  }

  lemma FireSafe(c: Clock, t: Timer)
    requires Base(c) && Safe(c) && t in c.running
    ensures Base(Fire(c, t)) && Safe(Fire(c, t))
  {
    forall x | x in Fire(c, t).queue ensures x in c.queue || x == t {}
  }

  lemma TakeSafe(c: Clock, k: nat)
    requires Base(c) && Safe(c) && k < |c.queue|
    ensures Base(Take(c, k)) && Safe(Take(c, k))
  {
    var t, rest := c.queue[k], c.queue[..k] + c.queue[k + 1..];
    assert t in c.queue;
    forall x | x in rest ensures x in c.queue {}
  }

  ghost predicate SafeThroughout(c: Clock, ops: seq<Op>)
    decreases ops
  {
    Safe(c) && (ops == [] || SafeThroughout(Step(c, ops[0]), ops[1..]))
  }

  predicate NeverReissues(c: Clock, ops: seq<Op>)
    decreases ops
  {
    ops == [] || (!Reissues(c, ops[0]) && NeverReissues(Step(c, ops[0]), ops[1..]))
  }

  lemma {:induction false} SafeFrom(c: Clock, ops: seq<Op>)
    requires Base(c) && Safe(c)
    ensures SafeThroughout(c, ops) <==> NeverReissues(c, ops)
    decreases ops
  {
    hide Base, Safe, Reissues, Step;
    if ops != [] {
      StepSafe(c, ops[0]);
      if !Reissues(c, ops[0]) {
        SafeFrom(Step(c, ops[0]), ops[1..]);
      }
    }
  }

  /**
   In whatever order callbacks get the lock: no superseded or cancelled callback would ever count if and
   only if no token is issued while a waiting callback of the same user carries it.
   */
  lemma {:induction false} SafeIffNeverReissued(ops: seq<Op>)
    ensures SafeThroughout(IDLE, ops) <==> NeverReissues(IDLE, ops)
  {
    SafeFrom(IDLE, ops);
  }

  // ---- callbacks in turn ----

  /** Waiting callbacks of a user have growing tokens, none beyond the current one. */
  ghost predicate Ranked(c: Clock) {
    && (forall i, j :: 0 <= i < j < |c.queue| && c.queue[i].user == c.queue[j].user ==> c.queue[i].token < c.queue[j].token)
    && (forall t :: t in c.queue ==> t.token <= Token(c, t.user))
  }

  ghost predicate Inv(c: Clock) {
    Base(c) && Safe(c) && Ranked(c)
  }

  /** With callbacks in turn no token is issued twice. */
  lemma StepKeeps(c: Clock, op: Op)
    requires Inv(c) && Enabled(c, op, true)
    ensures Inv(Step(c, op)) && !Reissues(c, op)
  {
    StepSafe(c, op);
    hide Safe, Current, OneRunning;
    match op
    case ScheduleOp(u) =>
    case CancelOp(u) =>
    case FireOp(t) => if t in c.running { FireRanked(c, t); }
    case TakeOp(k) => TakeRanked(c, k);
  }

  lemma FireRanked(c: Clock, t: Timer)
    requires Inv(c) && t in c.running
    ensures Ranked(Fire(c, t))
  {
    assert !Counts(c, t) ==> Stale(c, t);
    forall i | 0 <= i < |c.queue| && c.queue[i].user == t.user ensures c.queue[i].token < t.token {
      assert c.queue[i] in c.queue;
    }
    forall x | x in Fire(c, t).queue ensures x in c.queue || x == t {}
  }

  lemma TakeRanked(c: Clock, k: nat)
    requires Ranked(c) && k < |c.queue| && InTurn(c, k)
    ensures Ranked(Take(c, k))
  {
    Remaining(c, k);
    Shorter(c, k);
    assert c.queue[k] in c.queue;
    hide InTurn;
  }

  /** What still waits after a callback got the lock in turn. */
  lemma Remaining(c: Clock, k: nat)
    requires Ranked(c) && k < |c.queue| && InTurn(c, k)
    ensures forall x :: x in c.queue[..k] + c.queue[k + 1..] ==>
              x in c.queue && (x.user == c.queue[k].user ==> x.token > c.queue[k].token)
  {
    var t, rest := c.queue[k], c.queue[..k] + c.queue[k + 1..];
    forall x | x in rest ensures x in c.queue && (x.user == t.user ==> x.token > t.token) {
      var i :| 0 <= i < |rest| && rest[i] == x;
      assert x == if i < k then c.queue[i] else c.queue[i + 1];
    }
  }

  lemma Shorter(c: Clock, k: nat)
    requires Ranked(c) && k < |c.queue|
    ensures var rest := c.queue[..k] + c.queue[k + 1..];
            forall i, j :: 0 <= i < j < |rest| && rest[i].user == rest[j].user ==> rest[i].token < rest[j].token
  {
    var rest := c.queue[..k] + c.queue[k + 1..];
    forall i, j | 0 <= i < j < |rest| && rest[i].user == rest[j].user ensures rest[i].token < rest[j].token {
      var i', j' := if i < k then i else i + 1, if j < k then j else j + 1;
      assert rest[i] == c.queue[i'] && rest[j] == c.queue[j'];
    }
  }

  lemma {:induction false} InTurnNeverReissues(c: Clock, ops: seq<Op>)
    requires Inv(c) && Possible(c, ops, true)
    ensures NeverReissues(c, ops) && Inv(Run(c, ops))
    decreases ops
  {
    hide Inv, Enabled, Step, Reissues;
    if ops != [] {
      StepKeeps(c, ops[0]);
      InTurnNeverReissues(Step(c, ops[0]), ops[1..]);
    }
  }

  /**
   So when callbacks get the lock in turn, one that was superseded or cancelled never counts, although
   tokens are forgotten on expiry and start again from one.
   */
  lemma {:induction false} StaleNeverCounts(ops: seq<Op>)
    requires Possible(IDLE, ops, true)
    ensures SafeThroughout(IDLE, ops)
  {
    InTurnNeverReissues(IDLE, ops);
    SafeIffNeverReissued(ops);
  }

  // ---- a run out of turn ----

  lemma {:induction false} OneMore(c: Clock, ops: seq<Op>, op: Op, fair: bool)
    requires Possible(c, ops, fair) && Enabled(Run(c, ops), op, fair)
    ensures Possible(c, ops + [op], fair) && Run(c, ops + [op]) == Step(Run(c, ops), op)
    decreases ops
  {
    hide Enabled, Step;
    if ops == [] {
      assert [op][1..] == [];
    } else {
      OneMore(Step(c, ops[0]), ops[1..], op, fair);
      assert (ops + [op])[1..] == ops[1..] + [op];
    }
  }

  const FIRST := Timer(7, 1, 0)
  const SECOND := Timer(7, 3, 1)

  /** Two callbacks wait: one of a cancelled timer, and one of the timer on record. */
  lemma TwoWaiting() returns (ops: seq<Op>)
    ensures Possible(IDLE, ops, false) && Run(IDLE, ops) == Clock(map[7 := SECOND], map[7 := 3], {}, [FIRST, SECOND], 2)
  {
    hide Run, Possible;
    var c1 := Schedule(IDLE, 7);
    assert c1 == Clock(map[7 := FIRST], map[7 := 1], {FIRST}, [], 1);
    var c2 := Fire(c1, FIRST);
    assert c2 == Clock(map[7 := FIRST], map[7 := 1], {}, [FIRST], 1);
    var c3 := Cancel(c2, 7);
    var c4 := Schedule(c3, 7);
    assert c4 == Clock(map[7 := SECOND], map[7 := 3], {SECOND}, [FIRST], 2);
    var c5 := Fire(c4, SECOND);
    assert c5 == Clock(map[7 := SECOND], map[7 := 3], {}, [FIRST, SECOND], 2);
    ops := Five(ScheduleOp(7), FireOp(FIRST), CancelOp(7), ScheduleOp(7), FireOp(SECOND));
  }

  lemma Five(a: Op, b: Op, c: Op, d: Op, e: Op) returns (ops: seq<Op>)
    requires !a.TakeOp? && !b.TakeOp? && !c.TakeOp? && !d.TakeOp? && !e.TakeOp?
    ensures Possible(IDLE, ops, false) && Run(IDLE, ops) == Step(Step(Step(Step(Step(IDLE, a), b), c), d), e)
  {
    hide Step;
    ops := [];
    OneMore(IDLE, [], a, false);
    OneMore(IDLE, [a], b, false);
    OneMore(IDLE, [a] + [b], c, false);
    OneMore(IDLE, [a] + [b] + [c], d, false);
    OneMore(IDLE, [a] + [b] + [c] + [d], e, false);
    ops := [a] + [b] + [c] + [d] + [e];
  }

  /** Taken out of turn, the second lets its token be forgotten; the next arming reissues what the first carries. */
  lemma OutOfTurn() returns (ops: seq<Op>)
    ensures Possible(IDLE, ops, false) && !SafeThroughout(IDLE, ops)
    ensures var c := Run(IDLE, ops); FIRST in c.queue && Counts(c, FIRST) && Stale(c, FIRST) && 7 in c.timers
  {
    hide Run, Possible, SafeThroughout;
    var before := TwoWaiting();
    OneMore(IDLE, before, TakeOp(1), false);
    var c1 := Run(IDLE, before + [TakeOp(1)]);
    assert c1 == Clock(map[], map[], {}, [FIRST], 2);
    OneMore(IDLE, before + [TakeOp(1)], ScheduleOp(7), false);
    ops := before + [TakeOp(1)] + [ScheduleOp(7)];
    var c := Run(IDLE, ops);
    assert c.queue == [FIRST] && c.timers == map[7 := Timer(7, 1, 2)];
    assert FIRST in c.queue && Counts(c, FIRST) && Stale(c, FIRST);
    EndsUnsafe(IDLE, ops);
  }

  lemma {:induction false} EndsUnsafe(c: Clock, ops: seq<Op>)
    requires !Safe(Run(c, ops))
    ensures !SafeThroughout(c, ops)
    decreases ops
  {
    hide Safe, Step;
    if ops != [] { EndsUnsafe(Step(c, ops[0]), ops[1..]); }
  }
}
