/** The two limiters as the server keeps them, counting in place. */
module LimiterState {
  import opened Limiters

  /** One client's fixed-window limiter. */
  class MsgRateLimiter {
    const window: nat
    var count: nat
    var resetAt: int

    constructor (window: nat)
      ensures View() == FRESH && this.window == window
    {
      this.window, count, resetAt := window, 0, -1;
    }

    ghost function View(): Window
      reads this
    {
      Window(count, resetAt)
    }

    method Allow(max: nat, now: nat) returns (ok: bool)
      modifies this
      ensures (View(), ok) == Limiters.Allow(old(View()), now, max, window)
    {
      if now > resetAt {
        count := 0;
        resetAt := now + window;
      }
      if count >= max { return false; }
      count := count + 1;
      return true;
    }
  }

  class Entry {
    const key: string
    const until: int
    var count: nat

    constructor (key: string, until: int)
      ensures this.key == key && this.until == until && count == 0
    {
      this.key, this.until, count := key, until, 0;
    }

    ghost function View(): Attempt
      reads this
    {
      Attempt(count, until)
    }
  }

  /** The limiter of logins and passcodes, by key. */
  class LoginLimiter {
    const max: nat
    const window: nat
    var attempts: map<string, Entry>

    constructor (max: nat, window: nat)
      ensures Valid() && View() == map[] && this.max == max && this.window == window
    {
      this.max, this.window, attempts := max, window, map[];
    }

    /** Entries know their key; so no entry serves two. */
    ghost predicate Valid()
      reads this, attempts.Values
    {
      forall k :: k in attempts ==> attempts[k].key == k
    }

    ghost function View(): Attempts
      reads this, attempts.Values
    {
      map k | k in attempts :: attempts[k].View()
    }

    /** Check and count in one go. */
    method Reserve(key: string, now: nat) returns (ok: bool)
      requires Valid()
      modifies this, attempts.Values
      ensures Valid() && (View(), ok) == Step(old(View()), Limiters.Reserve(key, now), max, window)
    {
      if key !in attempts || now > attempts[key].until {
        var a := new Entry(key, now + window);
        attempts := attempts[key := a];
      }
      if attempts[key].count >= max {
        assert View() == Step(old(View()), Limiters.Reserve(key, now), max, window).0;
        return false;
      }
      attempts[key].count := attempts[key].count + 1;
      assert View() == Step(old(View()), Limiters.Reserve(key, now), max, window).0;
      return true;
    }

    method Allowed(key: string, now: nat) returns (ok: bool)
      requires Valid()
      modifies this
      ensures Valid() && (View(), ok) == Step(old(View()), Limiters.Allowed(key, now), max, window)
    {
      if key !in attempts { return true; }
      if now > attempts[key].until {
        attempts := attempts - {key};
        assert View() == old(View()) - {key};
        return true;
      }
      return attempts[key].count < max;
    }

    method Refund(key: string, ghost now: nat)
      requires Valid()
      modifies attempts.Values
      ensures Valid() && View() == Step(old(View()), Limiters.Refund(key, now), max, window).0
    {
      if key in attempts && attempts[key].count > 0 {
        attempts[key].count := attempts[key].count - 1;
        assert View() == Step(old(View()), Limiters.Refund(key, now), max, window).0;
      }
    }

    method Success(key: string, ghost now: nat)
      requires Valid()
      modifies this
      ensures Valid() && View() == Step(old(View()), Limiters.Success(key, now), max, window).0
    {
      attempts := attempts - {key};
      assert View() == old(View()) - {key};
    }

    /** One pass of the background loop. */
    method CleanupPass(now: nat)
      requires Valid()
      modifies this
      ensures Valid() && View() == Step(old(View()), Cleanup(now), max, window).0
    {
      var rest := attempts.Keys;
      ghost var was := attempts;
      while rest != {}
        invariant rest <= attempts.Keys <= was.Keys
        invariant forall k :: k in attempts ==> attempts[k] == was[k]
        invariant forall k :: k in was && k !in rest ==> (k in attempts <==> now <= was[k].until)
      {
        var k :| k in rest;
        if now > attempts[k].until {
          attempts := attempts - {k};
        }
        rest := rest - {k};
      }
    }
  }
}
