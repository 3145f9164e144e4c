/** The token bucket in front of the RPC client. */
module RateLimiting {
  import opened Sums
  import opened Amounts

  datatype Bucket = Bucket(max: nat, interval: nat, tokens: nat, lastRefill: int)

  predicate Valid(b: Bucket) {
    b.interval > 0 && b.tokens <= b.max
  }

  datatype Try = Try(bucket: Bucket, granted: bool)

  /** tryConsume at a clock reading. Time that does not make up a whole interval is lost on a refill. */
  function Consume(b: Bucket, now: int): (r: Try)
    requires Valid(b)
    ensures Valid(r.bucket) && r.bucket.max == b.max && r.bucket.interval == b.interval
  {
    var elapsed := now - b.lastRefill;
    var refilled := if elapsed >= b.interval
                    then b.(tokens := Min(b.max, b.tokens + elapsed / b.interval), lastRefill := now)
                    else b;
    if refilled.tokens > 0 then Try(refilled.(tokens := refilled.tokens - 1), true) else Try(refilled, false)
  }

  /** The bucket after tries at the given readings, in turn. */
  function After(b: Bucket, readings: seq<int>): (b': Bucket)
    requires Valid(b)
    ensures Valid(b') && b'.max == b.max && b'.interval == b.interval
    decreases |readings|
  {
    if readings == [] then b else After(Consume(b, readings[0]).bucket, readings[1..])
  }

  function Granted(b: Bucket, readings: seq<int>): nat
    requires Valid(b)
    decreases |readings|
  {
    if readings == [] then 0
    else (if Consume(b, readings[0]).granted then 1 else 0) + Granted(Consume(b, readings[0]).bucket, readings[1..])
  }

  /** A try is refused only when the bucket is empty and no interval has passed. */
  lemma GrantedIff(b: Bucket, now: int)
    requires Valid(b)
    ensures Consume(b, now).granted <==> b.tokens > 0 || (b.max > 0 && now - b.lastRefill >= b.interval)
  {
    if now - b.lastRefill >= b.interval {
      FloorCharacterized(now - b.lastRefill, b.interval, 1);
    }
  }

  lemma {:induction false} TokensAccounted(b: Bucket, readings: seq<int>)
    requires Valid(b)
    ensures After(b, readings).lastRefill >= b.lastRefill
    ensures Granted(b, readings) + After(b, readings).tokens
         <= b.tokens + (After(b, readings).lastRefill - b.lastRefill) / b.interval
    ensures readings != [] && After(b, readings).lastRefill != b.lastRefill
            ==> After(b, readings).lastRefill in readings
    decreases |readings|
  {
    if readings != [] {
      var b' := Consume(b, readings[0]).bucket;
      TokensAccounted(b', readings[1..]);
      FloorOfSum(b'.lastRefill - b.lastRefill, After(b', readings[1..]).lastRefill - b'.lastRefill, b.interval);
      assert readings == [readings[0]] + readings[1..];
    }
  }

  /**
   * From any state of the bucket, however the clock reads up to end, no more tries are granted than
   * the tokens it may hold and one for each whole interval since its last refill. With the state the
   * constructor leaves this bounds the whole life of the limiter, with a later one any window.
   */
  lemma GrantsBounded(b: Bucket, readings: seq<int>, end: int)
    requires Valid(b) && b.lastRefill <= end && forall i :: 0 <= i < |readings| ==> readings[i] <= end
    ensures Granted(b, readings) <= b.max + (end - b.lastRefill) / b.interval
  {
    TokensAccounted(b, readings);
    var last := After(b, readings).lastRefill;
    assert last <= end;
    FloorMonotone(last - b.lastRefill, end - b.lastRefill, b.interval);
  }

  function Burst(start: int, n: nat): seq<int> {
    seq(n, _ => start)
  }

  lemma {:induction false} BurstGranted(b: Bucket)
    requires Valid(b)
    ensures Granted(b, Burst(b.lastRefill, b.tokens)) == b.tokens
    ensures After(b, Burst(b.lastRefill, b.tokens)) == b.(tokens := 0)
    decreases b.tokens
  {
    if b.tokens > 0 {
      BurstGranted(b.(tokens := b.tokens - 1));
      assert Burst(b.lastRefill, b.tokens)[1..] == Burst(b.lastRefill, b.tokens - 1);
    }
  }

  /**
   * A full burst after a pause: one try for each token left and each whole interval of the pause, up to
   * the capacity.
   */
  lemma PauseRefills(b: Bucket, now: int, intervals: nat)
    requires Valid(b) && b.lastRefill + intervals * b.interval <= now < b.lastRefill + (intervals + 1) * b.interval
    ensures
      var burst := if intervals == 0 then b.tokens else Min(b.max, b.tokens + intervals);
      && Granted(b, Burst(now, burst)) == burst
      && (burst > 0 ==> After(b, Burst(now, burst)).tokens == 0)
      && !Consume(After(b, Burst(now, burst)), now).granted
      && (burst > 0 && intervals > 0 ==> After(b, Burst(now, burst)).lastRefill == now)
  {
    var elapsed := now - b.lastRefill;
    FloorCharacterized(elapsed, b.interval, intervals);
    FloorCharacterized(elapsed, b.interval, intervals + 1);
    assert elapsed / b.interval == intervals;
    if intervals == 0 {
      DrainedInPlace(b, now);
    } else {
      FloorCharacterized(elapsed, b.interval, 1);
      var refilled := b.(tokens := Min(b.max, b.tokens + intervals), lastRefill := now);
      if refilled.tokens > 0 {
        DrainedInPlace(refilled, now);
        assert Consume(b, now) == Consume(refilled, now);
        assert Burst(now, refilled.tokens)[0] == now;
        assert Granted(b, Burst(now, refilled.tokens)) == Granted(refilled, Burst(now, refilled.tokens));
        assert After(b, Burst(now, refilled.tokens)) == After(refilled, Burst(now, refilled.tokens));
      }
    }
  }

  /** With no interval passed, exactly the tokens held are granted. */
  lemma {:induction false} DrainedInPlace(b: Bucket, now: int)
    requires Valid(b) && b.lastRefill <= now < b.lastRefill + b.interval
    ensures Granted(b, Burst(now, b.tokens)) == b.tokens && After(b, Burst(now, b.tokens)) == b.(tokens := 0)
    decreases b.tokens
  {
    if b.tokens > 0 {
      DrainedInPlace(b.(tokens := b.tokens - 1), now);
      assert Burst(now, b.tokens)[1..] == Burst(now, b.tokens - 1);
    }
  }

  function Ticks(start: int, interval: nat, n: nat): seq<int>
    decreases n
  {
    if n == 0 then [] else [start + interval] + Ticks(start + interval, interval, n - 1)
  }

  lemma {:induction false} TicksGranted(b: Bucket, n: nat)
    requires Valid(b) && b.tokens == 0 && b.max > 0
    ensures Granted(b, Ticks(b.lastRefill, b.interval, n)) == n
    decreases n
  {
    if n > 0 {
      FloorCharacterized(b.interval, b.interval, 1);
      FloorCharacterized(b.interval, b.interval, 2);
      var b' := Consume(b, b.lastRefill + b.interval).bucket;
      assert b' == b.(lastRefill := b.lastRefill + b.interval);
      TicksGranted(b', n - 1);
    }
  }

  lemma {:induction false} GrantsAppend(b: Bucket, first: seq<int>, second: seq<int>)
    requires Valid(b)
    ensures Granted(b, first + second) == Granted(b, first) + Granted(After(b, first), second)
    ensures After(b, first + second) == After(After(b, first), second)
    decreases |first|
  {
    if first == [] {
      assert first + second == second;
    } else {
      assert (first + second)[1..] == first[1..] + second;
      GrantsAppend(Consume(b, first[0]).bucket, first[1..], second);
    }
  }

  /** The bound is reached: a full bucket drained at once and then asked once per interval grants them all. */
  lemma BoundIsReached(b: Bucket, n: nat)
    requires Valid(b) && b.tokens == b.max > 0
    ensures Granted(b, Burst(b.lastRefill, b.max) + Ticks(b.lastRefill, b.interval, n)) == b.max + n
  {
    BurstGranted(b);
    GrantsAppend(b, Burst(b.lastRefill, b.max), Ticks(b.lastRefill, b.interval, n));
    TicksGranted(b.(tokens := 0), n);
  }

  class RateLimiter {
    const max: nat
    const interval: nat
    var tokens: nat
    var lastRefill: int

    ghost function State(): Bucket
      reads this
    {
      Bucket(max, interval, tokens, lastRefill)
    }

    constructor (max: nat, interval: nat, now: int)
      requires interval > 0
      ensures State() == Bucket(max, interval, max, now) && Valid(State())
    {
      this.max, this.interval, this.tokens, this.lastRefill := max, interval, max, now;
    }

    method TryConsume(now: int) returns (granted: bool)
      requires Valid(State())
      modifies this
      ensures Consume(old(State()), now) == Try(State(), granted)
    {
      var elapsed := now - lastRefill;
      if elapsed >= interval {
        var refill := elapsed / interval;
        tokens := if tokens + refill < max then tokens + refill else max;
        lastRefill := now;
      }
      granted := tokens > 0;
      if granted {
        tokens := tokens - 1;
      }
    }

    /** acquire, given what the clock reads at each wake-up: it stops at the first try that is granted. */
    method Acquire(readings: seq<int>) returns (tries: nat, granted: bool)
      requires Valid(State())
      modifies this
      ensures tries <= |readings| && State() == After(old(State()), readings[..tries])
      ensures Granted(old(State()), readings[..tries]) == (if granted then 1 else 0)
      ensures !granted ==> tries == |readings|
    {
      tries, granted := 0, false;
      assert readings[..0] == [];
      while !granted && tries < |readings|
        invariant tries <= |readings| && Valid(State()) && State() == After(old(State()), readings[..tries])
        invariant Granted(old(State()), readings[..tries]) == (if granted then 1 else 0)
        decreases |readings| - tries
      {
        ghost var b := State();
        granted := TryConsume(readings[tries]);
        assert readings[..tries + 1] == readings[..tries] + [readings[tries]];
        GrantsAppend(old(State()), readings[..tries], [readings[tries]]);
        assert [readings[tries]][1..] == [];
        assert After(b, [readings[tries]]) == State();
        tries := tries + 1;
      }
    }
  }
}
