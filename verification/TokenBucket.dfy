// One token bucket of the bandwidth limiter, the same on server and agent, over
// exact real numbers. One turn of the `acquire` loop is one locked region; the
// clock and the rate in force are read anew each time.
module TokenBucket {
  // mbps * 1_000_000 / 8
  const BYTES_PER_MBPS: real := 125000.0
  const MAX_SLEEP: real := 0.5
  // A TCP chunk or a UDP receive buffer.
  const LARGEST_REQUEST: nat := 65536

  datatype Bucket = Bucket(tokens: real, last: real)

  // What one turn of the loop reads: the time and the current rate.
  datatype Reading = Reading(now: real, mbps: nat)

  function Rate(mbps: nat): real {
    mbps as real * BYTES_PER_MBPS
  }

  function Min(a: real, b: real): real {
    if a <= b then a else b
  }

  function Elapsed(b: Bucket, now: real): real {
    if now <= b.last then 0.0 else now - b.last
  }

  // Time passed is credited at the rate read now; one second is the most kept.
  function Refilled(b: Bucket, r: Reading): Bucket {
    Bucket(Min(b.tokens + Elapsed(b, r.now) * Rate(r.mbps), Rate(r.mbps)), r.now)
  }

  predicate Grants(b: Bucket, r: Reading, bytes: nat) {
    r.mbps == 0 || Refilled(b, r).tokens >= bytes as real
  }

  function Turned(b: Bucket, r: Reading, bytes: nat): Bucket {
    if r.mbps == 0 then b
    else if Refilled(b, r).tokens >= bytes as real then
      Refilled(b, r).(tokens := Refilled(b, r).tokens - bytes as real)
    else Refilled(b, r)
  }

  // The sleep after a refused turn.
  function SleepFor(b: Bucket, r: Reading, bytes: nat): real
    requires r.mbps > 0
  {
    Min((bytes as real - Refilled(b, r).tokens) / Rate(r.mbps), MAX_SLEEP)
  }

  // The bucket after a loop that may see these readings, and the turn it was
  // granted at (or the number of readings when it never was).
  function Looped(b: Bucket, readings: seq<Reading>, bytes: nat): (Bucket, nat)
    decreases |readings|
  {
    if readings == [] then (b, 0)
    else if Grants(b, readings[0], bytes) then (Turned(b, readings[0], bytes), 0)
    else
      var (b', n) := Looped(Turned(b, readings[0], bytes), readings[1..], bytes);
      (b', n + 1)
  }

  class Limiter {
    var tokens: real
    var last: real

    function Contents(): Bucket
      reads this
    {
      Bucket(tokens, last)
    }

    // A new bucket is full.
    constructor (mbps: nat, now: real)
      ensures Contents() == Bucket(Rate(mbps), now)
    {
      tokens := Rate(mbps);
      last := now;
    }

    method Refill(r: Reading)
      modifies this
      ensures Contents() == Refilled(old(Contents()), r)
      ensures old(tokens) >= 0.0 ==> 0.0 <= tokens
      ensures tokens <= Rate(r.mbps) && last == r.now
      ensures tokens <= old(tokens) + Elapsed(old(Contents()), r.now) * Rate(r.mbps)
      ensures tokens < Rate(r.mbps) ==> tokens == old(tokens) + Elapsed(old(Contents()), r.now) * Rate(r.mbps)
    {
      NonNegative(Contents(), r);
      var rate := Rate(r.mbps);
      var elapsed := if r.now <= last then 0.0 else r.now - last;
      last := r.now;
      tokens := Min(tokens + elapsed * rate, rate);
    }

    // `first` is the rate seen before the lock is taken; `readings` is what the
    // turns of the loop see, for as long as the caller is watched.
    method Acquire(first: nat, readings: seq<Reading>, bytes: nat) returns (granted: bool, sleeps: nat)
      modifies this
      ensures first == 0 ==> granted && sleeps == 0 && Contents() == old(Contents())
      ensures first > 0 ==>
                && Contents() == Looped(old(Contents()), readings, bytes).0
                && sleeps == Looped(old(Contents()), readings, bytes).1
                && (granted <==> sleeps < |readings|)
      ensures first > 0 && readings != [] && readings[0].mbps == 0 ==> granted && sleeps == 0 && Contents() == old(Contents())
    {
      sleeps := 0;
      if first == 0 {
        return true, 0;
      }
      while sleeps < |readings|
        invariant 0 <= sleeps <= |readings|
        invariant Looped(old(Contents()), readings, bytes)
               == (Looped(Contents(), readings[sleeps..], bytes).0,
                   Looped(Contents(), readings[sleeps..], bytes).1 + sleeps)
      {
        var r := readings[sleeps];
        ghost var before := Contents();
        LoopedStep(before, readings, sleeps, bytes);
        if r.mbps == 0 {
          return true, sleeps;
        }
        Refill(r);
        if tokens >= bytes as real {
          tokens := tokens - bytes as real;
          return true, sleeps;
        }
        sleeps := sleeps + 1;
      }
      return false, sleeps;
    }
  }

  lemma LoopedStep(b: Bucket, readings: seq<Reading>, i: nat, bytes: nat)
    requires i < |readings|
    ensures var r := readings[i];
            var b' := Turned(b, r, bytes);
            Looped(b, readings[i..], bytes) ==
            if Grants(b, r, bytes) then (b', 0)
            else (Looped(b', readings[i + 1..], bytes).0, Looped(b', readings[i + 1..], bytes).1 + 1)
  {
    assert readings[i..][0] == readings[i] && readings[i..][1..] == readings[i + 1..];
  }

  // ---- How much a window can admit ------------------------------------------------

  // One turn of some caller's loop. Callers interleave freely on one bucket.
  datatype Turn = Turn(reading: Reading, bytes: nat)

  function After(b: Bucket, turns: seq<Turn>): Bucket
    decreases turns
  {
    if turns == [] then b else After(Turned(b, turns[0].reading, turns[0].bytes), turns[1..])
  }

  function Got(b: Bucket, t: Turn): real {
    if Grants(b, t.reading, t.bytes) then t.bytes as real else 0.0
  }

  function Admitted(b: Bucket, turns: seq<Turn>): real
    decreases turns
  {
    if turns == [] then 0.0
    else Got(b, turns[0]) + Admitted(Turned(b, turns[0].reading, turns[0].bytes), turns[1..])
  }

  // Rates stay in 1..max, whoever changes them and when; the clock, read under
  // the lock, never goes back.
  ghost predicate Wellformed(b: Bucket, turns: seq<Turn>, max: nat)
    decreases turns
  {
    turns != [] ==>
      && 1 <= turns[0].reading.mbps <= max && turns[0].reading.now >= b.last
      && Wellformed(Turned(b, turns[0].reading, turns[0].bytes), turns[1..], max)
  }

  lemma RateMonotone(a: nat, b: nat)
    requires a <= b
    ensures 0.0 <= Rate(a) <= Rate(b)
  {
  }

  lemma MulMonotone(x: real, a: real, b: real)
    requires 0.0 <= x && a <= b
    ensures x * a <= x * b
  {
  }

  lemma ProductNonNegative(x: real, y: real)
    requires 0.0 <= x && 0.0 <= y
    ensures 0.0 <= x * y
  {
  }

  lemma Split(a: real, b: real, c: real, cap: real)
    requires a + b == c
    ensures a * cap + b * cap == c * cap
  {
  }

  lemma RefillBalance(tokens: real, elapsed: real, rate: real, cap: real)
    requires 0.0 <= tokens <= cap && 0.0 <= elapsed && 0.0 <= rate <= cap
    ensures 0.0 <= Min(tokens + elapsed * rate, rate) <= cap
    ensures Min(tokens + elapsed * rate, rate) <= tokens + elapsed * cap
  {
    ProductNonNegative(elapsed, rate);
    MulMonotone(elapsed, rate, cap);
  }

  // A turn credits at most the elapsed time at the highest rate, `cap`.
  lemma TurnBalance(b: Bucket, t: Turn, cap: real)
    requires 0.0 <= b.tokens <= cap && 1 <= t.reading.mbps && Rate(t.reading.mbps) <= cap && t.reading.now >= b.last
    ensures var b' := Turned(b, t.reading, t.bytes);
            && 0.0 <= b'.tokens <= cap && b'.last == t.reading.now
            && b'.tokens + Got(b, t) <= b.tokens + (t.reading.now - b.last) * cap
            && b'.tokens + Got(b, t) <= cap
  {
    RateMonotone(0, t.reading.mbps);
    RefillBalance(b.tokens, Elapsed(b, t.reading.now), Rate(t.reading.mbps), cap);
    assert Elapsed(b, t.reading.now) == t.reading.now - b.last;
  }

  // Between turns the bucket never holds less than nothing or more than one
  // second's worth at the highest rate.
  lemma {:induction false} TokensStayInBounds(b: Bucket, turns: seq<Turn>, max: nat)
    requires 0.0 <= b.tokens <= Rate(max) && Wellformed(b, turns, max)
    ensures 0.0 <= After(b, turns).tokens <= Rate(max)
    decreases turns
  {
    if turns != [] {
      RateMonotone(turns[0].reading.mbps, max);
      TurnBalance(b, turns[0], Rate(max));
      TokensStayInBounds(Turned(b, turns[0].reading, turns[0].bytes), turns[1..], max);
    }
  }

  // One turn and the rest of a run, as plain numbers.
  lemma TurnThenRest(b: Bucket, turns: seq<Turn>, max: nat, cap: real)
    returns (got: real, held: real, now: real)
    requires 0.0 <= b.tokens <= cap && cap == Rate(max) && Wellformed(b, turns, max) && turns != []
    ensures got == Got(b, turns[0]) && now == turns[0].reading.now >= b.last
    ensures Turned(b, turns[0].reading, turns[0].bytes) == Bucket(held, now)
    ensures 0.0 <= held <= cap && held + got <= cap && held + got <= b.tokens + (now - b.last) * cap
    ensures Wellformed(Bucket(held, now), turns[1..], max)
    ensures Admitted(b, turns) == got + Admitted(Bucket(held, now), turns[1..])
  {
    RateMonotone(turns[0].reading.mbps, max);
    TurnBalance(b, turns[0], cap);
    got := Got(b, turns[0]);
    held := Turned(b, turns[0].reading, turns[0].bytes).tokens;
    now := turns[0].reading.now;
  }

  lemma AddUp(got: real, rest: real, held: real, tokens: real, cap: real, before: real, after: real, both: real)
    requires before + after == both
    requires rest <= held + after * cap && held + got <= tokens + before * cap
    ensures got + rest <= tokens + both * cap
  {
    Split(before, after, both, cap);
  }

  // `left` is the time from the bucket's last refill to `end`.
  lemma {:induction false} AdmittedSince(b: Bucket, turns: seq<Turn>, max: nat, cap: real, end: real, left: real)
    requires 0.0 <= b.tokens <= cap && cap == Rate(max) && Wellformed(b, turns, max) && left == end - b.last >= 0.0
    requires forall i | 0 <= i < |turns| :: turns[i].reading.now <= end
    ensures Admitted(b, turns) <= b.tokens + left * cap
    decreases |turns|
  {
    if turns == [] {
      ProductNonNegative(left, cap);
    } else {
      var got, held, now := TurnThenRest(b, turns, max, cap);
      var rest := Admitted(Bucket(held, now), turns[1..]);
      var after := end - now;
      assert rest <= held + after * cap by {
        assert forall i | 0 <= i < |turns[1..]| :: turns[1..][i] == turns[i + 1];
        AdmittedSince(Bucket(held, now), turns[1..], max, cap, end, after);
      }
      AddUp(got, rest, held, b.tokens, cap, now - b.last, after, left);
    }
  }

  // The first turn of a window leaves at most one burst, admitted or kept.
  lemma FirstTurn(s: Bucket, window: seq<Turn>, max: nat, cap: real, end: real, after: real)
    returns (got: real, held: real, rest: real)
    requires 0.0 <= s.tokens <= cap && cap == Rate(max) && Wellformed(s, window, max) && window != []
    requires forall i | 0 <= i < |window| :: window[i].reading.now <= end
    requires after == end - window[0].reading.now
    ensures Admitted(s, window) == got + rest && held + got <= cap && rest <= held + after * cap
  {
    var now;
    got, held, now := TurnThenRest(s, window, max, cap);
    rest := Admitted(Bucket(held, now), window[1..]);
    assert forall i | 0 <= i < |window[1..]| :: window[1..][i] == window[i + 1];
    AdmittedSince(Bucket(held, now), window[1..], max, cap, end, after);
  }

  lemma BurstPlusRest(got: real, rest: real, held: real, cap: real, before: real, after: real, both: real)
    requires 0.0 <= before && 0.0 <= cap && before + after == both
    requires held + got <= cap && rest <= held + after * cap
    ensures got + rest <= cap * (1.0 + both)
  {
    ProductNonNegative(before, cap);
    Split(before, after, both, cap);
  }

  lemma WindowFrom(s: Bucket, window: seq<Turn>, max: nat, cap: real, begin: real, length: real)
    requires 0.0 <= s.tokens <= cap && cap == Rate(max) && Wellformed(s, window, max) && length >= 0.0
    requires forall i | 0 <= i < |window| :: begin <= window[i].reading.now <= begin + length
    ensures Admitted(s, window) <= cap * (1.0 + length)
  {
    if window == [] {
      ProductNonNegative(cap, 1.0 + length);
    } else {
      var before := window[0].reading.now - begin;
      var after := length - before;
      var got, held, rest := FirstTurn(s, window, max, cap, begin + length, after);
      BurstPlusRest(got, rest, held, cap, before, after, length);
    }
  }

  // In any window of length T, from whatever state earlier turns left behind,
  // at most 125000 * M * (1 + T) bytes are admitted.
  lemma WindowBound(b: Bucket, earlier: seq<Turn>, window: seq<Turn>, max: nat, cap: real, begin: real, length: real)
    requires cap == BYTES_PER_MBPS * max as real && 0.0 <= b.tokens <= cap && length >= 0.0
    requires Wellformed(b, earlier, max) && Wellformed(After(b, earlier), window, max)
    requires forall i | 0 <= i < |window| :: begin <= window[i].reading.now <= begin + length
    ensures Admitted(After(b, earlier), window) <= cap * (1.0 + length)
  {
    TokensStayInBounds(b, earlier, max);
    WindowFrom(After(b, earlier), window, max, cap, begin, length);
  }

  // ---- A device whose bucket is dropped and recreated --------------------------------

  // `remove_device` drops a device's bucket and the next caller gets a new, full
  // one, while callers already waiting keep the old one. `buckets` are all that
  // a device's callers use; a turn names the one it uses.
  datatype DeviceTurn = DeviceTurn(bucket: nat, turn: Turn)

  ghost predicate UsesOnly(turns: seq<DeviceTurn>, n: nat) {
    forall i | 0 <= i < |turns| :: turns[i].bucket < n
  }

  function DeviceAdmitted(buckets: seq<Bucket>, turns: seq<DeviceTurn>): real
    requires UsesOnly(turns, |buckets|)
    decreases |turns|
  {
    if turns == [] then 0.0
    else
      var j, t := turns[0].bucket, turns[0].turn;
      Got(buckets[j], t) + DeviceAdmitted(buckets[j := Turned(buckets[j], t.reading, t.bytes)], turns[1..])
  }

  // The turns on one bucket, in order.
  function On(turns: seq<DeviceTurn>, j: nat): seq<Turn>
    decreases |turns|
  {
    if turns == [] then []
    else if turns[0].bucket == j then [turns[0].turn] + On(turns[1..], j)
    else On(turns[1..], j)
  }

  ghost predicate Within(turns: seq<DeviceTurn>, begin: real, end: real) {
    forall i | 0 <= i < |turns| :: begin <= turns[i].turn.reading.now <= end
  }

  lemma {:induction false} OnWithin(turns: seq<DeviceTurn>, j: nat, begin: real, end: real)
    requires Within(turns, begin, end)
    ensures forall i | 0 <= i < |On(turns, j)| :: begin <= On(turns, j)[i].reading.now <= end
    decreases |turns|
  {
    if turns != [] {
      OnWithin(turns[1..], j, begin, end);
    }
  }

  // What the first n buckets admit, each looked at alone.
  function SumAdmitted(buckets: seq<Bucket>, turns: seq<DeviceTurn>, n: nat): real
    requires n <= |buckets|
  {
    if n == 0 then 0.0 else SumAdmitted(buckets, turns, n - 1) + Admitted(buckets[n - 1], On(turns, n - 1))
  }

  lemma {:induction false} SumOfNone(buckets: seq<Bucket>, n: nat)
    requires n <= |buckets|
    ensures SumAdmitted(buckets, [], n) == 0.0
  {
    if n > 0 {
      SumOfNone(buckets, n - 1);
    }
  }

  // A turn changes one summand by what it got.
  lemma {:induction false} SumAfterTurn(buckets: seq<Bucket>, turns: seq<DeviceTurn>, n: nat, buckets': seq<Bucket>, got: real)
    requires n <= |buckets| && turns != [] && turns[0].bucket < |buckets|
    requires var j, t := turns[0].bucket, turns[0].turn;
             buckets' == buckets[j := Turned(buckets[j], t.reading, t.bytes)] && got == Got(buckets[j], t)
    ensures SumAdmitted(buckets, turns, n) ==
            SumAdmitted(buckets', turns[1..], n) + if turns[0].bucket < n then got else 0.0
  {
    if n > 0 {
      SumAfterTurn(buckets, turns, n - 1, buckets', got);
      OneAfterTurn(buckets, turns, n - 1, buckets', got);
    }
  }

  lemma OneAfterTurn(buckets: seq<Bucket>, turns: seq<DeviceTurn>, i: nat, buckets': seq<Bucket>, got: real)
    requires i < |buckets| && turns != [] && turns[0].bucket < |buckets|
    requires var j, t := turns[0].bucket, turns[0].turn;
             buckets' == buckets[j := Turned(buckets[j], t.reading, t.bytes)] && got == Got(buckets[j], t)
    ensures Admitted(buckets[i], On(turns, i)) ==
            Admitted(buckets'[i], On(turns[1..], i)) + if turns[0].bucket == i then got else 0.0
  {
    if turns[0].bucket == i {
      FirstThenRest(buckets[i], turns[0].turn, On(turns[1..], i));
    }
  }

  lemma FirstThenRest(b: Bucket, t: Turn, rest: seq<Turn>)
    ensures Admitted(b, [t] + rest) == Admitted(Turned(b, t.reading, t.bytes), rest) + Got(b, t)
  {
    assert ([t] + rest)[0] == t && ([t] + rest)[1..] == rest;
  }

  lemma {:induction false} DeviceIsSum(buckets: seq<Bucket>, turns: seq<DeviceTurn>)
    requires UsesOnly(turns, |buckets|)
    ensures DeviceAdmitted(buckets, turns) == SumAdmitted(buckets, turns, |buckets|)
    decreases |turns|
  {
    if turns == [] {
      SumOfNone(buckets, |buckets|);
    } else {
      var j, t := turns[0].bucket, turns[0].turn;
      var buckets' := buckets[j := Turned(buckets[j], t.reading, t.bytes)];
      DeviceIsSum(buckets', turns[1..]);
      SumAfterTurn(buckets, turns, |buckets|, buckets', Got(buckets[j], t));
    }
  }

  // `n * each`, kept apart from the other products.
  function Times(n: nat, each: real): real {
    if n == 0 then 0.0 else Times(n - 1, each) + each
  }

  lemma OneMoreTime(n: nat, each: real)
    requires n > 0
    ensures (n - 1) as real * each + each == n as real * each
  {
    Split((n - 1) as real, 1.0, n as real, each);
  }

  lemma {:induction false} TimesIsProduct(n: nat, each: real)
    ensures Times(n, each) == n as real * each
  {
    if n > 0 {
      TimesIsProduct(n - 1, each);
      OneMoreTime(n, each);
    }
  }

  lemma {:induction false} SumBound(buckets: seq<Bucket>, turns: seq<DeviceTurn>, n: nat, each: real)
    requires n <= |buckets| && forall j | 0 <= j < n :: Admitted(buckets[j], On(turns, j)) <= each
    ensures SumAdmitted(buckets, turns, n) <= Times(n, each)
  {
    if n > 0 {
      SumBound(buckets, turns, n - 1, each);
    }
  }

  // A device's window of length T admits at most n * 125000 * M * (1 + T) bytes,
  // n being the buckets its callers use in it: one, and one more for each time
  // the bucket was dropped and is used again.
  lemma DeviceWindowBound(buckets: seq<Bucket>, window: seq<DeviceTurn>, max: nat, cap: real, begin: real, length: real,
                          each: real)
    requires cap == Rate(max) && length >= 0.0 && UsesOnly(window, |buckets|) && each == cap * (1.0 + length)
    requires forall j | 0 <= j < |buckets| :: 0.0 <= buckets[j].tokens <= cap && Wellformed(buckets[j], On(window, j), max)
    requires Within(window, begin, begin + length)
    ensures DeviceAdmitted(buckets, window) <= Times(|buckets|, each)
  {
    forall j | 0 <= j < |buckets| ensures Admitted(buckets[j], On(window, j)) <= each {
      OneBucketBound(buckets[j], window, j, max, cap, begin, length, each);
    }
    DeviceBound(buckets, window, each);
  }

  lemma DeviceBound(buckets: seq<Bucket>, window: seq<DeviceTurn>, each: real)
    requires UsesOnly(window, |buckets|)
    requires forall j | 0 <= j < |buckets| :: Admitted(buckets[j], On(window, j)) <= each
    ensures DeviceAdmitted(buckets, window) <= Times(|buckets|, each)
  {
    DeviceIsSum(buckets, window);
    SumBound(buckets, window, |buckets|, each);
  }

  lemma OneBucketBound(b: Bucket, window: seq<DeviceTurn>, j: nat, max: nat, cap: real, begin: real, length: real, each: real)
    requires 0.0 <= b.tokens <= cap && Wellformed(b, On(window, j), max)
    requires cap == Rate(max) && length >= 0.0 && each == cap * (1.0 + length) && Within(window, begin, begin + length)
    ensures Admitted(b, On(window, j)) <= each
  {
    OnWithin(window, j, begin, begin + length);
    WindowFrom(b, On(window, j), max, cap, begin, length);
  }

  // One bucket's bound does not hold for the device: with one recreation two full
  // budgets go through at the same instant.
  lemma RecreationDoubles(now: real)
    ensures var full := Bucket(Rate(1), now);
            var t := Turn(Reading(now, 1), 125000);
            var turns := [DeviceTurn(0, t), DeviceTurn(1, t)];
            UsesOnly(turns, 2) && DeviceAdmitted([full, full], turns) == 2.0 * Rate(1)
  {
    var full := Bucket(Rate(1), now);
    var t := Turn(Reading(now, 1), 125000);
    var turns := [DeviceTurn(0, t), DeviceTurn(1, t)];
    assert Grants(full, t.reading, t.bytes) && Got(full, t) == Rate(1);
    var after := [full, full][0 := Turned(full, t.reading, t.bytes)];
    assert turns[1..] == [DeviceTurn(1, t)] && turns[1..][1..] == [];
    assert UsesOnly(turns[1..], 2) && after[1] == full;
    assert DeviceAdmitted(after, turns[1..]) ==
           Got(full, t) + DeviceAdmitted(after[1 := Turned(full, t.reading, t.bytes)], turns[1..][1..]);
  }

  // ---- Nothing is lost but at the cap ----------------------------------------------------

  // What the time since the last refill is worth at the rate read now, and what
  // of it does not fit under the cap of one second's worth.
  function Credit(b: Bucket, r: Reading): real {
    (if r.now <= b.last then 0.0 else r.now - b.last) * (r.mbps as real * 125000.0)
  }

  function Overflow(b: Bucket, r: Reading): real {
    var excess := b.tokens + Credit(b, r) - r.mbps as real * 125000.0;
    if excess > 0.0 then excess else 0.0
  }

  function Credited(b: Bucket, turns: seq<Turn>): real
    decreases turns
  {
    if turns == [] then 0.0
    else Credit(b, turns[0].reading) + Credited(Turned(b, turns[0].reading, turns[0].bytes), turns[1..])
  }

  function Overflowed(b: Bucket, turns: seq<Turn>): real
    decreases turns
  {
    if turns == [] then 0.0
    else Overflow(b, turns[0].reading) + Overflowed(Turned(b, turns[0].reading, turns[0].bytes), turns[1..])
  }

  ghost predicate Limited(turns: seq<Turn>) {
    forall i | 0 <= i < |turns| :: turns[i].reading.mbps > 0
  }

  // One turn: it is admitted if and only if the bucket holds enough once the
  // time passed is credited, and takes exactly what was asked for.
  lemma TurnConserves(b: Bucket, t: Turn)
    requires t.reading.mbps > 0
    ensures var held := b.tokens + Credit(b, t.reading) - Overflow(b, t.reading);
            && (Grants(b, t.reading, t.bytes) <==> held >= t.bytes as real)
            && Turned(b, t.reading, t.bytes).tokens == (if held >= t.bytes as real then held - t.bytes as real else held)
            && Turned(b, t.reading, t.bytes).last == t.reading.now
  {
    assert Rate(t.reading.mbps) == t.reading.mbps as real * 125000.0;
    assert Elapsed(b, t.reading.now) * Rate(t.reading.mbps) == Credit(b, t.reading);
  }

  // Over any run: tokens at the end and bytes admitted together are the tokens
  // at the start and what was credited, less what did not fit.
  lemma {:induction false} RunConserves(b: Bucket, turns: seq<Turn>)
    requires Limited(turns)
    ensures After(b, turns).tokens + Admitted(b, turns) == b.tokens + Credited(b, turns) - Overflowed(b, turns)
    decreases turns
  {
    if turns != [] {
      var b' := Turned(b, turns[0].reading, turns[0].bytes);
      TurnConserves(b, turns[0]);
      assert forall i | 0 <= i < |turns[1..]| :: turns[1..][i] == turns[i + 1];
      RunConserves(b', turns[1..]);
      AddBalances(b.tokens, Credit(b, turns[0].reading), Overflow(b, turns[0].reading), Got(b, turns[0]), b'.tokens,
                  After(b', turns[1..]).tokens, Admitted(b', turns[1..]), Credited(b', turns[1..]), Overflowed(b', turns[1..]));
    }
  }

  lemma AddBalances(before: real, credit: real, over: real, got: real, between: real,
                    after: real, admitted: real, credited: real, overflowed: real)
    requires between + got == before + credit - over
    requires after + admitted == between + credited - overflowed
    ensures after + (got + admitted) == before + (credit + credited) - (over + overflowed)
  {
  }

  function Asked(turns: seq<Turn>): nat {
    if turns == [] then 0 else turns[0].bytes + Asked(turns[1..])
  }

  ghost predicate AllAt(turns: seq<Turn>, r: Reading) {
    forall i | 0 <= i < |turns| :: turns[i].reading == r
  }

  // At one instant the tokens are spent one for one, and requests that together
  // fit what is there are all admitted.
  lemma {:induction false} OneInstantSpends(b: Bucket, turns: seq<Turn>, mbps: nat)
    requires mbps > 0 && 0.0 <= b.tokens <= Rate(mbps) && AllAt(turns, Reading(b.last, mbps))
    ensures After(b, turns).tokens == b.tokens - Admitted(b, turns) && After(b, turns).last == b.last
    ensures Asked(turns) as real <= b.tokens ==> Admitted(b, turns) == Asked(turns) as real
    decreases turns
  {
    if turns != [] {
      NothingCredited(b, turns[0], mbps);
      assert forall i | 0 <= i < |turns[1..]| :: turns[1..][i] == turns[i + 1];
      OneInstantSpends(Turned(b, turns[0].reading, turns[0].bytes), turns[1..], mbps);
    }
  }

  lemma NothingCredited(b: Bucket, t: Turn, mbps: nat)
    requires mbps > 0 && 0.0 <= b.tokens <= Rate(mbps) && t.reading == Reading(b.last, mbps)
    ensures Turned(b, t.reading, t.bytes) ==
            Bucket(if b.tokens >= t.bytes as real then b.tokens - t.bytes as real else b.tokens, b.last)
    ensures Got(b, t) == if b.tokens >= t.bytes as real then t.bytes as real else 0.0
  {
    assert Refilled(b, t.reading) == b;
  }

  // The turns one caller's loop takes: refused ones, then the granted one.
  function LoopTurns(b: Bucket, readings: seq<Reading>, bytes: nat): seq<Turn>
    decreases |readings|
  {
    if readings == [] then []
    else if Grants(b, readings[0], bytes) then [Turn(readings[0], bytes)]
    else [Turn(readings[0], bytes)] + LoopTurns(Turned(b, readings[0], bytes), readings[1..], bytes)
  }

  lemma AfterFirst(b: Bucket, t: Turn, rest: seq<Turn>)
    ensures After(b, [t] + rest) == After(Turned(b, t.reading, t.bytes), rest)
  {
    assert ([t] + rest)[0] == t && ([t] + rest)[1..] == rest;
  }

  // A caller's loop is such a run: nothing is admitted before its last turn, and
  // then exactly its request.
  lemma {:induction false} LoopIsRun(b: Bucket, readings: seq<Reading>, bytes: nat)
    ensures var n := Looped(b, readings, bytes).1;
            && n <= |readings|
            && Looped(b, readings, bytes).0 == After(b, LoopTurns(b, readings, bytes))
            && Admitted(b, LoopTurns(b, readings, bytes)) == if n < |readings| then bytes as real else 0.0
    decreases |readings|
  {
    if readings != [] {
      var t := Turn(readings[0], bytes);
      if Grants(b, readings[0], bytes) {
        AfterFirst(b, t, []);
        FirstThenRest(b, t, []);
        assert [t] + [] == [t];
      } else {
        var b1 := Turned(b, readings[0], bytes);
        LoopIsRun(b1, readings[1..], bytes);
        AfterFirst(b, t, LoopTurns(b1, readings[1..], bytes));
        FirstThenRest(b, t, LoopTurns(b1, readings[1..], bytes));
      }
    }
  }

  // ---- How long a lone caller waits ---------------------------------------------------

  // The rate is fixed and each refused turn is followed by at least its sleep.
  ghost predicate Slept(b: Bucket, readings: seq<Reading>, bytes: nat, mbps: nat)
    decreases |readings|
  {
    readings != [] ==>
      && readings[0].mbps == mbps && readings[0].now >= b.last
      && (|readings| > 1 && mbps > 0 ==> readings[1].now >= readings[0].now + SleepFor(b, readings[0], bytes))
      && Slept(Turned(b, readings[0], bytes), readings[1..], bytes, mbps)
  }

  lemma SleepCredits(b: Bucket, r: Reading, next: Reading, bytes: nat)
    requires r.mbps > 0 && next.mbps == r.mbps && !Grants(b, r, bytes) && r.now >= b.last
    requires next.now >= r.now + SleepFor(b, r, bytes) && bytes as real <= Rate(r.mbps)
    ensures var b' := Turned(b, r, bytes);
            Grants(b', next, bytes) || Refilled(b', next).tokens >= b'.tokens + MAX_SLEEP * Rate(r.mbps)
  {
    var b' := Turned(b, r, bytes);
    var rate := Rate(r.mbps);
    assert b' == Refilled(b, r) && rate > 0.0;
    assert Elapsed(b', next.now) >= SleepFor(b, r, bytes);
    SleepPays(bytes as real - b'.tokens, rate, SleepFor(b, r, bytes), Elapsed(b', next.now));
  }

  // The sleep is either long enough for what is missing or the longest allowed.
  lemma SleepPays(missing: real, rate: real, sleep: real, elapsed: real)
    requires rate > 0.0 && sleep == Min(missing / rate, MAX_SLEEP) && elapsed >= sleep
    ensures elapsed * rate >= missing || elapsed * rate >= MAX_SLEEP * rate
  {
    MulMonotone(rate, sleep, elapsed);
    if sleep != MAX_SLEEP {
      assert missing / rate * rate == missing;
    }
  }

  lemma TwoSleepsSuffice(b: Bucket, r0: Reading, r1: Reading, r2: Reading, bytes: nat)
    requires r0.mbps > 0 && r1.mbps == r0.mbps && r2.mbps == r0.mbps
    requires 0.0 <= b.tokens && bytes as real <= Rate(r0.mbps) && r0.now >= b.last
    requires !Grants(b, r0, bytes) && r1.now >= r0.now + SleepFor(b, r0, bytes)
    requires var b1 := Turned(b, r0, bytes);
             !Grants(b1, r1, bytes) && r1.now >= b1.last && r2.now >= r1.now + SleepFor(b1, r1, bytes)
    ensures Grants(Turned(Turned(b, r0, bytes), r1, bytes), r2, bytes)
  {
    NonNegative(b, r0);
    SleepCredits(b, r0, r1, bytes);
    SleepCredits(Turned(b, r0, bytes), r1, r2, bytes);
    HalfAndHalf(r0.mbps);
  }

  // The sleep is no longer than the missing tokens take, nor than the cap: a turn
  // before its end would be refused, and one at its end is granted unless the cap
  // cut the sleep short.
  lemma SleepIsExact(b: Bucket, r: Reading, next: Reading, bytes: nat)
    requires r.mbps > 0 && next.mbps == r.mbps && !Grants(b, r, bytes) && r.now >= b.last
    requires 0.0 <= b.tokens && bytes as real <= Rate(r.mbps) && next.now >= r.now
    ensures var sleep := SleepFor(b, r, bytes);
            && 0.0 < sleep <= 0.5
            && (next.now < r.now + sleep ==> !Grants(Turned(b, r, bytes), next, bytes))
            && (next.now == r.now + sleep && sleep < 0.5 ==> Grants(Turned(b, r, bytes), next, bytes))
  {
    var b' := Turned(b, r, bytes);
    var missing := bytes as real - b'.tokens;
    assert b' == Refilled(b, r) && Rate(r.mbps) > 0.0 && missing > 0.0;
    var elapsed := next.now - r.now;
    assert Elapsed(b', next.now) == elapsed;
    PaysExactly(missing, Rate(r.mbps), SleepFor(b, r, bytes), elapsed);
  }

  lemma PaysExactly(missing: real, rate: real, sleep: real, elapsed: real)
    requires rate > 0.0 && missing > 0.0 && sleep == Min(missing / rate, MAX_SLEEP) && elapsed >= 0.0
    ensures sleep > 0.0
    ensures elapsed < sleep ==> elapsed * rate < missing
    ensures elapsed == sleep && sleep < MAX_SLEEP ==> elapsed * rate == missing
  {
    var full := missing / rate;
    assert full * rate == missing;
    if elapsed < sleep {
      assert elapsed < full;
      StrictProduct(elapsed, full, rate);
    }
  }

  lemma StrictProduct(a: real, b: real, c: real)
    requires a < b && c > 0.0
    ensures a * c < b * c
  {
  }

  // A request within one second's budget is granted after at most two sleeps.
  lemma GrantedAfterTwoSleeps(b: Bucket, readings: seq<Reading>, bytes: nat, mbps: nat)
    requires 0.0 <= b.tokens && mbps > 0 && bytes as real <= Rate(mbps)
    requires Slept(b, readings, bytes, mbps) && |readings| >= 3
    ensures Looped(b, readings, bytes).1 <= 2
  {
    var r0, r1, r2 := readings[0], readings[1], readings[2];
    var tail := readings[1..];
    assert tail[0] == r1 && tail[1] == r2 && tail[1..][0] == r2;
    var b1 := Turned(b, r0, bytes);
    assert Slept(b1, tail, bytes, mbps);
    if !Grants(b, r0, bytes) && !Grants(b1, r1, bytes) {
      SecondSleepEnds(b1, tail, bytes, mbps);
      TwoSleepsSuffice(b, r0, r1, r2, bytes);
    }
  }

  lemma SecondSleepEnds(b: Bucket, readings: seq<Reading>, bytes: nat, mbps: nat)
    requires mbps > 0 && |readings| >= 2 && Slept(b, readings, bytes, mbps) && !Grants(b, readings[0], bytes)
    ensures readings[1].mbps == mbps && readings[0].now >= b.last
    ensures readings[1].now >= readings[0].now + SleepFor(b, readings[0], bytes)
    ensures Grants(Turned(b, readings[0], bytes), readings[1], bytes) ==> Looped(b, readings, bytes).1 == 1
  {
    assert readings[1..][0] == readings[1];
    assert Slept(Turned(b, readings[0], bytes), readings[1..], bytes, mbps);
  }

  lemma NonNegative(b: Bucket, r: Reading)
    ensures 0.0 <= b.tokens ==> 0.0 <= Refilled(b, r).tokens
  {
    RateMonotone(0, r.mbps);
    MulMonotone(Elapsed(b, r.now), 0.0, Rate(r.mbps));
  }

  lemma HalfAndHalf(mbps: nat)
    ensures MAX_SLEEP * Rate(mbps) + MAX_SLEEP * Rate(mbps) == Rate(mbps)
  {
  }

  // A larger one never is.
  lemma {:induction false} NeverGranted(b: Bucket, readings: seq<Reading>, bytes: nat, mbps: nat)
    requires mbps > 0 && bytes as real > Rate(mbps) && Slept(b, readings, bytes, mbps)
    ensures Looped(b, readings, bytes).1 == |readings|
    decreases |readings|
  {
    if readings != [] {
      NeverGranted(Turned(b, readings[0], bytes), readings[1..], bytes, mbps);
    }
  }

  // A reading sequence that sleeps exactly as told exists from every bucket.
  lemma {:induction false} SleepsExist(b: Bucket, bytes: nat, mbps: nat, n: nat, now: real) returns (readings: seq<Reading>)
    requires mbps > 0 && now >= b.last
    ensures |readings| == n && Slept(b, readings, bytes, mbps) && (n > 0 ==> readings[0].now == now)
    decreases n
  {
    if n == 0 {
      readings := [];
    } else {
      var r := Reading(now, mbps);
      var wake := r.now + if SleepFor(b, r, bytes) >= 0.0 then SleepFor(b, r, bytes) else 0.0;
      var rest := SleepsExist(Turned(b, r, bytes), bytes, mbps, n - 1, wake);
      readings := [r] + rest;
      assert readings[1..] == rest;
    }
  }

  // At a fixed rate a lone `acquire` returns, and then after at most two
  // sleeps, if and only if the request is at most one second's budget.
  lemma LoneAcquireTerminatesIff(b: Bucket, bytes: nat, mbps: nat)
    requires 0.0 <= b.tokens && mbps > 0
    ensures bytes as real <= Rate(mbps) <==>
            forall readings | Slept(b, readings, bytes, mbps) && |readings| >= 3 :: Looped(b, readings, bytes).1 <= 2
  {
    if bytes as real <= Rate(mbps) {
      forall readings | Slept(b, readings, bytes, mbps) && |readings| >= 3
        ensures Looped(b, readings, bytes).1 <= 2 {
        GrantedAfterTwoSleeps(b, readings, bytes, mbps);
      }
    } else {
      var readings := SleepsExist(b, bytes, mbps, 3, b.last);
      NeverGranted(b, readings, bytes, mbps);
    }
  }

  // Every chunk and datagram of the source is within the budget of any rate.
  lemma ChunksAlwaysPass(b: Bucket, readings: seq<Reading>, bytes: nat, mbps: nat)
    requires 0.0 <= b.tokens && mbps >= 1 && bytes <= LARGEST_REQUEST
    requires Slept(b, readings, bytes, mbps) && |readings| >= 3
    ensures Looped(b, readings, bytes).1 <= 2
  {
    RateMonotone(1, mbps);
    GrantedAfterTwoSleeps(b, readings, bytes, mbps);
  }
}
