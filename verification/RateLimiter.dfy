/** The fixed-window rate limiter: the Lua script as a step on one key, the Go around it,
    and what holds over any sequence of calls. Times are Redis's own, in milliseconds. Whether
    a key is still there in the very millisecond of its deadline is left open: everything is
    proved for both conventions. */
module RateLimiter {
  import opened Wrappers

  const NS_PER_MS := 1_000_000
  const NS_PER_SECOND := 1_000_000_000

  /** Go's integer division and remainder truncate toward zero. */
  function TruncDiv(a: int, b: int): int
    requires b > 0
  {
    if a >= 0 then a / b else -((-a) / b)
  }

  function TruncMod(a: int, b: int): int
    requires b > 0
  {
    a - TruncDiv(a, b) * b
  }

  /** A Redis counter; no deadline means it never expires. */
  datatype Counter = Counter(count: int, deadline: Option<int>)

  type Cell = Option<Counter>

  /** A key dies at its deadline, or (as in Redis itself) in the millisecond after it. */
  datatype Expiry = AtDeadline | AfterDeadline

  datatype Limits = Limits(limit: int, windowMs: int, expiry: Expiry) {
    function Grace(): nat { if expiry == AtDeadline then 0 else 1 }

    /** How many milliseconds a counter lives. */
    function Life(): int { windowMs + Grace() }

    /** What the configuration is meant to ensure. */
    predicate Sensible() { limit >= 1 && windowMs >= 1 }
  }

  predicate Live(c: Cell, l: Limits, now: int) {
    c.Some? && (c.value.deadline.None? || now < c.value.deadline.value + l.Grace())
  }

  function Incr(c: Cell, l: Limits, now: int): Counter {
    if Live(c, l, now) then Counter(c.value.count + 1, c.value.deadline) else Counter(1, None)
  }

  /** PEXPIRE with a duration that is not positive deletes the key. */
  function PExpire(c: Counter, now: int, ms: int): Cell {
    if ms <= 0 then None else Some(c.(deadline := Some(now + ms)))
  }

  function Pttl(c: Cell, now: int): int {
    match c
    case None => -2
    case Some(k) => (match k.deadline case None => -1 case Some(d) => d - now)
  }

  datatype Verdict = Verdict(cell: Cell, allowed: bool, ttl: int)

  /** `allowScript`. */
  function Script(c: Cell, l: Limits, now: int): Verdict {
    var k := Incr(c, l, now);
    var cell := if k.count == 1 then PExpire(k, now, l.windowMs) else Some(k);
    if k.count > l.limit then
      var ttl := Pttl(cell, now);
      Verdict(cell, false, if ttl < 0 then l.windowMs else ttl)
    else
      Verdict(cell, true, 0)
  }

  // ---- rounding ----

  /** `ceilSecond`, in nanoseconds. */
  function CeilSecond(d: int): int {
    if TruncMod(d, NS_PER_SECOND) == 0 then d else (TruncDiv(d, NS_PER_SECOND) + 1) * NS_PER_SECOND
  }

  predicate IsLeastWholeSecond(r: int, d: int) {
    r % NS_PER_SECOND == 0 && d <= r < d + NS_PER_SECOND
  }

  /** It rounds up to the least whole second, except on a negative duration that is not
      already whole (which the limiter never passes it). */
  lemma CeilSecondIsLeast(d: int)
    ensures IsLeastWholeSecond(CeilSecond(d), d) <==> d >= 0 || d % NS_PER_SECOND == 0
  {
  }

  /** `checkRateLimit`'s header value: whole seconds, rounded up a second time. */
  function HeaderSeconds(retryAfterNs: int): int {
    TruncDiv(retryAfterNs, NS_PER_SECOND) + (if TruncMod(retryAfterNs, NS_PER_SECOND) != 0 then 1 else 0)
  }

  /** Rounding twice is rounding once: the header is the least number of seconds that covers
      the remaining time. */
  lemma HeaderCoversTtl(ttlMs: nat)
    ensures var s := HeaderSeconds(CeilSecond(ttlMs * NS_PER_MS));
            ttlMs <= s * 1000 < ttlMs + 1000
  {
    CeilSecondIsLeast(ttlMs * NS_PER_MS);
  }

  // ---- one key over any sequence of calls ----

  /** Every counter has a deadline, at most a window away from the last call, and has
      counted at least the call that created it. */
  predicate CellOk(c: Cell, l: Limits, last: int) {
    c.Some? ==> c.value.count >= 1 && c.value.deadline.Some? && c.value.deadline.value <= last + l.windowMs
  }

  lemma ScriptKeepsCellOk(c: Cell, l: Limits, last: int, now: int)
    requires CellOk(c, l, last) && last <= now
    ensures CellOk(Script(c, l, now).cell, l, now)
  {
  }

  /** With at least one millisecond of window, a denial reports the true remaining time of a
      live counter: the script's repair of a negative TTL is never reached. */
  lemma DenialReportsTrueTtl(c: Cell, l: Limits, last: int, now: int)
    requires CellOk(c, l, last) && last <= now && l.windowMs >= 1
    requires !Script(c, l, now).allowed
    ensures var v := Script(c, l, now);
            v.cell.Some? && v.ttl == Pttl(v.cell, now) && 1 - l.Grace() <= v.ttl <= l.windowMs
  {
  }

  /** After a denial, a call with none in between is admitted exactly from the moment the
      counter dies, which is when the reported time has passed. */
  lemma NoLockOut(c: Cell, l: Limits, last: int, now: int, later: int)
    requires CellOk(c, l, last) && last <= now && l.Sensible()
    requires !Script(c, l, now).allowed && now <= later
    ensures var v := Script(c, l, now);
            var retryAfter := HeaderSeconds(CeilSecond(v.ttl * NS_PER_MS)) * 1000;
            && (Script(v.cell, l, later).allowed <==> later >= now + v.ttl + l.Grace())
            && (later >= now + retryAfter + l.Grace() ==> Script(v.cell, l, later).allowed)
  {
    DenialReportsTrueTtl(c, l, last, now);
    HeaderCoversTtl(Script(c, l, now).ttl);
  }

  predicate Nondecreasing(times: seq<int>, from: int) {
    times != [] ==> from <= times[0] && Nondecreasing(times[1..], times[0])
  }

  /** The key after calls at `times`. */
  function CellAfter(c: Cell, l: Limits, times: seq<int>): Cell
    decreases times
  {
    if times == [] then c else CellAfter(Script(c, l, times[0]).cell, l, times[1..])
  }

  function Last(times: seq<int>, from: int): int {
    if times == [] then from else times[|times| - 1]
  }

  lemma {:induction false} CallsKeepCellOk(c: Cell, l: Limits, times: seq<int>, from: int)
    requires CellOk(c, l, from) && Nondecreasing(times, from)
    ensures CellOk(CellAfter(c, l, times), l, Last(times, from))
    decreases times
  {
    if times == [] {
    } else {
      ScriptKeepsCellOk(c, l, from, times[0]);
      CallsKeepCellOk(Script(c, l, times[0]).cell, l, times[1..], times[0]);
    }
  }

  /** Nobody is ever locked out: whatever calls were made on a key since it was first used, a
      call that is then denied is told a time after which, with no call in between, one is
      admitted, and not before. */
  lemma NeverLockedOut(l: Limits, times: seq<int>, from: int, now: int, later: int)
    requires l.Sensible() && Nondecreasing(times, from) && Last(times, from) <= now <= later
    requires !Script(CellAfter(None, l, times), l, now).allowed
    ensures var v := Script(CellAfter(None, l, times), l, now);
            && 1 - l.Grace() <= v.ttl <= l.windowMs
            && v.cell.Some? && v.cell.value.deadline == Some(now + v.ttl)
            && (Script(v.cell, l, later).allowed <==> later >= now + v.ttl + l.Grace())
            && (later >= now + HeaderSeconds(CeilSecond(v.ttl * NS_PER_MS)) * 1000 + l.Grace() ==>
                  Script(v.cell, l, later).allowed)
  {
    CallsKeepCellOk(None, l, times, from);
    var c, last := CellAfter(None, l, times), Last(times, from);
    ScriptKeepsCellOk(c, l, last, now);
    DenialReportsTrueTtl(c, l, last, now);
    NoLockOut(c, l, last, now, later);
  }

  /** How many of the calls at `times`, made from state `c`, are admitted within [lo, hi). */
  function AdmittedIn(c: Cell, l: Limits, times: seq<int>, lo: int, hi: int): nat
    decreases times
  {
    if times == [] then 0
    else
      var v := Script(c, l, times[0]);
      (if v.allowed && lo <= times[0] < hi then 1 else 0) + AdmittedIn(v.cell, l, times[1..], lo, hi)
  }

  function CallsIn(times: seq<int>, lo: int, hi: int): nat {
    if times == [] then 0 else (if lo <= times[0] < hi then 1 else 0) + CallsIn(times[1..], lo, hi)
  }

  function Room(c: Cell, l: Limits): nat
    requires c.Some?
  {
    if c.value.count >= l.limit then 0 else l.limit - c.value.count
  }

  lemma {:induction false} NothingBefore(c: Cell, l: Limits, times: seq<int>, lo: int, hi: int, from: int)
    requires Nondecreasing(times, from) && hi <= from
    ensures AdmittedIn(c, l, times, lo, hi) == 0
    decreases times
  {
    if times == [] {
    } else {
      NothingBefore(Script(c, l, times[0]).cell, l, times[1..], lo, hi, times[0]);
    }
  }

  /** The first millisecond without the counter. */
  function Death(c: Cell, l: Limits): int
    requires c.Some? && c.value.deadline.Some?
  {
    c.value.deadline.value + l.Grace()
  }

  /** Within the life of one counter, the calls admitted are exactly the first ones, up to
      the room the counter has left. */
  lemma {:induction false} WindowAdmitsExactly(c: Cell, l: Limits, times: seq<int>, from: int)
    requires c.Some? && c.value.count >= 1 && c.value.deadline.Some?
    requires Nondecreasing(times, from) && l.windowMs >= 1
    ensures var d := Death(c, l);
            var calls := CallsIn(times, from, d);
            AdmittedIn(c, l, times, from, d) == (if calls <= Room(c, l) then calls else Room(c, l))
    decreases times
  {
    var d := Death(c, l);
    if times == [] {
    } else {
      var t := times[0];
      if t < d {
        var v := Script(c, l, t);
        WindowAdmitsExactly(v.cell, l, times[1..], t);
        SameCount(v.cell, l, times[1..], t, from, d);
      } else {
        NothingBefore(c, l, times, from, d, t);
        NoCallsBefore(times, from, d, t);
      }
    }
  }

  lemma {:induction false} NoCallsBefore(times: seq<int>, lo: int, hi: int, from: int)
    requires Nondecreasing(times, from) && hi <= from
    ensures CallsIn(times, lo, hi) == 0
  {
    if times == [] {
    } else {
      NoCallsBefore(times[1..], lo, hi, times[0]);
    }
  }

  /** Lowering the left end below the first call changes nothing. */
  lemma SameCount(c: Cell, l: Limits, times: seq<int>, from: int, lo: int, hi: int)
    requires Nondecreasing(times, from) && lo <= from
    ensures AdmittedIn(c, l, times, from, hi) == AdmittedIn(c, l, times, lo, hi)
    ensures CallsIn(times, from, hi) == CallsIn(times, lo, hi)
  {
    SameFrom(c, l, times, from, lo, hi, from);
  }

  lemma {:induction false} SameFrom(c: Cell, l: Limits, times: seq<int>, a: int, b: int, hi: int, from: int)
    requires Nondecreasing(times, from) && a <= from && b <= from
    ensures AdmittedIn(c, l, times, a, hi) == AdmittedIn(c, l, times, b, hi)
    ensures CallsIn(times, a, hi) == CallsIn(times, b, hi)
    decreases times
  {
    if times == [] {
    } else {
      SameFrom(Script(c, l, times[0]).cell, l, times[1..], a, b, hi, times[0]);
    }
  }

  /** Within one counter's life, at most its room is admitted, wherever the interval is. */
  lemma {:induction false} WithinWindow(c: Cell, l: Limits, times: seq<int>, lo: int, hi: int, from: int)
    requires c.Some? && c.value.count >= 1 && c.value.deadline.Some?
    requires Nondecreasing(times, from) && l.windowMs >= 1 && hi <= Death(c, l)
    ensures AdmittedIn(c, l, times, lo, hi) <= Room(c, l)
    decreases times
  {
    if times == [] {
    } else {
      var v := Script(c, l, times[0]);
      if times[0] < Death(c, l) {
        WithinWindow(v.cell, l, times[1..], lo, hi, times[0]);
      } else {
        NothingBefore(v.cell, l, times[1..], lo, hi, times[0]);
      }
    }
  }

  /** From a counter that ends inside the interval: its room, then one more window. */
  lemma {:induction false} AcrossBoundary(c: Cell, l: Limits, times: seq<int>, lo: int, hi: int, from: int)
    requires c.Some? && c.value.count >= 1 && c.value.deadline.Some?
    requires Nondecreasing(times, from) && l.Sensible()
    requires hi <= Death(c, l) + l.Life()
    ensures AdmittedIn(c, l, times, lo, hi) <= Room(c, l) + l.limit
    decreases times
  {
    if times == [] {
    } else {
      var v := Script(c, l, times[0]);
      if times[0] < Death(c, l) {
        AcrossBoundary(v.cell, l, times[1..], lo, hi, times[0]);
      } else {
        WithinWindow(v.cell, l, times[1..], lo, hi, times[0]);
      }
    }
  }

  /** Any half-open interval as long as a counter lives holds at most 2*limit - 1 admitted
      calls. */
  lemma {:induction false} AnyWindowSpan(c: Cell, l: Limits, times: seq<int>, lo: int, hi: int, from: int)
    requires CellOk(c, l, from) && Nondecreasing(times, from)
    requires l.Sensible() && hi <= lo + l.Life()
    ensures AdmittedIn(c, l, times, lo, hi) <= 2 * l.limit - 1
    decreases times
  {
    if times == [] {
    } else {
      var t := times[0];
      var v := Script(c, l, t);
      ScriptKeepsCellOk(c, l, from, t);
      if t < lo {
        AnyWindowSpan(v.cell, l, times[1..], lo, hi, t);
      } else if Live(c, l, t) {
        AcrossBoundary(c, l, times, lo, hi, from);
      } else {
        WithinWindow(v.cell, l, times[1..], lo, hi, t);
      }
    }
  }

  /** One millisecond more, and it holds at most twice the limit. So does any interval of one
      window, its end points included. */
  lemma {:induction false} AnyClosedWindowSpan(c: Cell, l: Limits, times: seq<int>, lo: int, hi: int, from: int)
    requires CellOk(c, l, from) && Nondecreasing(times, from)
    requires l.Sensible() && hi <= lo + l.Life() + 1
    ensures AdmittedIn(c, l, times, lo, hi) <= 2 * l.limit
    decreases times
  {
    if times == [] {
    } else {
      var t := times[0];
      var v := Script(c, l, t);
      ScriptKeepsCellOk(c, l, from, t);
      if t < lo {
        AnyClosedWindowSpan(v.cell, l, times[1..], lo, hi, t);
      } else if Live(c, l, t) {
        AcrossBoundary(c, l, times, lo, hi, from);
      } else {
        AcrossBoundary(v.cell, l, times[1..], lo, hi, t);
      }
    }
  }

  function Repeat(t: int, n: nat): (r: seq<int>)
    ensures |r| == n
  {
    if n == 0 then [] else [t] + Repeat(t, n - 1)
  }

  lemma {:induction false} BurstIsAdmitted(c: Cell, l: Limits, t: int, n: nat, rest: seq<int>, lo: int, hi: int)
    requires c.Some? && c.value.count >= 1 && Live(c, l, t) && c.value.deadline.Some?
    requires c.value.count + n <= l.limit && lo <= t < hi
    ensures AdmittedIn(c, l, Repeat(t, n) + rest, lo, hi) ==
            n + AdmittedIn(Some(Counter(c.value.count + n, c.value.deadline)), l, rest, lo, hi)
    decreases n
  {
    if n == 0 {
      assert Repeat(t, 0) + rest == rest;
    } else {
      var times := Repeat(t, n) + rest;
      assert times[1..] == Repeat(t, n - 1) + rest;
      BurstIsAdmitted(Script(c, l, t).cell, l, t, n - 1, rest, lo, hi);
    }
  }

  lemma FreshBurst(c: Cell, l: Limits, t: int, rest: seq<int>, lo: int, hi: int)
    requires l.Sensible() && !Live(c, l, t) && lo <= t < hi
    ensures AdmittedIn(c, l, Repeat(t, l.limit) + rest, lo, hi) ==
            l.limit + AdmittedIn(Some(Counter(l.limit, Some(t + l.windowMs))), l, rest, lo, hi)
  {
    var times := Repeat(t, l.limit) + rest;
    assert times[1..] == Repeat(t, l.limit - 1) + rest;
    BurstIsAdmitted(Script(c, l, t).cell, l, t, l.limit - 1, rest, lo, hi);
  }

  /** The bound is reached: the documented burst of twice the limit across a boundary. */
  lemma TwiceTheLimitIsReached(l: Limits)
    requires l.Sensible()
    ensures AdmittedIn(None, l, Repeat(0, l.limit) + Repeat(l.Life(), l.limit), 0, l.Life() + 1) == 2 * l.limit
  {
    FreshBurst(None, l, 0, Repeat(l.Life(), l.limit), 0, l.Life() + 1);
    assert Repeat(l.Life(), l.limit) + [] == Repeat(l.Life(), l.limit);
    FreshBurst(Some(Counter(l.limit, Some(l.windowMs))), l, l.Life(), [], 0, l.Life() + 1);
  }

  /** And so is the bound for the shorter interval, if it has room for two calls at different
      times: one call, a burst at the end of its window, and one at the start of the next. */
  lemma AnyWindowSpanIsReached(l: Limits)
    requires l.Sensible() && l.Life() >= 2
    ensures var times := [0] + (Repeat(l.Life() - 1, l.limit - 1) + Repeat(l.Life(), l.limit));
            && Nondecreasing(times, 0)
            && AdmittedIn(None, l, times, 1, 1 + l.Life()) == 2 * l.limit - 1
  {
    var lo, hi, n := 1, 1 + l.Life(), l.limit - 1;
    var late := Repeat(l.Life(), l.limit);
    var rest := Repeat(l.Life() - 1, n) + late;
    assert ([0] + rest)[1..] == rest;
    var first := Counter(1, Some(l.windowMs));
    assert Script(None, l, 0).cell == Some(first);
    BurstIsAdmitted(Some(first), l, l.Life() - 1, n, late, lo, hi);
    assert late + [] == late;
    FreshBurst(Some(Counter(l.limit, Some(l.windowMs))), l, l.Life(), [], lo, hi);
    RepeatRises(l.Life(), l.limit, [], l.Life() - 1);
    RepeatRises(l.Life() - 1, n, late, 0);
  }

  lemma {:induction false} RepeatRises(t: int, n: nat, rest: seq<int>, from: int)
    requires from <= t && Nondecreasing(rest, t)
    ensures Nondecreasing(Repeat(t, n) + rest, from)
    decreases n
  {
    if n == 0 {
      assert Repeat(t, 0) + rest == rest;
    } else {
      RepeatRises(t, n - 1, rest, t);
      assert (Repeat(t, n) + rest)[1..] == Repeat(t, n - 1) + rest;
    }
  }

  // ---- windows shorter than a millisecond ----

  lemma {:induction false} ShortWindowAdmitsAll(l: Limits, times: seq<int>, lo: int, hi: int)
    requires l.windowMs <= 0 && l.limit >= 1
    ensures AdmittedIn(None, l, times, lo, hi) == CallsIn(times, lo, hi)
  {
    if times == [] {
    } else {
      ShortWindowAdmitsAll(l, times[1..], lo, hi);
    }
  }

  /** The limits `Allow` passes to the script. */
  function LimitsOf(limit: int, windowNs: int, expiry: Expiry): (l: Limits)
    ensures l.limit == limit && l.expiry == expiry
    ensures windowNs >= 0 ==> l.windowMs == windowNs / 1_000_000
  {
    Limits(limit, TruncDiv(windowNs, NS_PER_MS), expiry)
  }

  /** `window.Milliseconds()` truncates, so the limiter limits anything at all if and only if
      the configured window is at least one millisecond; the configuration check asks only
      that it be positive. */
  lemma LimitsIffWholeMillisecond(limit: int, windowNs: int, expiry: Expiry)
    requires limit >= 1 && windowNs > 0
    ensures var l := LimitsOf(limit, windowNs, expiry);
            (exists times: seq<int> :: AdmittedIn(None, l, times, 0, 1) < CallsIn(times, 0, 1))
            <==> windowNs >= NS_PER_MS
  {
    var l := LimitsOf(limit, windowNs, expiry);
    if windowNs >= NS_PER_MS {
      var times := Repeat(0, limit) + [0];
      FreshBurst(None, l, 0, [0], 0, 1);
      BurstCalls(limit);
      assert AdmittedIn(Some(Counter(limit, Some(l.windowMs))), l, [0], 0, 1) == 0;
      assert AdmittedIn(None, l, times, 0, 1) < CallsIn(times, 0, 1);
    } else {
      forall times: seq<int>
        ensures AdmittedIn(None, l, times, 0, 1) >= CallsIn(times, 0, 1)
      {
        ShortWindowAdmitsAll(l, times, 0, 1);
      }
    }
  }

  /** What was configured is what holds: with a window of w milliseconds, a key that is not
      there when it is first called gets a counter that lives from then for w milliseconds (one
      more by Redis's convention) and not a moment longer, and of the calls made within that
      life exactly the first `limit` are admitted. */
  lemma ConfiguredLimitHolds(c: Cell, limit: int, windowNs: int, w: int, expiry: Expiry, t: int, times: seq<int>)
    requires limit >= 1 && w >= 1 && windowNs == w * 1_000_000
    requires Nondecreasing(times, t) && !Live(c, LimitsOf(limit, windowNs, expiry), t)
    ensures var l := LimitsOf(limit, windowNs, expiry);
            var death := t + w + (if expiry == AtDeadline then 0 else 1);
            var calls := 1 + CallsIn(times, t, death);
            var cell := Script(c, l, t).cell;
            && Script(c, l, t).allowed
            && cell == Some(Counter(1, Some(t + w)))
            && (forall now :: Live(cell, l, now) <==> now < death)
            && AdmittedIn(c, l, [t] + times, t, death) == (if calls <= limit then calls else limit)
  {
    var l := LimitsOf(limit, windowNs, expiry);
    var cell := Script(c, l, t).cell;
    assert ([t] + times)[1..] == times;
    WindowAdmitsExactly(cell, l, times, t);
  }

  /** And a call that finds a live counter at the limit is denied. */
  lemma LimitIsEnforced(limit: int, windowNs: int, expiry: Expiry, count: int, deadline: int, now: int)
    requires Live(Some(Counter(count, Some(deadline))), LimitsOf(limit, windowNs, expiry), now) && count >= 1
    ensures var c := Some(Counter(count, Some(deadline)));
            var v := Script(c, LimitsOf(limit, windowNs, expiry), now);
            (v.allowed <==> count < limit) && (v.allowed ==> v.ttl == 0)
  {
  }

  lemma {:induction false} BurstCalls(n: nat)
    ensures CallsIn(Repeat(0, n) + [0], 0, 1) == n + 1
  {
    var times := Repeat(0, n) + [0];
    if n == 0 {
    } else {
      assert times[1..] == Repeat(0, n - 1) + [0];
      BurstCalls(n - 1);
    }
  }

  // ---- the Go side ----

  datatype Answer = Answer(allowed: bool, retryAfterNs: int)

  class RedisRateLimiter {
    const limit: int
    const windowNs: int
    const expiry: Expiry
    var counters: map<string, Counter>

    constructor (limit: int, windowNs: int, expiry: Expiry)
      ensures this.limit == limit && this.windowNs == windowNs && this.expiry == expiry && counters == map[]
      ensures forall last :: Sound(last)
    {
      this.limit := limit;
      this.windowNs := windowNs;
      this.expiry := expiry;
      counters := map[];
    }

    function Limits(): (l: Limits)
      ensures l == LimitsOf(limit, windowNs, expiry)
    {
      LimitsOf(limit, windowNs, expiry)
    }

    ghost function CellOf(key: string): Cell
      reads this
    {
      if key in counters then Some(counters[key]) else None
    }

    /** Every counter is one that calls up to `last` can have left, so `NoLockOut` applies. */
    ghost predicate Sound(last: int)
      reads this
    {
      forall key :: CellOk(CellOf(key), Limits(), last)
    }

    /** `Allow`; the EVAL may fail, with or without having run. */
    method Allow(key: string, now: int, fault: Fault) returns (r: Option<Answer>)
      modifies this
      ensures var v := Script(old(CellOf(key)), Limits(), now);
              && CellOf(key) == (if fault == Lost then old(CellOf(key)) else v.cell)
              && r == if fault != NoFault then None
                      else if v.allowed then Some(Answer(true, 0))
                      else Some(Answer(false, CeilSecond(v.ttl * NS_PER_MS)))
      ensures forall k :: k != key ==> CellOf(k) == old(CellOf(k))
      ensures forall last :: last <= now && old(Sound(last)) ==> Sound(now)
    {
      if fault == Lost {
        return None;
      }
      var windowMs := TruncDiv(windowNs, NS_PER_MS);
      var current: Cell := if key in counters then Some(counters[key]) else None;
      var live := current.Some? &&
        (current.value.deadline.None? || now < current.value.deadline.value + Limits().Grace());
      // INCR
      var count := if live then current.value.count + 1 else 1;
      counters := counters[key := Counter(count, if live then current.value.deadline else None)];
      if count == 1 {
        // PEXPIRE
        if windowMs <= 0 {
          counters := counters - {key};
        } else {
          counters := counters[key := Counter(1, Some(now + windowMs))];
        }
      }
      var denied := count > limit;
      var ttl := 0;
      if denied {
        ttl := if key !in counters then -2
               else if counters[key].deadline.None? then -1
               else counters[key].deadline.value - now;
        if ttl < 0 {
          ttl := windowMs;
        }
      }
      if fault == LostReply {
        return None;
      }
      if !denied {
        return Some(Answer(true, 0));
      }
      return Some(Answer(false, CeilSecond(ttl * NS_PER_MS)));
    }
  }
}
