/** Fixed-window rate limiting: the in-process counter, and the shared counter with that one as its
    fallback. Clock readings are whole seconds and arguments. */
module RateLimiting {
  import opened Results

  // ---- Windows ----

  function Start(now: int, seconds: int): int
    requires seconds > 0
  {
    (now / seconds) * seconds
  }

  lemma NonNegativeProduct(k: int, w: int)
    requires k >= 0 && w > 0
    ensures k * w >= 0
  {}

  lemma Scaled(a: int, b: int, w: int)
    requires w > 0
    ensures a < b ==> a * w + w <= b * w
    ensures a <= b ==> a * w <= b * w
  {
    if a < b {
      NonNegativeProduct(b - a - 1, w);
      assert (b - a - 1) * w == b * w - a * w - w;
    }
  }

  lemma StartBounds(now: int, seconds: int)
    requires seconds > 0
    ensures Start(now, seconds) <= now < Start(now, seconds) + seconds
  {
    assert now == seconds * (now / seconds) + now % seconds;
  }

  /** A window start is the start of every reading in its window, and of no other. */
  lemma StartUnique(now: int, other: int, seconds: int)
    requires seconds > 0
    ensures Start(other, seconds) == Start(now, seconds)
      <==> Start(now, seconds) <= other < Start(now, seconds) + seconds
    ensures now <= other ==> Start(now, seconds) <= Start(other, seconds)
    ensures now <= other && Start(now, seconds) != Start(other, seconds) ==> Start(now, seconds) + seconds <= Start(other, seconds)
  {
    StartBounds(now, seconds);
    StartBounds(other, seconds);
    Scaled(now / seconds, other / seconds, seconds);
    Scaled(other / seconds, now / seconds, seconds);
  }

  /** Windows begin at the multiples of their length. */
  lemma WindowOf(now: int, start: int, seconds: int)
    requires seconds > 0 && start % seconds == 0
    ensures Start(now, seconds) == start <==> start <= now < start + seconds
    ensures Start(now, seconds) % seconds == 0
  {
    assert start == seconds * (start / seconds);
    StartUnique(start, now, seconds);
    MultipleOf(now / seconds, seconds);
  }

  lemma MultipleOf(k: int, seconds: int)
    requires seconds > 0
    ensures (k * seconds) % seconds == 0
  {
    var rest := (k * seconds) % seconds;
    var q := (k * seconds) / seconds;
    assert k * seconds == seconds * q + rest;
    Scaled(q, k, seconds);
    Scaled(k, q, seconds);
  }

  // ---- The counter ----

  datatype Window = Window(start: int, count: nat)

  function Step(before: Option<Window>, now: int, seconds: int): Window
    requires seconds > 0
  {
    if before.Some? && before.value.start == Start(now, seconds)
    then Window(before.value.start, before.value.count + 1)
    else Window(Start(now, seconds), 1)
  }

  function RetryAfter(start: int, now: int, seconds: int): int {
    if start + seconds - now > 1 then start + seconds - now else 1
  }

  class WindowCounter {
    var windows: map<string, Window>

    constructor ()
      ensures windows == map[]
    {
      windows := map[];
    }

    function Current(key: string): Option<Window>
      reads this
    {
      if key in windows then Some(windows[key]) else None
    }

    method Hit(now: int, key: string, limit: int, seconds: int) returns (allowed: bool, retryAfter: int)
      requires seconds > 0
      modifies this
      ensures windows == old(windows)[key := Step(old(Current(key)), now, seconds)]
      ensures allowed <==> Step(old(Current(key)), now, seconds).count <= limit
      ensures retryAfter == RetryAfter(Start(now, seconds), now, seconds)
      ensures forall times :: old(Current(key)) == After(times, seconds) ==>
        && Current(key) == After(times + [now], seconds)
        && (allowed <==> LastAllowed(times + [now], seconds, limit))
    {
      forall times | Current(key) == After(times, seconds)
        ensures After(times + [now], seconds) == Some(Step(Current(key), now, seconds))
      {
        assert (times + [now])[..|times|] == times;
      }
      var windowStart := (now / seconds) * seconds;
      var start, count := windowStart, 0;
      if key in windows {
        start, count := windows[key].start, windows[key].count;
      }
      if start != windowStart {
        start, count := windowStart, 0;
      }
      count := count + 1;
      windows := windows[key := Window(start, count)];
      retryAfter := if start + seconds - now > 1 then start + seconds - now else 1;
      allowed := count <= limit;
    }
  }

  // ---- All hits of one key ----

  predicate NonDecreasing(times: seq<int>) {
    forall i, j :: 0 <= i <= j < |times| ==> times[i] <= times[j]
  }

  /** The counter of a key after the given hits. */
  function After(times: seq<int>, seconds: int): Option<Window>
    requires seconds > 0
  {
    if times == [] then None
    else Some(Step(After(times[..|times| - 1], seconds), times[|times| - 1], seconds))
  }

  function HitsIn(times: seq<int>, seconds: int, start: int): nat
    requires seconds > 0
  {
    if times == [] then 0
    else HitsIn(times[..|times| - 1], seconds, start) + (if Start(times[|times| - 1], seconds) == start then 1 else 0)
  }

  lemma {:induction false} NoHitsYet(times: seq<int>, seconds: int, start: int)
    requires seconds > 0 && forall i :: 0 <= i < |times| ==> Start(times[i], seconds) < start
    ensures HitsIn(times, seconds, start) == 0
  {
    if times != [] { NoHitsYet(times[..|times| - 1], seconds, start); }
  }

  /** With a clock that does not go back the counter holds exactly the hits of the current window. */
  lemma {:induction false} CounterIsExact(times: seq<int>, seconds: int)
    requires seconds > 0 && times != [] && NonDecreasing(times)
    ensures var start := Start(times[|times| - 1], seconds);
      After(times, seconds) == Some(Window(start, HitsIn(times, seconds, start)))
  {
    var n := |times| - 1;
    var start := Start(times[n], seconds);
    if n == 0 {
      assert HitsIn(times[..0], seconds, start) == 0;
    } else {
      CounterIsExact(times[..n], seconds);
      StartUnique(times[n - 1], times[n], seconds);
      if Start(times[n - 1], seconds) != start {
        forall i | 0 <= i < n ensures Start(times[i], seconds) < start { StartUnique(times[i], times[n - 1], seconds); }
        NoHitsYet(times[..n], seconds, start);
      }
    }
  }

  /** Whether the last hit was let through. */
  predicate LastAllowed(times: seq<int>, seconds: int, limit: int)
    requires seconds > 0 && times != []
  {
    After(times, seconds).value.count <= limit
  }

  function Admitted(times: seq<int>, seconds: int, limit: int, start: int): nat
    requires seconds > 0
  {
    if times == [] then 0
    else
      Admitted(times[..|times| - 1], seconds, limit, start)
      + (if Start(times[|times| - 1], seconds) == start && LastAllowed(times, seconds, limit) then 1 else 0)
  }

  /** A window lets through exactly the first `limit` of its hits. */
  lemma {:induction false} WindowAdmits(times: seq<int>, seconds: int, limit: nat, start: int)
    requires seconds > 0 && NonDecreasing(times)
    ensures Admitted(times, seconds, limit, start)
         == if HitsIn(times, seconds, start) <= limit then HitsIn(times, seconds, start) else limit
  {
    if times != [] {
      WindowAdmits(times[..|times| - 1], seconds, limit, start);
      CounterIsExact(times, seconds);
    }
  }

  function AdmittedBetween(times: seq<int>, seconds: int, limit: int, from: int, to: int): nat
    requires seconds > 0
  {
    if times == [] then 0
    else
      var last := times[|times| - 1];
      AdmittedBetween(times[..|times| - 1], seconds, limit, from, to)
      + (if from <= last < to && LastAllowed(times, seconds, limit) then 1 else 0)
  }

  lemma {:induction false} IntervalInTwoWindows(times: seq<int>, seconds: int, limit: int, from: int)
    requires seconds > 0
    ensures AdmittedBetween(times, seconds, limit, from, from + seconds)
         <= Admitted(times, seconds, limit, Start(from, seconds))
            + Admitted(times, seconds, limit, Start(from, seconds) + seconds)
  {
    if times != [] {
      var last := times[|times| - 1];
      IntervalInTwoWindows(times[..|times| - 1], seconds, limit, from);
      StartUnique(from, last, seconds);
      StartBounds(from, seconds);
      StartBounds(last, seconds);
      if from <= last < from + seconds && Start(last, seconds) != Start(from, seconds) {
        NextWindow(from, last, seconds);
      }
    }
  }

  lemma NextWindow(now: int, later: int, seconds: int)
    requires seconds > 0 && now <= later < now + seconds && Start(later, seconds) != Start(now, seconds)
    ensures Start(later, seconds) == Start(now, seconds) + seconds
  {
    StartUnique(now, later, seconds);
    StartBounds(now, seconds);
    StartBounds(later, seconds);
    var a, b := now / seconds, later / seconds;
    Scaled(a + 1, b, seconds);
    assert (a + 1) * seconds == a * seconds + seconds;
    Scaled(b, a, seconds);
  }

  /** No stretch of one window's length lets more than twice the limit through. */
  lemma IntervalAdmits(times: seq<int>, seconds: int, limit: nat, from: int)
    requires seconds > 0 && NonDecreasing(times)
    ensures AdmittedBetween(times, seconds, limit, from, from + seconds) <= 2 * limit
  {
    IntervalInTwoWindows(times, seconds, limit, from);
    WindowAdmits(times, seconds, limit, Start(from, seconds));
    WindowAdmits(times, seconds, limit, Start(from, seconds) + seconds);
  }

  /** A rejected caller who comes back, with nobody else using the key meanwhile, is let in exactly
      when the announced wait is over. */
  lemma {:induction false} RetryAfterIsExact(times: seq<int>, seconds: int, limit: nat, again: int)
    requires seconds > 0 && limit >= 1 && times != [] && NonDecreasing(times + [again])
    requires !LastAllowed(times, seconds, limit)
    ensures var now := times[|times| - 1];
      LastAllowed(times + [again], seconds, limit)
      <==> again >= now + RetryAfter(Start(now, seconds), now, seconds)
  {
    var now := times[|times| - 1];
    assert (times + [again])[..|times|] == times;
    assert (times + [again])[|times| - 1] <= (times + [again])[|times|];
    assert NonDecreasing(times) by {
      forall i, j | 0 <= i <= j < |times| ensures times[i] <= times[j] {
        assert (times + [again])[i] <= (times + [again])[j];
      }
    }
    CounterIsExact(times, seconds);
    StartUnique(now, again, seconds);
    StartBounds(now, seconds);
  }

  // ---- The shared counter, which may fail at any call ----

  /** How a call to the shared counter ends: it answers; it fails after counting; or it fails before,
      as when none is configured. */
  datatype Shared = Answers | FailsCounted | FailsUncounted

  /** One call: the clock when the shared counter is asked, and when the fallback is, if it is. */
  datatype Call = Call(now: int, later: int, shared: Shared) {
    function At(): int {
      if shared == Answers then now else later
    }
  }

  /** The shared counter's value for a window: its keys name their window and live longer than it. */
  function SharedCount(calls: seq<Call>, seconds: int, start: int): nat
    requires seconds > 0
  {
    if calls == [] then 0
    else
      var last := calls[|calls| - 1];
      SharedCount(calls[..|calls| - 1], seconds, start)
      + (if last.shared != FailsUncounted && Start(last.now, seconds) == start then 1 else 0)
  }

  /** The hits that reach the fallback. */
  function FallbackTimes(calls: seq<Call>): seq<int> {
    if calls == [] then []
    else
      var last, before := calls[|calls| - 1], FallbackTimes(calls[..|calls| - 1]);
      if last.shared == Answers then before else before + [last.later]
  }

  predicate CallAllowed(calls: seq<Call>, seconds: int, limit: int)
    requires seconds > 0 && calls != []
  {
    var last := calls[|calls| - 1];
    if last.shared == Answers then SharedCount(calls, seconds, Start(last.now, seconds)) <= limit
    else LastAllowed(FallbackTimes(calls), seconds, limit)
  }

  /** The shared counters, by key and window, and the fallback's windows, by key. */
  datatype Counters = Counters(counts: map<(string, int), nat>, windows: map<string, Window>) {
    function Count(key: string, start: int): nat {
      if (key, start) in counts then counts[(key, start)] else 0
    }

    function Current(key: string): Option<Window> {
      if key in windows then Some(windows[key]) else None
    }

    function Next(key: string, seconds: int, c: Call): Counters
      requires seconds > 0
    {
      Counters(
        if c.shared == FailsUncounted then counts
        else counts[(key, Start(c.now, seconds)) := Count(key, Start(c.now, seconds)) + 1],
        if c.shared == Answers then windows else windows[key := Step(Current(key), c.later, seconds)])
    }

    /** Whether the call that led to these counters is let through. */
    predicate Lets(key: string, limit: int, seconds: int, c: Call)
      requires seconds > 0
    {
      if c.shared == Answers then Count(key, Start(c.now, seconds)) <= limit
      else Current(key).Some? && Current(key).value.count <= limit
    }

    /** The counters after the given calls for a key, all with the same window length. */
    ghost predicate Account(key: string, seconds: int, calls: seq<Call>)
      requires seconds > 0
    {
      && (forall start :: Count(key, start) == SharedCount(calls, seconds, start))
      && Current(key) == After(FallbackTimes(calls), seconds)
    }
  }

  lemma FallbackAppended(calls: seq<Call>, c: Call, seconds: int)
    requires seconds > 0
    ensures FallbackTimes(calls + [c]) == if c.shared == Answers then FallbackTimes(calls) else FallbackTimes(calls) + [c.later]
    ensures c.shared != Answers ==>
      After(FallbackTimes(calls + [c]), seconds) == Some(Step(After(FallbackTimes(calls), seconds), c.later, seconds))
  {
    assert (calls + [c])[..|calls|] == calls;
    assert (FallbackTimes(calls) + [c.later])[..|FallbackTimes(calls)|] == FallbackTimes(calls);
  }

  lemma SharedAppended(calls: seq<Call>, c: Call, seconds: int, start: int)
    requires seconds > 0
    ensures SharedCount(calls + [c], seconds, start) == SharedCount(calls, seconds, start)
      + (if c.shared != FailsUncounted && Start(c.now, seconds) == start then 1 else 0)
  {
    assert (calls + [c])[..|calls|] == calls;
  }

  /** Counters that account for a history still do after one more call, which they let through exactly as
      the history says. */
  lemma CallAccounted(k: Counters, key: string, limit: int, seconds: int, calls: seq<Call>, c: Call)
    requires seconds > 0 && k.Account(key, seconds, calls)
    ensures k.Next(key, seconds, c).Account(key, seconds, calls + [c])
    ensures k.Next(key, seconds, c).Lets(key, limit, seconds, c) <==> CallAllowed(calls + [c], seconds, limit)
  {
    var k' := k.Next(key, seconds, c);
    FallbackAppended(calls, c, seconds);
    forall start ensures k'.Count(key, start) == SharedCount(calls + [c], seconds, start) {
      SharedAppended(calls, c, seconds, start);
    }
  }

  /** Calls for one key leave what is counted for another alone. */
  lemma OtherKeysKept(k: Counters, key: string, seconds: int, c: Call, other: string, otherSeconds: int, calls: seq<Call>)
    requires seconds > 0 && otherSeconds > 0 && other != key && k.Account(other, otherSeconds, calls)
    ensures k.Next(key, seconds, c).Account(other, otherSeconds, calls)
  {
    var k' := k.Next(key, seconds, c);
    forall start ensures k'.Count(other, start) == k.Count(other, start) {}
  }

  class RateLimiter {
    const fallback: WindowCounter
    var counts: map<(string, int), nat>

    function State(): Counters
      reads this, fallback
    {
      Counters(counts, fallback.windows)
    }

    constructor ()
      ensures fresh(fallback) && State() == Counters(map[], map[])
      ensures forall key, seconds :: seconds > 0 ==> State().Account(key, seconds, [])
    {
      fallback := new WindowCounter();
      counts := map[];
    }

    method Check(now: int, later: int, key: string, limit: int, seconds: int, shared: Shared)
      returns (allowed: bool, retryAfter: int)
      requires seconds > 0
      modifies this, fallback
      ensures State() == old(State()).Next(key, seconds, Call(now, later, shared))
      ensures allowed <==> State().Lets(key, limit, seconds, Call(now, later, shared))
      ensures var at := Call(now, later, shared).At(); retryAfter == RetryAfter(Start(at, seconds), at, seconds)
    {
      var start := (now / seconds) * seconds;
      var count := if (key, start) in counts then counts[(key, start)] else 0;
      if shared != FailsUncounted {
        count := count + 1;
        counts := counts[(key, start) := count];
      }
      if shared == Answers {
        allowed := count <= limit;
        retryAfter := if start + seconds - now > 1 then start + seconds - now else 1;
      } else {
        allowed, retryAfter := fallback.Hit(later, key, limit, seconds);
      }
    }
  }

  /** The fallback's readings do not go back. */
  predicate Chronological(calls: seq<Call>) {
    forall i, j :: 0 <= i <= j < |calls| ==> calls[i].later <= calls[j].later
  }

  lemma {:induction false} FallbackChronological(calls: seq<Call>)
    requires Chronological(calls)
    ensures NonDecreasing(FallbackTimes(calls))
    ensures forall i :: 0 <= i < |FallbackTimes(calls)| ==> FallbackTimes(calls)[i] <= calls[|calls| - 1].later
  {
    if calls != [] {
      var n := |calls| - 1;
      FallbackChronological(calls[..n]);
      assert n > 0 ==> calls[..n][n - 1].later <= calls[n].later;
    }
  }

  function SharedAdmitted(calls: seq<Call>, seconds: int, limit: int, start: int): nat
    requires seconds > 0
  {
    if calls == [] then 0
    else
      var last := calls[|calls| - 1];
      SharedAdmitted(calls[..|calls| - 1], seconds, limit, start)
      + (if last.shared == Answers && Start(last.now, seconds) == start && CallAllowed(calls, seconds, limit) then 1 else 0)
  }

  function AllAdmitted(calls: seq<Call>, seconds: int, limit: int, start: int): nat
    requires seconds > 0
  {
    if calls == [] then 0
    else
      var last := calls[|calls| - 1];
      AllAdmitted(calls[..|calls| - 1], seconds, limit, start)
      + (if Start(last.At(), seconds) == start && CallAllowed(calls, seconds, limit) then 1 else 0)
  }

  lemma {:induction false} SharedAdmitsLimit(calls: seq<Call>, seconds: int, limit: nat, start: int)
    requires seconds > 0
    ensures SharedAdmitted(calls, seconds, limit, start) <= limit
    ensures SharedAdmitted(calls, seconds, limit, start) <= SharedCount(calls, seconds, start)
  {
    if calls != [] {
      SharedAdmitsLimit(calls[..|calls| - 1], seconds, limit, start);
    }
  }

  lemma AdmittedAppend(times: seq<int>, now: int, seconds: int, limit: int, start: int)
    requires seconds > 0
    ensures Admitted(times + [now], seconds, limit, start) == Admitted(times, seconds, limit, start)
      + (if Start(now, seconds) == start && LastAllowed(times + [now], seconds, limit) then 1 else 0)
  {
    assert (times + [now])[..|times|] == times;
  }

  function One(b: bool): nat {
    if b then 1 else 0
  }

  /** What the last call adds on either side. */
  lemma LastCallSplits(calls: seq<Call>, seconds: int, limit: int, start: int)
    requires seconds > 0 && calls != []
    ensures var n := |calls| - 1;
      var admitted := One(Start(calls[n].At(), seconds) == start && CallAllowed(calls, seconds, limit));
      var times, before := FallbackTimes(calls), FallbackTimes(calls[..n]);
      if calls[n].shared == Answers then times == before
      else Admitted(times, seconds, limit, start) == Admitted(before, seconds, limit, start) + admitted
  {
    var n := |calls| - 1;
    if calls[n].shared != Answers {
      AdmittedAppend(FallbackTimes(calls[..n]), calls[n].later, seconds, limit, start);
    }
  }

  lemma {:induction false} AdmittedSplits(calls: seq<Call>, seconds: int, limit: int, start: int)
    requires seconds > 0
    ensures AllAdmitted(calls, seconds, limit, start)
         == SharedAdmitted(calls, seconds, limit, start) + Admitted(FallbackTimes(calls), seconds, limit, start)
  {
    if calls != [] {
      AdmittedSplits(calls[..|calls| - 1], seconds, limit, start);
      LastCallSplits(calls, seconds, limit, start);
    }
  }

  predicate NoneFailsCounted(calls: seq<Call>) {
    forall i :: 0 <= i < |calls| ==> calls[i].shared != FailsCounted
  }

  function Least(a: nat, b: nat): nat {
    if a <= b then a else b
  }

  /** The shared counter lets the first `limit` calls of a window through, as long as what it counts it answers. */
  lemma {:induction false} SharedAdmitsFirst(calls: seq<Call>, seconds: int, limit: nat, start: int)
    requires seconds > 0 && NoneFailsCounted(calls)
    ensures SharedAdmitted(calls, seconds, limit, start) == Least(limit, SharedCount(calls, seconds, start))
  {
    if calls != [] {
      SharedAdmitsFirst(calls[..|calls| - 1], seconds, limit, start);
    }
  }

  /** If the shared counter answers whatever it counts, a window lets through exactly the first `limit` of the calls it
      answers and the first `limit` of the others. */
  lemma DegradedAdmitsExactly(calls: seq<Call>, seconds: int, limit: nat, start: int)
    requires seconds > 0 && Chronological(calls) && NoneFailsCounted(calls)
    ensures AllAdmitted(calls, seconds, limit, start)
         == Least(limit, SharedCount(calls, seconds, start)) + Least(limit, HitsIn(FallbackTimes(calls), seconds, start))
  {
    AdmittedSplits(calls, seconds, limit, start);
    SharedAdmitsFirst(calls, seconds, limit, start);
    FallbackChronological(calls);
    WindowAdmits(FallbackTimes(calls), seconds, limit, start);
  }

  /** However the shared counter fails, a window lets at most twice the limit through, in one process. */
  lemma DegradedWindowAdmits(calls: seq<Call>, seconds: int, limit: nat, start: int)
    requires seconds > 0 && Chronological(calls)
    ensures AllAdmitted(calls, seconds, limit, start) <= 2 * limit
    ensures (forall i :: 0 <= i < |calls| ==> calls[i].shared == Answers) ==> AllAdmitted(calls, seconds, limit, start) <= limit
  {
    AdmittedSplits(calls, seconds, limit, start);
    SharedAdmitsLimit(calls, seconds, limit, start);
    FallbackChronological(calls);
    WindowAdmits(FallbackTimes(calls), seconds, limit, start);
    if forall i :: 0 <= i < |calls| ==> calls[i].shared == Answers { NoFallback(calls); }
  }

  lemma {:induction false} NoFallback(calls: seq<Call>)
    requires forall i :: 0 <= i < |calls| ==> calls[i].shared == Answers
    ensures FallbackTimes(calls) == []
  {
    if calls != [] { NoFallback(calls[..|calls| - 1]); }
  }
}
