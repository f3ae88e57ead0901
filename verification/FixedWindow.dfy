/**
 The limiter of client registrations (oidcprovider/provider.go): one counter per address, restarted
 by the first event after its window, and a sweep that drops expired counters.

 Arrivals read the clock before they take the lock, so one may be counted up to a `lag` after readings
 later than its own. The hourly pass reads it even earlier, before it cleans up the store and the keys
 (oidcprovider/provider.go:247-258), so nothing is assumed of how old a sweep's reading is.
 */
module FixedWindow {
  import opened Basics
  import opened RateLimits

  datatype Config = Config(n: nat, window: Time)

  datatype Bucket = Bucket(start: Time, n: nat)

  datatype Event = Arrive(key: Key, now: Time) | Sweep(now: Time)

  /** `log` and `answers` are history: the times accepted per key, and every answer given. */
  datatype State = State(seen: map<Key, Bucket>, log: map<Key, seq<Time>>, answers: seq<bool>)

  const START := State(map[], map[], [])

  predicate Expired(c: Config, b: Bucket, now: Time) {
    now - b.start >= c.window
  }

  function BucketAt(c: Config, seen: map<Key, Bucket>, key: Key, now: Time): Bucket {
    if key !in seen || Expired(c, seen[key], now) then Bucket(now, 0) else seen[key]
  }

  function Allowed(c: Config, seen: map<Key, Bucket>, key: Key, now: Time): (map<Key, Bucket>, bool) {
    var b := BucketAt(c, seen, key, now);
    if b.n >= c.n then (seen[key := b], false) else (seen[key := Bucket(b.start, b.n + 1)], true)
  }

  function Swept(c: Config, seen: map<Key, Bucket>, now: Time): map<Key, Bucket> {
    map k | k in seen && !Expired(c, seen[k], now) :: seen[k]
  }

  function Apply(c: Config, s: State, e: Event): State {
    match e
    case Arrive(key, now) =>
      var (seen, ok) := Allowed(c, s.seen, key, now);
      State(seen, if ok then s.log[key := Of(s.log, key) + [now]] else s.log, s.answers + [ok])
    case Sweep(now) => s.(seen := Swept(c, s.seen, now))
  }

  function Exec(c: Config, es: seq<Event>): State {
    if es == [] then START else Apply(c, Exec(c, es[..|es| - 1]), es[|es| - 1])
  }

  /** No arrival is counted more than `lag` behind an earlier reading. */
  predicate Ordered(es: seq<Event>, lag: Time) {
    forall i, j :: 0 <= i < j < |es| && es[j].Arrive? ==> es[i].now - lag <= es[j].now
  }

  /** A counter serves from its first event until its window is over. */
  predicate Serves(c: Config, seen: map<Key, Bucket>, key: Key, now: Time) {
    key in seen && now - seen[key].start < c.window
  }

  /** An event is let through exactly while its counter has room, and counted; other keys are not touched. */
  lemma AllowsExactly(c: Config, seen: map<Key, Bucket>, key: Key, now: Time)
    ensures var (seen', ok) := Allowed(c, seen, key, now); var serves := Serves(c, seen, key, now);
            && (ok <==> if serves then seen[key].n < c.n else c.n > 0)
            && key in seen' && seen' - {key} == seen - {key}
            && seen'[key].start == (if serves then seen[key].start else now)
            && seen'[key].n == (if serves then seen[key].n else 0) + if ok then 1 else 0
    ensures forall k :: k in Swept(c, seen, now) <==> Serves(c, seen, k, now)
    ensures forall k :: k in Swept(c, seen, now) ==> Swept(c, seen, now)[k] == seen[k]
  {
  }

  // ---- the code ------------------------------------------------------------------------------------

  class Counter {
    var start: Time
    var n: nat

    constructor (start: Time)
      ensures this.start == start && n == 0
    {
      this.start := start;
      n := 0;
    }
  }

  /** The map holds pointers: counting an event writes through the pointer, not to the map. */
  class Limiter {
    const c: Config
    var seen: map<Key, Counter>

    constructor (n: nat, window: Time)
      ensures c == Config(n, window) && seen == map[] && Valid() && Buckets() == map[]
    {
      c := Config(n, window);
      seen := map[];
    }

    /** No two keys share a counter. */
    ghost predicate Valid()
      reads this
    {
      forall j, k :: j in seen && k in seen && j != k ==> seen[j] != seen[k]
    }

    ghost function Buckets(): map<Key, Bucket>
      reads this, seen.Values
    {
      map k | k in seen :: Bucket(seen[k].start, seen[k].n)
    }

    /** The counter `key` counts on: its own, unless it is missing or its window is over. */
    method CounterAt(key: Key, now: Time) returns (b: Counter)
      requires Valid()
      modifies this
      ensures Valid() && fresh(seen.Values - old(seen.Values)) && key in seen && seen[key] == b
      ensures Buckets() == old(Buckets())[key := BucketAt(c, old(Buckets()), key, now)]
    {
      if key !in seen || now - seen[key].start >= c.window {
        b := new Counter(now);
        seen := seen[key := b];
      } else {
        b := seen[key];
      }
    }

    method Allow(key: Key, now: Time) returns (ok: bool)
      requires Valid()
      modifies this, seen.Values
      ensures Valid() && fresh(seen.Values - old(seen.Values))
      ensures (Buckets(), ok) == Allowed(c, old(Buckets()), key, now)
    {
      hide BucketAt;
      var b := CounterAt(key, now);
      assert Buckets()[key] == Bucket(b.start, b.n);
      if b.n >= c.n {
        return false;
      }
      ghost var found := Buckets();
      b.n := b.n + 1;
      assert Buckets() == found[key := Bucket(b.start, b.n)];
      assert Buckets() == old(Buckets())[key := Bucket(b.start, b.n)];
      return true;
    }

    method SweepAt(now: Time)
      requires Valid()
      modifies this
      ensures Valid() && seen.Values <= old(seen.Values)
      ensures Buckets() == Swept(c, old(Buckets()), now)
    {
      ghost var was := Buckets();
      var todo := seen.Keys;
      while todo != {}
        invariant forall k :: k in seen ==> k in old(seen) && seen[k] == old(seen)[k]
        invariant todo <= seen.Keys
        invariant forall k :: k in old(seen) && k !in todo ==> (k in seen <==> !Expired(c, was[k], now))
        decreases |todo|
      {
        var k :| k in todo;
        if now - seen[k].start >= c.window {
          seen := seen - {k};
        }
        todo := todo - {k};
      }
    }
  }

  // ---- runs ----------------------------------------------------------------------------------------

  lemma ExecNone(c: Config)
    ensures Exec(c, []) == START
  {
  }

  lemma ExecStep(c: Config, es: seq<Event>, e: Event)
    ensures Exec(c, es + [e]) == Apply(c, Exec(c, es), e)
  {
    assert (es + [e])[..|es|] == es;
  }

  predicate NotPast(es: seq<Event>, now: Time) {
    forall i :: 0 <= i < |es| ==> es[i].now <= now
  }

  lemma OrderedUpTo(es: seq<Event>, lag: Time)
    requires es != [] && Ordered(es, lag)
    ensures Ordered(es[..|es| - 1], lag)
    ensures es[|es| - 1].Arrive? ==> NotPast(es[..|es| - 1], es[|es| - 1].now + lag)
  {
  }

  // ---- the sweep is invisible ------------------------------------------------------------------------

  function WithoutSweep(es: seq<Event>): seq<Event> {
    if es == [] then []
    else WithoutSweep(es[..|es| - 1]) + if es[|es| - 1].Sweep? then [] else [es[|es| - 1]]
  }

  lemma WithoutNone()
    ensures WithoutSweep([]) == []
  {
  }

  lemma WithoutStep(es: seq<Event>, e: Event)
    ensures WithoutSweep(es + [e]) == WithoutSweep(es) + if e.Sweep? then [] else [e]
  {
    assert (es + [e])[..|es|] == es;
  }

  /** `seen` is `all` short of some counters that no event from `now` on will use. */
  ghost predicate SweptFrom(c: Config, seen: map<Key, Bucket>, all: map<Key, Bucket>, now: Time) {
    && (forall k :: k in seen ==> k in all && seen[k] == all[k])
    && (forall k :: k in all && k !in seen ==> Expired(c, all[k], now))
  }

  lemma ArriveKeepsSwept(c: Config, s: State, t: State, key: Key, now: Time)
    requires SweptFrom(c, s.seen, t.seen, now) && s.log == t.log && s.answers == t.answers
    ensures var s', t' := Apply(c, s, Arrive(key, now)), Apply(c, t, Arrive(key, now));
            SweptFrom(c, s'.seen, t'.seen, now) && s'.log == t'.log && s'.answers == t'.answers
  {
    assert BucketAt(c, s.seen, key, now) == BucketAt(c, t.seen, key, now);
  }

  lemma SweepKeepsSwept(c: Config, seen: map<Key, Bucket>, all: map<Key, Bucket>, at: Time, now: Time)
    requires SweptFrom(c, seen, all, now) && at <= now
    ensures SweptFrom(c, Swept(c, seen, at), all, now)
  {
  }

  /** The sweep never changes an answer, when no arrival is counted behind an earlier reading. */
  lemma SweepIsInvisible(c: Config, es: seq<Event>)
    requires Ordered(es, 0)
    ensures Exec(c, es).answers == Exec(c, WithoutSweep(es)).answers
    ensures Exec(c, es).log == Exec(c, WithoutSweep(es)).log
  {
    SweptRun(c, es, Latest(es));
  }

  /** A time none of the readings is past. */
  function Latest(es: seq<Event>): (now: Time)
    ensures NotPast(es, now)
  {
    if es == [] then 0 else Max(Latest(es[..|es| - 1]), es[|es| - 1].now)
  }

  lemma {:induction false} SweptRun(c: Config, es: seq<Event>, now: Time)
    requires Ordered(es, 0) && NotPast(es, now)
    ensures var s, t := Exec(c, es), Exec(c, WithoutSweep(es));
            SweptFrom(c, s.seen, t.seen, now) && s.log == t.log && s.answers == t.answers
  {
    hide Exec, WithoutSweep, Ordered, SweptFrom, Expired, Allowed;
    if es == [] {
      ExecNone(c);
      WithoutNone();
      NothingSwept(c, now);
    } else {
      var rest, e := es[..|es| - 1], es[|es| - 1];
      assert es == rest + [e] && e.now <= now;
      OrderedUpTo(es, 0);
      ExecStep(c, rest, e);
      WithoutStep(rest, e);
      var s, t := Exec(c, rest), Exec(c, WithoutSweep(rest));
      if e.Arrive? {
        SweptRun(c, rest, e.now);
        ExecStep(c, WithoutSweep(rest), e);
        ArriveKeepsSwept(c, s, t, e.key, e.now);
        LaterSwept(c, Exec(c, es).seen, Exec(c, WithoutSweep(es)).seen, e.now, now);
      } else {
        SweptRun(c, rest, now);
        SweepKeepsSwept(c, s.seen, t.seen, e.now, now);
        assert WithoutSweep(es) == WithoutSweep(rest);
      }
    }
  }

  lemma NothingSwept(c: Config, now: Time)
    ensures SweptFrom(c, map[], map[], now)
  {
  }

  lemma LaterSwept(c: Config, seen: map<Key, Bucket>, all: map<Key, Bucket>, now: Time, later: Time)
    requires SweptFrom(c, seen, all, now) && now <= later
    ensures SweptFrom(c, seen, all, later)
  {
  }

  // ---- how many in one window --------------------------------------------------------------------------

  function Pred(n: nat): nat {
    if n == 0 then 0 else n - 1
  }

  /** A full window, and one event less of the window before: its first has dropped out. */
  function Most(n: nat): nat {
    n + Pred(n)
  }

  /**
   Events read this long after a counter's start belong to it and are not its first. Those of an earlier
   counter may be read up to a lag after it, but with a budget of one each counter has only its first.
   */
  function Own(c: Config, lag: Time): Time {
    if c.n <= 1 then 1 else Max(lag, 1)
  }

  /** The longest interval that holds no more than Most. */
  function Span(c: Config, lag: Time): Time {
    c.window - lag - Own(c, lag) + 1
  }

  ghost predicate Fits(ts: seq<Time>, length: Time, most: nat) {
    forall x :: InInterval(ts, x, length) <= most
  }

  /** What a counter says about the accepted events of its key, when `top` is the latest reading. */
  ghost predicate Counts(c: Config, lag: Time, b: Bucket, ts: seq<Time>, top: Time) {
    && b.n <= c.n
    && CountFrom(ts, b.start + c.window) == 0
    && CountFrom(ts, b.start + Own(c, lag)) <= Pred(b.n)
    && CountFrom(ts, top - c.window + Own(c, lag)) <= Pred(c.n) + b.n
  }

  /** And what is known of them when the counter is gone. */
  ghost predicate Gone(c: Config, lag: Time, ts: seq<Time>, top: Time) {
    CountFrom(ts, top) == 0 && CountFrom(ts, top - c.window + Own(c, lag)) <= Pred(c.n)
  }

  lemma FewerLater(ts: seq<Time>, lo: Time, hi: Time)
    requires lo <= hi
    ensures CountFrom(ts, hi) <= CountFrom(ts, lo)
  {
    CountSplits(ts, lo, hi, hi);
  }

  lemma ExpiredIsGone(c: Config, lag: Time, b: Bucket, ts: seq<Time>, top: Time)
    requires Counts(c, lag, b, ts, top) && b.start + c.window <= top
    ensures Gone(c, lag, ts, top)
  {
    FewerLater(ts, b.start + c.window, top);
    FewerLater(ts, b.start + Own(c, lag), top - c.window + Own(c, lag));
  }

  lemma LaterCounts(c: Config, lag: Time, b: Bucket, ts: seq<Time>, top: Time, later: Time)
    requires Counts(c, lag, b, ts, top) && top <= later
    ensures Counts(c, lag, b, ts, later)
  {
    FewerLater(ts, top - c.window + Own(c, lag), later - c.window + Own(c, lag));
  }

  lemma LaterGone(c: Config, lag: Time, ts: seq<Time>, top: Time, later: Time)
    requires Gone(c, lag, ts, top) && top <= later
    ensures Gone(c, lag, ts, later)
  {
    FewerLater(ts, top, later);
    FewerLater(ts, top - c.window + Own(c, lag), later - c.window + Own(c, lag));
  }

  lemma RestartCounts(c: Config, lag: Time, ts: seq<Time>, top: Time, now: Time)
    requires 0 <= lag <= c.window && Gone(c, lag, ts, top) && top - lag <= now
    ensures Counts(c, lag, Bucket(now, 0), ts, top)
  {
    FewerLater(ts, top, now + c.window);
    if c.n <= 1 {
      FewerLater(ts, top - c.window + 1, now + 1);
    } else {
      FewerLater(ts, top, now + Own(c, lag));
    }
  }

  lemma AddCounts(c: Config, lag: Time, b: Bucket, ts: seq<Time>, top: Time, now: Time)
    requires Counts(c, lag, b, ts, top) && b.n < c.n && !Expired(c, b, now) && (b.n == 0 ==> now == b.start)
    ensures Counts(c, lag, Bucket(b.start, b.n + 1), ts + [now], top)
  {
    CountAppend(ts, now, b.start + c.window, 0);
    CountAppend(ts, now, b.start + Own(c, lag), 0);
    CountAppend(ts, now, top - c.window + Own(c, lag), 0);
  }

  lemma AddFits(c: Config, lag: Time, b: Bucket, ts: seq<Time>, top: Time, now: Time, length: Time)
    requires Fits(ts, length, Most(c.n)) && length <= Span(c, lag)
    requires Counts(c, lag, b, ts, top) && b.n < c.n && top - lag <= now
    ensures Fits(ts + [now], length, Most(c.n))
  {
    forall x ensures InInterval(ts + [now], x, length) <= Most(c.n) {
      assert InInterval(ts, x, length) <= Most(c.n);
      CountAppend(ts, now, x, x + length);
      if x <= now < x + length {
        CountSplits(ts, x, x + length, x + length);
        FewerLater(ts, top - c.window + Own(c, lag), x);
      }
    }
  }

  ghost predicate KeyInv(
    c: Config, lag: Time, length: Time, seen: map<Key, Bucket>, key: Key, ts: seq<Time>, top: Time) {
    && Fits(ts, length, Most(c.n))
    && (key !in seen ==> Gone(c, lag, ts, top))
    && (key in seen ==> Counts(c, lag, seen[key], ts, top) && (seen[key].n == 0 ==> c.n == 0))
  }

  lemma ArriveKeepsKey(
    c: Config, lag: Time, length: Time, seen: map<Key, Bucket>, key: Key, ts: seq<Time>, top: Time, now: Time)
    requires c.window > 0 && 0 <= lag <= c.window && length <= Span(c, lag)
    requires KeyInv(c, lag, length, seen, key, ts, top) && top - lag <= now <= top
    ensures var (seen', ok) := Allowed(c, seen, key, now);
            KeyInv(c, lag, length, seen', key, if ok then ts + [now] else ts, top)
  {
    hide Fits, Counts, Gone;
    var b := BucketAt(c, seen, key, now);
    if key !in seen || Expired(c, seen[key], now) {
      if key in seen {
        ExpiredIsGone(c, lag, seen[key], ts, top);
      }
      RestartCounts(c, lag, ts, top, now);
    }
    if b.n < c.n {
      AddCounts(c, lag, b, ts, top, now);
      AddFits(c, lag, b, ts, top, now, length);
    } else {
      CountsWithin(c, lag, b, ts, top);
    }
  }

  lemma CountsWithin(c: Config, lag: Time, b: Bucket, ts: seq<Time>, top: Time)
    requires Counts(c, lag, b, ts, top)
    ensures b.n <= c.n
  {
  }

  ghost predicate Inv(c: Config, lag: Time, length: Time, s: State, top: Time) {
    forall key :: KeyInv(c, lag, length, s.seen, key, Of(s.log, key), top)
  }

  lemma ArriveKeepsInv(c: Config, lag: Time, length: Time, s: State, key: Key, top: Time, now: Time)
    requires c.window > 0 && 0 <= lag <= c.window && length <= Span(c, lag)
    requires Inv(c, lag, length, s, top) && top - lag <= now <= top
    ensures Inv(c, lag, length, Apply(c, s, Arrive(key, now)), top)
  {
    hide KeyInv, Expired;
    var s' := Apply(c, s, Arrive(key, now));
    forall k ensures KeyInv(c, lag, length, s'.seen, k, Of(s'.log, k), top) {
      assert KeyInv(c, lag, length, s.seen, k, Of(s.log, k), top);
      if k == key {
        ArriveKeepsKey(c, lag, length, s.seen, key, Of(s.log, key), top, now);
      } else {
        SameKeyInv(c, lag, length, s.seen, s'.seen, k, Of(s.log, k), top);
      }
    }
  }

  lemma SameKeyInv(
    c: Config, lag: Time, length: Time,
    seen: map<Key, Bucket>, seen': map<Key, Bucket>, key: Key, ts: seq<Time>, top: Time)
    requires KeyInv(c, lag, length, seen, key, ts, top)
    requires (key in seen <==> key in seen') && (key in seen ==> seen[key] == seen'[key])
    ensures KeyInv(c, lag, length, seen', key, ts, top)
  {
  }

  lemma SweepKeepsInv(c: Config, lag: Time, length: Time, s: State, top: Time, at: Time)
    requires Inv(c, lag, length, s, top) && at <= top
    ensures Inv(c, lag, length, Apply(c, s, Sweep(at)), top)
  {
    hide Counts, Gone, Fits;
    var s' := Apply(c, s, Sweep(at));
    forall k ensures KeyInv(c, lag, length, s'.seen, k, Of(s'.log, k), top) {
      assert KeyInv(c, lag, length, s.seen, k, Of(s.log, k), top);
      if k in s.seen && k !in s'.seen {
        ExpiredIsGone(c, lag, s.seen[k], Of(s.log, k), top);
      }
    }
  }

  lemma LaterInv(c: Config, lag: Time, length: Time, s: State, top: Time, later: Time)
    requires Inv(c, lag, length, s, top) && top <= later
    ensures Inv(c, lag, length, s, later)
  {
    hide Counts, Gone, Fits;
    forall k ensures KeyInv(c, lag, length, s.seen, k, Of(s.log, k), later) {
      assert KeyInv(c, lag, length, s.seen, k, Of(s.log, k), top);
      if k in s.seen {
        LaterCounts(c, lag, s.seen[k], Of(s.log, k), top, later);
      } else {
        LaterGone(c, lag, Of(s.log, k), top, later);
      }
    }
  }

  lemma StartInv(c: Config, lag: Time, length: Time, top: Time)
    ensures Inv(c, lag, length, START, top)
  {
    assert forall key :: Of(START.log, key) == [];
  }

  lemma {:induction false} ExecKeepsInv(c: Config, es: seq<Event>, lag: Time, length: Time, top: Time)
    requires c.window > 0 && 0 <= lag <= c.window && length <= Span(c, lag)
    requires Ordered(es, lag) && NotPast(es, top)
    ensures Inv(c, lag, length, Exec(c, es), top)
  {
    hide Exec, Inv, Ordered, Apply, Span;
    if es == [] {
      ExecNone(c);
      StartInv(c, lag, length, top);
    } else {
      var rest, e := es[..|es| - 1], es[|es| - 1];
      assert es == rest + [e] && e.now <= top;
      OrderedUpTo(es, lag);
      ExecStep(c, rest, e);
      if e.Arrive? {
        var before := if e.now + lag < top then e.now + lag else top;
        ExecKeepsInv(c, rest, lag, length, before);
        ArriveKeepsInv(c, lag, length, Exec(c, rest), e.key, before, e.now);
        LaterInv(c, lag, length, Exec(c, es), before, top);
      } else {
        ExecKeepsInv(c, rest, lag, length, top);
        SweepKeepsInv(c, lag, length, Exec(c, rest), top, e.now);
      }
    }
  }

  /** No interval of this length holds more than `most` accepted events of one key. */
  ghost predicate AtMost(c: Config, es: seq<Event>, length: Time, most: nat) {
    forall key, x :: InInterval(Of(Exec(c, es).log, key), x, length) <= most
  }

  /** The longer the arrivals lag, the shorter the intervals that hold at most 2n - 1. */
  lemma LaggingWindowHoldsMost(c: Config, es: seq<Event>, lag: Time, length: Time)
    requires c.window > 0 && 0 <= lag && Ordered(es, lag) && length <= Span(c, lag)
    ensures AtMost(c, es, length, Most(c.n))
  {
    hide Exec, Ordered, Count, CountFrom;
    if lag <= c.window {
      ExecKeepsInv(c, es, lag, length, Latest(es));
      forall key, x ensures InInterval(Of(Exec(c, es).log, key), x, length) <= Most(c.n) {
        assert KeyInv(c, lag, length, Exec(c, es).seen, key, Of(Exec(c, es).log, key), Latest(es));
      }
    } else {
      forall key, x ensures InInterval(Of(Exec(c, es).log, key), x, length) <= Most(c.n) {
        NoneInside(Of(Exec(c, es).log, key), x, x + length);
      }
    }
  }

  lemma NoneInside(ts: seq<Time>, lo: Time, hi: Time)
    requires hi <= lo
    ensures Count(ts, lo, hi) == 0
  {
  }

  /** In particular a whole window does, when no arrival is counted behind an earlier reading. */
  lemma WindowHoldsMost(c: Config, es: seq<Event>)
    requires c.window > 0 && Ordered(es, 0)
    ensures AtMost(c, es, c.window, Most(c.n))
  {
    LaggingWindowHoldsMost(c, es, 0, c.window);
  }

  // ---- and it can be that many -------------------------------------------------------------------------

  function Burst(now: Time, n: nat): (es: seq<Event>)
    ensures |es| == n && forall i :: 0 <= i < n ==> es[i] == Arrive("a", now)
  {
    seq(n, _ => Arrive("a", now))
  }

  function Times(now: Time, n: nat): (ts: seq<Time>)
    ensures |ts| == n && forall i :: 0 <= i < n ==> ts[i] == now
  {
    seq(n, _ => now)
  }

  lemma {:induction false} BurstIsAccepted(c: Config, es: seq<Event>, b: Bucket, now: Time, n: nat)
    requires "a" in Exec(c, es).seen && Exec(c, es).seen["a"] == b && !Expired(c, b, now) && b.n + n <= c.n
    ensures var s, s' := Exec(c, es), Exec(c, es + Burst(now, n));
            && "a" in s'.seen && s'.seen["a"] == Bucket(b.start, b.n + n)
            && Of(s'.log, "a") == Of(s.log, "a") + Times(now, n)
  {
    hide Exec, Burst, Times;
    if n == 0 {
      assert es + Burst(now, n) == es;
      assert Of(Exec(c, es).log, "a") + Times(now, n) == Of(Exec(c, es).log, "a");
    } else {
      BurstIsAccepted(c, es, b, now, n - 1);
      var before := es + Burst(now, n - 1);
      assert es + Burst(now, n) == before + [Arrive("a", now)];
      ExecStep(c, before, Arrive("a", now));
      assert Times(now, n) == Times(now, n - 1) + [now];
    }
  }

  /** No counter stands in the way of a new one at `now`. */
  predicate Free(c: Config, seen: map<Key, Bucket>, now: Time) {
    "a" in seen ==> Expired(c, seen["a"], now)
  }

  /** One counter's worth of events: its first, and the rest of its budget later. */
  function Filled(c: Config, first: Time, more: Time): seq<Event>
    requires c.n > 0
  {
    [Arrive("a", first)] + Burst(more, c.n - 1)
  }

  lemma FilledIsAccepted(c: Config, es: seq<Event>, first: Time, more: Time)
    requires c.n > 0 && c.window > 0 && Free(c, Exec(c, es).seen, first) && more < first + c.window
    ensures var s, s' := Exec(c, es), Exec(c, es + Filled(c, first, more));
            && "a" in s'.seen && s'.seen["a"] == Bucket(first, c.n)
            && Of(s'.log, "a") == Of(s.log, "a") + [first] + Times(more, c.n - 1)
  {
    hide Exec, Burst, Times;
    var one := es + [Arrive("a", first)];
    ExecStep(c, es, Arrive("a", first));
    BurstIsAccepted(c, one, Bucket(first, 1), more, c.n - 1);
    assert es + Filled(c, first, more) == one + Burst(more, c.n - 1);
  }

  lemma SweepFrees(c: Config, es: seq<Event>, at: Time, now: Time)
    requires "a" in Exec(c, es).seen && Expired(c, Exec(c, es).seen["a"], at)
    ensures Free(c, Exec(c, es + [Sweep(at)]).seen, now) && Exec(c, es + [Sweep(at)]).log == Exec(c, es).log
  {
    hide Exec;
    ExecStep(c, es, Sweep(at));
  }

  lemma {:induction false} CountTimes(ts: seq<Time>, now: Time, n: nat, lo: Time, hi: Time)
    ensures Count(ts + Times(now, n), lo, hi) == Count(ts, lo, hi) + if lo <= now < hi then n else 0
  {
    if n == 0 {
      assert ts + Times(now, n) == ts;
    } else {
      CountTimes(ts, now, n - 1, lo, hi);
      assert ts + Times(now, n) == (ts + Times(now, n - 1)) + [now];
      CountAppend(ts + Times(now, n - 1), now, lo, hi);
    }
  }

  lemma CountFilled(ts: seq<Time>, first: Time, more: Time, n: nat, lo: Time, hi: Time)
    ensures Count(ts + [first] + Times(more, n), lo, hi)
            == Count(ts, lo, hi) + (if lo <= first < hi then 1 else 0) + if lo <= more < hi then n else 0
  {
    CountAppend(ts, first, lo, hi);
    CountTimes(ts + [first], more, n, lo, hi);
  }

  lemma OrderedFilled(c: Config, es: seq<Event>, lag: Time, top: Time, first: Time, more: Time)
    requires c.n > 0 && 0 <= lag && Ordered(es, lag) && NotPast(es, top)
    requires top - lag <= first && Max(top, first) - lag <= more
    ensures Ordered(es + Filled(c, first, more), lag) && NotPast(es + Filled(c, first, more), Max(Max(top, first), more))
  {
    hide Burst;
    var es' := es + Filled(c, first, more);
    assert forall i :: |es| <= i < |es'| ==> es'[i] == Filled(c, first, more)[i - |es|];
  }

  lemma OrderedSweep(es: seq<Event>, lag: Time, top: Time, at: Time)
    requires Ordered(es, lag) && NotPast(es, top) && top <= at
    ensures Ordered(es + [Sweep(at)], lag) && NotPast(es + [Sweep(at)], at)
  {
  }

  lemma NoEvents(lag: Time, top: Time)
    ensures Ordered([], lag) && NotPast([], top)
  {
  }

  /** One event, the rest of its window's budget at the end of the window, and a full budget after it. */
  lemma WorstFillsWindow(c: Config) returns (es: seq<Event>)
    requires c.n > 0 && c.window > 1
    ensures Ordered(es, 0) && InInterval(Of(Exec(c, es).log, "a"), c.window - 1, c.window) == Most(c.n)
  {
    hide Exec, Filled, Times, Ordered, NotPast;
    var w := c.window;
    ExecNone(c);
    NoEvents(0, 0);
    FilledIsAccepted(c, [], 0, w - 1);
    OrderedFilled(c, [], 0, 0, 0, w - 1);
    var one := [] + Filled(c, 0, w - 1);
    FilledIsAccepted(c, one, w, w);
    OrderedFilled(c, one, 0, w - 1, w, w);
    es := one + Filled(c, w, w);
    CountFilled([], 0, w - 1, c.n - 1, w - 1, 2 * w - 1);
    CountFilled([] + [0] + Times(w - 1, c.n - 1), w, w, c.n - 1, w - 1, 2 * w - 1);
  }

  /** The limiter's real budget for any window, over all runs, is 2n - 1 and no less. */
  lemma WindowBudgetIsExact(c: Config, most: nat)
    requires c.n > 0 && c.window > 1
    ensures (forall es :: Ordered(es, 0) ==> AtMost(c, es, c.window, most)) <==> most >= 2 * c.n - 1
  {
    hide Exec, Ordered;
    if most >= 2 * c.n - 1 {
      forall es | Ordered(es, 0) ensures AtMost(c, es, c.window, most) {
        WindowHoldsMost(c, es);
      }
    } else {
      var es := WorstFillsWindow(c);
      assert !AtMost(c, es, c.window, most);
    }
  }

  /** A full counter, swept as it expires, and another one begun a lag before that. */
  lemma TwoCounters(c: Config, lag: Time, length: Time) returns (es: seq<Event>)
    requires c.n > 0 && 0 <= lag <= c.window && c.window - lag < length && c.window > 0
    ensures Ordered(es, lag) && !AtMost(c, es, length, Most(c.n))
  {
    hide Exec, Filled, Times, Ordered, NotPast;
    var w := c.window;
    ExecNone(c);
    NoEvents(lag, 0);
    FilledIsAccepted(c, [], 0, 0);
    OrderedFilled(c, [], lag, 0, 0, 0);
    var one := [] + Filled(c, 0, 0);
    SweepFrees(c, one, w, w - lag);
    OrderedSweep(one, lag, 0, w);
    var two := one + [Sweep(w)];
    FilledIsAccepted(c, two, w - lag, w - lag);
    OrderedFilled(c, two, lag, w, w - lag, w - lag);
    es := two + Filled(c, w - lag, w - lag);
    CountFilled([], 0, 0, c.n - 1, 0, length);
    CountFilled([] + [0] + Times(0, c.n - 1), w - lag, w - lag, c.n - 1, 0, length);
    assert InInterval(Of(Exec(c, es).log, "a"), 0, length) > Most(c.n);
  }

  /** Three counters, the first two short of their first event, in one interval. */
  lemma ThreeCounters(c: Config, lag: Time, length: Time) returns (es: seq<Event>)
    requires c.n > 1 && 0 < lag <= c.window && length > 0 && c.window - 2 * lag + 1 < length
    ensures Ordered(es, lag) && !AtMost(c, es, length, Most(c.n))
  {
    hide Exec, Filled, Times, Ordered, NotPast;
    var w, n := c.window, c.n - 1;
    var last := Max(2 * w - 2 * lag, w - 1);
    ExecNone(c);
    NoEvents(lag, 0);
    FilledIsAccepted(c, [], 0, w - 1);
    OrderedFilled(c, [], lag, 0, 0, w - 1);
    var one := [] + Filled(c, 0, w - 1);
    SweepFrees(c, one, w, w - lag);
    OrderedSweep(one, lag, w - 1, w);
    var two := one + [Sweep(w)];
    FilledIsAccepted(c, two, w - lag, w - 1);
    OrderedFilled(c, two, lag, w, w - lag, w - 1);
    var three := two + Filled(c, w - lag, w - 1);
    SweepFrees(c, three, 2 * w - lag, last);
    OrderedSweep(three, lag, w, 2 * w - lag);
    var four := three + [Sweep(2 * w - lag)];
    FilledIsAccepted(c, four, last, last);
    OrderedFilled(c, four, lag, 2 * w - lag, last, last);
    es := four + Filled(c, last, last);
    var lo, hi := w - 1, w - 1 + length;
    var ts := [] + [0] + Times(w - 1, n);
    CountFilled([], 0, w - 1, n, lo, hi);
    CountFilled(ts, w - lag, w - 1, n, lo, hi);
    CountFilled(ts + [w - lag] + Times(w - 1, n), last, last, n, lo, hi);
    assert InInterval(Of(Exec(c, es).log, "a"), lo, length) > Most(c.n);
  }

  lemma LaggingMore(es: seq<Event>, lag: Time, more: Time)
    requires Ordered(es, lag) && lag <= more
    ensures Ordered(es, more)
  {
  }

  /** For every lag the limiter's budget is 2n - 1 in the intervals up to Span, and in no longer ones. */
  lemma LagDecidesTheSpan(c: Config, lag: Time, length: Time)
    requires c.n > 0 && c.window > 0 && 0 <= lag && 0 < length
    ensures (forall es :: Ordered(es, lag) ==> AtMost(c, es, length, 2 * c.n - 1)) <==> length <= Span(c, lag)
  {
    hide Exec, Ordered, AtMost;
    if length <= Span(c, lag) {
      forall es | Ordered(es, lag) ensures AtMost(c, es, length, 2 * c.n - 1) {
        LaggingWindowHoldsMost(c, es, lag, length);
      }
    } else {
      var some := if lag < c.window then lag else c.window;
      var es;
      if c.n == 1 || lag == 0 {
        es := TwoCounters(c, some, length);
      } else {
        es := ThreeCounters(c, some, length);
      }
      LaggingMore(es, some, lag);
      assert !AtMost(c, es, length, 2 * c.n - 1);
    }
  }
}
