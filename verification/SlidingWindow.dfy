/**
 The limiter of sign-in attempts (ratelimit.go): a list of times per key, filtered in place on every
 call, and a background pass that drops expired lists. Both read the clock before they take the lock,
 so the readings of consecutive calls need not be in order: `lag` is how far one may fall behind.
 */
module SlidingWindow {
  import opened Basics
  import opened RateLimits

  datatype Config = Config(limit: nat, window: Time)

  datatype Event = Attempt(key: Key, now: Time) | Collect(now: Time)

  /** `log` and `answers` are history: the times accepted per key, and every answer given. */
  datatype State = State(hits: map<Key, seq<Time>>, log: map<Key, seq<Time>>, answers: seq<bool>)

  const START := State(map[], map[], [])

  function Collected(hits: map<Key, seq<Time>>, cutoff: Time): map<Key, seq<Time>> {
    map k | k in hits && Live(hits[k], cutoff) != [] :: Live(hits[k], cutoff)
  }

  function AllowedHits(c: Config, hits: map<Key, seq<Time>>, key: Key, now: Time): (map<Key, seq<Time>>, bool) {
    var kept := Live(Of(hits, key), now - c.window);
    if |kept| >= c.limit then (hits[key := kept], false) else (hits[key := kept + [now]], true)
  }

  function Apply(c: Config, s: State, e: Event): State {
    match e
    case Attempt(key, now) =>
      var (hits, ok) := AllowedHits(c, s.hits, key, now);
      State(hits, if ok then s.log[key := Of(s.log, key) + [now]] else s.log, s.answers + [ok])
    case Collect(now) => s.(hits := Collected(s.hits, now - c.window))
  }

  function Exec(c: Config, es: seq<Event>): State {
    if es == [] then START else Apply(c, Exec(c, es[..|es| - 1]), es[|es| - 1])
  }

  lemma ExecNone(c: Config)
    ensures Exec(c, []) == START
  {
  }

  lemma ExecStep(c: Config, es: seq<Event>, e: Event)
    ensures Exec(c, es + [e]) == Apply(c, Exec(c, es), e)
  {
    assert (es + [e])[..|es|] == es;
  }

  /** What an attempt adds to the history. */
  lemma AttemptAdds(c: Config, s: State, key: Key, now: Time)
    ensures var s' := Apply(c, s, Attempt(key, now));
            var ok := |Live(Of(s.hits, key), now - c.window)| < c.limit;
            s'.answers == s.answers + [ok] && s'.log == if ok then s.log[key := Of(s.log, key) + [now]] else s.log
  {
  }

  lemma CollectAdds(c: Config, s: State, now: Time)
    ensures var s' := Apply(c, s, Collect(now)); s'.answers == s.answers && s'.log == s.log
  {
  }

  /** No attempt's reading is more than `lag` behind an earlier one; a collection's may be. */
  predicate Ordered(es: seq<Event>, lag: Time) {
    forall i, j :: 0 <= i < j < |es| && es[j].Attempt? ==> es[i].now - lag <= es[j].now
  }

  lemma OrderedUpTo(es: seq<Event>, lag: Time)
    requires es != [] && Ordered(es, lag)
    ensures Ordered(es[..|es| - 1], lag)
    ensures es[|es| - 1].Attempt? ==> NotPast(es[..|es| - 1], lag, es[|es| - 1].now)
  {
  }

  /** `now` is a reading not more than `lag` behind those of `es`. */
  predicate NotPast(es: seq<Event>, lag: Time, now: Time) {
    forall i :: 0 <= i < |es| ==> es[i].now - lag <= now
  }

  // ---- the code ----------------------------------------------------------------------------------

  /**
   The filter both methods use, on the array that backs the slice: entries move down into the front of
   the same array, and never over one that is still to be read.
   */
  method KeepAfter(a: array<Time>, n: nat, cutoff: Time) returns (m: nat)
    requires n <= a.Length
    modifies a
    ensures m <= n && a[..m] == Live(old(a[..n]), cutoff) && a[n..] == old(a[n..])
  {
    m := 0;
    var i := 0;
    while i < n
      invariant m <= i <= n
      invariant a[..m] == Live(old(a[..i]), cutoff)
      invariant forall k :: i <= k < a.Length ==> a[k] == old(a[k])
    {
      var t := a[i];
      assert old(a[..i + 1])[..i] == old(a[..i]);
      if t > cutoff {
        a[m] := t;
        m := m + 1;
      }
      i := i + 1;
    }
  }

  /** Part of a pass: the keys in `todo` are still to be visited. */
  function CollectedExcept(hits: map<Key, seq<Time>>, cutoff: Time, todo: set<Key>): map<Key, seq<Time>> {
    map k | k in hits && (k in todo || Live(hits[k], cutoff) != []) ::
      if k in todo then hits[k] else Live(hits[k], cutoff)
  }

  lemma CollectOneMore(hits: map<Key, seq<Time>>, cutoff: Time, todo: set<Key>, k: Key)
    requires k in todo && k in hits
    ensures var before, kept := CollectedExcept(hits, cutoff, todo), Live(hits[k], cutoff);
            && k in before && before[k] == hits[k]
            && CollectedExcept(hits, cutoff, todo - {k}) == if kept == [] then before - {k} else before[k := kept]
  {
  }

  lemma {:induction false} SomeLive(ts: seq<Time>, cutoff: Time)
    ensures Live(ts, cutoff) != [] <==> exists i :: 0 <= i < |ts| && ts[i] > cutoff
  {
    if ts != [] {
      var rest := ts[..|ts| - 1];
      SomeLive(rest, cutoff);
      if i :| 0 <= i < |ts| && ts[i] > cutoff {
        assert i < |rest| ==> rest[i] == ts[i];
      }
    }
  }

  /** A list stays exactly while it has an entry in the window. */
  lemma CollectedExactly(hits: map<Key, seq<Time>>, cutoff: Time)
    ensures forall k :: k in Collected(hits, cutoff) <==> k in hits && exists i :: 0 <= i < |hits[k]| && hits[k][i] > cutoff
  {
    forall k | k in hits ensures Live(hits[k], cutoff) != [] <==> exists i :: 0 <= i < |hits[k]| && hits[k][i] > cutoff {
      SomeLive(hits[k], cutoff);
    }
  }

  class RateLimiter {
    var hits: map<Key, seq<Time>>
    const c: Config

    constructor (limit: nat, window: Time)
      ensures c == Config(limit, window) && hits == map[]
    {
      c := Config(limit, window);
      hits := map[];
    }

    method Allow(key: Key, now: Time) returns (ok: bool)
      modifies this
      ensures (hits, ok) == AllowedHits(c, old(hits), key, now)
    {
      var cutoff := now - c.window;
      var list := if key in hits then hits[key] else [];
      var kept := Filter(list, cutoff);
      if |kept| >= c.limit {
        hits := hits[key := kept];
        return false;
      }
      hits := hits[key := kept + [now]];
      return true;
    }

    /** Deletes while it iterates; a Go map is visited in any order. */
    method Gc(now: Time)
      modifies this
      ensures hits == Collected(old(hits), now - c.window)
      ensures forall k :: k in hits <==> k in old(hits) && exists i :: 0 <= i < |old(hits)[k]| && old(hits)[k][i] > now - c.window
    {
      var cutoff := now - c.window;
      CollectedExactly(hits, cutoff);
      var todo := hits.Keys;
      while todo != {}
        invariant todo <= old(hits).Keys
        invariant hits == CollectedExcept(old(hits), cutoff, todo)
        decreases |todo|
      {
        var k :| k in todo;
        CollectOneMore(old(hits), cutoff, todo, k);
        var kept := Filter(hits[k], cutoff);
        if |kept| == 0 {
          hits := hits - {k};
        } else {
          hits := hits[k := kept];
        }
        todo := todo - {k};
      }
    }

    static method Filter(list: seq<Time>, cutoff: Time) returns (kept: seq<Time>)
      ensures kept == Live(list, cutoff)
    {
      kept := [];
      for i := 0 to |list|
        invariant kept == Live(list[..i], cutoff)
      {
        assert list[..i + 1][..i] == list[..i];
        if list[i] > cutoff {
          kept := kept + [list[i]];
        }
      }
      assert list[..|list|] == list;
    }
  }

  // ---- what is stored is what counts ------------------------------------------------------------------

  ghost predicate Faithful(hits: map<Key, seq<Time>>, log: map<Key, seq<Time>>, from: Time) {
    forall key, cutoff :: cutoff >= from ==> Live(Of(hits, key), cutoff) == Live(Of(log, key), cutoff)
  }

  lemma AttemptKeepsFaithful(c: Config, s: State, key: Key, now: Time, from: Time)
    requires Faithful(s.hits, s.log, from)
    ensures var s' := Apply(c, s, Attempt(key, now)); Faithful(s'.hits, s'.log, Max(from, now - c.window))
  {
    hide Live;
    var s' := Apply(c, s, Attempt(key, now));
    var old' := Of(s.hits, key);
    var kept := Live(old', now - c.window);
    forall k, cutoff | cutoff >= Max(from, now - c.window)
      ensures Live(Of(s'.hits, k), cutoff) == Live(Of(s'.log, k), cutoff)
    {
      assert Live(Of(s.hits, k), cutoff) == Live(Of(s.log, k), cutoff);
      if k == key {
        LiveOfLive(old', now - c.window, cutoff);
        LiveAppend(kept, now, cutoff);
        LiveAppend(Of(s.log, key), now, cutoff);
      }
    }
  }

  lemma CollectKeepsFaithful(hits: map<Key, seq<Time>>, log: map<Key, seq<Time>>, cut: Time, from: Time)
    requires Faithful(hits, log, from)
    ensures Faithful(Collected(hits, cut), log, Max(from, cut))
  {
    forall k, cutoff | cutoff >= Max(from, cut)
      ensures Live(Of(Collected(hits, cut), k), cutoff) == Live(Of(log, k), cutoff)
    {
      assert Live(Of(hits, k), cutoff) == Live(Of(log, k), cutoff);
      LiveOfLive(Of(hits, k), cut, cutoff);
    }
  }

  lemma NothingIsFaithful(from: Time)
    ensures Faithful(map[], map[], from)
  {
  }

  lemma {:induction false} StoredIsFaithful(c: Config, es: seq<Event>, lag: Time, now: Time)
    requires NotPast(es, lag, now)
    ensures Faithful(Exec(c, es).hits, Exec(c, es).log, now + lag - c.window)
  {
    hide Faithful, Exec, Collected, AllowedHits, Live;
    var from := now + lag - c.window;
    if es == [] {
      ExecNone(c);
      NothingIsFaithful(from);
    } else {
      var rest, e := es[..|es| - 1], es[|es| - 1];
      var s := Exec(c, rest);
      assert es == rest + [e];
      ExecStep(c, rest, e);
      StoredIsFaithful(c, rest, lag, now);
      assert e.now - c.window <= from;
      match e
      case Attempt(key, at) => AttemptKeepsFaithful(c, s, key, at, from);
      case Collect(at) => CollectKeepsFaithful(s.hits, s.log, at - c.window, from);
    }
  }

  // ---- the results ------------------------------------------------------------------------------------

  /**
   With readings in order, an attempt is accepted exactly when fewer than `limit` were accepted in the
   window before it, whatever has been collected in between.
   */
  lemma AllowDecides(c: Config, es: seq<Event>, key: Key, now: Time)
    requires Ordered(es + [Attempt(key, now)], 0)
    ensures Exec(c, es + [Attempt(key, now)]).answers
            == Exec(c, es).answers + [CountFrom(Of(Exec(c, es).log, key), now - c.window + 1) < c.limit]
  {
    hide Exec, Apply;
    var es' := es + [Attempt(key, now)];
    assert es'[..|es'| - 1] == es;
    OrderedUpTo(es', 0);
    ExecStep(c, es, Attempt(key, now));
    AttemptAdds(c, Exec(c, es), key, now);
    StoredIsFaithful(c, es, 0, now);
    assert Live(Of(Exec(c, es).hits, key), now - c.window) == Live(Of(Exec(c, es).log, key), now - c.window);
    CountIsLive(Of(Exec(c, es).log, key), now - c.window + 1, now);
  }

  function WithoutCollect(es: seq<Event>): seq<Event> {
    if es == [] then []
    else
      WithoutCollect(es[..|es| - 1]) + if es[|es| - 1].Collect? then [] else [es[|es| - 1]]
  }

  lemma WithoutNone()
    ensures WithoutCollect([]) == []
  {
  }

  lemma WithoutStep(es: seq<Event>, e: Event)
    ensures WithoutCollect(es + [e]) == WithoutCollect(es) + if e.Collect? then [] else [e]
  {
    assert (es + [e])[..|es|] == es;
  }

  lemma {:induction false} AttemptsRemain(es: seq<Event>, now: Time)
    requires NotPast(es, 0, now)
    ensures NotPast(WithoutCollect(es), 0, now)
  {
    if es != [] {
      AttemptsRemain(es[..|es| - 1], now);
    }
  }

  /** With readings in order, the background pass never changes an answer. */
  lemma {:induction false} CollectIsInvisible(c: Config, es: seq<Event>)
    requires Ordered(es, 0)
    ensures Exec(c, es).answers == Exec(c, WithoutCollect(es)).answers
    ensures Exec(c, es).log == Exec(c, WithoutCollect(es)).log
  {
    hide Exec, Apply, Ordered, NotPast, Faithful, WithoutCollect;
    if es == [] {
      WithoutNone();
    } else {
      var rest, e := es[..|es| - 1], es[|es| - 1];
      assert es == rest + [e];
      OrderedUpTo(es, 0);
      WithoutStep(rest, e);
      ExecStep(c, rest, e);
      CollectIsInvisible(c, rest);
      if e.Attempt? {
        var plain := WithoutCollect(rest);
        ExecStep(c, plain, e);
        AttemptsRemain(rest, e.now);
        StoredIsFaithful(c, rest, 0, e.now);
        StoredIsFaithful(c, plain, 0, e.now);
        SameAnswer(c, Exec(c, rest), Exec(c, plain), e.key, e.now);
      } else {
        CollectAdds(c, Exec(c, rest), e.now);
        assert WithoutCollect(es) == WithoutCollect(rest);
      }
    }
  }

  lemma SameAnswer(c: Config, s: State, t: State, key: Key, now: Time)
    requires s.log == t.log && s.answers == t.answers
    requires Faithful(s.hits, s.log, now - c.window) && Faithful(t.hits, t.log, now - c.window)
    ensures var s', t' := Apply(c, s, Attempt(key, now)), Apply(c, t, Attempt(key, now));
            s'.log == t'.log && s'.answers == t'.answers
  {
    hide Apply;
    AttemptAdds(c, s, key, now);
    AttemptAdds(c, t, key, now);
    assert Live(Of(s.hits, key), now - c.window) == Live(Of(t.hits, key), now - c.window);
  }

  /** At most `limit` accepted attempts of a key in any interval of this length. */
  ghost predicate Bounded(c: Config, s: State, length: Time) {
    forall key, x :: InInterval(Of(s.log, key), x, length) <= c.limit
  }

  /**
   When no reading lags more than `lag`, no interval shorter than the window by `lag` holds more than
   `limit` accepted attempts.
   */
  lemma {:induction false} LaggingWindowIsBounded(c: Config, es: seq<Event>, lag: Time)
    requires Ordered(es, lag) && 0 <= lag
    ensures Bounded(c, Exec(c, es), c.window - lag)
  {
    hide Exec, Apply, Bounded, Ordered, NotPast, Faithful;
    if es == [] {
      ExecNone(c);
      NothingIsBounded(c, START, c.window - lag);
    } else {
      var rest, e := es[..|es| - 1], es[|es| - 1];
      assert es == rest + [e];
      OrderedUpTo(es, lag);
      ExecStep(c, rest, e);
      LaggingWindowIsBounded(c, rest, lag);
      if e.Attempt? {
        StoredIsFaithful(c, rest, lag, e.now);
        AttemptKeepsBounded(c, Exec(c, rest), e.key, e.now, c.window - lag);
      } else {
        CollectAdds(c, Exec(c, rest), e.now);
        SameLogIsBounded(c, Exec(c, rest), Exec(c, es), c.window - lag);
      }
    }
  }

  lemma NothingIsBounded(c: Config, s: State, length: Time)
    requires s.log == map[]
    ensures Bounded(c, s, length)
  {
    assert forall key :: Of(s.log, key) == [];
  }

  lemma SameLogIsBounded(c: Config, s: State, s': State, length: Time)
    requires Bounded(c, s, length) && s'.log == s.log
    ensures Bounded(c, s', length)
  {
  }

  lemma AttemptKeepsBounded(c: Config, s: State, key: Key, now: Time, length: Time)
    requires Bounded(c, s, length) && length <= c.window
    requires Faithful(s.hits, s.log, now - length)
    ensures Bounded(c, Apply(c, s, Attempt(key, now)), length)
  {
    hide Apply, Live, Count, CountFrom;
    var s' := Apply(c, s, Attempt(key, now));
    AttemptAdds(c, s, key, now);
    var was := Of(s.log, key);
    forall k, x ensures InInterval(Of(s'.log, k), x, length) <= c.limit {
      assert InInterval(Of(s.log, k), x, length) <= c.limit;
      if k == key && s'.log != s.log && x <= now < x + length {
        CountAppend(was, now, x, x + length);
        CountIsLive(was, x, x + length);
        assert Live(Of(s.hits, key), x - 1) == Live(was, x - 1);
        LiveOfLive(Of(s.hits, key), now - c.window, x - 1);
      } else if k == key {
        CountAppend(was, now, x, x + length);
      }
    }
  }

  function Burst(key: Key, now: Time, n: nat): (es: seq<Event>)
    ensures |es| == n && forall i :: 0 <= i < n ==> es[i] == Attempt(key, now)
  {
    seq(n, _ => Attempt(key, now))
  }

  function Zeros(n: nat): (ts: seq<Time>)
    ensures |ts| == n && forall i :: 0 <= i < n ==> ts[i] == 0
  {
    seq(n, _ => 0)
  }

  lemma {:induction false} BurstIsAccepted(c: Config, key: Key, n: nat)
    requires n <= c.limit && c.window > 0
    ensures var s := Exec(c, Burst(key, 0, n));
            Of(s.hits, key) == Zeros(n) && Of(s.log, key) == Zeros(n) && s.hits.Keys <= {key}
  {
    hide Exec, Live, Zeros, Burst;
    if n == 0 {
      ExecNone(c);
      assert Burst(key, 0, n) == [];
    } else {
      var before := Burst(key, 0, n - 1);
      BurstIsAccepted(c, key, n - 1);
      assert Burst(key, 0, n) == before + [Attempt(key, 0)];
      ExecStep(c, before, Attempt(key, 0));
      AllLive(Zeros(n - 1), -c.window);
      assert Zeros(n - 1) + [0] == Zeros(n);
    }
  }

  lemma {:induction false} AllLive(ts: seq<Time>, cutoff: Time)
    requires forall i :: 0 <= i < |ts| ==> ts[i] > cutoff
    ensures Live(ts, cutoff) == ts
  {
    if ts != [] {
      AllLive(ts[..|ts| - 1], cutoff);
    }
  }

  lemma {:induction false} NoneLive(ts: seq<Time>, cutoff: Time)
    requires forall i :: 0 <= i < |ts| ==> ts[i] <= cutoff
    ensures Live(ts, cutoff) == []
  {
    if ts != [] {
      NoneLive(ts[..|ts| - 1], cutoff);
    }
  }

  lemma {:induction false} AllCounted(ts: seq<Time>, lo: Time, hi: Time)
    requires forall i :: 0 <= i < |ts| ==> lo <= ts[i] < hi
    ensures Count(ts, lo, hi) == |ts|
  {
    if ts != [] {
      AllCounted(ts[..|ts| - 1], lo, hi);
    }
  }

  /** A full burst, a collection as it expires, and one more attempt read up to a lag before that. */
  lemma LateReadingExceedsLimit(c: Config, lag: Time, at: Time, length: Time)
    requires c.window > 0 && c.limit > 0 && c.window - lag <= at && 0 <= at < length && 0 <= lag
    ensures var es := Burst("k", 0, c.limit) + [Collect(c.window)] + [Attempt("k", at)];
            Ordered(es, lag) && !Bounded(c, Exec(c, es), length)
  {
    hide Exec;
    var burst := Burst("k", 0, c.limit);
    var two := burst + [Collect(c.window)];
    BurstIsAccepted(c, "k", c.limit);
    ExecStep(c, burst, Collect(c.window));
    ExecStep(c, two, Attempt("k", at));
    NoneLive(Zeros(c.limit), 0);
    var s, s' := Exec(c, two), Exec(c, two + [Attempt("k", at)]);
    assert Of(s.hits, "k") == [];
    AttemptAdds(c, s, "k", at);
    var log := Zeros(c.limit) + [at];
    AllCounted(log, 0, length);
    assert Of(s'.log, "k") == log;
    assert InInterval(Of(s'.log, "k"), 0, length) > c.limit;
  }

  lemma {:induction false} ShorterHoldsLess(ts: seq<Time>, lo: Time, hi: Time, longer: Time)
    requires hi <= longer
    ensures Count(ts, lo, hi) <= Count(ts, lo, longer)
  {
    if ts != [] {
      ShorterHoldsLess(ts[..|ts| - 1], lo, hi, longer);
    }
  }

  /** For every lag the limit holds in the intervals shorter than the window by the lag, and in no longer ones. */
  lemma LagDecidesTheLength(c: Config, lag: Time, length: Time)
    requires c.limit > 0 && c.window > 0 && 0 <= lag && 0 < length
    ensures (forall es :: Ordered(es, lag) ==> Bounded(c, Exec(c, es), length)) <==> length <= c.window - lag
  {
    hide Exec, Ordered;
    if length <= c.window - lag {
      forall es | Ordered(es, lag) ensures Bounded(c, Exec(c, es), length) {
        LaggingWindowIsBounded(c, es, lag);
        forall key, x ensures InInterval(Of(Exec(c, es).log, key), x, length) <= c.limit {
          ShorterHoldsLess(Of(Exec(c, es).log, key), x, x + length, x + (c.window - lag));
          assert InInterval(Of(Exec(c, es).log, key), x, c.window - lag) <= c.limit;
        }
      }
    } else {
      LateReadingExceedsLimit(c, lag, Max(0, c.window - lag), length);
    }
  }

  /** In particular it holds in every window of every run exactly when the readings come in order. */
  lemma OrderDecidesTheLimit(c: Config, lag: Time)
    requires c.limit > 0 && c.window > 0 && 0 <= lag
    ensures (forall es :: Ordered(es, lag) ==> Bounded(c, Exec(c, es), c.window)) <==> lag == 0
  {
    LagDecidesTheLength(c, lag, c.window);
  }
}
