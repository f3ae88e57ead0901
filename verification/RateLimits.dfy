/** Counting attempts by time: what both limiters are measured against. */
module RateLimits {
  import opened Basics

  type Key = string

  /** The attempts later than `cutoff`, in order. */
  function Live(ts: seq<Time>, cutoff: Time): (r: seq<Time>)
    ensures |r| <= |ts|
  {
    if ts == [] then []
    else
      var t := ts[|ts| - 1];
      Live(ts[..|ts| - 1], cutoff) + if t > cutoff then [t] else []
  }

  /** How many attempts fall into [lo, hi). */
  function Count(ts: seq<Time>, lo: Time, hi: Time): nat {
    if ts == [] then 0
    else
      var t := ts[|ts| - 1];
      Count(ts[..|ts| - 1], lo, hi) + if lo <= t < hi then 1 else 0
  }

  /** How many attempts fall at `lo` or later. */
  function CountFrom(ts: seq<Time>, lo: Time): nat {
    if ts == [] then 0
    else
      var t := ts[|ts| - 1];
      CountFrom(ts[..|ts| - 1], lo) + if lo <= t then 1 else 0
  }

  function InInterval(ts: seq<Time>, start: Time, length: Time): nat {
    Count(ts, start, start + length)
  }

  function Of(m: map<Key, seq<Time>>, key: Key): seq<Time> {
    if key in m then m[key] else []
  }

  lemma LiveAppend(ts: seq<Time>, t: Time, cutoff: Time)
    ensures Live(ts + [t], cutoff) == Live(ts, cutoff) + if t > cutoff then [t] else []
  {
    assert (ts + [t])[..|ts|] == ts;
  }

  lemma CountAppend(ts: seq<Time>, t: Time, lo: Time, hi: Time)
    ensures Count(ts + [t], lo, hi) == Count(ts, lo, hi) + if lo <= t < hi then 1 else 0
    ensures CountFrom(ts + [t], lo) == CountFrom(ts, lo) + if lo <= t then 1 else 0
  {
    assert (ts + [t])[..|ts|] == ts;
  }

  /** Dropping what is too old for one cutoff changes nothing for a later one. */
  lemma {:induction false} LiveOfLive(ts: seq<Time>, early: Time, late: Time)
    requires early <= late
    ensures Live(Live(ts, early), late) == Live(ts, late)
    ensures |Live(ts, late)| <= |Live(ts, early)|
  {
    if ts != [] {
      var rest, t := ts[..|ts| - 1], ts[|ts| - 1];
      LiveOfLive(rest, early, late);
      assert Live(ts, early) == if t > early then Live(rest, early) + [t] else Live(rest, early);
      assert Live(ts, late) == if t > late then Live(rest, late) + [t] else Live(rest, late);
      if t > early {
        LiveAppend(Live(rest, early), t, late);
      }
    }
  }

  lemma {:induction false} CountIsLive(ts: seq<Time>, lo: Time, hi: Time)
    ensures Count(ts, lo, hi) <= CountFrom(ts, lo)
    ensures |Live(ts, lo - 1)| == CountFrom(ts, lo)
  {
    if ts != [] {
      var rest, t := ts[..|ts| - 1], ts[|ts| - 1];
      CountIsLive(rest, lo, hi);
      assert ts == rest + [t];
      LiveAppend(rest, t, lo - 1);
    }
  }

  /** Cutting an interval in two. */
  lemma {:induction false} CountSplits(ts: seq<Time>, lo: Time, mid: Time, hi: Time)
    requires lo <= mid <= hi
    ensures Count(ts, lo, hi) == Count(ts, lo, mid) + Count(ts, mid, hi)
    ensures Count(ts, mid, hi) <= CountFrom(ts, mid) <= CountFrom(ts, lo)
    ensures CountFrom(ts, lo) == Count(ts, lo, mid) + CountFrom(ts, mid)
  {
    if ts != [] {
      CountSplits(ts[..|ts| - 1], lo, mid, hi);
    }
  }
}
