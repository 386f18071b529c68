/** The sliding-window limiter of skill reviews (internal/assistant/assistant.go, lines 1410-1444). */
module RateLimiter {
  const HOUR := 3_600_000_000_000

  /** A call of `allow` for a user: the clock read under the lock, and read again to stamp a grant. */
  datatype Call = Call(user: string, limit: int, seen: int, stamped: int)

  /** The times after a cutoff. */
  function Kept(times: seq<int>, cutoff: int): seq<int> {
    if times == [] then []
    else
      var before, t := Kept(times[..|times| - 1], cutoff), times[|times| - 1];
      if t > cutoff then before + [t] else before
  }

  predicate Allows(window: nat, hits: seq<int>, c: Call) {
    c.limit <= 0 || |Kept(hits, c.seen - window)| < c.limit
  }

  /** What a call by the user leaves of what was remembered. */
  function Remembered(window: nat, hits: seq<int>, c: Call): seq<int> {
    if c.limit <= 0 then hits
    else if Allows(window, hits, c) then Kept(hits, c.seen - window) + [c.stamped]
    else Kept(hits, c.seen - window)
  }

  /** What the limiter remembers of a user after a run. */
  function Hits(window: nat, calls: seq<Call>, user: string): seq<int> {
    if calls == [] then []
    else
      var c, before := calls[|calls| - 1], Hits(window, calls[..|calls| - 1], user);
      if c.user == user then Remembered(window, before, c) else before
  }

  /** All the times at which a run granted a user a limited call: nothing is forgotten. */
  function Grants(window: nat, calls: seq<Call>, user: string): seq<int> {
    if calls == [] then []
    else
      var c, front := calls[|calls| - 1], calls[..|calls| - 1];
      if c.user == user && c.limit > 0 && Allows(window, Hits(window, front, user), c)
      then Grants(window, front, user) + [c.stamped]
      else Grants(window, front, user)
  }

  /** The clock does not go back. */
  predicate Ticking(calls: seq<Call>) {
    && (forall i | 0 <= i < |calls| :: calls[i].seen <= calls[i].stamped)
    && (forall i, j | 0 <= i < j < |calls| :: calls[i].stamped <= calls[j].seen)
  }

  // ---------- the code ----------

  /** A slice of an array of its own. */
  datatype Slice = Slice(buf: array<int>, len: nat)

  /** Filtering a slice into its own array: reading stays ahead of writing. */
  method Compact(s: Slice, cutoff: int) returns (kept: Slice)
    requires s.len <= s.buf.Length
    modifies s.buf
    ensures kept.buf == s.buf && kept.len <= s.len
    ensures s.buf[..kept.len] == Kept(old(s.buf[..s.len]), cutoff)
  {
    ghost var was := s.buf[..s.len];
    var k := 0;
    for i := 0 to s.len
      invariant k <= i
      invariant s.buf[..k] == Kept(was[..i], cutoff)
      invariant s.buf[i..s.len] == was[i..]
    {
      assert was[..i + 1][..i] == was[..i] && s.buf[i] == was[i..][0];
      assert s.buf[i + 1..s.len] == s.buf[i..s.len][1..] == was[i + 1..];
      if s.buf[i] > cutoff {
        s.buf[k] := s.buf[i];
        k := k + 1;
      }
    }
    assert was[..s.len] == was;
    kept := Slice(s.buf, k);
  }

  /** Appending in place when the array has room, into a new array otherwise. */
  method Append(s: Slice, t: int) returns (r: Slice)
    requires s.len <= s.buf.Length
    modifies s.buf
    ensures r.len == s.len + 1 && r.len <= r.buf.Length && (r.buf == s.buf || fresh(r.buf))
    ensures r.buf[..r.len] == old(s.buf[..s.len]) + [t]
  {
    if s.len < s.buf.Length {
      s.buf[s.len] := t;
      return Slice(s.buf, s.len + 1);
    }
    var bigger := new int[2 * s.len + 1];
    for i := 0 to s.len
      invariant bigger[..i] == s.buf[..i]
      invariant s.buf[..s.len] == old(s.buf[..s.len])
    {
      bigger[i] := s.buf[i];
    }
    bigger[s.len] := t;
    return Slice(bigger, s.len + 1);
  }

  class Limiter {
    const window: nat
    var hits: map<string, Slice>
    ghost var calls: seq<Call>

    ghost function Arrays(): set<array<int>>
      reads this
    {
      set u | u in hits :: hits[u].buf
    }

    ghost predicate Shaped()
      reads this
    {
      && (forall u | u in hits :: hits[u].len <= hits[u].buf.Length)
      && (forall u, v | u in hits && v in hits && u != v :: hits[u].buf != hits[v].buf)
    }

    ghost function Live(user: string): seq<int>
      requires Shaped()
      reads this, Arrays()
    {
      if user in hits then hits[user].buf[..hits[user].len] else []
    }

    /** No two users share an array, and what is remembered is what the run so far left. */
    ghost predicate Valid()
      reads this, Arrays()
    {
      Shaped() && forall u: string :: Live(u) == Hits(window, calls, u)
    }

    constructor ()
      ensures Valid() && window == HOUR && calls == []
    {
      window, hits, calls := HOUR, map[], [];
    }

    method Allow(user: string, limit: int, seen: int, stamped: int) returns (ok: bool)
      requires Valid()
      modifies this, Arrays()
      ensures Valid() && calls == old(calls) + [Call(user, limit, seen, stamped)]
      ensures ok == Allows(window, Hits(window, old(calls), user), Call(user, limit, seen, stamped))
    {
      hide Kept, Hits;
      ghost var c := Call(user, limit, seen, stamped);
      HitsSnoc(window, calls, c);
      if limit <= 0 {
        ok := true;
      } else {
        ok := Slide(user, limit, seen, stamped);
      }
      calls := calls + [c];
    }

    /** The limited part of `Allow`. */
    method Slide(user: string, limit: nat, seen: int, stamped: int) returns (ok: bool)
      requires Shaped() && limit > 0
      modifies `hits, Arrays()
      ensures Shaped()
      ensures ok == Allows(window, old(Live(user)), Call(user, limit, seen, stamped))
      ensures Live(user) == Remembered(window, old(Live(user)), Call(user, limit, seen, stamped))
      ensures forall v: string | v != user :: Live(v) == old(Live(v))
    {
      hide Kept, Allows, Remembered;
      var slice;
      if user in hits {
        slice := hits[user];
      } else {
        var none := new int[0];
        slice := Slice(none, 0);
      }
      slice, ok := Renew(window, slice, Call(user, limit, seen, stamped));
      hits := hits[user := slice];
    }
  }

  /** Drop what has expired, and record the call unless too much is left. */
  method Renew(window: nat, s: Slice, c: Call) returns (r: Slice, ok: bool)
    requires s.len <= s.buf.Length && c.limit > 0
    modifies s.buf
    ensures r.len <= r.buf.Length && (r.buf == s.buf || fresh(r.buf))
    ensures ok == Allows(window, old(s.buf[..s.len]), c)
    ensures r.buf[..r.len] == Remembered(window, old(s.buf[..s.len]), c)
  {
    hide Kept;
    r := Compact(s, c.seen - window);
    ok := r.len < c.limit;
    if ok { r := Append(r, c.stamped); }
  }

  // ---------- what it guarantees ----------

  lemma KeptNone(cutoff: int)
    ensures Kept([], cutoff) == []
  {
  }

  lemma KeptSnoc(times: seq<int>, t: int, cutoff: int)
    ensures Kept(times + [t], cutoff) == if t > cutoff then Kept(times, cutoff) + [t] else Kept(times, cutoff)
  {
    assert (times + [t])[..|times|] == times;
  }

  lemma HitsSnoc(window: nat, calls: seq<Call>, c: Call)
    ensures forall u: string :: Hits(window, calls + [c], u) ==
              if c.user == u then Remembered(window, Hits(window, calls, u), c) else Hits(window, calls, u)
  {
    hide Kept;
    assert (calls + [c])[..|calls|] == calls;
  }

  lemma {:induction false} KeptTwice(times: seq<int>, a: int, b: int)
    requires a <= b
    ensures Kept(Kept(times, a), b) == Kept(times, b)
  {
    if times != [] {
      var front, t := times[..|times| - 1], times[|times| - 1];
      KeptTwice(front, a, b);
      KeptSnoc(Kept(front, a), t, b);
    }
  }

  lemma {:induction false} KeptIsAfter(times: seq<int>, cutoff: int)
    ensures forall i | 0 <= i < |Kept(times, cutoff)| :: Kept(times, cutoff)[i] > cutoff
  {
    if times != [] { KeptIsAfter(times[..|times| - 1], cutoff); }
  }

  /** A limited call, granted or not, forgets what has expired, and a granted one is remembered. */
  lemma NothingExpiredIsRemembered(window: nat, hits: seq<int>, c: Call)
    requires c.limit > 0 && c.seen <= c.stamped && window > 0
    ensures forall i | 0 <= i < |Remembered(window, hits, c)| :: Remembered(window, hits, c)[i] > c.seen - window
    ensures Allows(window, hits, c) ==> 0 < |Remembered(window, hits, c)| <= c.limit
    ensures Allows(window, hits, c) ==> Remembered(window, hits, c)[|Remembered(window, hits, c)| - 1] == c.stamped
  {
    KeptIsAfter(hits, c.seen - window);
    hide Kept;
  }

  /** What was dropped can never matter again. */
  lemma {:induction false} DropsNothingThatCounts(window: nat, calls: seq<Call>, user: string, cutoff: int)
    requires forall i | 0 <= i < |calls| && calls[i].user == user :: calls[i].seen - window <= cutoff
    ensures Kept(Hits(window, calls, user), cutoff) == Kept(Grants(window, calls, user), cutoff)
  {
    hide Kept;
    if calls != [] {
      var front, c := calls[..|calls| - 1], calls[|calls| - 1];
      DropsNothingThatCounts(window, front, user, cutoff);
      if c.user == user && c.limit > 0 {
        var before := Hits(window, front, user);
        KeptTwice(before, c.seen - window, cutoff);
        KeptSnoc(Kept(before, c.seen - window), c.stamped, cutoff);
        KeptSnoc(Grants(window, front, user), c.stamped, cutoff);
      }
    }
  }

  /** As long as the clock does not go back, the limiter decides as one that remembers every grant. */
  lemma FullMemory(window: nat, calls: seq<Call>, c: Call)
    requires Ticking(calls + [c])
    ensures Allows(window, Hits(window, calls, c.user), c) == Allows(window, Grants(window, calls, c.user), c)
  {
    var all := calls + [c];
    forall i | 0 <= i < |calls| && calls[i].user == c.user ensures calls[i].seen - window <= c.seen - window {
      assert all[i] == calls[i] && all[|calls|] == c;
    }
    DropsNothingThatCounts(window, calls, c.user, c.seen - window);
  }

  predicate AllUpTo(times: seq<int>, t: int) { forall i | 0 <= i < |times| :: times[i] <= t }

  predicate Ascending(times: seq<int>) { forall i, j | 0 <= i < j < |times| :: times[i] <= times[j] }

  lemma {:induction false} GrantsAscend(window: nat, calls: seq<Call>, user: string)
    requires Ticking(calls)
    ensures Ascending(Grants(window, calls, user))
    ensures calls != [] ==> AllUpTo(Grants(window, calls, user), calls[|calls| - 1].stamped)
  {
    hide Kept, Allows, Hits;
    if calls != [] {
      var front := calls[..|calls| - 1];
      GrantsAscend(window, front, user);
      assert AllUpTo(Grants(window, front, user), calls[|calls| - 1].seen);
    }
  }

  /** Fewer than n of an ascending list lie after the cutoff: the n-th from the end does not. */
  lemma {:induction false} NthFromTheEnd(times: seq<int>, cutoff: int, n: nat)
    requires Ascending(times) && 0 < n <= |times|
    ensures |Kept(times, cutoff)| < n <==> times[|times| - n] <= cutoff
  {
    var front, t := times[..|times| - 1], times[|times| - 1];
    if t <= cutoff {
      NoneKept(times, cutoff);
    } else if n > 1 {
      NthFromTheEnd(front, cutoff, n - 1);
    }
  }

  lemma {:induction false} NoneKept(times: seq<int>, cutoff: int)
    requires AllUpTo(times, cutoff)
    ensures Kept(times, cutoff) == []
  {
    if times != [] { NoneKept(times[..|times| - 1], cutoff); }
  }

  /** Under a fixed limit, a grant and the one `limit` places before it are a whole window apart. */
  lemma {:induction false} GrantsAreSpaced(window: nat, calls: seq<Call>, user: string, limit: nat, i: nat)
    requires Ticking(calls) && limit > 0
    requires forall c | c in calls && c.user == user && c.limit > 0 :: c.limit == limit
    requires i + limit < |Grants(window, calls, user)|
    ensures Grants(window, calls, user)[i + limit] - Grants(window, calls, user)[i] >= window
  {
    hide Kept, Hits;
    var front, c := calls[..|calls| - 1], calls[|calls| - 1];
    var before := Grants(window, front, user);
    if i + limit < |before| {
      GrantsAreSpaced(window, front, user, limit, i);
    } else {
      assert calls == front + [c];
      FullMemory(window, front, c);
      GrantsAscend(window, front, user);
      NthFromTheEnd(before, c.seen - window, limit);
    }
  }

  function Between(times: seq<int>, from: int, to: int): nat {
    if times == [] then 0
    else Between(times[..|times| - 1], from, to) + if from <= times[|times| - 1] < to then 1 else 0
  }

  lemma {:induction false} FewBetween(times: seq<int>, limit: nat, window: nat, from: int)
    requires Ascending(times) && limit > 0
    requires forall i, j | 0 <= i && j == i + limit && j < |times| :: times[j] - times[i] >= window
    ensures Between(times, from, from + window) <= limit
  {
    if times != [] {
      var front, t := times[..|times| - 1], times[|times| - 1];
      FewBetween(front, limit, window, from);
      if from <= t < from + window {
        if |times| <= limit {
          AtMostAll(front, from, from + window);
        } else {
          assert times[|times| - 1 - limit] <= t - window;
          TailBetween(front, |front| - limit, from, from + window);
        }
      }
    }
  }

  lemma {:induction false} AtMostAll(times: seq<int>, from: int, to: int)
    ensures Between(times, from, to) <= |times|
  {
    if times != [] { AtMostAll(times[..|times| - 1], from, to); }
  }

  lemma {:induction false} TailBetween(times: seq<int>, k: nat, from: int, to: int)
    requires Ascending(times) && k < |times| && times[k] < from
    ensures Between(times, from, to) <= |times| - 1 - k
  {
    if k < |times| - 1 {
      TailBetween(times[..|times| - 1], k, from, to);
    } else {
      NoneBetween(times, from, to);
    }
  }

  lemma {:induction false} NoneBetween(times: seq<int>, from: int, to: int)
    requires AllUpTo(times, from - 1)
    ensures Between(times, from, to) == 0
  {
    if times != [] { NoneBetween(times[..|times| - 1], from, to); }
  }

  /** Safety: over any run, no window of the given length (open at its end) holds more grants than the limit. */
  lemma WindowsHoldTheLimit(window: nat, calls: seq<Call>, user: string, limit: nat, from: int)
    requires Ticking(calls) && limit > 0
    requires forall c | c in calls && c.user == user && c.limit > 0 :: c.limit == limit
    ensures Between(Grants(window, calls, user), from, from + window) <= limit
  {
    var g := Grants(window, calls, user);
    GrantsAscend(window, calls, user);
    forall i, j | 0 <= i && j == i + limit && j < |g| ensures g[j] - g[i] >= window {
      GrantsAreSpaced(window, calls, user, limit, i);
    }
    FewBetween(g, limit, window, from);
  }

  lemma {:induction false} BetweenAdds(times: seq<int>, a: int, b: int, c: int)
    requires a <= b <= c
    ensures Between(times, a, c) == Between(times, a, b) + Between(times, b, c)
  {
    if times != [] { BetweenAdds(times[..|times| - 1], a, b, c); }
  }

  /** The window is open: with its end, it holds at most twice the limit. */
  lemma ClosedWindowsHoldTwice(window: nat, calls: seq<Call>, user: string, limit: nat, from: int)
    requires Ticking(calls) && limit > 0 && window > 0
    requires forall c | c in calls && c.user == user && c.limit > 0 :: c.limit == limit
    ensures Between(Grants(window, calls, user), from, from + window + 1) <= 2 * limit
  {
    var g, end := Grants(window, calls, user), from + window;
    WindowsHoldTheLimit(window, calls, user, limit, from);
    WindowsHoldTheLimit(window, calls, user, limit, end);
    BetweenAdds(g, from, end, end + 1);
    BetweenAdds(g, end, end + 1, end + window);
  }

  function Times(t: int, n: nat): seq<int> { if n == 0 then [] else Times(t, n - 1) + [t] }

  function Burst(calls: seq<Call>, c: Call, n: nat): seq<Call> {
    if n == 0 then calls else Burst(calls, c, n - 1) + [c]
  }

  lemma BetweenSnoc(times: seq<int>, t: int, from: int, to: int)
    ensures Between(times + [t], from, to) == Between(times, from, to) + if from <= t < to then 1 else 0
  {
    assert (times + [t])[..|times|] == times;
  }

  lemma {:induction false} BetweenTimes(times: seq<int>, t: int, n: nat, from: int, to: int)
    requires from <= t < to
    ensures Between(times + Times(t, n), from, to) == Between(times, from, to) + n
  {
    hide Between;
    if n == 0 {
      assert times + [] == times;
    } else {
      BetweenTimes(times, t, n - 1, from, to);
      BetweenSnoc(times + Times(t, n - 1), t, from, to);
      assert times + Times(t, n) == (times + Times(t, n - 1)) + [t];
    }
  }

  lemma {:induction false} TimesAre(t: int, n: nat)
    ensures |Times(t, n)| == n && forall i | 0 <= i < n :: Times(t, n)[i] == t
  {
    if n > 0 { TimesAre(t, n - 1); }
  }

  lemma GrantsSnoc(window: nat, calls: seq<Call>, c: Call)
    ensures Grants(window, calls + [c], c.user) ==
            if c.limit > 0 && Allows(window, Hits(window, calls, c.user), c)
            then Grants(window, calls, c.user) + [c.stamped] else Grants(window, calls, c.user)
  {
    hide Hits, Allows;
    assert (calls + [c])[..|calls|] == calls;
  }

  /** After everything has expired, `limit` calls at one instant are all granted. */
  lemma {:induction false} BurstIsGranted(window: nat, calls: seq<Call>, limit: nat, t: int, n: nat)
    requires window > 0 && n <= limit && Kept(Hits(window, calls, "u"), t - window) == []
    ensures var all := Burst(calls, Call("u", limit, t, t), n);
            && Kept(Hits(window, all, "u"), t - window) == Times(t, n)
            && Grants(window, all, "u") == Grants(window, calls, "u") + Times(t, n)
  {
    hide Kept, Hits, Grants;
    if n > 0 {
      var c, front := Call("u", limit, t, t), Burst(calls, Call("u", limit, t, t), n - 1);
      BurstIsGranted(window, calls, limit, t, n - 1);
      TimesAre(t, n - 1);
      OneMoreGranted(window, front, c, Times(t, n - 1));
      assert (Grants(window, calls, "u") + Times(t, n - 1)) + [t] == Grants(window, calls, "u") + Times(t, n);
    } else {
      assert Grants(window, calls, "u") + [] == Grants(window, calls, "u");
    }
  }

  lemma OneMoreGranted(window: nat, calls: seq<Call>, c: Call, kept: seq<int>)
    requires window > 0 && c.limit > |kept| && c.seen == c.stamped
    requires Kept(Hits(window, calls, c.user), c.seen - window) == kept
    ensures Kept(Hits(window, calls + [c], c.user), c.seen - window) == kept + [c.stamped]
    ensures Grants(window, calls + [c], c.user) == Grants(window, calls, c.user) + [c.stamped]
  {
    hide Kept, Hits, Grants;
    HitsSnoc(window, calls, c);
    GrantsSnoc(window, calls, c);
    var before := Hits(window, calls, c.user);
    KeptTwice(before, c.seen - window, c.seen - window);
    KeptSnoc(Kept(before, c.seen - window), c.stamped, c.seen - window);
  }

  lemma {:induction false} BurstTicks(calls: seq<Call>, c: Call, n: nat)
    requires Ticking(calls) && c.seen == c.stamped
    requires forall i | 0 <= i < |calls| :: calls[i].stamped <= c.seen
    ensures var all := Burst(calls, c, n);
            && Ticking(all) && (forall i | 0 <= i < |all| :: all[i].stamped <= c.seen)
            && (forall d | d in all :: d in calls || d == c)
  {
    if n > 0 { BurstTicks(calls, c, n - 1); }
  }

  lemma NothingYet(window: nat)
    ensures Hits(window, [], "u") == [] && Grants(window, [], "u") == [] && Between([], 0, window + 1) == 0
  {
  }

  /** For every limit a run has that many: a full window's worth at its first instant, and another at its
      last. */
  lemma ClosedWindowsCanHoldTwice(window: nat, limit: nat) returns (calls: seq<Call>)
    requires window > 0 && limit > 0
    ensures Ticking(calls) && forall c | c in calls :: c.limit == limit && c.user == "u"
    ensures Between(Grants(window, calls, "u"), 0, window + 1) == 2 * limit
  {
    hide Kept, Between, Times, Burst, Grants;
    var c, d := Call("u", limit, 0, 0), Call("u", limit, window, window);
    KeptNone(0 - window);
    NothingYet(window);
    TimesAre(0, limit);
    BurstIsGranted(window, [], limit, 0, limit);
    var first := Burst([], c, limit);
    BurstTicks([], c, limit);
    DropsNothingThatCounts(window, first, "u", 0);
    assert Grants(window, first, "u") == Times(0, limit);
    NoneKept(Times(0, limit), 0);
    BurstIsGranted(window, first, limit, window, limit);
    calls := Burst(first, d, limit);
    BurstTicks(first, d, limit);
    BetweenTimes([], 0, limit, 0, window + 1);
    BetweenTimes(Times(0, limit), window, limit, 0, window + 1);
    assert [] + Times(0, limit) == Times(0, limit);
  }

  /** One user's grants do not depend on the others. */
  lemma {:induction false} UsersAreIndependent(window: nat, calls: seq<Call>, user: string)
    ensures Hits(window, calls, user) == Hits(window, CallsOf(calls, user), user)
    ensures Grants(window, calls, user) == Grants(window, CallsOf(calls, user), user)
  {
    hide Kept, Allows, Remembered;
    if calls != [] {
      var front, c := calls[..|calls| - 1], calls[|calls| - 1];
      UsersAreIndependent(window, front, user);
      if c.user == user {
        var mine := CallsOf(front, user);
        assert (mine + [c])[..|mine|] == mine && (mine + [c])[|mine|] == c;
      }
    }
  }

  function CallsOf(calls: seq<Call>, user: string): seq<Call> {
    if calls == [] then []
    else
      var before, c := CallsOf(calls[..|calls| - 1], user), calls[|calls| - 1];
      if c.user == user then before + [c] else before
  }
}
