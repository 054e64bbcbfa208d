/** The fixed-window limiter (room-api/internal/httpapi/server.go:229-263), and how many
    requests it really lets through in any stretch of one window's length. */
module RateLimiter {
  import opened Outcomes

  type Client = nat

  const WINDOW: int := 60_000_000_000    // one minute, in nanoseconds

  datatype Counter = Counter(started: int, count: nat)

  datatype Verdict = Verdict(allowed: bool, entry: Counter)

  /** One client's counter and one request at time `now`. */
  function Admit(entry: Option<Counter>, now: int, limit: nat): Verdict {
    if entry.None? || now - entry.value.started >= WINDOW then Verdict(true, Counter(now, 1))
    else if entry.value.count >= limit then Verdict(false, entry.value)
    else Verdict(true, Counter(entry.value.started, entry.value.count + 1))
  }

  function Get(clients: map<Client, Counter>, c: Client): Option<Counter> {
    if c in clients then Some(clients[c]) else None
  }

  class Limiter {
    const limit: nat
    var clients: map<Client, Counter>

    /** newLimiter: a limit below one is one. */
    constructor (limit: int)
      ensures clients == map[] && this.limit >= 1 && (limit >= 1 ==> this.limit == limit)
    {
      this.limit, clients := if limit < 1 then 1 else limit, map[];
    }

    /** Allow, server.go:248-263. */
    method Allow(client: Client, now: int) returns (ok: bool)
      modifies this
      ensures var v := Admit(Get(old(clients), client), now, limit);
        ok == v.allowed && clients == old(clients)[client := v.entry]
    {
      if client !in clients || now - clients[client].started >= WINDOW {
        clients := clients[client := Counter(now, 1)];
        return true;
      }
      var entry := clients[client];
      if entry.count >= limit { return false; }
      entry := entry.(count := entry.count + 1);
      clients := clients[client := entry];
      return true;
    }
  }

  // ---------------------------------------------------------------- one client's requests

  function After(times: seq<int>, limit: nat): Option<Counter> {
    if times == [] then None else Some(Admit(After(times[..|times| - 1], limit), times[|times| - 1], limit).entry)
  }

  predicate Admitted(times: seq<int>, i: nat, limit: nat)
    requires i < |times|
  {
    Admit(After(times[..i], limit), times[i], limit).allowed
  }

  /** The request that starts a new window. */
  predicate Starts(times: seq<int>, i: nat, limit: nat)
    requires i < |times|
  {
    var entry := After(times[..i], limit);
    entry.None? || times[i] - entry.value.started >= WINDOW
  }

  /** Requests admitted in the half-open interval [from, from + WINDOW). */
  function Within(times: seq<int>, from: int, limit: nat): nat {
    if times == [] then 0 else
    var n := |times| - 1;
    Within(times[..n], from, limit) + if from <= times[n] < from + WINDOW && Admitted(times, n, limit) then 1 else 0
  }

  ghost predicate Nondecreasing(times: seq<int>) {
    forall i, j :: 0 <= i <= j < |times| ==> times[i] <= times[j]
  }

  lemma {:induction false} Tally(times: seq<int>, from: int, limit: nat)
    requires Nondecreasing(times) && limit >= 1 && times != []
    ensures var e, n := After(times, limit).value, Within(times, from, limit);
      && 1 <= e.count <= limit && e.started <= times[|times| - 1]
      && (e.started < from ==> n <= e.count - 1)
      && (from <= e.started < from + WINDOW ==> n <= limit - 1 + e.count)
      && n <= 2 * limit - 1
      && (times[|times| - 1] < from ==> n == 0)
  {
    if |times| > 1 { Tally(times[..|times| - 1], from, limit); }
  }

  /** With clock reads that never go back, no interval of one window's length lets more
      than 2 * limit - 1 requests of one client through. */
  lemma SlidingBound(times: seq<int>, from: int, limit: nat)
    requires Nondecreasing(times) && limit >= 1
    ensures Within(times, from, limit) <= 2 * limit - 1
  {
    if times != [] { Tally(times, from, limit); }
  }

  // ---------------------------------------------------------------- the bound is attained

  function Repeat(t: int, k: nat): seq<int> { seq(k, i => t) }

  lemma {:induction false} Burst(times: seq<int>, t: int, k: nat, from: int, limit: nat)
    requires var e := After(times, limit); e.Some? && t - e.value.started < WINDOW && e.value.count + k <= limit
    requires from <= t < from + WINDOW
    ensures var e := After(times, limit).value;
      After(times + Repeat(t, k), limit) == Some(Counter(e.started, e.count + k))
    ensures Within(times + Repeat(t, k), from, limit) == Within(times, from, limit) + k
  {
    if k == 0 {
      assert times + Repeat(t, 0) == times;
    } else {
      Burst(times, t, k - 1, from, limit);
      var all := times + Repeat(t, k);
      assert all[..|all| - 1] == times + Repeat(t, k - 1);
    }
  }

  lemma OneMore(times: seq<int>, t: int, from: int, limit: nat)
    ensures var v := Admit(After(times, limit), t, limit);
      && After(times + [t], limit) == Some(v.entry)
      && Within(times + [t], from, limit) ==
           Within(times, from, limit) + if from <= t < from + WINDOW && v.allowed then 1 else 0
  {
    assert (times + [t])[..|times|] == times;
  }

  // One request, then the rest of its window's at the very end of it.
  lemma FirstWindow(limit: nat) returns (times: seq<int>)
    requires limit >= 1
    ensures times == [0] + Repeat(WINDOW - 1, limit - 1)
    ensures After(times, limit) == Some(Counter(0, limit)) && Within(times, WINDOW - 1, limit) == limit - 1
  {
    OneMore([], 0, WINDOW - 1, limit);
    assert [] + [0] == [0];
    times := [0] + Repeat(WINDOW - 1, limit - 1);
    Burst([0], WINDOW - 1, limit - 1, WINDOW - 1, limit);
  }

  /** A request opens a window, the rest of that window's come at its very end, and the
      next window's all at its very beginning: 2 * limit - 1 within one nanosecond. */
  lemma BoundAttained(limit: nat) returns (times: seq<int>, from: int)
    requires limit >= 1
    ensures Nondecreasing(times) && Within(times, from, limit) == 2 * limit - 1
  {
    from := WINDOW - 1;
    var first := FirstWindow(limit);
    var second := first + [WINDOW];
    OneMore(first, WINDOW, from, limit);
    times := second + Repeat(WINDOW, limit - 1);
    Burst(second, WINDOW, limit - 1, from, limit);
    hide After, Within;
  }

  // ---------------------------------------------------------------- window starts

  lemma {:induction false} StartedAt(times: seq<int>, limit: nat, i: nat)
    requires i < |times| && Starts(times, i, limit)
    ensures var e := After(times, limit);
      e.Some? && (e.value.started == times[i] || e.value.started >= times[i] + WINDOW)
    decreases |times|
  {
    var n := |times| - 1;
    if i < n {
      assert times[..n][..i] == times[..i];
      StartedAt(times[..n], limit, i);
    }
  }

  /** Two windows of a client start at least one window apart, clock or no clock. */
  lemma StartsApart(times: seq<int>, limit: nat, i: nat, j: nat)
    requires i < j < |times| && Starts(times, i, limit) && Starts(times, j, limit)
    ensures times[j] - times[i] >= WINDOW
  {
    assert times[..j][..i] == times[..i];
    StartedAt(times[..j], limit, i);
  }

  // ---------------------------------------------------------------- who is denied

  /** Requests admitted from the s-th on, up to but without the i-th. */
  function AdmittedSince(times: seq<int>, s: nat, i: nat, limit: nat): nat
    requires i <= |times|
  {
    if i <= s then 0 else AdmittedSince(times, s, i - 1, limit) + Bit(Admitted(times, i - 1, limit))
  }

  lemma {:induction false} SinceOfPrefix(times: seq<int>, s: nat, i: nat, n: nat, limit: nat)
    requires i <= n <= |times|
    ensures AdmittedSince(times[..n], s, i, limit) == AdmittedSince(times, s, i, limit)
  {
    if i > s {
      SinceOfPrefix(times, s, i - 1, n, limit);
      assert times[..n][..i - 1] == times[..i - 1];
    }
  }

  // The counter stands for the last start and the requests admitted since.
  lemma {:induction false} LastStart(times: seq<int>, limit: nat) returns (s: nat)
    requires times != [] && limit >= 1
    ensures s < |times| && Starts(times, s, limit) && forall i :: s < i < |times| ==> !Starts(times, i, limit)
    ensures After(times, limit) == Some(Counter(times[s], AdmittedSince(times, s, |times|, limit)))
  {
    var n := |times| - 1;
    if Starts(times, n, limit) {
      s := n;
      assert AdmittedSince(times, n, n, limit) == 0;
    } else {
      s := LastStart(times[..n], limit);
      forall i | 0 <= i < n ensures Starts(times[..n], i, limit) == Starts(times, i, limit) {
        assert times[..n][..i] == times[..i];
      }
      SinceOfPrefix(times, s, n, n, limit);
    }
  }

  /** A request opens a window exactly when every window opened before it is over. */
  lemma StartsIff(times: seq<int>, i: nat, limit: nat)
    requires i < |times| && limit >= 1
    ensures Starts(times, i, limit) <==>
              forall s :: 0 <= s < i && Starts(times, s, limit) ==> times[i] - times[s] >= WINDOW
  {
    if Starts(times, i, limit) {
      forall s | 0 <= s < i && Starts(times, s, limit) ensures times[i] - times[s] >= WINDOW {
        StartsApart(times, limit, s, i);
      }
    } else {
      var s := LastStart(times[..i], limit);
      assert times[..i][..s] == times[..s];
      assert Starts(times, s, limit);
    }
  }

  // The window last opened before request i was opened by request s.
  ghost predicate LastOpened(times: seq<int>, s: nat, i: nat, limit: nat) {
    s < i <= |times| && Starts(times, s, limit) && forall j :: s < j < i ==> !Starts(times, j, limit)
  }

  /** A request is denied exactly when the window last opened before it is not over and has let
      its limit of requests through. */
  lemma DeniedIff(times: seq<int>, i: nat, limit: nat)
    requires i < |times| && limit >= 1
    ensures !Admitted(times, i, limit) <==>
              exists s: nat :: LastOpened(times, s, i, limit) && times[i] - times[s] < WINDOW
                               && AdmittedSince(times, s, i, limit) >= limit
  {
    if i > 0 {
      var s := LastOpening(times, i, limit);
      forall r: nat | LastOpened(times, r, i, limit) ensures r == s { SameOpening(times, r, s, i, limit); }
      hide AdmittedSince, LastOpened;
    }
  }

  lemma SameOpening(times: seq<int>, r: nat, s: nat, i: nat, limit: nat)
    requires LastOpened(times, r, i, limit) && LastOpened(times, s, i, limit)
    ensures r == s
  {
    hide Starts;
  }

  lemma LastOpening(times: seq<int>, i: nat, limit: nat) returns (s: nat)
    requires 0 < i <= |times| && limit >= 1
    ensures LastOpened(times, s, i, limit)
    ensures After(times[..i], limit) == Some(Counter(times[s], AdmittedSince(times, s, i, limit)))
  {
    s := LastStart(times[..i], limit);
    forall j | 0 <= j < i ensures Starts(times[..i], j, limit) == Starts(times, j, limit) {
      assert times[..i][..j] == times[..j];
    }
    SinceOfPrefix(times, s, i, i, limit);
    hide After, AdmittedSince;
  }

  // ---------------------------------------------------------------- clients apart

  datatype Request = Request(client: Client, now: int)

  function Counters(requests: seq<Request>, limit: nat): map<Client, Counter> {
    if requests == [] then map[] else
    var before, r := Counters(requests[..|requests| - 1], limit), requests[|requests| - 1];
    before[r.client := Admit(Get(before, r.client), r.now, limit).entry]
  }

  function TimesOf(requests: seq<Request>, c: Client): seq<int> {
    if requests == [] then [] else
    var r := requests[|requests| - 1];
    TimesOf(requests[..|requests| - 1], c) + if r.client == c then [r.now] else []
  }

  /** What a client is told depends on its own requests alone. */
  lemma {:induction false} ClientsApart(requests: seq<Request>, limit: nat, c: Client)
    ensures Get(Counters(requests, limit), c) == After(TimesOf(requests, c), limit)
  {
    if requests != [] {
      var n := |requests| - 1;
      ClientsApart(requests[..n], limit, c);
      OneMore(TimesOf(requests[..n], c), requests[n].now, 0, limit);
      if requests[n].client != c { assert TimesOf(requests, c) == TimesOf(requests[..n], c); }
    }
  }

  ghost predicate InClockOrder(requests: seq<Request>) {
    forall i, j :: 0 <= i <= j < |requests| ==> requests[i].now <= requests[j].now
  }

  lemma {:induction false} TimesInOrder(requests: seq<Request>, c: Client)
    requires InClockOrder(requests)
    ensures Nondecreasing(TimesOf(requests, c))
    ensures forall i :: 0 <= i < |TimesOf(requests, c)| ==> TimesOf(requests, c)[i] <= requests[|requests| - 1].now
  {
    if requests != [] { TimesInOrder(requests[..|requests| - 1], c); }
  }

  /** The bound for the whole limiter: whatever all the others send, each client gets at
      most 2 * limit - 1 requests through in one window's length. */
  lemma BoundPerClient(requests: seq<Request>, limit: nat, c: Client, from: int)
    requires InClockOrder(requests) && limit >= 1
    ensures Get(Counters(requests, limit), c) == After(TimesOf(requests, c), limit)
    ensures Within(TimesOf(requests, c), from, limit) <= 2 * limit - 1
  {
    ClientsApart(requests, limit, c);
    TimesInOrder(requests, c);
    SlidingBound(TimesOf(requests, c), from, limit);
  }
}
