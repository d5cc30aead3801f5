/**
 Sliding-window rate limit (app/cache/rate_limit.py): one atomic script over a
 pruned sorted set whose key expires, related to the full history of attempts.
 */
module RateLimiter {

  /** One call of the script: the caller's clock, which scores the attempt and
      places the cutoff, and the Redis clock, which expires the key. */
  datatype Attempt = Attempt(at: int, server: int)

  /** The sorted set after a history; attempt i is member i, as every member is a fresh
      uuid. Without `expiring` the key has no EXPIRE. */
  function Scores(history: seq<Attempt>, window: int, expiring: bool): map<nat, int> {
    if history == [] then map[] else
      var n := |history| - 1;
      var now := history[n];
      var live := if expiring && n > 0 && now.server >= history[n - 1].server + window then map[]
                  else Scores(history[..n], window, expiring);
      Pruned(live, now.at - window)[n := now.at]
  }

  /** ZREMRANGEBYSCORE key -inf cutoff */
  function Pruned(scores: map<nat, int>, cutoff: int): map<nat, int> {
    map m | m in scores && scores[m] > cutoff :: scores[m]
  }

  /** The Redis key of one principal's budget. */
  class BudgetKey {
    const window: int
    var scores: map<nat, int>
    var expires: int
    ghost var history: seq<Attempt>

    ghost predicate Valid()
      reads this
    {
      && window > 0
      && scores == Scores(history, window, true)
      && (history != [] ==> |history| - 1 in scores && expires == history[|history| - 1].server + window)
    }

    constructor (window: int)
      requires window > 0
      ensures Valid() && history == [] && this.window == window
    {
      this.window := window;
      scores, expires, history := map[], 0, [];
    }

    /** The script: prune, add under a fresh member, count, set the expiry. */
    method Check(now: int, server: int, member: nat, limit: int) returns (count: nat, allowed: bool)
      requires Valid() && member == |history|
      modifies this
      ensures Valid() && history == old(history) + [Attempt(now, server)]
      ensures count == |Scores(history, window, true)|
      ensures allowed <==> count <= limit
    {
      ghost var was := history;
      if scores != map[] && server >= expires {
        scores := map[];
      }
      assert scores == if |was| > 0 && server >= was[|was| - 1].server + window then map[] else Scores(was, window, true);
      scores := Pruned(scores, now - window);
      scores := scores[member := now];
      count := |scores|;
      expires := server + window;
      allowed := count <= limit;
      history := history + [Attempt(now, server)];
      assert history[..|was|] == was;
      if was == [] {
        assert Scores(was, window, true) == map[];
      }
    }
  }

  // ---- What the set holds ----

  /** Attempt i is still stored when no later attempt's cutoff reached it and, if the key
      expires, no gap between consecutive calls was as long as the window. */
  ghost predicate Survives(history: seq<Attempt>, window: int, expiring: bool, i: nat)
    requires i < |history|
  {
    forall m | i < m < |history| ::
      && history[i].at > history[m].at - window
      && (expiring ==> history[m].server < history[m - 1].server + window)
  }

  lemma {:induction false} StoredIffSurvives(history: seq<Attempt>, window: int, expiring: bool, i: nat)
    ensures i in Scores(history, window, expiring) <==> i < |history| && Survives(history, window, expiring, i)
    ensures i in Scores(history, window, expiring) ==> Scores(history, window, expiring)[i] == history[i].at
  {
    if history != [] {
      var n := |history| - 1;
      StoredIffSurvives(history[..n], window, expiring, i);
      if i < n {
        assert Survives(history, window, expiring, i) <==>
               && Survives(history[..n], window, expiring, i)
               && history[i].at > history[n].at - window
               && (expiring ==> history[n].server < history[n - 1].server + window);
      }
    }
  }

  // ---- Refinement of the full history, when time does not go back ----

  ghost predicate Nondecreasing(history: seq<Attempt>) {
    forall i, j | 0 <= i < j < |history| :: history[i].at <= history[j].at
  }

  /** When the Redis clock says a window has passed, the callers' clocks say so too, up to d. */
  ghost predicate ClocksAgree(history: seq<Attempt>, window: int, d: int) {
    && (forall i, j | 0 <= i < j < |history| :: history[i].server <= history[j].server)
    && (forall i, j | 0 <= i < j < |history| && history[j].server - history[i].server >= window ::
          history[j].at - history[i].at >= window - d)
  }

  /** The attempts, denied ones included, made in (now - window, now]. */
  function Recent(history: seq<Attempt>, window: int): set<nat>
    requires history != []
  {
    set i | 0 <= i < |history| && history[i].at > history[|history| - 1].at - window
  }

  /** The pruned, expiring set is exactly the attempts of the last window, so a call is
      allowed iff they number at most `limit`; with or without the EXPIRE. */
  lemma {:induction false} LimiterCountsTheWindow(history: seq<Attempt>, window: int, expiring: bool)
    requires history != [] && window > 0 && Nondecreasing(history) && ClocksAgree(history, window, 0)
    ensures Scores(history, window, expiring).Keys == Recent(history, window)
    ensures |Scores(history, window, expiring)| == |Recent(history, window)|
  {
    var scores, recent := Scores(history, window, expiring), Recent(history, window);
    forall i: nat ensures i in scores.Keys <==> i in recent {
      StoredIffSurvives(history, window, expiring, i);
      if i < |history| {
        SurvivesIffRecent(history, window, expiring, i);
      }
    }
    assert scores.Keys == recent;
    assert |scores| == |scores.Keys|;
  }

  lemma SurvivesIffRecent(history: seq<Attempt>, window: int, expiring: bool, i: nat)
    requires i < |history| && window > 0 && Nondecreasing(history) && ClocksAgree(history, window, 0)
    ensures Survives(history, window, expiring, i) <==> history[i].at > history[|history| - 1].at - window
  {
    var n := |history| - 1;
    if history[i].at > history[n].at - window {
      forall m | i < m <= n
        ensures history[i].at > history[m].at - window
        ensures history[m].server < history[m - 1].server + window
      {
        assert m < n ==> history[n].at >= history[m].at;
        assert i < m - 1 ==> history[m - 1].at >= history[i].at;
      }
    }
  }

  /** The key's EXPIRE never changes a decision. */
  lemma {:induction false} ExpiryNeverMatters(history: seq<Attempt>, window: int)
    requires window > 0 && Nondecreasing(history) && ClocksAgree(history, window, 0)
    ensures Scores(history, window, true) == Scores(history, window, false)
  {
    if history != [] {
      LimiterCountsTheWindow(history, window, true);
      LimiterCountsTheWindow(history, window, false);
      forall i | i in Scores(history, window, true)
        ensures Scores(history, window, true)[i] == Scores(history, window, false)[i]
      {
        StoredIffSurvives(history, window, true, i);
        StoredIffSurvives(history, window, false, i);
      }
    }
  }

  // ---- The bound on allowed attempts, under clock skew ----

  /** Each caller's clock is at least the largest earlier one minus d. */
  ghost predicate SkewAtMost(history: seq<Attempt>, d: int) {
    forall i, j | 0 <= i < j < |history| :: history[j].at >= history[i].at - d
  }

  predicate Allowed(history: seq<Attempt>, window: int, limit: nat, j: nat)
    requires j < |history|
  {
    |Scores(history[..j + 1], window, true)| <= limit
  }

  /** The allowed attempts whose clock lies in [from, from + length). */
  function AllowedIn(history: seq<Attempt>, window: int, limit: nat, from: int, length: int): set<nat> {
    set j | 0 <= j < |history| && Allowed(history, window, limit, j) && from <= history[j].at < from + length
  }

  /** Attempts of one short window are all still stored when the last of them is decided. */
  lemma EarlierSurvive(history: seq<Attempt>, window: int, d: int, from: int, i: nat, j: nat)
    requires d >= 0 && SkewAtMost(history, d) && ClocksAgree(history, window, d)
    requires i <= j < |history|
    requires from <= history[i].at && history[j].at < from + (window - d)
    ensures i in Scores(history[..j + 1], window, true)
  {
    var h := history[..j + 1];
    StoredIffSurvives(h, window, true, i);
    forall m | i < m < |h|
      ensures h[i].at > h[m].at - window
      ensures h[m].server < h[m - 1].server + window
    {
      assert h[m] == history[m] && h[i] == history[i] && h[m - 1] == history[m - 1];
      assert m < j ==> history[j].at >= history[m].at - d;
      assert history[j].server >= history[m].server && history[m - 1].server >= history[i].server;
    }
  }

  lemma {:induction false} Largest(s: set<nat>) returns (m: nat)
    requires s != {}
    ensures m in s && forall i | i in s :: i <= m
  {
    var x :| x in s;
    m := x;
    if s - {x} != {} {
      var rest := Largest(s - {x});
      m := if x > rest then x else rest;
    }
    assert forall i | i in s :: i == x || i in s - {x};
  }

  lemma {:induction false} SubsetSize(a: set<nat>, b: set<nat>)
    requires a <= b
    ensures |a| <= |b|
  {
    if a != {} {
      var x :| x in a;
      SubsetSize(a - {x}, b - {x});
    }
  }

  /** In every run with skew at most d, any half-open window of length W - d holds at most
      `limit` allowed attempts; without skew, any window of length W. */
  lemma {:induction false} WindowBound(history: seq<Attempt>, window: int, limit: nat, d: int, from: int)
    requires d >= 0 && SkewAtMost(history, d) && ClocksAgree(history, window, d)
    ensures |AllowedIn(history, window, limit, from, window - d)| <= limit
  {
    var s := AllowedIn(history, window, limit, from, window - d);
    if s != {} {
      var j := Largest(s);
      var stored := Scores(history[..j + 1], window, true);
      forall i | i in s ensures i in stored.Keys {
        EarlierSurvive(history, window, d, from, i, j);
      }
      SubsetSize(s, stored.Keys);
      assert |stored| == |stored.Keys|;
    }
  }

  /** Both clock conditions hold when every caller's clock stays within a band of width d
      around the Redis clock. */
  lemma {:induction false} BandGivesSkew(history: seq<Attempt>, window: int, behind: int, ahead: int, d: int)
    requires behind >= 0 && ahead >= 0 && behind + ahead <= d
    requires forall i, j | 0 <= i < j < |history| :: history[i].server <= history[j].server
    requires forall i | 0 <= i < |history| :: history[i].server - behind <= history[i].at <= history[i].server + ahead
    ensures SkewAtMost(history, d) && ClocksAgree(history, window, d)
  {
  }

  // ---- The bound cannot be improved ----

  lemma {:induction false} NoMoreThanMade(history: seq<Attempt>, window: int)
    ensures |Scores(history, window, true)| <= |history|
  {
    if history != [] {
      var n := |history| - 1;
      NoMoreThanMade(history[..n], window);
      var live := if n > 0 && history[n].server >= history[n - 1].server + window then map[]
                  else Scores(history[..n], window, true);
      var pruned := Pruned(live, history[n].at - window);
      SubsetSize(pruned.Keys, live.Keys);
      assert |pruned| == |pruned.Keys| && |live| == |live.Keys|;
      assert Scores(history, window, true).Keys == pruned.Keys + {n};
      assert |Scores(history, window, true)| == |Scores(history, window, true).Keys|;
    }
  }

  /** `limit` attempts at once; then one from a caller whose clock is d behind, when the key has just expired. */
  function Burst(window: int, limit: nat, d: int): seq<Attempt> {
    seq(limit, i => Attempt(0, 0)) + [Attempt(if d < window then window - d else 0, window)]
  }

  lemma BurstIsSkewed(window: int, limit: nat, d: int)
    requires window > 0 && d >= 0
    ensures SkewAtMost(Burst(window, limit, d), d) && ClocksAgree(Burst(window, limit, d), window, d)
  {
  }

  lemma BurstIsAllowed(window: int, limit: nat, d: int, j: nat)
    requires window > 0 && limit >= 1 && j <= limit
    ensures Allowed(Burst(window, limit, d), window, limit, j)
  {
    var h := Burst(window, limit, d)[..j + 1];
    NoMoreThanMade(h, window);
    if j == limit {
      assert h[j].server == h[j - 1].server + window;
      assert Scores(h, window, true) == map[j := h[j].at];
    }
  }

  /** Every attempt of the burst is allowed, and a window longer than W - d holds them all. */
  lemma BurstOverflows(window: int, limit: nat, d: int, length: int)
    requires window > 0 && limit >= 1 && d >= 0 && length > 0 && length > window - d
    ensures |AllowedIn(Burst(window, limit, d), window, limit, 0, length)| == limit + 1
  {
    var h := Burst(window, limit, d);
    forall j: nat | j <= limit ensures Allowed(h, window, limit, j) {
      BurstIsAllowed(window, limit, d, j);
    }
    hide Allowed;
    BelowIs(limit + 1);
    assert AllowedIn(h, window, limit, 0, length) == Below(limit + 1);
  }

  function Below(n: nat): set<nat> {
    if n == 0 then {} else Below(n - 1) + {n - 1}
  }

  lemma {:induction false} BelowIs(n: nat)
    ensures |Below(n)| == n
    ensures forall j: nat :: j in Below(n) <==> j < n
  {
    if n > 0 {
      BelowIs(n - 1);
    }
  }

  /** Under a limit of zero nothing is allowed: the attempt itself is counted. */
  lemma NoneAllowed(history: seq<Attempt>, window: int, from: int, length: int)
    ensures AllowedIn(history, window, 0, from, length) == {}
  {
    forall j: nat | j < |history| ensures !Allowed(history, window, 0, j) {
      StoredIffSurvives(history[..j + 1], window, true, j);
      assert j in Scores(history[..j + 1], window, true).Keys;
    }
  }

  /** In every run with skew at most d, every window of this length holds at most `limit` allowed attempts. */
  ghost predicate Bounds(window: int, limit: nat, d: int, length: int) {
    forall history, from | SkewAtMost(history, d) && ClocksAgree(history, window, d) ::
      |AllowedIn(history, window, limit, from, length)| <= limit
  }

  /** Skew d costs exactly d: the limit bounds the windows of length W - d, and no longer ones
      unless it lets nothing through. */
  lemma {:induction false} SkewShrinksTheWindow(window: int, limit: nat, d: int, length: int)
    requires window > 0 && d >= 0
    ensures Bounds(window, limit, d, length) <==> limit == 0 || length <= window - d || length <= 0
  {
    if limit == 0 || length <= window - d || length <= 0 {
      forall history, from | SkewAtMost(history, d) && ClocksAgree(history, window, d)
        ensures |AllowedIn(history, window, limit, from, length)| <= limit
      {
        if limit == 0 {
          NoneAllowed(history, window, from, length);
        } else if length <= window - d {
          WindowBound(history, window, limit, d, from);
          SubsetSize(AllowedIn(history, window, limit, from, length), AllowedIn(history, window, limit, from, window - d));
        } else {
          assert AllowedIn(history, window, limit, from, length) == {};
        }
      }
    } else {
      BurstIsSkewed(window, limit, d);
      BurstOverflows(window, limit, d, length);
    }
  }
}
