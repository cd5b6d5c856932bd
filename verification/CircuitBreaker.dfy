/** The three-state circuit breaker in front of the bank gateway.
    `Breaker` and the functions on it are the specification: they keep every sample ever recorded and decide
    from that history alone.  `InMemoryCircuitBreaker` keeps what the program keeps (a consecutive-failure
    counter and a front-pruned sample window) and is proved to implement the specification. */
module CircuitBreaker {
  import opened Basics

  datatype Mode = Closed | Open | HalfOpen

  datatype Sample = Sample(at: int, success: bool)

  datatype Config = Config(
    failureThreshold: int, resetTimeout: int, failureRate: real,
    minRequests: int, windowSize: int, halfOpenMaxCalls: int)
  {
    ghost predicate Valid() {
      failureThreshold > 0 && resetTimeout > 0 && 0.0 <= failureRate <= 1.0 && minRequests >= 0 && halfOpenMaxCalls > 0
    }
  }

  const DEFAULT_CONFIG := Config(3, 30 * SECOND, 0.5, 5, 30 * SECOND, 1)

  // ---------- the specification ----------

  datatype Breaker = Breaker(mode: Mode, openedAt: int, inflight: nat, history: seq<Sample>)

  const INITIAL := Breaker(Closed, 0, 0, [])

  /** How many of the latest samples are failures in a row. */
  function Trailing(history: seq<Sample>): nat {
    if history == [] || history[|history| - 1].success then 0 else 1 + Trailing(history[..|history| - 1])
  }

  /** Drop samples from the front while they lie before the cutoff. */
  function DropOld(samples: seq<Sample>, cutoff: int): seq<Sample> {
    if samples == [] || samples[0].at >= cutoff then samples else DropOld(samples[1..], cutoff)
  }

  /** The window the program holds after recording `history`, one sample at a time. */
  function Pruned(history: seq<Sample>, windowSize: int): seq<Sample> {
    if windowSize <= 0 || history == [] then []
    else
      var last := history[|history| - 1];
      DropOld(Pruned(history[..|history| - 1], windowSize) + [last], last.at - windowSize)
  }

  /** The samples of the whole history that are not before the cutoff. */
  function Recent(history: seq<Sample>, cutoff: int): seq<Sample> {
    if history == [] then []
    else
      var last := history[|history| - 1];
      Recent(history[..|history| - 1], cutoff) + if last.at >= cutoff then [last] else []
  }

  function CountFailed(samples: seq<Sample>): nat {
    if samples == [] then 0
    else CountFailed(samples[..|samples| - 1]) + if samples[|samples| - 1].success then 0 else 1
  }

  predicate RateExceeded(cfg: Config, window: seq<Sample>) {
    && cfg.failureRate > 0.0
    && cfg.windowSize > 0
    && |window| >= cfg.minRequests
    && |window| != 0
    && CountFailed(window) as real / |window| as real >= cfg.failureRate
  }

  predicate Trips(cfg: Config, history: seq<Sample>) {
    Trailing(history) >= cfg.failureThreshold || RateExceeded(cfg, Pruned(history, cfg.windowSize))
  }

  function AfterObserve(cfg: Config, b: Breaker, now: int): Breaker {
    if b.mode == Open && now - b.openedAt >= cfg.resetTimeout then b.(mode := HalfOpen, inflight := 0) else b
  }

  function Admits(cfg: Config, b: Breaker, now: int): bool {
    var o := AfterObserve(cfg, b, now);
    o.mode == Closed || (o.mode == HalfOpen && o.inflight < cfg.halfOpenMaxCalls)
  }

  function AfterAllow(cfg: Config, b: Breaker, now: int): Breaker {
    var o := AfterObserve(cfg, b, now);
    if o.mode == HalfOpen && o.inflight < cfg.halfOpenMaxCalls then o.(inflight := o.inflight + 1) else o
  }

  function AfterRecord(cfg: Config, b: Breaker, now: int, success: bool): Breaker {
    var h := b.history + [Sample(now, success)];
    match b.mode
    case HalfOpen => if success then Breaker(Closed, 0, 0, h) else Breaker(Open, now, 0, h)
    case Open => b.(history := h)
    case Closed => if !success && Trips(cfg, h) then Breaker(Open, now, 0, h) else b.(history := h)
  }

  lemma {:induction false} CountFailedIs(samples: seq<Sample>)
    ensures CountFailed(samples) == |set i | 0 <= i < |samples| && !samples[i].success|
  {
    if samples != [] {
      var n := |samples| - 1;
      CountFailedIs(samples[..n]);
      var before := set i | 0 <= i < |samples[..n]| && !samples[..n][i].success;
      var all := set i | 0 <= i < |samples| && !samples[i].success;
      assert forall i :: 0 <= i < n ==> samples[..n][i] == samples[i];
      assert all == before + if samples[n].success then {} else {n};
    }
  }

  /** Indices of the samples not before the cutoff, and of the failures among them. */
  function Late(history: seq<Sample>, cutoff: int): set<int> {
    set i | 0 <= i < |history| && history[i].at >= cutoff
  }

  function LateFailed(history: seq<Sample>, cutoff: int): set<int> {
    set i | 0 <= i < |history| && history[i].at >= cutoff && !history[i].success
  }

  lemma LateGrows(history: seq<Sample>, cutoff: int)
    requires history != []
    ensures var n := |history| - 1;
            && n !in Late(history[..n], cutoff) && n !in LateFailed(history[..n], cutoff)
            && Late(history, cutoff)
                 == Late(history[..n], cutoff) + (if history[n].at >= cutoff then {n} else {})
            && LateFailed(history, cutoff)
                 == LateFailed(history[..n], cutoff)
                    + (if history[n].at >= cutoff && !history[n].success then {n} else {})
  {
    var n := |history| - 1;
    assert forall i :: 0 <= i < n ==> history[..n][i] == history[i];
  }

  lemma {:induction false} RecentCounts(history: seq<Sample>, cutoff: int)
    ensures |Recent(history, cutoff)| == |Late(history, cutoff)|
    ensures CountFailed(Recent(history, cutoff)) == |LateFailed(history, cutoff)|
  {
    if history != [] {
      var front, last := history[..|history| - 1], history[|history| - 1];
      RecentCounts(front, cutoff);
      LateGrows(history, cutoff);
      if last.at >= cutoff {
        CountFailedAppend(Recent(front, cutoff), last);
      } else {
        assert Recent(front, cutoff) + [] == Recent(front, cutoff);
      }
    }
  }

  lemma CountFailedAppend(samples: seq<Sample>, last: Sample)
    ensures CountFailed(samples + [last]) == CountFailed(samples) + if last.success then 0 else 1
  {
    assert (samples + [last])[..|samples|] == samples;
  }

  /** The rate trigger: enough samples, and at least the given part of them failures; a rate or window of zero turns it
      off. */
  lemma RateMeans(cfg: Config, window: seq<Sample>)
    ensures RateExceeded(cfg, window) <==>
              && cfg.failureRate > 0.0 && cfg.windowSize > 0 && |window| > 0 && |window| >= cfg.minRequests
              && |set i | 0 <= i < |window| && !window[i].success| as real >= cfg.failureRate * |window| as real
  {
    CountFailedIs(window);
  }

  /** Every recorded outcome is kept, whatever the mode. */
  lemma OutcomeIsKept(cfg: Config, b: Breaker, now: int, success: bool)
    ensures AfterRecord(cfg, b, now, success).history == b.history + [Sample(now, success)]
    ensures AfterAllow(cfg, b, now).history == AfterObserve(cfg, b, now).history == b.history
  {
  }

  // ---------- when the front-pruned window is the filter of the whole history ----------

  ghost predicate Monotone(history: seq<Sample>) {
    forall i, j :: 0 <= i <= j < |history| ==> history[i].at <= history[j].at
  }

  lemma RecentAll(s: seq<Sample>, cutoff: int)
    requires forall i :: 0 <= i < |s| ==> s[i].at >= cutoff
    ensures Recent(s, cutoff) == s
  {
    if s != [] {
      RecentAll(s[..|s| - 1], cutoff);
      assert s == s[..|s| - 1] + [s[|s| - 1]];
    }
  }

  lemma {:induction false} RecentConcat(s: seq<Sample>, t: seq<Sample>, cutoff: int)
    ensures Recent(s + t, cutoff) == Recent(s, cutoff) + Recent(t, cutoff)
  {
    if t == [] {
      assert s + t == s;
    } else {
      RecentConcat(s, t[..|t| - 1], cutoff);
      assert (s + t)[..|s + t| - 1] == s + t[..|t| - 1];
    }
  }

  lemma {:induction false} RecentKeepsOnlyRecent(s: seq<Sample>, cutoff: int)
    ensures forall x :: x in Recent(s, cutoff) ==> x.at >= cutoff
  {
    if s != [] {
      RecentKeepsOnlyRecent(s[..|s| - 1], cutoff);
    }
  }

  lemma {:induction false} RecentNonempty(s: seq<Sample>, cutoff: int)
    ensures Recent(s, cutoff) != [] <==> exists i :: 0 <= i < |s| && s[i].at >= cutoff
  {
    if s != [] {
      RecentNonempty(s[..|s| - 1], cutoff);
      assert forall i :: 0 <= i < |s| - 1 ==> s[..|s| - 1][i] == s[i];
    }
  }

  /** The first sample from index i on that is not before the cutoff. */
  function FirstFrom(history: seq<Sample>, i: nat, cutoff: int): (r: nat)
    requires i <= |history|
    ensures i <= r <= |history|
    ensures forall k :: i <= k < r ==> history[k].at < cutoff
    ensures r < |history| ==> history[r].at >= cutoff
    decreases |history| - i
  {
    if i == |history| || history[i].at >= cutoff then i else FirstFrom(history, i + 1, cutoff)
  }

  lemma {:induction false} DropOldFrom(history: seq<Sample>, i: nat, cutoff: int)
    requires i <= |history|
    ensures DropOld(history[i..], cutoff) == history[FirstFrom(history, i, cutoff)..]
    decreases |history| - i
  {
    if i < |history| && history[i].at < cutoff {
      DropOldFrom(history, i + 1, cutoff);
      assert history[i..][1..] == history[i + 1..];
    }
  }

  /** Where in the history the window starts that the program holds. */
  function Start(history: seq<Sample>, windowSize: int): (r: nat)
    requires windowSize > 0
    ensures history != [] ==> r < |history| && history[r].at >= history[|history| - 1].at - windowSize
    ensures history == [] ==> r == 0
  {
    if history == [] then 0
    else
      var n := |history| - 1;
      FirstFrom(history, Start(history[..n], windowSize), history[n].at - windowSize)
  }

  lemma DropOldAfterAppend(history: seq<Sample>, start: nat, cutoff: int)
    requires history != [] && start < |history|
    ensures var n := |history| - 1;
            DropOld(history[..n][start..] + [history[n]], cutoff) == history[FirstFrom(history, start, cutoff)..]
  {
    var n := |history| - 1;
    assert history[..n][start..] + [history[n]] == history[start..];
    DropOldFrom(history, start, cutoff);
  }

  lemma {:induction false} PrunedFrom(history: seq<Sample>, windowSize: int)
    requires windowSize > 0
    ensures Pruned(history, windowSize) == history[Start(history, windowSize)..]
  {
    if history != [] {
      var n := |history| - 1;
      PrunedFrom(history[..n], windowSize);
      DropOldAfterAppend(history, Start(history[..n], windowSize), history[n].at - windowSize);
    }
  }

  /** No sample from index q on was taken after the limit. */
  ghost predicate Within(history: seq<Sample>, q: nat, limit: int) {
    forall k :: q <= k < |history| ==> history[k].at <= limit
  }

  lemma WithinLast(history: seq<Sample>, q: nat, limit: int)
    requires q < |history|
    ensures var n := |history| - 1;
            Within(history, q, limit) == (Within(history[..n], q, limit) && history[n].at <= limit)
  {
    var n := |history| - 1;
    assert forall k :: 0 <= k < n ==> history[..n][k] == history[k];
  }

  /** The window still reaches back to sample q, later than all before it, exactly if no sample since was taken more
      than a window's length after it. */
  lemma {:induction false} StartReaches(history: seq<Sample>, windowSize: int, q: nat)
    requires windowSize > 0 && q < |history| && forall i :: 0 <= i < q ==> history[i].at < history[q].at
    ensures Start(history, windowSize) <= q <==> Within(history, q, history[q].at + windowSize)
  {
    var n, limit := |history| - 1, history[q].at + windowSize;
    if q == n {
      assert Within(history, q, limit);
    } else {
      var front := history[..n];
      assert Start(front, windowSize) <= q <==> Within(front, q, limit) by {
        assert front[q] == history[q] && forall i :: 0 <= i < q ==> front[i] == history[i];
        StartReaches(front, windowSize, q);
      }
      WithinLast(history, q, limit);
      StartAdvances(history, windowSize, q);
    }
  }

  lemma StartAdvances(history: seq<Sample>, windowSize: int, q: nat)
    requires windowSize > 0 && q < |history| && forall i :: 0 <= i < q ==> history[i].at < history[q].at
    ensures var n := |history| - 1;
            Start(history, windowSize) <= q <==>
              Start(history[..n], windowSize) <= q && history[n].at <= history[q].at + windowSize
  {
    var n := |history| - 1;
    var start := Start(history[..n], windowSize);
    if start <= q {
      FirstFromReaches(history, start, history[n].at - windowSize, q);
    }
  }

  lemma FirstFromReaches(history: seq<Sample>, i: nat, cutoff: int, q: nat)
    requires i <= q < |history| && forall k :: 0 <= k < q ==> history[k].at < history[q].at
    ensures FirstFrom(history, i, cutoff) <= q <==> history[q].at >= cutoff
  {
    var r := FirstFrom(history, i, cutoff);
    if r < q {
      assert cutoff <= history[r].at < history[q].at;
    }
  }

  /** Exactly the samples from index p on are not before the cutoff. */
  ghost predicate SplitsAt(history: seq<Sample>, p: nat, cutoff: int) {
    forall j :: 0 <= j < |history| ==> (history[j].at >= cutoff <==> p <= j)
  }

  lemma SplitFilters(history: seq<Sample>, p: nat, cutoff: int)
    requires p <= |history| && SplitsAt(history, p, cutoff)
    ensures history[p..] == Recent(history, cutoff)
  {
    RecentSplit(history, p, cutoff);
    RecentNonempty(history[..p], cutoff);
    RecentAll(history[p..], cutoff);
  }

  lemma LateIsFilter(early: seq<Sample>, late: seq<Sample>, cutoff: int)
    requires Recent(early + late, cutoff) == late
    ensures forall x :: x in late ==> x.at >= cutoff
    ensures forall x :: x in early ==> x.at < cutoff
  {
    RecentKeepsOnlyRecent(early + late, cutoff);
    assert Recent(late, cutoff) == late by {
      RecentAll(late, cutoff);
    }
    RecentConcat(early, late, cutoff);
    assert |Recent(early, cutoff)| + |late| == |late|;
    RecentNonempty(early, cutoff);
  }

  lemma FilterSplits(history: seq<Sample>, p: nat, cutoff: int)
    requires p <= |history| && history[p..] == Recent(history, cutoff)
    ensures SplitsAt(history, p, cutoff)
  {
    assert history[..p] + history[p..] == history;
    LateIsFilter(history[..p], history[p..], cutoff);
    PartsSplit(history, p, cutoff);
  }

  lemma PartsSplit(history: seq<Sample>, p: nat, cutoff: int)
    requires p <= |history|
    requires forall x :: x in history[p..] ==> x.at >= cutoff
    requires forall x :: x in history[..p] ==> x.at < cutoff
    ensures SplitsAt(history, p, cutoff)
  {
    forall j | 0 <= j < |history|
      ensures history[j].at >= cutoff <==> p <= j
    {
      if j < p {
        assert history[j] in history[..p];
      } else {
        assert history[p..][j - p] in history[p..];
      }
    }
  }

  /** The window the program holds after recording a history is the filter of the whole history by the time window
      ending at the latest sample if and only if every sample from the first recent one on is recent too and was taken
      at most a window's length after that first one. */
  lemma WindowIsFilterIff(history: seq<Sample>, windowSize: int)
    requires windowSize > 0 && history != []
    ensures var cutoff := history[|history| - 1].at - windowSize;
            var q := FirstFrom(history, 0, cutoff);
            && q < |history|
            && (Pruned(history, windowSize) == Recent(history, cutoff) <==>
                forall j :: q <= j < |history| ==> cutoff <= history[j].at <= history[q].at + windowSize)
  {
    var cutoff := history[|history| - 1].at - windowSize;
    var q, p := FirstFrom(history, 0, cutoff), Start(history, windowSize);
    PrunedFrom(history, windowSize);
    StartReaches(history, windowSize, q);
    if history[p..] == Recent(history, cutoff) {
      FilterSplits(history, p, cutoff);
      assert p <= q;
    } else if forall j :: q <= j < |history| ==> cutoff <= history[j].at <= history[q].at + windowSize {
      assert p == q;
      SplitFilters(history, p, cutoff);
      assert false;
    }
  }

  lemma RecentSplit(history: seq<Sample>, i: nat, cutoff: int)
    requires i <= |history|
    ensures Recent(history, cutoff) == Recent(history[..i], cutoff) + Recent(history[i..], cutoff)
  {
    RecentConcat(history[..i], history[i..], cutoff);
    assert history[..i] + history[i..] == history;
  }

  /** So under a clock that never steps back it always is. */
  lemma WindowIsFilterOfHistory(history: seq<Sample>, windowSize: int)
    requires windowSize > 0 && history != [] && Monotone(history)
    ensures Pruned(history, windowSize) == Recent(history, history[|history| - 1].at - windowSize)
  {
    WindowIsFilterIff(history, windowSize);
  }

  /** Without the clock assumption the two differ: a stale sample behind a newer one survives the front scan. */
  lemma StaleSampleSurvives()
    ensures var h := [Sample(10, true), Sample(0, false), Sample(15, true)];
            Sample(0, false) in Pruned(h, 8) && Sample(0, false) !in Recent(h, 15 - 8)
  {
    var h := [Sample(10, true), Sample(0, false), Sample(15, true)];
    assert h[..2] == [Sample(10, true), Sample(0, false)] && h[..2][..1] == [Sample(10, true)];
    assert h[..1] == [Sample(10, true)];
    assert Pruned(h[..1], 8) == [Sample(10, true)] by {
      assert h[..1][..0] == [];
      assert [] + [Sample(10, true)] == [Sample(10, true)];
    }
    assert Pruned(h[..2], 8) == h[..2];
    assert Pruned(h, 8) == h by { assert h[..2] + [h[2]] == h; }
    assert h[1] == Sample(0, false);
    RecentKeepsOnlyRecent(h, 7);
  }

  lemma TrailingAfterFailure(history: seq<Sample>, now: int)
    ensures Trailing(history + [Sample(now, false)]) == Trailing(history) + 1
  {
    assert (history + [Sample(now, false)])[..|history|] == history;
  }

  // ---------- the implementation ----------

  class InMemoryCircuitBreaker {
    const failureThreshold: int
    const resetTimeout: int
    const failureRate: real
    const minRequests: int
    const windowSize: int
    const halfOpenMaxCalls: int

    var state: Mode
    var failureCount: int
    var openedAt: int
    var halfOpenInflight: nat
    var samples: seq<Sample>

    ghost var history: seq<Sample>  // every sample recorded so far

    function Cfg(): Config {
      Config(failureThreshold, resetTimeout, failureRate, minRequests, windowSize, halfOpenMaxCalls)
    }

    ghost function Abs(): Breaker
      reads this
    {
      Breaker(state, openedAt, halfOpenInflight, history)
    }

    ghost predicate Valid()
      reads this
    {
      && Cfg().Valid()
      && samples == Pruned(history, windowSize)
      && (state == Closed ==> failureCount == Trailing(history) && failureCount < failureThreshold)
    }

    constructor (cfg: Config)
      ensures Valid() && Abs() == INITIAL
      ensures cfg.Valid() ==> Cfg() == cfg
      ensures Cfg() == cfg.(
                failureThreshold := if cfg.failureThreshold > 0 then cfg.failureThreshold else 3,
                resetTimeout := if cfg.resetTimeout > 0 then cfg.resetTimeout else 30_000_000_000,
                failureRate := if cfg.failureRate < 0.0 then 0.0
                               else if cfg.failureRate > 1.0 then 1.0 else cfg.failureRate,
                minRequests := if cfg.minRequests < 0 then 0 else cfg.minRequests,
                halfOpenMaxCalls := if cfg.halfOpenMaxCalls > 0 then cfg.halfOpenMaxCalls else 1)
    {
      failureThreshold := if cfg.failureThreshold <= 0 then DEFAULT_CONFIG.failureThreshold else cfg.failureThreshold;
      resetTimeout := if cfg.resetTimeout <= 0 then DEFAULT_CONFIG.resetTimeout else cfg.resetTimeout;
      halfOpenMaxCalls := if cfg.halfOpenMaxCalls <= 0 then 1 else cfg.halfOpenMaxCalls;
      minRequests := if cfg.minRequests < 0 then 0 else cfg.minRequests;
      failureRate := if cfg.failureRate < 0.0 then 0.0 else if cfg.failureRate > 1.0 then 1.0 else cfg.failureRate;
      windowSize := cfg.windowSize;
      state, failureCount, openedAt, halfOpenInflight, samples, history := Closed, 0, 0, 0, [], [];
    }

    method Allow(now: int) returns (admitted: bool)
      requires Valid()
      modifies this
      ensures Valid()
      ensures Abs() == AfterAllow(Cfg(), old(Abs()), now)
      ensures admitted == Admits(Cfg(), old(Abs()), now)
      ensures old(state) == Closed ==> admitted && state == Closed
      ensures old(state) == Open && now - openedAt < resetTimeout ==> !admitted && state == Open
      ensures old(state) == Open && now - openedAt >= resetTimeout ==>
                admitted && state == HalfOpen && halfOpenInflight == 1
      ensures old(state) == HalfOpen ==>
                && state == HalfOpen && admitted == (old(halfOpenInflight) < halfOpenMaxCalls)
                && halfOpenInflight == old(halfOpenInflight) + if admitted then 1 else 0
      ensures history == old(history) && openedAt == old(openedAt)
    {
      MaybeTransitionToHalfOpen(now);
      match state
      case Closed => admitted := true;
      case HalfOpen =>
        if halfOpenInflight >= halfOpenMaxCalls {
          admitted := false;
        } else {
          halfOpenInflight := halfOpenInflight + 1;
          admitted := true;
        }
      case Open => admitted := false;
    }

    method RecordSuccess(now: int)
      requires Valid()
      modifies this
      ensures Valid()
      ensures Abs() == AfterRecord(Cfg(), old(Abs()), now, true)
      ensures history == old(history) + [Sample(now, true)]
      ensures state == if old(state) == Open then Open else Closed
      ensures old(state) == HalfOpen ==> halfOpenInflight == 0
      ensures old(state) != HalfOpen ==> halfOpenInflight == old(halfOpenInflight) && openedAt == old(openedAt)
    {
      AppendSample(now, true);
      match state
      case HalfOpen => ToClosed();
      case Closed => failureCount := 0;
      case Open =>
    }

    method RecordFailure(now: int)
      requires Valid()
      modifies this
      ensures Valid()
      ensures Abs() == AfterRecord(Cfg(), old(Abs()), now, false)
      ensures history == old(history) + [Sample(now, false)]
      ensures old(state) == HalfOpen ==> state == Open && openedAt == now && halfOpenInflight == 0
      ensures old(state) == Open ==> state == Open && openedAt == old(openedAt)
      ensures old(state) == Closed ==> state == Closed || (state == Open && openedAt == now && halfOpenInflight == 0)
    {
      AppendSample(now, false);
      match state
      case HalfOpen =>
        ToOpen(now);
        return;
      case Open =>
        return;
      case Closed =>
        failureCount := failureCount + 1;
        var exceeded := FailureRateExceeded(now);
        TrailingAfterFailure(old(history), now);
        assert (failureCount >= failureThreshold || exceeded) == Trips(Cfg(), history);
        if failureCount >= failureThreshold || exceeded {
          ToOpen(now);
        }
    }

    method State(now: int) returns (s: Mode)
      requires Valid()
      modifies this
      ensures Valid()
      ensures Abs() == AfterObserve(Cfg(), old(Abs()), now) && s == Abs().mode
    {
      MaybeTransitionToHalfOpen(now);
      s := state;
    }

    method MaybeTransitionToHalfOpen(now: int)
      requires Valid()
      modifies this`state, this`halfOpenInflight
      ensures Valid()
      ensures Abs() == AfterObserve(Cfg(), old(Abs()), now)
    {
      if state != Open {
        return;
      }
      if now - openedAt < resetTimeout {
        return;
      }
      state := HalfOpen;
      halfOpenInflight := 0;
    }

    method ToOpen(now: int)
      modifies this`state, this`openedAt, this`halfOpenInflight
      ensures state == Open && openedAt == now && halfOpenInflight == 0
    {
      state := Open;
      openedAt := now;
      halfOpenInflight := 0;
    }

    method ToClosed()
      modifies this`state, this`failureCount, this`openedAt, this`halfOpenInflight
      ensures state == Closed && failureCount == 0 && openedAt == 0 && halfOpenInflight == 0
    {
      state := Closed;
      failureCount := 0;
      openedAt := 0;
      halfOpenInflight := 0;
    }

    method AppendSample(now: int, success: bool)
      requires samples == Pruned(history, windowSize)
      modifies this`samples, this`history
      ensures history == old(history) + [Sample(now, success)]
      ensures samples == Pruned(history, windowSize)
    {
      history := history + [Sample(now, success)];
      assert history[..|history| - 1] == old(history);
      if windowSize <= 0 {
        return;
      }
      samples := samples + [Sample(now, success)];
      PruneSamples(now);
    }

    method PruneSamples(now: int)
      modifies this`samples
      ensures samples == if windowSize <= 0 then [] else DropOld(old(samples), now - windowSize)
    {
      if windowSize <= 0 {
        samples := [];
        return;
      }
      var cutoff := now - windowSize;
      var idx := 0;
      while idx < |samples|
        invariant 0 <= idx <= |samples|
        invariant DropOld(samples[idx..], cutoff) == DropOld(old(samples), cutoff)
        invariant samples == old(samples)
      {
        if samples[idx].at >= cutoff {
          break;
        }
        assert samples[idx..][1..] == samples[idx + 1..];
        idx := idx + 1;
      }
      if idx > 0 {
        samples := samples[idx..];
      }
    }

    method FailureRateExceeded(now: int) returns (exceeded: bool)
      requires samples == Pruned(history, windowSize)
      requires history != [] && history[|history| - 1].at == now
      modifies this`samples
      ensures samples == old(samples)
      ensures exceeded == RateExceeded(Cfg(), samples)
    {
      if failureRate <= 0.0 || windowSize <= 0 {
        return false;
      }
      PruneSamples(now);
      DropOldTwice(Pruned(history[..|history| - 1], windowSize) + [history[|history| - 1]], now - windowSize);
      var total := |samples|;
      if total < minRequests || total == 0 {
        return false;
      }
      var failed := 0;
      for i := 0 to total
        invariant failed == CountFailed(samples[..i])
      {
        assert samples[..i + 1][..i] == samples[..i];
        if !samples[i].success {
          failed := failed + 1;
        }
      }
      assert samples[..total] == samples;
      var rate := failed as real / total as real;
      return rate >= failureRate;
    }
  }

  lemma {:induction false} DropOldTwice(s: seq<Sample>, cutoff: int)
    ensures DropOld(DropOld(s, cutoff), cutoff) == DropOld(s, cutoff)
  {
    if s != [] && s[0].at < cutoff {
      DropOldTwice(s[1..], cutoff);
    }
  }
}
