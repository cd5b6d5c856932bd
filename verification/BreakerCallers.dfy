/** Any number of concurrent callers sharing one circuit breaker.  A call asks the breaker, and if admitted records
    exactly one outcome later, as the send handler does.  Calls interleave freely.  A caller reads the common clock
    before its turn with the breaker comes, so the reading it brings may be late, by at most `delay`. */
module BreakerCallers {
  import opened Basics
  import opened CircuitBreaker

  type CallId = nat

  /** `now` is the time of the breaker call, `at` the reading it is made with. */
  datatype Op =
    | Ask(call: CallId, now: int, at: int)
    | Finish(call: CallId, now: int, at: int, success: bool)
    | Look(now: int, at: int)

  /** `episode` counts the half-open episodes so far; an outstanding call carries the count at its admission. */
  datatype System = System(breaker: Breaker, clock: int, delay: nat, episode: nat, outstanding: map<CallId, nat>)

  function Fresh(clock: int, delay: nat): System {
    System(INITIAL, clock, delay, 0, map[])
  }

  predicate Enabled(s: System, op: Op) {
    && op.now >= s.clock && op.now - s.delay <= op.at <= op.now
    && (op.Ask? ==> op.call !in s.outstanding)
    && (op.Finish? ==> op.call in s.outstanding)
  }

  function EpisodeAfter(cfg: Config, s: System, at: int): nat {
    if s.breaker.mode == Open && AfterObserve(cfg, s.breaker, at).mode == HalfOpen then s.episode + 1 else s.episode
  }

  function Step(cfg: Config, s: System, op: Op): System
    requires Enabled(s, op)
  {
    match op
    case Ask(call, now, at) =>
      var episode := EpisodeAfter(cfg, s, at);
      System(AfterAllow(cfg, s.breaker, at), now, s.delay, episode,
             if Admits(cfg, s.breaker, at) then s.outstanding[call := episode] else s.outstanding)
    case Finish(call, now, at, success) =>
      System(AfterRecord(cfg, s.breaker, at, success), now, s.delay, s.episode, s.outstanding - {call})
    case Look(now, at) =>
      System(AfterObserve(cfg, s.breaker, at), now, s.delay, EpisodeAfter(cfg, s, at), s.outstanding)
  }

  predicate ValidRun(cfg: Config, s: System, ops: seq<Op>)
    decreases |ops|, 0
  {
    ops == [] || (ValidRun(cfg, s, ops[..|ops| - 1]) && Enabled(Run(cfg, s, ops[..|ops| - 1]), ops[|ops| - 1]))
  }

  function Run(cfg: Config, s: System, ops: seq<Op>): System
    requires ValidRun(cfg, s, ops)
    decreases |ops|, 1
  {
    if ops == [] then s else Step(cfg, Run(cfg, s, ops[..|ops| - 1]), ops[|ops| - 1])
  }

  /** Outstanding calls admitted in the current half-open episode. */
  function Probes(s: System): set<CallId> {
    set c | c in s.outstanding && s.outstanding[c] == s.episode
  }

  ghost predicate Inv(cfg: Config, s: System) {
    && (forall c :: c in s.outstanding ==> s.outstanding[c] <= s.episode)
    && (s.breaker.mode == HalfOpen ==> s.breaker.inflight == |Probes(s)| && |Probes(s)| <= cfg.halfOpenMaxCalls)
    && (s.breaker.mode != HalfOpen ==> s.breaker.inflight == 0)
  }

  lemma StepKeepsInv(cfg: Config, s: System, op: Op)
    requires cfg.Valid() && Inv(cfg, s) && Enabled(s, op)
    ensures Inv(cfg, Step(cfg, s, op))
  {
    var s' := Step(cfg, s, op);
    match op
    case Ask(call, now, at) =>
      if Admits(cfg, s.breaker, at) {
        if s'.episode == s.episode {
          assert Probes(s') == Probes(s) + {call};
        } else {
          assert Probes(s') == {call};
        }
      } else if s'.episode == s.episode {
        assert Probes(s') == Probes(s);
      }
    case Look(now, at) =>
      if s'.episode == s.episode {
        assert Probes(s') == Probes(s);
      } else {
        assert Probes(s') == {};
      }
    case Finish(call, now, at, success) =>
  }

  /** In every run from a fresh breaker: while half-open, the probe counter is exactly the number of admitted and
      still unrecorded calls of this episode, never above the limit; so a rejection in the half-open state always
      has an outstanding probe whose outcome will move the breaker on. */
  lemma {:induction false} HalfOpenSoundness(cfg: Config, clock: int, delay: nat, ops: seq<Op>)
    requires cfg.Valid()
    requires ValidRun(cfg, Fresh(clock, delay), ops)
    ensures var s := Run(cfg, Fresh(clock, delay), ops);
            && Inv(cfg, s)
            && (forall at :: s.breaker.mode == HalfOpen && !Admits(cfg, s.breaker, at) ==>
                  exists c :: c in s.outstanding && s.outstanding[c] == s.episode)
  {
    var s0 := Fresh(clock, delay);
    if ops != [] {
      var before := ops[..|ops| - 1];
      HalfOpenSoundness(cfg, clock, delay, before);
      StepKeepsInv(cfg, Run(cfg, s0, before), ops[|ops| - 1]);
    }
    var s := Run(cfg, s0, ops);
    forall at | s.breaker.mode == HalfOpen && !Admits(cfg, s.breaker, at)
      ensures exists c :: c in s.outstanding && s.outstanding[c] == s.episode
    {
      assert |Probes(s)| > 0;
      var c :| c in Probes(s);
    }
  }

  // ---------- opening ----------

  lemma {:induction false} RunHistoryMonotone(cfg: Config, clock: int, ops: seq<Op>)
    requires ValidRun(cfg, Fresh(clock, 0), ops)
    ensures var s := Run(cfg, Fresh(clock, 0), ops);
            s.delay == 0 && Monotone(s.breaker.history) && forall i :: 0 <= i < |s.breaker.history| ==>
                s.breaker.history[i].at <= s.clock
  {
    if ops != [] {
      RunHistoryMonotone(cfg, clock, ops[..|ops| - 1]);
    }
  }

  /** In every run with readings that are not late, an outcome recorded in the closed state opens the breaker exactly if
      it is a failure and either the latest failureThreshold outcomes ever recorded are failures, or among all outcomes
      ever recorded that lie inside the window there are enough and the failure rate is reached. */
  lemma OpensByFullHistory(cfg: Config, clock: int, ops: seq<Op>, call: CallId, at: int, success: bool)
    requires cfg.Valid() && ValidRun(cfg, Fresh(clock, 0), ops)
    requires var s := Run(cfg, Fresh(clock, 0), ops);
             s.breaker.mode == Closed && Enabled(s, Finish(call, at, at, success))
    ensures var s := Run(cfg, Fresh(clock, 0), ops);
            var h := s.breaker.history + [Sample(at, success)];
            Step(cfg, s, Finish(call, at, at, success)).breaker.mode == Open <==>
              !success && (AllFailed(h, cfg.failureThreshold) || RateExceeded(cfg, Recent(h, at - cfg.windowSize)))
  {
    RunHistoryMonotone(cfg, clock, ops);
    var s := Run(cfg, Fresh(clock, 0), ops);
    var h := s.breaker.history + [Sample(at, success)];
    TrailingMeans(h, cfg.failureThreshold);
    if cfg.windowSize > 0 {
      WindowIsFilterOfHistory(h, cfg.windowSize);
    }
    TripsBy(cfg, h, Recent(h, at - cfg.windowSize));
  }

  /** The same in counts: with n outcomes of the whole history inside the window and f failures among them, the rate
      opens the breaker if and only if it is switched on, n reaches minRequests, and f is at least its part of n. */
  lemma RateByCounts(cfg: Config, history: seq<Sample>, at: int)
    ensures var n, f := |Late(history, at - cfg.windowSize)|, |LateFailed(history, at - cfg.windowSize)|;
            RateExceeded(cfg, Recent(history, at - cfg.windowSize)) <==>
              && cfg.failureRate > 0.0 && cfg.windowSize > 0 && n > 0 && n >= cfg.minRequests
              && f as real >= cfg.failureRate * n as real
  {
    RecentCounts(history, at - cfg.windowSize);
    var n, f := |Late(history, at - cfg.windowSize)|, |LateFailed(history, at - cfg.windowSize)|;
    if n > 0 {
      QuotientAtLeast(f, n, cfg.failureRate);
    }
  }

  lemma QuotientAtLeast(f: nat, n: nat, rate: real)
    requires n > 0
    ensures f as real / n as real >= rate <==> f as real >= rate * n as real
  {
  }

  lemma TripsBy(cfg: Config, history: seq<Sample>, window: seq<Sample>)
    requires cfg.windowSize > 0 ==> window == Pruned(history, cfg.windowSize)
    ensures Trips(cfg, history) == (Trailing(history) >= cfg.failureThreshold || RateExceeded(cfg, window))
  {
    if cfg.windowSize > 0 {
      assert RateExceeded(cfg, window) == RateExceeded(cfg, Pruned(history, cfg.windowSize));
    }
  }

  /** The latest n outcomes exist and are failures. */
  ghost predicate AllFailed(history: seq<Sample>, n: int) {
    n <= |history| && forall i :: |history| - n <= i < |history| && i >= 0 ==> !history[i].success
  }

  lemma {:induction false} TrailingMeans(history: seq<Sample>, n: int)
    requires n >= 0
    ensures Trailing(history) >= n <==> AllFailed(history, n)
  {
    if n > 0 && history != [] && !history[|history| - 1].success {
      TrailingMeans(history[..|history| - 1], n - 1);
    }
  }

  /** The outcomes of a run, in the order they were recorded. */
  function Outcomes(ops: seq<Op>): seq<Sample> {
    if ops == [] then []
    else
      var last := ops[|ops| - 1];
      Outcomes(ops[..|ops| - 1]) + if last.Finish? then [Sample(last.at, last.success)] else []
  }

  lemma {:induction false} HistoryIsAllOutcomes(cfg: Config, s: System, ops: seq<Op>)
    requires ValidRun(cfg, s, ops)
    ensures Run(cfg, s, ops).breaker.history == s.breaker.history + Outcomes(ops)
  {
    if ops != [] {
      var before, last := ops[..|ops| - 1], ops[|ops| - 1];
      HistoryIsAllOutcomes(cfg, s, before);
      var b := Run(cfg, s, before).breaker;
      OutcomeIsKept(cfg, b, last.at, true);
      OutcomeIsKept(cfg, b, last.at, false);
    }
  }

  // ---------- recovery ----------

  /** An outcome recorded while half-open decides: a success closes the breaker, a failure opens it anew; either way no
      probe is counted any more. */
  lemma ProbeDecides(cfg: Config, s: System, op: Op)
    requires Enabled(s, op) && op.Finish? && s.breaker.mode == HalfOpen
    ensures var b := Step(cfg, s, op).breaker;
            && b.inflight == 0 && (op.success ==> b.mode == Closed)
            && (!op.success ==> b.mode == Open && b.openedAt == op.at)
  {
  }

  /** A closed breaker admits every call and stays closed while no failure is recorded. */
  lemma {:induction false} ClosedAdmitsAll(cfg: Config, s: System, ops: seq<Op>)
    requires ValidRun(cfg, s, ops) && s.breaker.mode == Closed
    requires forall i :: 0 <= i < |ops| && ops[i].Finish? ==> ops[i].success
    ensures Run(cfg, s, ops).breaker.mode == Closed
    ensures forall at :: Admits(cfg, Run(cfg, s, ops).breaker, at)
  {
    if ops != [] {
      ClosedAdmitsAll(cfg, s, ops[..|ops| - 1]);
    }
  }

  /** Recovery: from any half-open state, if all later outcomes are successes, the breaker stays half-open until the
      first of them is recorded, whichever call it belongs to, and from then on it is closed and admits every call. */
  lemma {:induction false} Recovers(cfg: Config, s: System, ops: seq<Op>)
    requires ValidRun(cfg, s, ops) && s.breaker.mode == HalfOpen
    requires forall i :: 0 <= i < |ops| && ops[i].Finish? ==> ops[i].success
    ensures var b := Run(cfg, s, ops).breaker;
            if exists i :: 0 <= i < |ops| && ops[i].Finish?
            then b.mode == Closed && forall at :: Admits(cfg, b, at)
            else b.mode == HalfOpen
  {
    if ops != [] {
      var n := |ops| - 1;
      Recovers(cfg, s, ops[..n]);
      assert forall i :: 0 <= i < n ==> ops[..n][i] == ops[i];
      if ops[n].Finish? && Run(cfg, s, ops[..n]).breaker.mode == HalfOpen {
        ProbeDecides(cfg, Run(cfg, s, ops[..n]), ops[n]);
      }
    }
  }

  /** An open breaker comes back: a call that asks once the reset timeout has passed is admitted, and when it succeeds
      the breaker is closed. */
  lemma OpenComesBack(cfg: Config, s: System, call: CallId, now: int, at: int, done: int, doneAt: int)
    requires cfg.Valid() && s.breaker.mode == Open && at - s.breaker.openedAt >= cfg.resetTimeout
    requires Enabled(s, Ask(call, now, at)) && now <= done && done - s.delay <= doneAt <= done
    ensures Admits(cfg, s.breaker, at)
    ensures var asked := Step(cfg, s, Ask(call, now, at));
            && asked.breaker.mode == HalfOpen && Enabled(asked, Finish(call, done, doneAt, true))
            && Step(cfg, asked, Finish(call, done, doneAt, true)).breaker.mode == Closed
  {
  }

  // ---------- load on the gateway after an opening ----------

  function Admitted(cfg: Config, s: System, ops: seq<Op>): nat
    requires ValidRun(cfg, s, ops)
  {
    if ops == [] then 0
    else
      var before := ops[..|ops| - 1];
      var last := ops[|ops| - 1];
      Admitted(cfg, s, before) + if last.Ask? && Admits(cfg, Run(cfg, s, before).breaker, last.at) then 1 else 0
  }

  /** The breaker has not closed again anywhere in the run. */
  ghost predicate NeverCloses(cfg: Config, s: System, ops: seq<Op>)
    requires ValidRun(cfg, s, ops)
  {
    Run(cfg, s, ops).breaker.mode != Closed && (ops == [] || NeverCloses(cfg, s, ops[..|ops| - 1]))
  }

  /** After an opening at t0 and `episodes` half-open episodes since: each took a reset timeout to come, but for the
      delay of the reading that reopened the breaker before it, and let through at most halfOpenMaxCalls calls. */
  ghost predicate Spaced(cfg: Config, t0: int, e: System, episodes: nat, admitted: nat) {
    var apart := cfg.resetTimeout - e.delay;
    && t0 <= e.clock && e.breaker.openedAt <= e.clock
    && (e.breaker.mode == Open ==>
          e.breaker.openedAt >= t0 + episodes * apart && admitted <= cfg.halfOpenMaxCalls * episodes)
    && (e.breaker.mode == HalfOpen ==>
          && episodes >= 1
          && e.clock >= t0 + episodes * apart + e.delay
          && admitted <= cfg.halfOpenMaxCalls * (episodes - 1) + e.breaker.inflight
          && e.breaker.inflight <= cfg.halfOpenMaxCalls)
  }

  lemma SpacedStep(cfg: Config, t0: int, m: System, episodes: nat, admitted: nat, op: Op)
    requires cfg.Valid() && Enabled(m, op) && m.breaker.mode != Closed && Step(cfg, m, op).breaker.mode != Closed
    requires Spaced(cfg, t0, m, episodes, admitted)
    ensures var e := Step(cfg, m, op);
            Spaced(cfg, t0, e, episodes + if m.breaker.mode == Open && e.breaker.mode == HalfOpen then 1 else 0,
                   admitted + if op.Ask? && Admits(cfg, m.breaker, op.at) then 1 else 0)
  {
    var apart := cfg.resetTimeout - m.delay;
    assert cfg.halfOpenMaxCalls * episodes == cfg.halfOpenMaxCalls * (episodes - 1) + cfg.halfOpenMaxCalls;
    assert (episodes + 1) * apart == episodes * apart + apart;
  }

  lemma {:induction false} EpisodesAreSpaced(cfg: Config, s: System, ops: seq<Op>) returns (episodes: nat)
    requires cfg.Valid() && s.breaker.mode == Open && s.breaker.openedAt <= s.clock
    requires ValidRun(cfg, s, ops) && NeverCloses(cfg, s, ops)
    ensures Run(cfg, s, ops).delay == s.delay
    ensures Spaced(cfg, s.breaker.openedAt, Run(cfg, s, ops), episodes, Admitted(cfg, s, ops))
  {
    if ops == [] {
      episodes := 0;
    } else {
      var before := ops[..|ops| - 1];
      episodes := EpisodesAreSpaced(cfg, s, before);
      var m := Run(cfg, s, before);
      SpacedStep(cfg, s.breaker.openedAt, m, episodes, Admitted(cfg, s, before), ops[|ops| - 1]);
      if m.breaker.mode == Open && Run(cfg, s, ops).breaker.mode == HalfOpen {
        episodes := episodes + 1;
      }
    }
  }

  /** From an opening at t0 until the breaker next closes, whoever and however many are calling, with readings late by
      at most a delay below the reset timeout, at most halfOpenMaxCalls calls get through per elapsed reset timeout less
      that delay; with no delay, per elapsed reset timeout. */
  lemma LoadBound(cfg: Config, s: System, ops: seq<Op>)
    requires cfg.Valid() && s.breaker.mode == Open && s.breaker.openedAt <= s.clock && s.delay < cfg.resetTimeout
    requires ValidRun(cfg, s, ops) && NeverCloses(cfg, s, ops)
    ensures Admitted(cfg, s, ops)
         <= ((Run(cfg, s, ops).clock - s.breaker.openedAt) / (cfg.resetTimeout - s.delay)) * cfg.halfOpenMaxCalls
  {
    var episodes := EpisodesAreSpaced(cfg, s, ops);
    var e := Run(cfg, s, ops);
    var elapsed, apart := e.clock - s.breaker.openedAt, cfg.resetTimeout - s.delay;
    AdmittedWithin(Admitted(cfg, s, ops), cfg.halfOpenMaxCalls, episodes, e.breaker.inflight,
                   e.breaker.mode == HalfOpen);
    QuotientBound(episodes, apart, elapsed);
    MulMonotone(episodes, elapsed / apart, cfg.halfOpenMaxCalls);
  }

  lemma AdmittedWithin(admitted: nat, limit: nat, episodes: nat, inflight: nat, halfOpen: bool)
    requires halfOpen ==> episodes >= 1 && inflight <= limit && admitted <= limit * (episodes - 1) + inflight
    requires !halfOpen ==> admitted <= limit * episodes
    ensures admitted <= episodes * limit
  {
    assert limit * (episodes - 1) == limit * episodes - limit;
  }

  /** No call is admitted within resetTimeout of an opening, whatever is recorded meanwhile by calls admitted
      before it. */
  lemma {:induction false} QuietAfterOpening(cfg: Config, s: System, ops: seq<Op>)
    requires cfg.Valid() && s.breaker.mode == Open && ValidRun(cfg, s, ops)
    requires Run(cfg, s, ops).clock < s.breaker.openedAt + cfg.resetTimeout
    ensures Admitted(cfg, s, ops) == 0
    ensures Run(cfg, s, ops).breaker.mode == Open && Run(cfg, s, ops).breaker.openedAt == s.breaker.openedAt
  {
    if ops != [] {
      QuietAfterOpening(cfg, s, ops[..|ops| - 1]);
    }
  }
}
