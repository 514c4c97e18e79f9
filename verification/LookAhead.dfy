/** What the candles read so far already decide about everything a run will publish. */
module LookAhead {
  import opened Domain
  import opened Accounting
  import opened Strategy
  import opened EngineSpec
  import opened OrderTable
  import opened BookInvariant
  import opened RunInvariant
  import opened RunSafety
  import opened RunConclusion
  import opened RunTheorems
  import opened Replay
  import opened ReplayTheorems
  import opened Timing

  /** What two runs share when their candles agree so far. */
  predicate SameSubmissions(a: seq<Order>, b: seq<Order>, n: nat) {
    n <= |a| && n <= |b| && forall i :: 0 <= i < n ==>
      a[i].intent == b[i].intent && a[i].sequence == b[i].sequence
      && a[i].createdAt == b[i].createdAt && a[i].createdIndex == b[i].createdIndex
  }

  lemma {:induction false} EvolvedSubmissions(s: seq<Order>, a: seq<Order>, b: seq<Order>)
    requires Evolves(s, a) && Evolves(s, b)
    ensures SameSubmissions(a, b, |s|)
  {
    forall i | 0 <= i < |s|
      ensures a[i].intent == b[i].intent && a[i].sequence == b[i].sequence
        && a[i].createdAt == b[i].createdAt && a[i].createdIndex == b[i].createdIndex
    {
      assert OrderEvolves(s[i], a[i]) && OrderEvolves(s[i], b[i]);
    }
  }

  /** What `s` had accumulated is the beginning of what the run publishes. The last point of the curve
      is the one thing a run can still change, and it changes exactly when no candle is left to read
      and a forced close follows. */
  predicate Publishes(env: Env, s: State, f: State, left: nat) {
    && s.book.fills <= f.book.fills && s.book.ledger <= f.book.ledger
    && s.calls <= f.calls && s.regimes <= f.regimes
    && |s.equity| <= |f.equity| && (forall i :: 0 <= i < |s.equity| - 1 ==> s.equity[i] == f.equity[i])
    && (s.equity <= f.equity <==> !(left == 0 && ForcesClose(env, s)))
  }

  /** No look-ahead: two runs whose candles agree on the first `k` publish the same submissions,
      fills, ledger postings, strategy calls, regimes and equity points through candle `k`, save for a
      last point that a forced close rewrites. */
  lemma {:induction false} NoLookAhead(env: Env, xs: seq<Candle>, ys: seq<Candle>, cancelX: bool, cancelY: bool, k: nat)
    requires k <= |Visited(env, xs)| && k <= |Visited(env, ys)| && Visited(env, xs)[..k] == Visited(env, ys)[..k]
    requires Run(env, xs, cancelX).Ok? && Run(env, ys, cancelY).Ok?
    ensures StateAfter(env, Visited(env, xs)[..k]).Ok?
    ensures
      var s := StateAfter(env, Visited(env, xs)[..k]).value;
      var x, y := Run(env, xs, cancelX).value, Run(env, ys, cancelY).value;
      && SameSubmissions(x.book.orders, y.book.orders, |s.book.orders|)
      && Publishes(env, s, x, |Visited(env, xs)| - k) && Publishes(env, s, y, |Visited(env, ys)| - k)
  {
    hide StateAfter, Run, Visited, Evolves, Publishes;
    PrefixIsPublished(env, xs, cancelX, k);
    PrefixIsPublished(env, ys, cancelY, k);
    var s := StateAfter(env, Visited(env, xs)[..k]).value;
    EvolvedSubmissions(s.book.orders, Run(env, xs, cancelX).value.book.orders, Run(env, ys, cancelY).value.book.orders);
  }

  lemma {:induction false} PrefixIsPublished(env: Env, candles: seq<Candle>, cancelAtEnd: bool, k: nat)
    requires k <= |Visited(env, candles)| && Run(env, candles, cancelAtEnd).Ok?
    ensures StateAfter(env, Visited(env, candles)[..k]).Ok?
    ensures
      var s, f := StateAfter(env, Visited(env, candles)[..k]).value, Run(env, candles, cancelAtEnd).value;
      Evolves(s.book.orders, f.book.orders) && Publishes(env, s, f, |Visited(env, candles)| - k)
  {
    hide StateAfter, Visited, Conclude, Evolves, FinalInv, ForcesClose;
    var cs := Visited(env, candles);
    var f := Run(env, candles, cancelAtEnd).value;
    RunsNeverAccuseTheirBooks(env, candles, cancelAtEnd);
    RunsOnlyExtend(env, cs, k);
    EveryStateIsSound(env, cs);
    EveryStateIsSound(env, cs[..k]);
    var s, whole := StateAfter(env, cs[..k]).value, StateAfter(env, cs).value;
    GrowsTransitive(s, whole, f);
    if s.processed == f.processed { AllCandlesCounted(env, cs, k, f.processed); }
    if k == |cs| {
      assert cs[..k] == cs;
      EveryStateReplays(env, cs);
      CurveAtTheEnd(env, whole, cancelAtEnd);
    }
  }

  /** Once a candle has been evaluated, every later candle counts. */
  lemma {:induction false} AllCandlesCounted(env: Env, cs: seq<Candle>, k: nat, n: nat)
    requires k <= |cs| && StateAfter(env, cs).Ok? && StateAfter(env, cs[..k]).Ok?
    requires StateAfter(env, cs).value.processed == StateAfter(env, cs[..k]).value.processed == n > 0
    ensures k == |cs|
  {
    hide StepCandle, BookInv, CallsOk, HistoryOk, Punctual, Grows;
    if k < |cs| {
      var rest, c := cs[..|cs| - 1], cs[|cs| - 1];
      assert rest[..k] == cs[..k];
      RunsOnlyExtend(env, rest, k);
      var s := StateAfter(env, rest).value;
      EveryStateIsSound(env, rest);
      StepCounts(env, s, c);
      StepFollows(env, s, c);
    }
  }

  lemma {:induction false} StepFollows(env: Env, s: State, c: Candle)
    requires StepCandle(env, s, c).Ok? && s.lastCandle.Some?
    ensures s.lastCandle.value.openTime < c.openTime
  {
    hide EvaluateCandle, WarmupCandle, ObserveRegime;
  }

  /** The last point shows the position that a forced close then takes to zero. */
  lemma {:induction false} CurveAtTheEnd(env: Env, s: State, cancelAtEnd: bool)
    requires RunInv(env, s) && Replays(env.cfg, s) && Conclude(env, s, cancelAtEnd).Ok?
    ensures var f := Conclude(env, s, cancelAtEnd).value;
      |s.equity| == |f.equity| && (s.equity <= f.equity <==> !ForcesClose(env, s))
  {
    hide Conclude, RunInv, FinalInv, ApplyFill, MarkToMarket, ForcedFill, ReplayTo, Grows;
    ConcludeKeeps(env, s, cancelAtEnd);
    if ForcesClose(env, s) {
      ForcedConclusion(env, s, cancelAtEnd);
      ClosedIsFlat(env, Conclude(env, s, cancelAtEnd).value, cancelAtEnd);
      LastPointShowsBase(env.cfg, s);
      var n := |s.equity| - 1;
      assert Conclude(env, s, cancelAtEnd).value.equity[n].base == 0.0;
    } else {
      ConclusionKeepsCurve(env, s, cancelAtEnd);
    }
  }

  lemma {:induction false} ClosedIsFlat(env: Env, f: State, cancelAtEnd: bool)
    requires FinalInv(env, f, cancelAtEnd) && env.cfg.forceClose
    ensures f.book.portfolio.base == 0.0
  {}

  lemma {:induction false} LastPointShowsBase(cfg: Config, s: State)
    requires Replays(cfg, s) && s.equity != []
    ensures s.equity[|s.equity| - 1].base == s.book.portfolio.base
  {
    hide ApplyAll, MarkToMarket;
  }
}
