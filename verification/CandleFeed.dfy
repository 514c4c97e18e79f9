/** Reading a snapshot: which of its candles a loop over a range visits. */
module CandleFeed {
  import opened Domain

  /** Candles open at or after `start` and before `end`; events may also fall on the end itself. */
  datatype DataRange = DataRange(start: int, end: int) {
    predicate Spans(t: int) { start <= t <= end }

    predicate SpansIfAny(t: Option<int>) { t.Some? ==> Spans(t.value) }
  }

  /** A reading loop skips the candles before its range and stops at the first one past it. */
  predicate Stops(range: DataRange, c: Candle) { c.openTime >= range.start && c.openTime >= range.end }

  /** The candles a reading loop visits. */
  function Read(range: DataRange, cs: seq<Candle>): seq<Candle> {
    if cs == [] then []
    else if cs[0].openTime < range.start then Read(range, cs[1..])
    else if cs[0].openTime >= range.end then []
    else [cs[0]] + Read(range, cs[1..])
  }

  lemma {:induction false} ReadSplit(range: DataRange, cs: seq<Candle>, n: nat)
    requires n <= |cs| && forall i :: 0 <= i < n ==> !Stops(range, cs[i])
    ensures Read(range, cs) == Read(range, cs[..n]) + Read(range, cs[n..])
  {
    if n > 0 {
      assert cs[1..][..n - 1] == cs[..n][1..];
      assert cs[1..][n - 1..] == cs[n..];
      ReadSplit(range, cs[1..], n - 1);
    }
  }

  /** One step of the loop: a candle is skipped, visited, or ends it. */
  lemma {:induction false} ReadOne(range: DataRange, cs: seq<Candle>, n: nat)
    requires n < |cs| && forall i :: 0 <= i < n ==> !Stops(range, cs[i])
    ensures !Stops(range, cs[n]) ==>
      Read(range, cs[..n + 1]) == Read(range, cs[..n]) + (if cs[n].openTime < range.start then [] else [cs[n]])
    ensures Stops(range, cs[n]) ==> Read(range, cs) == Read(range, cs[..n])
  {
    ReadSplit(range, cs, n);
    ReadSplit(range, cs[..n + 1], n);
    assert cs[..n + 1][..n] == cs[..n];
    assert cs[..n + 1][n..] == [cs[n]];
    assert [cs[n]][1..] == [];
  }

  /** Nothing outside the range is ever visited. */
  lemma {:induction false} ReadStaysInRange(range: DataRange, cs: seq<Candle>)
    ensures forall i :: 0 <= i < |Read(range, cs)| ==> range.start <= Read(range, cs)[i].openTime < range.end
  {
    if cs != [] { ReadStaysInRange(range, cs[1..]); }
  }

  predicate Ascends(cs: seq<Candle>) { forall i, j :: 0 <= i < j < |cs| ==> cs[i].openTime < cs[j].openTime }

  lemma {:induction false} AscendsFrom(cs: seq<Candle>, c: Candle)
    requires cs != [] && Ascends(cs)
    ensures Ascends(cs[1..])
    ensures c in cs <==> c == cs[0] || c in cs[1..]
    ensures c in cs[1..] ==> cs[0].openTime < c.openTime
  {
    var rest := cs[1..];
    assert forall j :: 0 <= j < |rest| ==> rest[j] == cs[j + 1];
    assert cs == [cs[0]] + rest;
  }

  /** On candles in order of opening, the loop visits exactly those that open inside its range. */
  lemma {:induction false} ReadIsTheRange(range: DataRange, cs: seq<Candle>, c: Candle)
    requires Ascends(cs)
    ensures c in Read(range, cs) <==> c in cs && range.start <= c.openTime < range.end
  {
    hide Ascends;
    if cs != [] {
      AscendsFrom(cs, c);
      ReadIsTheRange(range, cs[1..], c);
    }
  }

  /** It visits them in order. */
  lemma {:induction false} ReadKeepsOrder(range: DataRange, cs: seq<Candle>)
    requires Ascends(cs)
    ensures Ascends(Read(range, cs))
  {
    if cs != [] {
      AscendsFrom(cs, cs[0]);
      ReadKeepsOrder(range, cs[1..]);
      var r := Read(range, cs[1..]);
      forall j | 0 <= j < |r| ensures cs[0].openTime < r[j].openTime {
        ReadIsTheRange(range, cs[1..], r[j]);
        AscendsFrom(cs, r[j]);
      }
    }
  }
}
