/** The ledger's hash chain: the builder object and the verification of a decoded ledger. */
module HashChain {
  import opened Domain
  import opened Accounting
  import opened Ledger

  type Digest = int
  const ZERO_HASH: Digest := 0

  type HashFunction = (Digest, Posting) -> Digest

  datatype Entry = Entry(body: Posting, previousHash: Digest, entryHash: Digest)

  datatype Verification = Verification(count: nat, quoteBalance: real, baseBalance: real, finalHash: Digest)

  function Bodies(entries: seq<Entry>): Books { seq(|entries|, i requires 0 <= i < |entries| => entries[i].body) }

  function LastHash(entries: seq<Entry>): Digest {
    if entries == [] then ZERO_HASH else entries[|entries| - 1].entryHash
  }

  /** Entry `i` is hashed over its body and the hash before it. */
  predicate LinkedAt(hash: HashFunction, entries: seq<Entry>, i: nat)
    requires i < |entries|
  {
    && entries[i].previousHash == (if i == 0 then ZERO_HASH else entries[i - 1].entryHash)
    && entries[i].entryHash == hash(entries[i].previousHash, entries[i].body)
  }

  predicate Chained(hash: HashFunction, entries: seq<Entry>) {
    forall i: nat :: i < |entries| ==> LinkedAt(hash, entries, i)
  }

  predicate DistinctHashes(entries: seq<Entry>) {
    forall i, j :: 0 <= i < j < |entries| ==> entries[i].entryHash != entries[j].entryHash
  }

  /** No two different inputs hashed in either ledger share a digest. */
  predicate CollisionFree(hash: HashFunction, a: seq<Entry>, b: seq<Entry>) {
    forall x, y :: x in a && y in b && hash(x.previousHash, x.body) == hash(y.previousHash, y.body) ==>
      x.previousHash == y.previousHash && x.body == y.body
  }

  function Accepted(entries: seq<Entry>): Verification {
    Verification(|entries|, QuoteBalance(Bodies(entries)), BaseBalance(Bodies(entries)), LastHash(entries))
  }

  lemma {:induction false} BodiesPrefix(entries: seq<Entry>, n: nat)
    requires n <= |entries|
    ensures Bodies(entries[..n]) == Bodies(entries)[..n]
  {}

  /** The bounded in-memory builder the engine writes to. */
  class BacktestLedger {
    const hash: HashFunction
    var entries: seq<Entry>

    ghost predicate Valid()
      reads this
    {
      Chained(hash, entries) && WellPosted(Contents())
    }

    function Contents(): Books
      reads this
    {
      Bodies(entries)
    }

    constructor (hash: HashFunction)
      ensures Valid() && this.hash == hash && Contents() == []
    {
      this.hash := hash;
      entries := [];
    }

    method AppendEvent(e: Event) returns (status: Outcome<()>)
      requires Valid()
      modifies this
      ensures Valid()
      ensures status.Ok? ==> Append(old(Contents()), e) == Ok(Contents())
      ensures status.Err? ==> Append(old(Contents()), e) == Err(status.error) && entries == old(entries)
    {
      var quoteBefore := if entries == [] then 0.0 else entries[|entries| - 1].body.quoteBalance;
      var baseBefore := if entries == [] then 0.0 else entries[|entries| - 1].body.baseBalance;
      var quoteBalance := quoteBefore + e.quoteDelta;
      var baseBalance := baseBefore + e.baseDelta;
      if quoteBalance < 0.0 || baseBalance < 0.0 {
        return Err(LedgerNegative);
      }
      var previousHash := LastHash(entries);
      var body := Posting(|entries| + 1, e, quoteBalance, baseBalance);
      var grown := entries + [Entry(body, previousHash, hash(previousHash, body))];
      forall i: nat | i < |grown| ensures LinkedAt(hash, grown, i) {
        if i < |entries| { assert LinkedAt(hash, entries, i); }
      }
      assert Bodies(grown) == Bodies(entries) + [body];
      AppendKeepsBooks(Bodies(entries), e);
      entries := grown;
      status := Ok(());
    }

    method RecordInitialCapital(capital: Positive, t: int) returns (status: Outcome<()>)
      requires Valid() && Contents() == []
      modifies this
      ensures Valid() && status.Ok? && Append([], InitialEvent(capital, t)) == Ok(Contents())
    {
      status := AppendEvent(InitialEvent(capital, t));
    }

    method RecordFillEvents(f: Fill, m: Mutation) returns (status: Outcome<()>)
      requires Valid()
      modifies this
      ensures Valid()
      ensures status.Ok? ==> RecordFill(old(Contents()), f, m) == Ok(Contents())
      ensures status.Err? ==> RecordFill(old(Contents()), f, m) == Err(status.error)
    {
      var _ :- AppendEvent(FillEvent(f));
      if f.fee != 0.0 {
        var _ :- AppendEvent(FeeEvent(f));
      }
      if m.realizedDelta != 0.0 {
        var _ :- AppendEvent(RealizedEvent(f, m.realizedDelta));
      }
      assert Contents() != [];
      var last := entries[|entries| - 1].body;
      if last.quoteBalance != m.after.cash || last.baseBalance != m.after.base {
        return Err(LedgerDivergence);
      }
      status := Ok(());
    }

    method RecordMarkEvent(p: Portfolio, t: int, index: int, final: bool) returns (status: Outcome<()>)
      requires Valid()
      modifies this
      ensures Valid()
      ensures status.Ok? ==> RecordMark(old(Contents()), p, t, index, final) == Ok(Contents())
      ensures status.Err? ==> RecordMark(old(Contents()), p, t, index, final) == Err(status.error)
    {
      if entries == [] {
        return Err(LedgerDivergence);
      }
      var last := entries[|entries| - 1].body;
      if last.quoteBalance != p.cash || last.baseBalance != p.base {
        return Err(LedgerDivergence);
      }
      status := AppendEvent(MarkEvent(p, t, index, final));
    }
  }

  predicate Intact(hash: HashFunction, entries: seq<Entry>) {
    Chained(hash, entries) && WellPosted(Bodies(entries)) && DistinctHashes(entries)
  }

  /** What one more entry must satisfy on top of an intact ledger. */
  predicate Links(hash: HashFunction, before: seq<Entry>, x: Entry) {
    && x.body.sequence == |before| + 1
    && x.previousHash == LastHash(before)
    && x.entryHash == hash(x.previousHash, x.body)
    && (forall e :: e in before ==> e.entryHash != x.entryHash)
    && x.body.quoteBalance == QuoteBalance(Bodies(before)) + x.body.event.quoteDelta >= 0.0
    && x.body.baseBalance == BaseBalance(Bodies(before)) + x.body.event.baseDelta >= 0.0
  }

  lemma {:induction false} IntactPrefix(hash: HashFunction, entries: seq<Entry>, n: nat)
    requires n <= |entries| && Intact(hash, entries)
    ensures Intact(hash, entries[..n])
    ensures n < |entries| ==> Links(hash, entries[..n], entries[n])
  {
    ChainPrefix(hash, entries, n);
    BodiesPrefix(entries, n);
    if n < |entries| {
      assert Bodies(entries)[n] == entries[n].body;
      assert LinkedAt(hash, entries, n) && PostedAt(Bodies(entries), n);
    }
  }

  lemma {:induction false} LinkKeepsIntact(hash: HashFunction, before: seq<Entry>, x: Entry)
    requires Intact(hash, before) && Links(hash, before, x)
    ensures Intact(hash, before + [x])
  {
    var all := before + [x];
    assert Bodies(all) == Bodies(before) + [x.body];
    forall i: nat | i < |all| ensures LinkedAt(hash, all, i) && PostedAt(Bodies(all), i) {
      if i < |before| { assert LinkedAt(hash, before, i) && PostedAt(Bodies(before), i); }
    }
  }

  /** Accepts a decoded ledger exactly when its chain, its postings and its hashes are intact. */
  method VerifyLedger(hash: HashFunction, entries: seq<Entry>) returns (r: Outcome<Verification>)
    ensures r.Ok? <==> Intact(hash, entries)
    ensures r.Ok? ==> r.value == Accepted(entries)
    ensures r.Err? ==> r.error == ResultCorrupt
  {
    var previousHash := ZERO_HASH;
    var quoteBalance, baseBalance := 0.0, 0.0;
    var seen: set<Digest> := {};
    var n := 0;
    while n < |entries|
      invariant 0 <= n <= |entries|
      invariant previousHash == LastHash(entries[..n])
      invariant quoteBalance == QuoteBalance(Bodies(entries[..n]))
      invariant baseBalance == BaseBalance(Bodies(entries[..n]))
      invariant forall h :: h in seen <==> exists e :: e in entries[..n] && e.entryHash == h
      invariant Intact(hash, entries[..n])
    {
      var entry := entries[n];
      ghost var before := entries[..n];
      ghost var links := Links(hash, before, entry);
      assert !links ==> !Intact(hash, entries) by {
        if Intact(hash, entries) { IntactPrefix(hash, entries, n); }
      }
      if entry.body.sequence != n + 1 || entry.previousHash != previousHash {
        return Err(ResultCorrupt);
      }
      if entry.entryHash in seen {
        return Err(ResultCorrupt);
      }
      if hash(previousHash, entry.body) != entry.entryHash {
        return Err(ResultCorrupt);
      }
      quoteBalance := quoteBalance + entry.body.event.quoteDelta;
      baseBalance := baseBalance + entry.body.event.baseDelta;
      if quoteBalance != entry.body.quoteBalance || baseBalance != entry.body.baseBalance {
        return Err(ResultCorrupt);
      }
      if quoteBalance < 0.0 || baseBalance < 0.0 {
        return Err(ResultCorrupt);
      }
      LinkKeepsIntact(hash, before, entry);
      seen := seen + {entry.entryHash};
      previousHash := entry.entryHash;
      n := n + 1;
      assert entries[..n] == before + [entry];
      assert Bodies(entries[..n])[n - 1] == entry.body;
    }
    assert entries[..n] == entries;
    r := Ok(Verification(|entries|, quoteBalance, baseBalance, previousHash));
  }

  /** Entries of a chained, well-posted ledger never share a digest, unless the hash collides. */
  lemma {:induction false} BuiltLedgerHasDistinctHashes(hash: HashFunction, entries: seq<Entry>)
    requires Chained(hash, entries) && WellPosted(Bodies(entries))
    requires CollisionFree(hash, entries, entries)
    ensures DistinctHashes(entries)
  {
    forall i, j | 0 <= i < j < |entries| ensures entries[i].entryHash != entries[j].entryHash {
      assert LinkedAt(hash, entries, i) && LinkedAt(hash, entries, j);
      assert PostedAt(Bodies(entries), i) && PostedAt(Bodies(entries), j);
      assert Bodies(entries)[i] == entries[i].body && Bodies(entries)[j] == entries[j].body;
      assert entries[i] in entries && entries[j] in entries;
    }
  }

  /** Whatever the builder holds is accepted, unless the hash collides, with the balances of its last
      entry: sequence numbers keep every hashed input apart. */
  lemma {:induction false} BuiltLedgerIsAccepted(ledger: BacktestLedger)
    requires ledger.Valid() && CollisionFree(ledger.hash, ledger.entries, ledger.entries)
    ensures Intact(ledger.hash, ledger.entries)
    ensures var v, b := Accepted(ledger.entries), ledger.Contents();
      && v.quoteBalance == QuoteBalance(b) == TotalQuote(b) && v.baseBalance == BaseBalance(b) == TotalBase(b)
  {
    BuiltLedgerHasDistinctHashes(ledger.hash, ledger.entries);
    BalancesAreSums(ledger.Contents());
  }

  /** Under a collision-free hash the final digest pins the whole event sequence. */
  lemma {:induction false} FinalHashPinsLedger(hash: HashFunction, a: seq<Entry>, b: seq<Entry>)
    requires Chained(hash, a) && WellPosted(Bodies(a)) && Chained(hash, b) && WellPosted(Bodies(b))
    requires CollisionFree(hash, a, b)
    requires a != [] && b != [] && LastHash(a) == LastHash(b)
    ensures a == b
  {
    LastEntriesEqual(hash, a, b);
    var m := |a| - 1;
    if m > 0 {
      ChainPrefix(hash, a, m);
      ChainPrefix(hash, b, m);
      assert forall x :: x in a[..m] ==> x in a;
      assert forall y :: y in b[..m] ==> y in b;
      assert LinkedAt(hash, a, m) && LinkedAt(hash, b, m);
      FinalHashPinsLedger(hash, a[..m], b[..m]);
    }
    assert a == a[..m] + [a[m]] && b == b[..m] + [b[m]];
  }

  lemma {:induction false} LastEntriesEqual(hash: HashFunction, a: seq<Entry>, b: seq<Entry>)
    requires Chained(hash, a) && WellPosted(Bodies(a)) && Chained(hash, b) && WellPosted(Bodies(b))
    requires CollisionFree(hash, a, b)
    requires a != [] && b != [] && LastHash(a) == LastHash(b)
    ensures |a| == |b| && a[|a| - 1] == b[|b| - 1]
  {
    var x, y := a[|a| - 1], b[|b| - 1];
    assert Bodies(a)[|a| - 1] == x.body && Bodies(b)[|b| - 1] == y.body;
    assert x in a && y in b;
    assert LinkedAt(hash, a, |a| - 1) && LinkedAt(hash, b, |b| - 1);
    assert PostedAt(Bodies(a), |a| - 1) && PostedAt(Bodies(b), |b| - 1);
  }

  lemma {:induction false} ChainPrefix(hash: HashFunction, a: seq<Entry>, n: nat)
    requires n <= |a| && Chained(hash, a) && WellPosted(Bodies(a))
    ensures Chained(hash, a[..n]) && WellPosted(Bodies(a[..n]))
  {
    forall i: nat | i < n ensures LinkedAt(hash, a[..n], i) { assert LinkedAt(hash, a, i); }
    BodiesPrefix(a, n);
    WellPostedPrefix(Bodies(a), n);
  }
}
