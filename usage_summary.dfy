/**
 * The accumulation loop of `main` in scripts/summarize_llm_usage.py: the
 * token usage the LLM client logs, one record per call, counted per
 * contract into a "total" bucket and a bucket per phase.
 */
module UsageSummary {
  import opened Wrappers
  import opened Sums

  /** One logged call: the fields the loop reads, `None` where the record lacks the key. */
  datatype UsageRecord = UsageRecord(
    contract: Option<string>,
    phase: Option<string>,
    promptTokens: Option<int>,
    completionTokens: Option<int>,
    totalTokens: Option<int>)

  /** One counter dict: prompt, completion and total tokens, and calls. */
  datatype Bucket = Bucket(prompt: int, completion: int, total: int, calls: int) {
    function Add(o: Bucket): Bucket {
      Bucket(prompt + o.prompt, completion + o.completion, total + o.total, calls + o.calls)
    }
  }

  const Empty := Bucket(0, 0, 0, 0)

  /** The buckets of one contract, keyed by "total" and by phase. */
  type Entry = map<string, Bucket>

  /** The entry the `defaultdict` creates for a contract it has not seen. */
  const Fresh: Entry := map["total" := Empty, "init" := Empty, "mutation" := Empty]

  /** `rec.get("contract", "unknown")`. */
  function ContractOf(r: UsageRecord): string {
    r.contract.GetOr("unknown")
  }

  /** `rec.get("phase", "init")`. */
  function PhaseOf(r: UsageRecord): string {
    r.phase.GetOr("init")
  }

  /** What one record adds to a bucket: its tokens, the total defaulting to prompt plus completion, and one call. */
  function Usage(r: UsageRecord): Bucket {
    var p := r.promptTokens.GetOr(0);
    var m := r.completionTokens.GetOr(0);
    Bucket(p, m, r.totalTokens.GetOr(p + m), 1)
  }

  /** `stats[c]`: the contract's entry, a fresh one when it has none. */
  function EntryOf(stats: map<string, Entry>, c: string): Entry {
    if c in stats then stats[c] else Fresh
  }

  /** A bucket of an entry, an empty one when the entry has no such key. */
  function BucketOf(e: Entry, k: string): Bucket {
    if k in e then e[k] else Empty
  }

  /** `u` added to the bucket `k` of `e`, which is created empty when missing. */
  function Bump(e: Entry, k: string, u: Bucket): Entry {
    e[k := BucketOf(e, k).Add(u)]
  }

  /** One pass of the loop body: the record counted into its contract's "total" bucket, then into its phase bucket. */
  function Record(stats: map<string, Entry>, r: UsageRecord): map<string, Entry> {
    var u := Usage(r);
    stats[ContractOf(r) := Bump(Bump(EntryOf(stats, ContractOf(r)), "total", u), PhaseOf(r), u)]
  }

  /** `stats` after the loop over `records`. */
  function Summarize(records: seq<UsageRecord>): map<string, Entry>
    decreases |records|
  {
    if |records| == 0 then map[]
    else Record(Summarize(records[..|records| - 1]), records[|records| - 1])
  }

  // ---------------------------------------------------------------------
  // Reference definitions
  // ---------------------------------------------------------------------

  /** Some record belongs to contract `c`. */
  predicate HasContract(records: seq<UsageRecord>, c: string) {
    exists i :: 0 <= i < |records| && ContractOf(records[i]) == c
  }

  /** Some record of contract `c` is of phase `k`. */
  predicate HasPhase(records: seq<UsageRecord>, c: string, k: string) {
    exists i :: 0 <= i < |records| && ContractOf(records[i]) == c && PhaseOf(records[i]) == k
  }

  /** The usage of the records of contract `c`, added up. */
  function UsageFor(records: seq<UsageRecord>, c: string): Bucket
    decreases |records|
  {
    if |records| == 0 then Empty
    else
      var r := records[|records| - 1];
      UsageFor(records[..|records| - 1], c).Add(if ContractOf(r) == c then Usage(r) else Empty)
  }

  /** The usage of the records of contract `c` in phase `k`, added up. */
  function PhaseUsage(records: seq<UsageRecord>, c: string, k: string): Bucket
    decreases |records|
  {
    if |records| == 0 then Empty
    else
      var r := records[|records| - 1];
      PhaseUsage(records[..|records| - 1], c, k).Add(if ContractOf(r) == c && PhaseOf(r) == k then Usage(r) else Empty)
  }

  /** The number of records of contract `c`. */
  function Count(records: seq<UsageRecord>, c: string): nat
    decreases |records|
  {
    if |records| == 0 then 0
    else Count(records[..|records| - 1], c) + if ContractOf(records[|records| - 1]) == c then 1 else 0
  }

  /** The number of records of contract `c` in phase `k`. */
  function CountPhase(records: seq<UsageRecord>, c: string, k: string): nat
    decreases |records|
  {
    if |records| == 0 then 0
    else
      var r := records[|records| - 1];
      CountPhase(records[..|records| - 1], c, k) + if ContractOf(r) == c && PhaseOf(r) == k then 1 else 0
  }

  // ---------------------------------------------------------------------
  // Properties
  // ---------------------------------------------------------------------

  /** `stats` has an entry for exactly the contracts of the records. */
  lemma {:induction false} ContractKeys(records: seq<UsageRecord>, c: string)
    ensures c in Summarize(records) <==> HasContract(records, c)
    decreases |records|
  {
    if |records| > 0 {
      var init := records[..|records| - 1];
      ContractKeys(init, c);
      if HasContract(init, c) {
        var i :| 0 <= i < |init| && ContractOf(init[i]) == c;
        assert records[i] == init[i];
      }
      if HasContract(records, c) && ContractOf(records[|records| - 1]) != c {
        var i :| 0 <= i < |records| && ContractOf(records[i]) == c;
        assert init[i] == records[i];
      }
    }
  }

  /**
   * Every entry holds the "total", "init" and "mutation" buckets, and beyond
   * them a bucket for exactly the other phases its contract's records name.
   */
  lemma {:induction false} PhaseKeys(records: seq<UsageRecord>, c: string, k: string)
    requires c in Summarize(records)
    ensures k in Summarize(records)[c] <==> k in Fresh || HasPhase(records, c, k)
    decreases |records|
  {
    var init := records[..|records| - 1];
    var r := records[|records| - 1];
    if c in Summarize(init) {
      PhaseKeys(init, c, k);
    } else {
      ContractKeys(init, c);
    }
    if HasPhase(init, c, k) {
      var i :| 0 <= i < |init| && ContractOf(init[i]) == c && PhaseOf(init[i]) == k;
      assert records[i] == init[i];
    }
    if HasPhase(records, c, k) && !(ContractOf(r) == c && PhaseOf(r) == k) {
      var i :| 0 <= i < |records| && ContractOf(records[i]) == c && PhaseOf(records[i]) == k;
      assert init[i] == records[i];
    }
  }

  /**
   * The "total" bucket of a contract holds the usage of all its records,
   * plus once more that of its records whose phase is itself "total"; every
   * other bucket holds the usage of the records of its phase.
   */
  lemma {:induction false} BucketsAreSums(records: seq<UsageRecord>, c: string, k: string)
    ensures BucketOf(EntryOf(Summarize(records), c), k) ==
      if k == "total" then UsageFor(records, c).Add(PhaseUsage(records, c, k)) else PhaseUsage(records, c, k)
    decreases |records|
  {
    if |records| == 0 {
      FreshIsEmpty(k);
    } else {
      var init := records[..|records| - 1];
      var r := records[|records| - 1];
      BucketsAreSums(init, c, k);
      RecordBucket(Summarize(init), r, c, k);
      var prev := BucketOf(EntryOf(Summarize(init), c), k);
      var u := Usage(r);
      var dt := if ContractOf(r) == c && k == "total" then u else Empty;
      var dc := if ContractOf(r) == c then u else Empty;
      var dp := if ContractOf(r) == c && PhaseOf(r) == k then u else Empty;
      assert Summarize(records) == Record(Summarize(init), r);
      assert BucketOf(EntryOf(Summarize(records), c), k) == prev.Add(dt).Add(dp);
      assert UsageFor(records, c) == UsageFor(init, c).Add(dc);
      assert PhaseUsage(records, c, k) == PhaseUsage(init, c, k).Add(dp);
      if k == "total" {
        assert dt == dc;
        AddSwap(UsageFor(init, c), PhaseUsage(init, c, k), dc, dp);
      } else {
        assert dt == Empty;
      }
    }
  }

  /** Bucket addition may be regrouped. */
  lemma AddSwap(a: Bucket, b: Bucket, x: Bucket, y: Bucket)
    ensures a.Add(b).Add(x).Add(y) == a.Add(x).Add(b.Add(y))
  {
  }

  /** Every bucket of a fresh entry is zero. */
  lemma FreshIsEmpty(k: string)
    ensures BucketOf(Fresh, k) == Empty
  {
  }

  /** What one record adds to bucket `k` of contract `c`. */
  lemma RecordBucket(stats: map<string, Entry>, r: UsageRecord, c: string, k: string)
    ensures BucketOf(EntryOf(Record(stats, r), c), k) ==
      BucketOf(EntryOf(stats, c), k)
        .Add(if ContractOf(r) == c && k == "total" then Usage(r) else Empty)
        .Add(if ContractOf(r) == c && PhaseOf(r) == k then Usage(r) else Empty)
  {
  }

  /** A bucket counts one call per record it adds up. */
  lemma {:induction false} CallsCountRecords(records: seq<UsageRecord>, c: string, k: string)
    ensures UsageFor(records, c).calls == Count(records, c)
    ensures PhaseUsage(records, c, k).calls == CountPhase(records, c, k)
    decreases |records|
  {
    if |records| > 0 {
      CallsCountRecords(records[..|records| - 1], c, k);
    }
  }

  /** The calls of an entry's buckets as a function of the bucket key. */
  function CallsIn(e: Entry): string -> int {
    k => BucketOf(e, k).calls
  }

  /** The calls of the phase buckets of an entry, the "total" bucket excluded. */
  ghost function PhaseCalls(e: Entry): int {
    SumOver(CallsIn(e), e.Keys - {"total"})
  }

  /** Counting into bucket `k` adds the call to the phase buckets unless `k` is "total". */
  lemma BumpPhaseCalls(e: Entry, k: string, u: Bucket)
    ensures PhaseCalls(Bump(e, k, u)) == PhaseCalls(e) + if k == "total" then 0 else u.calls
  {
    var e' := Bump(e, k, u);
    var rest := e.Keys - {"total"};
    var rest' := e'.Keys - {"total"};
    if k == "total" {
      assert rest' == rest;
      SumOverAgree(CallsIn(e'), CallsIn(e), rest);
    } else {
      assert rest' - {k} == rest - {k};
      SumOverAgree(CallsIn(e'), CallsIn(e), rest - {k});
      SumOverRemove(CallsIn(e'), rest', k);
      if k in rest {
        SumOverRemove(CallsIn(e), rest, k);
      } else {
        assert rest - {k} == rest;
      }
    }
  }

  /**
   * The phase buckets of a contract hold one call per record of it, less the
   * records whose phase is "total", which are counted into the "total"
   * bucket instead.
   */
  lemma {:induction false} PhaseCallsCount(records: seq<UsageRecord>, c: string)
    ensures PhaseCalls(EntryOf(Summarize(records), c)) == Count(records, c) - CountPhase(records, c, "total")
    decreases |records|
  {
    if |records| == 0 {
      var rest := Fresh.Keys - {"total"};
      assert rest == {"init", "mutation"};
      SumOverZero(CallsIn(Fresh), rest);
    } else {
      var init := records[..|records| - 1];
      var r := records[|records| - 1];
      PhaseCallsCount(init, c);
      if ContractOf(r) == c {
        var e := EntryOf(Summarize(init), c);
        var u := Usage(r);
        BumpPhaseCalls(e, "total", u);
        BumpPhaseCalls(Bump(e, "total", u), PhaseOf(r), u);
      }
    }
  }

  /**
   * The "total" bucket counts the calls of the contract, and it equals the
   * calls of the phase buckets summed exactly when no record of the contract
   * names "total" as its phase (each such record counts twice in it).
   */
  lemma TotalCalls(records: seq<UsageRecord>, c: string)
    ensures var e := EntryOf(Summarize(records), c);
      BucketOf(e, "total").calls == Count(records, c) + CountPhase(records, c, "total")
      && (BucketOf(e, "total").calls == PhaseCalls(e) <==> CountPhase(records, c, "total") == 0)
  {
    BucketsAreSums(records, c, "total");
    CallsCountRecords(records, c, "total");
    PhaseCallsCount(records, c);
  }

  /** The loop over the records, updating `stats` in place. */
  method SummarizeUsage(records: seq<UsageRecord>) returns (stats: map<string, Entry>, numContracts: nat)
    ensures stats == Summarize(records)
    ensures numContracts == |stats.Keys|
  {
    stats := map[];
    var i := 0;
    while i < |records|
      invariant 0 <= i <= |records|
      invariant stats == Summarize(records[..i])
    {
      assert records[..i + 1][..i] == records[..i];
      var rec := records[i];
      var c := rec.contract.GetOr("unknown");
      var phase := rec.phase.GetOr("init");
      var p := rec.promptTokens.GetOr(0);
      var m := rec.completionTokens.GetOr(0);
      var t := rec.totalTokens.GetOr(p + m);
      assert Bucket(p, m, t, 1) == Usage(rec);
      if c !in stats {
        stats := stats[c := Fresh];
      }
      var e := stats[c];
      e := e["total" := BucketOf(e, "total").Add(Bucket(p, m, t, 1))];
      ghost var e0 := e;
      if phase !in e {
        e := e[phase := Empty];
      }
      assert e[phase] == BucketOf(e0, phase);
      e := e[phase := e[phase].Add(Bucket(p, m, t, 1))];
      assert e == Bump(e0, phase, Usage(rec));
      stats := stats[c := e];
      i := i + 1;
    }
    assert records[..i] == records;
    numContracts := |stats.Keys|;
  }
}
