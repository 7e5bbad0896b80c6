/**
 * `analyze_stats` of scripts/analyze_filter_stats.py: the aggregation of the
 * filter statistics that the seed generator appends to its log, one record
 * per LLM session. The three totals are sums over the records; the
 * rejection reasons and the per-contract totals are dicts filled in loops;
 * the reason distribution divides by the totals.
 */
module FilterStatsAnalysis {
  import opened Wrappers
  import opened Sums

  /** One record of the log: the fields `analyze_stats` reads, `None` where the record lacks the key. */
  datatype StatsRecord = StatsRecord(
    contract: Option<string>,
    generated: Option<int>,
    accepted: Option<int>,
    rejected: Option<int>,
    reasons: Option<map<string, int>>)

  /** The generated, accepted and rejected totals, of one record, of a contract or of all records. */
  datatype Totals = Totals(generated: int, accepted: int, rejected: int) {
    function Plus(o: Totals): Totals {
      Totals(generated + o.generated, accepted + o.accepted, rejected + o.rejected)
    }
  }

  const Zero := Totals(0, 0, 0)

  /** `r.get(field, 0)` for the three counters. */
  function Counts(r: StatsRecord): Totals {
    Totals(r.generated.GetOr(0), r.accepted.GetOr(0), r.rejected.GetOr(0))
  }

  /** The three `sum(r.get(..., 0) for r in records)`. */
  function Sum(records: seq<StatsRecord>): Totals
    decreases |records|
  {
    if |records| == 0 then Zero
    else Sum(records[..|records| - 1]).Plus(Counts(records[|records| - 1]))
  }

  // ---------------------------------------------------------------------
  // Rejection reasons
  // ---------------------------------------------------------------------

  /** `r.get("rejection_reasons", {})`. */
  function ReasonsOf(r: StatsRecord): map<string, int> {
    r.reasons.GetOr(map[])
  }

  /** A `defaultdict(int)` read: the count under `k`, 0 when there is none. */
  function Get0(m: map<string, int>, k: string): int {
    if k in m then m[k] else 0
  }

  /** The counts of `add` added under their reasons to those of `acc`. */
  function Merge(acc: map<string, int>, add: map<string, int>): map<string, int> {
    map k | k in acc.Keys + add.Keys :: Get0(acc, k) + Get0(add, k)
  }

  /** `rejection_reasons` after the loop over `records`. */
  function ReasonTotals(records: seq<StatsRecord>): map<string, int>
    decreases |records|
  {
    if |records| == 0 then map[]
    else Merge(ReasonTotals(records[..|records| - 1]), ReasonsOf(records[|records| - 1]))
  }

  /** The reference definition: the count of reason `k` summed record by record. */
  function ReasonSum(records: seq<StatsRecord>, k: string): int
    decreases |records|
  {
    if |records| == 0 then 0
    else ReasonSum(records[..|records| - 1], k) + Get0(ReasonsOf(records[|records| - 1]), k)
  }

  /** Some record lists reason `k`. */
  predicate Mentions(records: seq<StatsRecord>, k: string) {
    exists i :: 0 <= i < |records| && k in ReasonsOf(records[i])
  }

  /**
   * `rejection_reasons` has a key for exactly the reasons some record lists,
   * and under each the sum of that reason's counts over all records.
   */
  lemma {:induction false} ReasonTotalsAreSums(records: seq<StatsRecord>, k: string)
    ensures k in ReasonTotals(records) <==> Mentions(records, k)
    ensures Get0(ReasonTotals(records), k) == ReasonSum(records, k)
    decreases |records|
  {
    if |records| > 0 {
      var init := records[..|records| - 1];
      ReasonTotalsAreSums(init, k);
      if Mentions(init, k) {
        var i :| 0 <= i < |init| && k in ReasonsOf(init[i]);
        assert records[i] == init[i];
      }
      if Mentions(records, k) && !(k in ReasonsOf(records[|records| - 1])) {
        var i :| 0 <= i < |records| && k in ReasonsOf(records[i]);
        assert init[i] == records[i];
      }
    }
  }

  /** The inner loop: each `(reason, count)` of one record added into `acc`. */
  method MergeReasons(acc: map<string, int>, add: map<string, int>) returns (r: map<string, int>)
    ensures r == Merge(acc, add)
  {
    r := acc;
    var rest := add.Keys;
    while rest != {}
      invariant rest <= add.Keys
      invariant r.Keys == acc.Keys + (add.Keys - rest)
      invariant forall k :: k in r ==> r[k] == Get0(acc, k) + (if k in rest then 0 else Get0(add, k))
      decreases rest
    {
      var reason :| reason in rest;
      r := r[reason := Get0(r, reason) + add[reason]];
      rest := rest - {reason};
    }
    assert forall k :: k in r ==> r[k] == Merge(acc, add)[k];
  }

  /** The loop that fills `rejection_reasons`. */
  method RejectionReasons(records: seq<StatsRecord>) returns (reasons: map<string, int>)
    ensures reasons == ReasonTotals(records)
  {
    reasons := map[];
    var i := 0;
    while i < |records|
      invariant 0 <= i <= |records|
      invariant reasons == ReasonTotals(records[..i])
    {
      assert records[..i + 1][..i] == records[..i];
      reasons := MergeReasons(reasons, ReasonsOf(records[i]));
      i := i + 1;
    }
    assert records[..i] == records;
  }

  // ---------------------------------------------------------------------
  // Rates and the reason distribution
  // ---------------------------------------------------------------------

  /** `filter_rate`, before rounding: the rejected share of the generated seeds in percent, 0 when nothing was generated. */
  function FilterRate(t: Totals): real {
    if t.generated > 0 then (t.rejected as real) / (t.generated as real) * 100.0 else 0.0
  }

  /** One entry of `reason_distribution`, before rounding. */
  datatype Share = Share(count: int, ofRejected: real, ofTotal: real)

  /** The entry of a reason counted `count` times, out of `t`. */
  function ShareOf(count: int, t: Totals): Share
    requires t.rejected != 0 && t.generated != 0
  {
    Share(count, (count as real) / (t.rejected as real) * 100.0, (count as real) / (t.generated as real) * 100.0)
  }

  /** The exception `analyze_stats` can raise. */
  datatype Crash = ZeroDivision

  /**
   * `reason_distribution`: empty unless something was rejected; otherwise
   * one share per reason, which divides by the generated total and so
   * raises when that total is 0 and there is a reason to divide.
   */
  function Distribution(reasons: map<string, int>, t: Totals): Result<map<string, Share>, Crash> {
    if t.rejected <= 0 || reasons == map[] then Ok(map[])
    else if t.generated == 0 then Err(ZeroDivision)
    else
      Ok(map k | k in reasons :: ShareOf(reasons[k], t))
  }

  /** The loop that fills `reason_distribution`, raising at its first reason when the generated total is 0. */
  method ReasonDistribution(reasons: map<string, int>, t: Totals) returns (r: Result<map<string, Share>, Crash>)
    ensures r == Distribution(reasons, t)
  {
    var distribution: map<string, Share> := map[];
    if t.rejected > 0 {
      var rest := reasons.Keys;
      while rest != {}
        invariant rest <= reasons.Keys
        invariant rest != reasons.Keys ==> t.generated != 0
        invariant distribution.Keys == reasons.Keys - rest
        invariant forall k :: k in distribution ==> t.generated != 0 && distribution[k] == ShareOf(reasons[k], t)
        decreases rest
      {
        var reason :| reason in rest;
        var count := reasons[reason];
        if t.generated == 0 {
          assert reasons != map[] by { assert reason in reasons; }
          return Err(ZeroDivision);
        }
        distribution := distribution[reason := ShareOf(count, t)];
        rest := rest - {reason};
      }
      if reasons != map[] {
        assert t.generated != 0 by {
          var k :| k in reasons;
          assert k !in rest;
        }
        var shares := map k | k in reasons :: ShareOf(reasons[k], t);
        assert distribution.Keys == shares.Keys;
        assert distribution == shares;
      } else {
        assert distribution == map[];
      }
    }
    r := Ok(distribution);
  }

  // ---------------------------------------------------------------------
  // Per-contract totals
  // ---------------------------------------------------------------------

  /** `r.get("contract", "unknown")`. */
  function ContractOf(r: StatsRecord): string {
    r.contract.GetOr("unknown")
  }

  /** A per-contract entry, a zero entry when the contract has none yet. */
  function EntryOf(m: map<string, Totals>, c: string): Totals {
    if c in m then m[c] else Zero
  }

  /** `per_contract_stats` after the loop over `records`. */
  function PerContract(records: seq<StatsRecord>): map<string, Totals>
    decreases |records|
  {
    if |records| == 0 then map[]
    else
      var m := PerContract(records[..|records| - 1]);
      var r := records[|records| - 1];
      m[ContractOf(r) := EntryOf(m, ContractOf(r)).Plus(Counts(r))]
  }

  /** The reference definition: the totals of the records of contract `c`. */
  function SumFor(records: seq<StatsRecord>, c: string): Totals
    decreases |records|
  {
    if |records| == 0 then Zero
    else
      var r := records[|records| - 1];
      SumFor(records[..|records| - 1], c).Plus(if ContractOf(r) == c then Counts(r) else Zero)
  }

  /** Some record belongs to contract `c`. */
  predicate HasContract(records: seq<StatsRecord>, c: string) {
    exists i :: 0 <= i < |records| && ContractOf(records[i]) == c
  }

  /** `per_contract_stats` has an entry for exactly the contracts of the records. */
  lemma {:induction false} PerContractKeys(records: seq<StatsRecord>, c: string)
    ensures c in PerContract(records) <==> HasContract(records, c)
    decreases |records|
  {
    if |records| > 0 {
      var init := records[..|records| - 1];
      PerContractKeys(init, c);
      if HasContract(init, c) {
        var i :| 0 <= i < |init| && ContractOf(init[i]) == c;
        assert records[i] == init[i];
      }
      if HasContract(records, c) && ContractOf(records[|records| - 1]) != c {
        var i :| 0 <= i < |records| && ContractOf(records[i]) == c;
        assert init[i] == records[i];
      }
    }
  }

  /** The entry of each contract holds the totals of that contract's records (zero when it has none). */
  lemma {:induction false} PerContractSums(records: seq<StatsRecord>, c: string)
    ensures EntryOf(PerContract(records), c) == SumFor(records, c)
    decreases |records|
  {
    if |records| > 0 {
      PerContractSums(records[..|records| - 1], c);
    }
  }

  /** One counter of the per-contract entries, as a function of the contract. */
  function Generated(m: map<string, Totals>): string -> int {
    c => EntryOf(m, c).generated
  }

  function Accepted(m: map<string, Totals>): string -> int {
    c => EntryOf(m, c).accepted
  }

  function Rejected(m: map<string, Totals>): string -> int {
    c => EntryOf(m, c).rejected
  }

  /** The per-contract entries summed over the contracts. */
  ghost function SumEntries(m: map<string, Totals>): Totals {
    Totals(SumOver(Generated(m), m.Keys), SumOver(Accepted(m), m.Keys), SumOver(Rejected(m), m.Keys))
  }

  /** Adding `x` to the entry of `c` adds `x` to the sum of the entries. */
  lemma AddToEntry(m: map<string, Totals>, c: string, x: Totals)
    ensures SumEntries(m[c := EntryOf(m, c).Plus(x)]) == SumEntries(m).Plus(x)
  {
    var m' := m[c := EntryOf(m, c).Plus(x)];
    var rest := m.Keys - {c};
    assert m'.Keys - {c} == rest;
    SumOverAgree(Generated(m'), Generated(m), rest);
    SumOverAgree(Accepted(m'), Accepted(m), rest);
    SumOverAgree(Rejected(m'), Rejected(m), rest);
    SumOverRemove(Generated(m'), m'.Keys, c);
    SumOverRemove(Accepted(m'), m'.Keys, c);
    SumOverRemove(Rejected(m'), m'.Keys, c);
    if c in m {
      SumOverRemove(Generated(m), m.Keys, c);
      SumOverRemove(Accepted(m), m.Keys, c);
      SumOverRemove(Rejected(m), m.Keys, c);
    } else {
      assert rest == m.Keys;
    }
  }

  /** Summing `per_contract_stats` over the contracts gives the three global totals. */
  lemma {:induction false} PerContractAddsUp(records: seq<StatsRecord>)
    ensures SumEntries(PerContract(records)) == Sum(records)
    decreases |records|
  {
    if |records| > 0 {
      var init := records[..|records| - 1];
      var r := records[|records| - 1];
      PerContractAddsUp(init);
      AddToEntry(PerContract(init), ContractOf(r), Counts(r));
    }
  }

  /** There are at most as many contracts as records. */
  lemma {:induction false} ContractsAtMostRecords(records: seq<StatsRecord>)
    ensures |PerContract(records).Keys| <= |records|
    decreases |records|
  {
    if |records| > 0 {
      var init := records[..|records| - 1];
      ContractsAtMostRecords(init);
      var m := PerContract(init);
      var c := ContractOf(records[|records| - 1]);
      assert PerContract(records).Keys == m.Keys + {c};
    }
  }

  /** The loop that fills `per_contract_stats`. */
  method PerContractStats(records: seq<StatsRecord>) returns (perContract: map<string, Totals>)
    ensures perContract == PerContract(records)
  {
    perContract := map[];
    var i := 0;
    while i < |records|
      invariant 0 <= i <= |records|
      invariant perContract == PerContract(records[..i])
    {
      assert records[..i + 1][..i] == records[..i];
      var r := records[i];
      var contract := r.contract.GetOr("unknown");
      if contract !in perContract {
        perContract := perContract[contract := Zero];
      }
      perContract := perContract[contract := perContract[contract].Plus(Counts(r))];
      i := i + 1;
    }
    assert records[..i] == records;
  }

  // ---------------------------------------------------------------------
  // The analysis
  // ---------------------------------------------------------------------

  /** The `summary` dict, before rounding. */
  datatype Summary = Summary(totalContracts: nat, sessions: nat, recordCount: nat, totals: Totals, filterRate: real, acceptanceRate: real)

  /** What `analyze_stats` returns for a non-empty log. */
  datatype Analysis = Analysis(summary: Summary, reasons: map<string, int>, distribution: map<string, Share>, perContract: map<string, Totals>)

  /** `analyze_stats`: `None` for no records, the analysis otherwise, or the division by zero of the distribution. */
  function AnalysisOf(records: seq<StatsRecord>): Result<Option<Analysis>, Crash> {
    if |records| == 0 then Ok(None)
    else
      var t := Sum(records);
      var reasons := ReasonTotals(records);
      match Distribution(reasons, t)
      case Err(e) => Err(e)
      case Ok(distribution) =>
        var perContract := PerContract(records);
        var rate := FilterRate(t);
        Ok(Some(Analysis(Summary(|perContract.Keys|, |records|, |records|, t, rate, 100.0 - rate),
                         reasons, distribution, perContract)))
  }

  /** `analyze_stats`, step by step as the script does it. */
  method AnalyzeStats(records: seq<StatsRecord>) returns (r: Result<Option<Analysis>, Crash>)
    ensures r == AnalysisOf(records)
  {
    if |records| == 0 {
      return Ok(None);
    }
    var totals := Sum(records);
    var reasons := RejectionReasons(records);
    var filterRate := if totals.generated > 0 then (totals.rejected as real) / (totals.generated as real) * 100.0 else 0.0;
    var distribution := ReasonDistribution(reasons, totals);
    if distribution.Err? {
      return Err(distribution.error);
    }
    var perContract := PerContractStats(records);
    var summary := Summary(|perContract.Keys|, |records|, |records|, totals, filterRate, 100.0 - filterRate);
    r := Ok(Some(Analysis(summary, reasons, distribution.value, perContract)));
  }

  /**
   * The analysis raises exactly when something was rejected, nothing was
   * generated and some record lists a rejection reason.
   */
  lemma AnalysisCrashes(records: seq<StatsRecord>)
    ensures AnalysisOf(records).Err? <==>
      |records| > 0 && Sum(records).rejected > 0 && Sum(records).generated == 0
      && exists k :: Mentions(records, k)
  {
    var reasons := ReasonTotals(records);
    if reasons != map[] {
      var k :| k in reasons;
      ReasonTotalsAreSums(records, k);
    }
    if exists k :: Mentions(records, k) {
      var k :| Mentions(records, k);
      ReasonTotalsAreSums(records, k);
    }
  }

  /**
   * A completed analysis counts one session per record, at most as many
   * contracts, the summed totals (which the per-contract entries add up to),
   * a zero filter rate when nothing was generated, and per reason the
   * summed count, repeated in its distribution entry when something was
   * rejected.
   */
  lemma AnalysisSummary(records: seq<StatsRecord>)
    requires AnalysisOf(records).Ok? && AnalysisOf(records).value.Some?
    ensures var a := AnalysisOf(records).value.value;
      a.summary.sessions == a.summary.recordCount == |records|
      && a.summary.totalContracts <= |records|
      && a.summary.totals == Sum(records) == SumEntries(a.perContract)
      && (Sum(records).generated == 0 ==> a.summary.filterRate == 0.0 && a.summary.acceptanceRate == 100.0)
      && (forall k :: k in a.reasons <==> Mentions(records, k))
      && (forall k :: k in a.reasons ==> a.reasons[k] == ReasonSum(records, k))
      && (Sum(records).rejected > 0 ==>
            a.distribution.Keys == a.reasons.Keys && forall k :: k in a.distribution ==> a.distribution[k].count == a.reasons[k])
      && (Sum(records).rejected <= 0 ==> a.distribution == map[])
  {
    ContractsAtMostRecords(records);
    PerContractAddsUp(records);
    forall k
      ensures k in ReasonTotals(records) <==> Mentions(records, k)
      ensures k in ReasonTotals(records) ==> ReasonTotals(records)[k] == ReasonSum(records, k)
    {
      ReasonTotalsAreSums(records, k);
    }
  }
}
