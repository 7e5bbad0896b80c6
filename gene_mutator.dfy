/**
 * The genetic mutation operator: for every transaction record (gene) of an
 * individual, argument values and the block and state fields are redrawn
 * in place under a probability policy. The background probability is `pm`;
 * when the LLM mode holds a strategy `{function: [parameters]}`, the listed
 * parameters of the listed functions are redrawn with probability 0.8.
 *
 * `random.random()` is an oracle `draws`: `draws(t)` is the value of the
 * draw made after `t` earlier draws. The generator's `get_random_*`
 * producers are uninterpreted functions that also receive that count, so
 * two calls at different points of the run may give different values. The
 * operator raises (for an empty argument list, a selector missing from the
 * interface, a strategy that is not a dict) where Python does; the model
 * then reports failure and says nothing about the partly mutated genes.
 */
module GeneMutator {
  import opened Wrappers
  import opened Text
  import opened Json
  import opened Abi
  import opened SignatureIndex
  import Reconciler

  /** `high_priority_pm`: the probability for a parameter the strategy targets. */
  const TargetedProbability: real := 0.8

  /** `max_retries` of the strategy request as `mutate` calls it. */
  const StrategyRetries: int := 3

  /** The fuzzer's interface: a selector's input types in order. */
  type Interface = map<string, seq<string>>

  /** An address-keyed dict of a gene (`call_return`, `extcodesize`, `returndatasize`), in insertion order. */
  type Entries = seq<(string, Value)>

  function EntryKeys(m: Entries): (ks: seq<string>)
    ensures |ks| == |m| && forall k :: 0 <= k < |m| ==> ks[k] == m[k].0
  {
    seq(|m|, k requires 0 <= k < |m| => m[k].0)
  }

  /**
   * The value of a gene dict: `arguments` (the selector, then the argument
   * values), the optional transaction, block and state fields, and the
   * number of further keys (such as "contract") the operator never touches.
   */
  datatype GeneState = GeneState(
    arguments: seq<Value>,
    account: Option<Value>,
    amount: Option<Value>,
    gaslimit: Option<Value>,
    timestamp: Option<Value>,
    blocknumber: Option<Value>,
    balance: Option<Value>,
    callReturn: Option<Entries>,
    extcodesize: Option<Entries>,
    returndatasize: Option<Entries>,
    otherKeys: nat)

  datatype BlockField = Timestamp | Blocknumber | Balance
  datatype MapField = CallReturn | Extcodesize | Returndatasize

  /**
   * The generator's producers. Each receives the number of draws made
   * before the call and the selector `function_hash`; `argument` also the
   * ABI type and the parameter index, the map producers the address.
   */
  datatype Producers = Producers(
    argument: (nat, string, Value, nat) -> Value,
    account: (nat, Value) -> Value,
    amount: (nat, Value) -> Value,
    gaslimit: (nat, Value) -> Value,
    block: (BlockField, nat, Value) -> Value,
    entry: (MapField, nat, Value, string) -> Value,
    newEntry: (MapField, nat, Value) -> (Option<string>, Value))

  /** `individual.generator`: its interface, its ABI and its producers. */
  datatype Generator = Generator(interface: Interface, abi: seq<Entry>, produce: Producers)

  /** A gene after some work, and the number of draws made so far. */
  datatype Step = Step(gene: GeneState, tick: nat)

  /** `interface[function_hash][index]`; `None` where Python raises. */
  function TypeAt(interface: Interface, hash: Value, index: nat): (r: Option<string>)
  {
    if hash.Str? && hash.s in interface && index < |interface[hash.s]| then Some(interface[hash.s][index]) else None
  }

  // ---------------------------------------------------------------------
  // `get_else_mutation_info`
  // ---------------------------------------------------------------------

  /** At most one of account, amount and gas limit differs between the two genes. */
  predicate AtMostOneTransactionField(g: GeneState, h: GeneState) {
    (h.account == g.account && h.amount == g.amount)
    || (h.account == g.account && h.gaslimit == g.gaslimit)
    || (h.amount == g.amount && h.gaslimit == g.gaslimit)
  }

  /**
   * The `if`/`elif` chain over account, amount and gas limit: a present
   * field costs a draw, and the first whose draw is at most `pm` is
   * replaced; the others are left alone.
   */
  function TransactionFields(g: GeneState, hash: Value, p: Producers, pm: real, draws: nat -> real, t: nat): (r: Step)
  {
    if g.account.Some? && draws(t) <= pm then Step(g.(account := Some(p.account(t + 1, hash))), t + 1)
    else
      var t1 := if g.account.Some? then t + 1 else t;
      if g.amount.Some? && draws(t1) <= pm then Step(g.(amount := Some(p.amount(t1 + 1, hash))), t1 + 1)
      else
        var t2 := if g.amount.Some? then t1 + 1 else t1;
        if g.gaslimit.Some? && draws(t2) <= pm then Step(g.(gaslimit := Some(p.gaslimit(t2 + 1, hash))), t2 + 1)
        else Step(g, if g.gaslimit.Some? then t2 + 1 else t2)
  }

  /**
   * Only account, amount and gas limit can change, at most one of them
   * does, and none appears or disappears; each present one costs a draw
   * until one is replaced.
   */
  lemma TransactionFieldsFrame(g: GeneState, hash: Value, p: Producers, pm: real, draws: nat -> real, t: nat)
    ensures var r := TransactionFields(g, hash, p, pm, draws, t);
      r.gene.(account := g.account, amount := g.amount, gaslimit := g.gaslimit) == g
      && AtMostOneTransactionField(g, r.gene)
      && r.gene.account.Some? == g.account.Some? && r.gene.amount.Some? == g.amount.Some?
      && r.gene.gaslimit.Some? == g.gaslimit.Some?
      && t <= r.tick <= t + 3
  {
  }

  /**
   * A block or balance field: a present value costs a draw and is replaced
   * when the draw is at most `pm`; a missing one is produced without a draw.
   */
  function Refresh(v: Option<Value>, f: BlockField, hash: Value, p: Producers, pm: real, draws: nat -> real, t: nat): (r: (Option<Value>, nat))
  {
    if v.Some? then
      (if draws(t) <= pm then Some(p.block(f, t + 1, hash)) else v, t + 1)
    else (Some(p.block(f, t, hash)), t)
  }

  /** The field is always present afterwards; a present value changes only when its draw is at most `pm`, and only a present value costs a draw. */
  lemma RefreshDrawn(v: Option<Value>, f: BlockField, hash: Value, p: Producers, pm: real, draws: nat -> real, t: nat)
    ensures var r := Refresh(v, f, hash, p, pm, draws, t);
      r.0.Some?
      && (v.Some? ==> r.1 == t + 1 && (r.0 == v || draws(t) <= pm))
      && (v.Some? && draws(t) > pm ==> r.0 == v)
      && (v.None? ==> r.1 == t)
  {
  }

  /** The entries of an existing map after one draw per address, in order. */
  function Redrawn(m: Entries, f: MapField, hash: Value, p: Producers, pm: real, draws: nat -> real, t: nat, k: nat): (r: Entries)
    requires k <= |m|
  {
    seq(|m|, j requires 0 <= j < |m| =>
      if j < k && draws(t + j) <= pm then (m[j].0, p.entry(f, t + j + 1, hash, m[j].0)) else m[j])
  }

  /** Redrawing keeps every address in its place and changes only values whose draw is at most `pm`. */
  lemma RedrawnKeepsAddresses(m: Entries, f: MapField, hash: Value, p: Producers, pm: real, draws: nat -> real, t: nat, k: nat)
    requires k <= |m|
    ensures var r := Redrawn(m, f, hash, p, pm, draws, t, k);
      |r| == |m| && EntryKeys(r) == EntryKeys(m)
      && forall j :: 0 <= j < |m| && (j >= k || draws(t + j) > pm) ==> r[j] == m[j]
  {
  }

  /**
   * An address-keyed map: an existing map keeps its addresses and redraws
   * each value with probability `pm`; a missing one is created holding the
   * producer's address and value, but only when the address is truthy.
   */
  function RefreshEntries(m: Option<Entries>, f: MapField, hash: Value, p: Producers, pm: real, draws: nat -> real, t: nat): (r: (Option<Entries>, nat))
  {
    if m.Some? then (Some(Redrawn(m.value, f, hash, p, pm, draws, t, |m.value|)), t + |m.value|)
    else
      var address := p.newEntry(f, t, hash).0;
      var value := p.newEntry(f, t, hash).1;
      (Some(if address.Some? && address.value != "" then [(address.value, value)] else []), t)
  }

  /**
   * Afterwards the map is present. An existing map keeps its addresses in
   * order at one draw each; a created one holds at most one entry, under a
   * truthy address, and only when the producer gave one.
   */
  lemma RefreshEntriesShape(m: Option<Entries>, f: MapField, hash: Value, p: Producers, pm: real, draws: nat -> real, t: nat)
    ensures var r := RefreshEntries(m, f, hash, p, pm, draws, t);
      r.0.Some?
      && (m.Some? ==> EntryKeys(r.0.value) == EntryKeys(m.value) && r.1 == t + |m.value|)
      && (m.None? ==> r.1 == t && |r.0.value| <= 1)
      && (m.None? ==> (|r.0.value| == 1 <==> p.newEntry(f, t, hash).0.Some? && p.newEntry(f, t, hash).0.value != ""))
      && (m.None? ==> forall k :: 0 <= k < |r.0.value| ==> r.0.value[k].0 != "")
  {
    if m.Some? {
      RedrawnKeepsAddresses(m.value, f, hash, p, pm, draws, t, |m.value|);
    }
  }

  /** A block or balance field of a gene. */
  function BlockValue(g: GeneState, f: BlockField): Option<Value>
  {
    match f
    case Timestamp => g.timestamp
    case Blocknumber => g.blocknumber
    case Balance => g.balance
  }

  /** The gene with one block or balance field replaced. */
  function WithBlock(g: GeneState, f: BlockField, v: Option<Value>): GeneState
  {
    match f
    case Timestamp => g.(timestamp := v)
    case Blocknumber => g.(blocknumber := v)
    case Balance => g.(balance := v)
  }

  /** An address-keyed map of a gene. */
  function MapValue(g: GeneState, f: MapField): Option<Entries>
  {
    match f
    case CallReturn => g.callReturn
    case Extcodesize => g.extcodesize
    case Returndatasize => g.returndatasize
  }

  /** The gene with one address-keyed map replaced. */
  function WithMap(g: GeneState, f: MapField, m: Option<Entries>): GeneState
  {
    match f
    case CallReturn => g.(callReturn := m)
    case Extcodesize => g.(extcodesize := m)
    case Returndatasize => g.(returndatasize := m)
  }

  /** One step of `get_else_mutation_info`: the transaction `if`/`elif` chain, or one block, balance or map field. */
  datatype Stage = Transaction | Block(field: BlockField) | Map(entries: MapField)

  /** The steps of `get_else_mutation_info`, in its order. */
  const ElseStages: seq<Stage> :=
    [Transaction, Block(Timestamp), Block(Blocknumber), Block(Balance), Map(CallReturn), Map(Extcodesize), Map(Returndatasize)]

  /** One step applied to the gene and the draw count. */
  function ApplyStage(s: Step, stage: Stage, hash: Value, p: Producers, pm: real, draws: nat -> real): Step
  {
    match stage
    case Transaction => TransactionFields(s.gene, hash, p, pm, draws, s.tick)
    case Block(f) =>
      var r := Refresh(BlockValue(s.gene, f), f, hash, p, pm, draws, s.tick);
      Step(WithBlock(s.gene, f, r.0), r.1)
    case Map(f) =>
      var r := RefreshEntries(MapValue(s.gene, f), f, hash, p, pm, draws, s.tick);
      Step(WithMap(s.gene, f, r.0), r.1)
  }

  /**
   * The steps applied in turn, each to the result of the one before.
   * (`s` in the decreases clause keeps the verifier from unrolling the
   * fold over the literal `ElseStages` wherever it appears.)
   */
  function ApplyStages(s: Step, stages: seq<Stage>, hash: Value, p: Producers, pm: real, draws: nat -> real): Step
    decreases |stages|, s
  {
    if stages == [] then s
    else ApplyStages(ApplyStage(s, stages[0], hash, p, pm, draws), stages[1..], hash, p, pm, draws)
  }

  /**
   * Every intermediate result of `ApplyStages`: it starts at `s`, ends at
   * the fold's result, and each entry is the previous one with one more
   * step applied.
   */
  function Trace(s: Step, stages: seq<Stage>, hash: Value, p: Producers, pm: real, draws: nat -> real): (r: seq<Step>)
    ensures |r| == |stages| + 1 && r[0] == s
    ensures r[|stages|] == ApplyStages(s, stages, hash, p, pm, draws)
    ensures forall k :: 0 < k <= |stages| ==> r[k] == ApplyStage(r[k - 1], stages[k - 1], hash, p, pm, draws)
    decreases |stages|
  {
    if stages == [] then [s]
    else [s] + Trace(ApplyStage(s, stages[0], hash, p, pm, draws), stages[1..], hash, p, pm, draws)
  }

  /**
   * `get_else_mutation_info` on a gene with a selector: the transaction
   * fields, then timestamp, block number and balance, then the three maps.
   */
  function ElseMutation(g: GeneState, p: Producers, pm: real, draws: nat -> real, t: nat): (r: Step)
    requires |g.arguments| > 0
  {
    ApplyStages(Step(g, t), ElseStages, g.arguments[0], p, pm, draws)
  }

  /** Timestamp, block number and balance in turn: only they change, and all three are present afterwards. */
  lemma BlockStagesFrame(s: Step, hash: Value, p: Producers, pm: real, draws: nat -> real)
    ensures var r := ApplyStage(ApplyStage(ApplyStage(s, Block(Timestamp), hash, p, pm, draws),
                                           Block(Blocknumber), hash, p, pm, draws), Block(Balance), hash, p, pm, draws);
      r.gene.(timestamp := s.gene.timestamp, blocknumber := s.gene.blocknumber, balance := s.gene.balance) == s.gene
      && r.gene.timestamp.Some? && r.gene.blocknumber.Some? && r.gene.balance.Some?
      && r.tick >= s.tick
  {
    var s1 := ApplyStage(s, Block(Timestamp), hash, p, pm, draws);
    RefreshDrawn(s.gene.timestamp, Timestamp, hash, p, pm, draws, s.tick);
    assert s1.gene == s.gene.(timestamp := s1.gene.timestamp) && s1.gene.timestamp.Some? && s1.tick >= s.tick;
    var s2 := ApplyStage(s1, Block(Blocknumber), hash, p, pm, draws);
    RefreshDrawn(s1.gene.blocknumber, Blocknumber, hash, p, pm, draws, s1.tick);
    assert s2.gene == s1.gene.(blocknumber := s2.gene.blocknumber) && s2.gene.blocknumber.Some? && s2.tick >= s1.tick;
    var s3 := ApplyStage(s2, Block(Balance), hash, p, pm, draws);
    RefreshDrawn(s2.gene.balance, Balance, hash, p, pm, draws, s2.tick);
    assert s3.gene == s2.gene.(balance := s3.gene.balance) && s3.gene.balance.Some? && s3.tick >= s2.tick;
  }

  /** One map stage: only that map changes; it is present afterwards, with the same addresses when it existed and at most one entry when it did not. */
  lemma MapStageFrame(s: Step, f: MapField, hash: Value, p: Producers, pm: real, draws: nat -> real)
    ensures var r := ApplyStage(s, Map(f), hash, p, pm, draws);
      r.gene == WithMap(s.gene, f, MapValue(r.gene, f))
      && MapValue(r.gene, f).Some?
      && (MapValue(s.gene, f).Some? ==> EntryKeys(MapValue(r.gene, f).value) == EntryKeys(MapValue(s.gene, f).value))
      && (MapValue(s.gene, f).None? ==> |MapValue(r.gene, f).value| <= 1)
      && r.tick >= s.tick
  {
    RefreshEntriesShape(MapValue(s.gene, f), f, hash, p, pm, draws, s.tick);
  }

  /**
   * What `get_else_mutation_info` may change: the arguments and the other
   * keys never; at most one of account, amount and gas limit, none of
   * which appears or disappears; afterwards the block fields, the balance
   * and the three maps are all present, an existing map with the same
   * addresses in the same order, a created one with at most one entry.
   */
  lemma ElseMutationFrame(g: GeneState, p: Producers, pm: real, draws: nat -> real, t: nat)
    requires |g.arguments| > 0
    ensures var r := ElseMutation(g, p, pm, draws, t);
      r.gene.arguments == g.arguments && r.gene.otherKeys == g.otherKeys
      && AtMostOneTransactionField(g, r.gene)
      && r.gene.account.Some? == g.account.Some? && r.gene.amount.Some? == g.amount.Some?
      && r.gene.gaslimit.Some? == g.gaslimit.Some?
      && r.gene.timestamp.Some? && r.gene.blocknumber.Some? && r.gene.balance.Some?
      && r.gene.callReturn.Some? && r.gene.extcodesize.Some? && r.gene.returndatasize.Some?
      && (g.callReturn.Some? ==> EntryKeys(r.gene.callReturn.value) == EntryKeys(g.callReturn.value))
      && (g.extcodesize.Some? ==> EntryKeys(r.gene.extcodesize.value) == EntryKeys(g.extcodesize.value))
      && (g.returndatasize.Some? ==> EntryKeys(r.gene.returndatasize.value) == EntryKeys(g.returndatasize.value))
      && (g.callReturn.None? ==> |r.gene.callReturn.value| <= 1)
      && (g.extcodesize.None? ==> |r.gene.extcodesize.value| <= 1)
      && (g.returndatasize.None? ==> |r.gene.returndatasize.value| <= 1)
      && r.tick >= t
  {
    var hash := g.arguments[0];
    var tr := Trace(Step(g, t), ElseStages, hash, p, pm, draws);
    assert tr[1] == TransactionFields(g, hash, p, pm, draws, t);
    TransactionFieldsFrame(g, hash, p, pm, draws, t);
    var g1 := tr[1].gene;
    assert tr[4] == ApplyStage(ApplyStage(ApplyStage(tr[1], Block(Timestamp), hash, p, pm, draws),
                                          Block(Blocknumber), hash, p, pm, draws), Block(Balance), hash, p, pm, draws);
    BlockStagesFrame(tr[1], hash, p, pm, draws);
    var g4 := tr[4].gene;
    assert g4.(timestamp := g1.timestamp, blocknumber := g1.blocknumber, balance := g1.balance) == g1;
    assert tr[5] == ApplyStage(tr[4], Map(CallReturn), hash, p, pm, draws);
    MapStageFrame(tr[4], CallReturn, hash, p, pm, draws);
    assert tr[6] == ApplyStage(tr[5], Map(Extcodesize), hash, p, pm, draws);
    MapStageFrame(tr[5], Extcodesize, hash, p, pm, draws);
    assert tr[7] == ApplyStage(tr[6], Map(Returndatasize), hash, p, pm, draws);
    MapStageFrame(tr[6], Returndatasize, hash, p, pm, draws);
    var g7 := tr[7].gene;
    assert g7.(callReturn := g4.callReturn, extcodesize := g4.extcodesize, returndatasize := g4.returndatasize) == g4;
  }

  // ---------------------------------------------------------------------
  // The baseline path of `mutate`
  // ---------------------------------------------------------------------

  /** A baseline pass raises at parameter `j`: its draw is at most `pm` and its type cannot be looked up. */
  predicate PassFailsAt(args: seq<Value>, j: nat, interface: Interface, pm: real, draws: nat -> real, t: nat)
    requires 0 < |args|
  {
    draws(t + j) <= pm && TypeAt(interface, args[0], j).None?
  }

  /** One pass of the baseline argument loop raises before index `k`: a draw at most `pm` for an index whose type cannot be looked up. */
  predicate PassFails(args: seq<Value>, k: nat, interface: Interface, pm: real, draws: nat -> real, t: nat)
    requires 0 < |args|
  {
    exists j :: 0 <= j < k - 1 && PassFailsAt(args, j, interface, pm, draws, t)
  }

  /** The arguments after indices `1 .. k-1` of one baseline pass, one draw per index. */
  function PassUpTo(args: seq<Value>, k: nat, interface: Interface, p: Producers, pm: real, draws: nat -> real, t: nat): (r: seq<Value>)
    requires 0 < |args| && k <= |args|
  {
    seq(|args|, i requires 0 <= i < |args| =>
      if 1 <= i < k && draws(t + i - 1) <= pm && TypeAt(interface, args[0], i - 1).Some?
      then p.argument(t + i, TypeAt(interface, args[0], i - 1).value, args[0], i - 1)
      else args[i])
  }

  /** One more index of a pass: index `k` is redrawn when its draw passes and its type is known, and kept otherwise. */
  lemma PassUpToNext(args: seq<Value>, k: nat, interface: Interface, p: Producers, pm: real, draws: nat -> real, t: nat)
    requires 0 < |args| && 1 <= k < |args|
    ensures var r := PassUpTo(args, k, interface, p, pm, draws, t);
      PassUpTo(args, k + 1, interface, p, pm, draws, t)
      == if draws(t + k - 1) <= pm && TypeAt(interface, args[0], k - 1).Some?
         then r[k := p.argument(t + k, TypeAt(interface, args[0], k - 1).value, args[0], k - 1)]
         else r
    ensures PassFails(args, k + 1, interface, pm, draws, t)
      <==> PassFails(args, k, interface, pm, draws, t) || PassFailsAt(args, k - 1, interface, pm, draws, t)
  {
    var r := PassUpTo(args, k, interface, p, pm, draws, t);
    if !(draws(t + k - 1) <= pm && TypeAt(interface, args[0], k - 1).Some?) {
      assert PassUpTo(args, k + 1, interface, p, pm, draws, t) == r;
    }
  }

  /** A pass keeps the selector and the length, and replaces only drawn indices before `k`. */
  lemma PassUpToShape(args: seq<Value>, k: nat, interface: Interface, p: Producers, pm: real, draws: nat -> real, t: nat)
    requires 0 < |args| && k <= |args|
    ensures var r := PassUpTo(args, k, interface, p, pm, draws, t);
      |r| == |args| && r[0] == args[0]
      && forall i :: 0 < i < |args| && (i >= k || draws(t + i - 1) > pm) ==> r[i] == args[i]
  {
  }

  /** One baseline pass over the arguments, with the tick after it; `None` when it raises. */
  function Pass(args: seq<Value>, interface: Interface, p: Producers, pm: real, draws: nat -> real, t: nat): Option<(seq<Value>, nat)>
    requires 0 < |args|
  {
    if PassFails(args, |args|, interface, pm, draws, t) then None
    else Some((PassUpTo(args, |args|, interface, p, pm, draws, t), t + |args| - 1))
  }

  /** `n` baseline passes over the arguments, one after the other; `None` when one raises. */
  function Passes(args: seq<Value>, n: nat, interface: Interface, p: Producers, pm: real, draws: nat -> real, t: nat): (r: Option<(seq<Value>, nat)>)
    requires 0 < |args|
    ensures r.Some? ==> |r.value.0| == |args|
    decreases n
  {
    if n == 0 then Some((args, t))
    else
      match Passes(args, n - 1, interface, p, pm, draws, t) {
        case None => None
        case Some((a, t1)) => Pass(a, interface, p, pm, draws, t1)
      }
  }

  /** Any number of passes keeps the selector and the length and does not go back in draws. */
  lemma {:induction false} PassesShape(args: seq<Value>, n: nat, interface: Interface, p: Producers, pm: real, draws: nat -> real, t: nat)
    requires 0 < |args|
    ensures var r := Passes(args, n, interface, p, pm, draws, t);
      r.Some? ==> |r.value.0| == |args| && r.value.0[0] == args[0] && r.value.1 >= t
    decreases n
  {
    if n > 0 {
      PassesShape(args, n - 1, interface, p, pm, draws, t);
      var prior := Passes(args, n - 1, interface, p, pm, draws, t);
      if prior.Some? {
        PassUpToShape(prior.value.0, |prior.value.0|, interface, p, pm, draws, prior.value.1);
      }
    }
  }

  function Count(b: bool): nat {
    if b then 1 else 0
  }

  /** The keys of the gene other than account, amount and gas limit: the baseline loop runs one argument pass for each. */
  function ArgumentPasses(g: GeneState): nat {
    1 + Count(g.timestamp.Some?) + Count(g.blocknumber.Some?) + Count(g.balance.Some?)
    + Count(g.callReturn.Some?) + Count(g.extcodesize.Some?) + Count(g.returndatasize.Some?) + g.otherKeys
  }

  /** The baseline treatment of one gene: its argument passes, then `get_else_mutation_info`. */
  function BaselineGene(g: GeneState, interface: Interface, p: Producers, pm: real, draws: nat -> real, t: nat): (r: Option<Step>)
  {
    if |g.arguments| == 0 then None
    else
      match Passes(g.arguments, ArgumentPasses(g), interface, p, pm, draws, t) {
        case None => None
        case Some((a, t1)) => Some(ElseMutation(g.(arguments := a), p, pm, draws, t1))
      }
  }

  /**
   * What a gene keeps through either path of `mutate`: it has a selector,
   * and the selector, the number of arguments and the other keys stay,
   * while at most one transaction field changes.
   */
  predicate KeepsShape(g: GeneState, h: GeneState) {
    0 < |g.arguments| == |h.arguments| && h.arguments[0] == g.arguments[0]
    && h.otherKeys == g.otherKeys && AtMostOneTransactionField(g, h)
  }

  /** A gene without arguments raises; otherwise the baseline keeps the gene's shape. */
  lemma BaselineGeneShape(g: GeneState, interface: Interface, p: Producers, pm: real, draws: nat -> real, t: nat)
    ensures var r := BaselineGene(g, interface, p, pm, draws, t);
      (|g.arguments| == 0 ==> r.None?)
      && (r.Some? ==> KeepsShape(g, r.value.gene) && r.value.tick >= t)
  {
    if |g.arguments| > 0 {
      PassesShape(g.arguments, ArgumentPasses(g), interface, p, pm, draws, t);
      var passed := Passes(g.arguments, ArgumentPasses(g), interface, p, pm, draws, t);
      if passed.Some? {
        ElseMutationFrame(g.(arguments := passed.value.0), p, pm, draws, passed.value.1);
      }
    }
  }

  // ---------------------------------------------------------------------
  // `llm_guided_mutation`
  // ---------------------------------------------------------------------

  /** The probability for one parameter: 0.8 when the strategy targets it, `pm` otherwise. */
  function Threshold(targeted: bool, pm: real): real {
    if targeted then TargetedProbability else pm
  }

  /**
   * `is_targeted_function and param_name in targeted_params`, where
   * `targets` is the strategy's value for the function (`None` when the
   * function is not a key); `None` where `in` raises.
   */
  function IsTargeted(targets: Option<Value>, param: string): Option<bool> {
    match targets
    case None => Some(false)
    case Some(list) => In(param, list)
  }

  /** The guided loop stops before index `GuidedBound`: at the end of the arguments or past the last parameter name. */
  function GuidedBound(args: seq<Value>, names: seq<string>): (k: nat)
    ensures k <= |args| && k <= |names| + 1
    ensures k == |args| || k == |names| + 1
  {
    if |args| <= |names| + 1 then |args| else |names| + 1
  }

  /** The guided loop raises at parameter `j`: `in` raises, or the type lookup fails after a draw that passes the threshold. */
  predicate GuidedFailsAt(args: seq<Value>, names: seq<string>, targets: Option<Value>, j: nat, interface: Interface, pm: real, draws: nat -> real, t: nat)
    requires 0 < |args| && j < |names|
  {
    IsTargeted(targets, names[j]).None?
    || (draws(t + j) <= Threshold(IsTargeted(targets, names[j]).value, pm) && TypeAt(interface, args[0], j).None?)
  }

  /** The guided loop raises before index `k`: `in` raises, or a type lookup fails for an index whose draw passes its threshold. */
  predicate GuidedFails(args: seq<Value>, names: seq<string>, targets: Option<Value>, k: nat, interface: Interface, pm: real, draws: nat -> real, t: nat)
    requires 0 < |args| && k <= GuidedBound(args, names)
  {
    exists j :: 0 <= j < k - 1 && GuidedFailsAt(args, names, targets, j, interface, pm, draws, t)
  }

  /** The arguments after guided indices `1 .. k-1`, one draw per index against its threshold. */
  function GuidedUpTo(args: seq<Value>, names: seq<string>, targets: Option<Value>, k: nat, interface: Interface, p: Producers, pm: real, draws: nat -> real, t: nat): (r: seq<Value>)
    requires 0 < |args| && k <= GuidedBound(args, names)
  {
    seq(|args|, i requires 0 <= i < |args| =>
      if 1 <= i < k && IsTargeted(targets, names[i - 1]).Some?
         && draws(t + i - 1) <= Threshold(IsTargeted(targets, names[i - 1]).value, pm)
         && TypeAt(interface, args[0], i - 1).Some?
      then p.argument(t + i, TypeAt(interface, args[0], i - 1).value, args[0], i - 1)
      else args[i])
  }

  /** One more guided index: index `k` is redrawn when its parameter is decided, its draw passes and its type is known. */
  lemma GuidedUpToNext(args: seq<Value>, names: seq<string>, targets: Option<Value>, k: nat, interface: Interface, p: Producers, pm: real, draws: nat -> real, t: nat)
    requires 0 < |args| && 1 <= k < GuidedBound(args, names)
    ensures var r := GuidedUpTo(args, names, targets, k, interface, p, pm, draws, t);
      GuidedUpTo(args, names, targets, k + 1, interface, p, pm, draws, t)
      == if IsTargeted(targets, names[k - 1]).Some?
            && draws(t + k - 1) <= Threshold(IsTargeted(targets, names[k - 1]).value, pm)
            && TypeAt(interface, args[0], k - 1).Some?
         then r[k := p.argument(t + k, TypeAt(interface, args[0], k - 1).value, args[0], k - 1)]
         else r
    ensures GuidedFails(args, names, targets, k + 1, interface, pm, draws, t)
      <==> GuidedFails(args, names, targets, k, interface, pm, draws, t) || GuidedFailsAt(args, names, targets, k - 1, interface, pm, draws, t)
  {
    var r := GuidedUpTo(args, names, targets, k, interface, p, pm, draws, t);
    if !(IsTargeted(targets, names[k - 1]).Some?
         && draws(t + k - 1) <= Threshold(IsTargeted(targets, names[k - 1]).value, pm)
         && TypeAt(interface, args[0], k - 1).Some?) {
      assert GuidedUpTo(args, names, targets, k + 1, interface, p, pm, draws, t) == r;
    }
  }

  /** The guided argument loop of one gene, with the tick after it; `None` when it raises. */
  function GuidedPass(args: seq<Value>, names: seq<string>, targets: Option<Value>, interface: Interface, p: Producers, pm: real, draws: nat -> real, t: nat): Option<(seq<Value>, nat)>
    requires 0 < |args|
  {
    var k := GuidedBound(args, names);
    if GuidedFails(args, names, targets, k, interface, pm, draws, t) then None
    else Some((GuidedUpTo(args, names, targets, k, interface, p, pm, draws, t), t + k - 1))
  }

  /** The guided loop keeps the selector and the length, and leaves every index from `k` on alone. */
  lemma GuidedUpToShape(args: seq<Value>, names: seq<string>, targets: Option<Value>, k: nat, interface: Interface, p: Producers, pm: real, draws: nat -> real, t: nat)
    requires 0 < |args| && k <= GuidedBound(args, names)
    ensures var r := GuidedUpTo(args, names, targets, k, interface, p, pm, draws, t);
      |r| == |args| && r[0] == args[0] && forall i :: k <= i < |args| ==> r[i] == args[i]
  {
  }

  /** A gene whose selector is hashable but not in `function_info_map`. */
  predicate Unindexed(g: GeneState, info: map<string, TargetInfo>) {
    |g.arguments| > 0 && !g.arguments[0].Array? && !g.arguments[0].Object?
    && !(g.arguments[0].Str? && g.arguments[0].s in info)
  }

  /**
   * The guided treatment of one gene. A gene the selector table does not
   * know is skipped whole, with no draw; otherwise the arguments up to the
   * last parameter name are redrawn against their thresholds and then
   * `get_else_mutation_info` runs. `llmTargets` is the strategy as a
   * dict, `None` when it is not one.
   */
  function GuidedGene(g: GeneState, info: map<string, TargetInfo>, llmTargets: Option<map<string, Value>>, interface: Interface, p: Producers, pm: real, draws: nat -> real, t: nat): (r: Option<Step>)
  {
    if |g.arguments| == 0 then None
    else
      var hash := g.arguments[0];
      if hash.Array? || hash.Object? then None
      else if !(hash.Str? && hash.s in info) then Some(Step(g, t))
      else if llmTargets.None? then None
      else
        var fi := info[hash.s];
        var targets := if fi.name in llmTargets.value then Some(llmTargets.value[fi.name]) else None;
        match GuidedPass(g.arguments, fi.params, targets, interface, p, pm, draws, t) {
          case None => None
          case Some((args, t1)) => Some(ElseMutation(g.(arguments := args), p, pm, draws, t1))
        }
  }

  /**
   * The guided treatment raises on a gene without arguments, on an
   * unhashable selector and on a known selector when the strategy is not a
   * dict; it leaves a gene with an unknown selector exactly as it was, with
   * no draw.
   */
  lemma GuidedGeneSkips(g: GeneState, info: map<string, TargetInfo>, llmTargets: Option<map<string, Value>>, interface: Interface, p: Producers, pm: real, draws: nat -> real, t: nat)
    ensures var r := GuidedGene(g, info, llmTargets, interface, p, pm, draws, t);
      (|g.arguments| == 0 ==> r.None?)
      && (|g.arguments| > 0 && (g.arguments[0].Array? || g.arguments[0].Object?) ==> r.None?)
      && (Unindexed(g, info) ==> r == Some(Step(g, t)))
      && (|g.arguments| > 0 && g.arguments[0].Str? && g.arguments[0].s in info && llmTargets.None? ==> r.None?)
  {
  }

  /**
   * When the guided treatment succeeds it keeps the gene's shape and never
   * touches an argument past the last parameter name.
   */
  lemma GuidedGeneShape(g: GeneState, info: map<string, TargetInfo>, llmTargets: Option<map<string, Value>>, interface: Interface, p: Producers, pm: real, draws: nat -> real, t: nat)
    ensures var r := GuidedGene(g, info, llmTargets, interface, p, pm, draws, t);
      (r.Some? ==> KeepsShape(g, r.value.gene) && r.value.tick >= t)
      && (r.Some? && |g.arguments| > 0 && g.arguments[0].Str? && g.arguments[0].s in info ==>
            forall i :: |info[g.arguments[0].s].params| < i < |g.arguments| ==> r.value.gene.arguments[i] == g.arguments[i])
  {
    if |g.arguments| > 0 && g.arguments[0].Str? && g.arguments[0].s in info && llmTargets.Some? {
      var fi := info[g.arguments[0].s];
      var targets := if fi.name in llmTargets.value then Some(llmTargets.value[fi.name]) else None;
      var k := GuidedBound(g.arguments, fi.params);
      GuidedUpToShape(g.arguments, fi.params, targets, k, interface, p, pm, draws, t);
      var args := GuidedUpTo(g.arguments, fi.params, targets, k, interface, p, pm, draws, t);
      ElseMutationFrame(g.(arguments := args), p, pm, draws, t + k - 1);
    }
  }

  // ---------------------------------------------------------------------
  // Whole chromosomes
  // ---------------------------------------------------------------------

  /** One gene's treatment: from the gene and the tick before it to the gene and the tick after it; `None` when it raises. */
  type Treatment = (GeneState, nat) -> Option<Step>

  /** A treatment applied to the genes in order, each from the tick the one before it left; `None` once one raises. */
  function Sweep(gs: seq<GeneState>, treat: Treatment, t: nat): (r: Option<(seq<GeneState>, nat)>)
    ensures r.Some? ==> |r.value.0| == |gs|
    decreases |gs|
  {
    if |gs| == 0 then Some(([], t))
    else
      var n := |gs| - 1;
      match Sweep(gs[..n], treat, t) {
        case None => None
        case Some((done, t1)) =>
          match treat(gs[n], t1) {
            case None => None
            case Some(s) => Some((done + [s.gene], s.tick))
          }
      }
  }

  /** One more gene: the sweep over a longer prefix in terms of the shorter one. */
  lemma SweepStep(gs: seq<GeneState>, i: nat, treat: Treatment, t: nat)
    requires i < |gs|
    ensures Sweep(gs[..i + 1], treat, t)
      == match Sweep(gs[..i], treat, t) {
           case None => None
           case Some((done, t1)) =>
             match treat(gs[i], t1) {
               case None => None
               case Some(s) => Some((done + [s.gene], s.tick))
             }
         }
  {
    assert gs[..i + 1][..i] == gs[..i];
  }

  /** Once a gene has raised, the genes after it change nothing. */
  lemma {:induction false} SweepCrashIsFinal(gs: seq<GeneState>, m: nat, treat: Treatment, t: nat)
    requires m <= |gs| && Sweep(gs[..m], treat, t).None?
    ensures Sweep(gs, treat, t).None?
    decreases |gs|
  {
    if m < |gs| {
      var init := gs[..|gs| - 1];
      assert init[..m] == gs[..m];
      SweepCrashIsFinal(init, m, treat, t);
    } else {
      assert gs[..m] == gs;
    }
  }

  /** The baseline treatment of each gene. */
  function BaselineTreatment(interface: Interface, p: Producers, pm: real, draws: nat -> real): Treatment {
    (g: GeneState, t: nat) => BaselineGene(g, interface, p, pm, draws, t)
  }

  /** The baseline path over the genes in order; `None` when one raises. */
  function BaselineAll(gs: seq<GeneState>, interface: Interface, p: Producers, pm: real, draws: nat -> real, t: nat): Option<(seq<GeneState>, nat)> {
    Sweep(gs, BaselineTreatment(interface, p, pm, draws), t)
  }

  /** The baseline path keeps the shape of every gene. */
  lemma {:induction false} BaselineAllShape(gs: seq<GeneState>, interface: Interface, p: Producers, pm: real, draws: nat -> real, t: nat)
    ensures var r := BaselineAll(gs, interface, p, pm, draws, t);
      r.Some? ==> (|r.value.0| == |gs| && r.value.1 >= t
                   && forall i :: 0 <= i < |gs| ==> KeepsShape(gs[i], r.value.0[i]))
    decreases |gs|
  {
    if |gs| > 0 {
      var n := |gs| - 1;
      BaselineAllShape(gs[..n], interface, p, pm, draws, t);
      var prior := BaselineAll(gs[..n], interface, p, pm, draws, t);
      var r := BaselineAll(gs, interface, p, pm, draws, t);
      if prior.Some? && r.Some? {
        BaselineGeneShape(gs[n], interface, p, pm, draws, prior.value.1);
        var s := BaselineGene(gs[n], interface, p, pm, draws, prior.value.1).value;
        assert r.value == (prior.value.0 + [s.gene], s.tick);
        forall i | 0 <= i < |gs|
          ensures KeepsShape(gs[i], r.value.0[i])
        {
          if i < n {
            assert gs[..n][i] == gs[i];
            assert r.value.0[i] == prior.value.0[i];
          }
        }
      }
    }
  }

  /** The guided treatment of each gene. */
  function GuidedTreatment(info: map<string, TargetInfo>, llmTargets: Option<map<string, Value>>, interface: Interface, p: Producers, pm: real, draws: nat -> real): Treatment {
    (g: GeneState, t: nat) => GuidedGene(g, info, llmTargets, interface, p, pm, draws, t)
  }

  /** The guided path over the genes in order; `None` when one raises. */
  function GuidedAll(gs: seq<GeneState>, info: map<string, TargetInfo>, llmTargets: Option<map<string, Value>>, interface: Interface, p: Producers, pm: real, draws: nat -> real, t: nat): Option<(seq<GeneState>, nat)> {
    Sweep(gs, GuidedTreatment(info, llmTargets, interface, p, pm, draws), t)
  }

  /** A gene after the guided path: its shape kept, and unchanged when its selector is unknown. */
  predicate GuidedKept(g: GeneState, h: GeneState, info: map<string, TargetInfo>) {
    KeepsShape(g, h) && (Unindexed(g, info) ==> h == g)
  }

  /** The guided path keeps the shape of every gene and leaves the genes with unknown selectors exactly as they were. */
  lemma {:induction false} GuidedAllShape(gs: seq<GeneState>, info: map<string, TargetInfo>, llmTargets: Option<map<string, Value>>, interface: Interface, p: Producers, pm: real, draws: nat -> real, t: nat)
    ensures var r := GuidedAll(gs, info, llmTargets, interface, p, pm, draws, t);
      r.Some? ==> (|r.value.0| == |gs| && r.value.1 >= t
                   && forall i :: 0 <= i < |gs| ==> GuidedKept(gs[i], r.value.0[i], info))
    decreases |gs|
  {
    if |gs| > 0 {
      var n := |gs| - 1;
      GuidedAllShape(gs[..n], info, llmTargets, interface, p, pm, draws, t);
      var prior := GuidedAll(gs[..n], info, llmTargets, interface, p, pm, draws, t);
      var r := GuidedAll(gs, info, llmTargets, interface, p, pm, draws, t);
      if prior.Some? && r.Some? {
        GuidedGeneSkips(gs[n], info, llmTargets, interface, p, pm, draws, prior.value.1);
        GuidedGeneShape(gs[n], info, llmTargets, interface, p, pm, draws, prior.value.1);
        var s := GuidedGene(gs[n], info, llmTargets, interface, p, pm, draws, prior.value.1).value;
        assert r.value == (prior.value.0 + [s.gene], s.tick);
        forall i | 0 <= i < |gs|
          ensures GuidedKept(gs[i], r.value.0[i], info)
        {
          if i < n {
            assert gs[..n][i] == gs[i];
            assert r.value.0[i] == prior.value.0[i];
          }
        }
      }
    }
  }

  /** Once an argument pass has raised, further passes change nothing. */
  lemma {:induction false} PassesCrashIsFinal(args: seq<Value>, m: nat, n: nat, interface: Interface, p: Producers, pm: real, draws: nat -> real, t: nat)
    requires 0 < |args| && m <= n && Passes(args, m, interface, p, pm, draws, t).None?
    ensures Passes(args, n, interface, p, pm, draws, t).None?
    decreases n
  {
    if m < n {
      PassesCrashIsFinal(args, m, n - 1, interface, p, pm, draws, t);
    }
  }

  // ---------------------------------------------------------------------
  // The strategy cache and the choice of path
  // ---------------------------------------------------------------------

  /** What `mutate` reads from the engine: whether a coverage context is present, the generation, and the ABI of the contract. */
  datatype Engine = Engine(hasContext: bool, currentGeneration: int, abi: seq<Entry>)

  /** `_llm_mutation_strategy` and `_strategy_generation`. */
  datatype Cache = Cache(strategy: Option<Value>, generation: int)

  /** The model is asked for a new strategy: there is a context and the cached one is from another generation. */
  predicate AsksModel(c: Cache, hasContext: bool, generation: int) {
    hasContext && c.generation != generation
  }

  /** The cache after the LLM step of `mutate`, where `reply` is what the model would answer. */
  function NextCache(c: Cache, hasContext: bool, generation: int, reply: Value): Cache {
    if AsksModel(c, hasContext, generation) then Cache(Some(reply), generation)
    else if !hasContext then c.(strategy := None)
    else c
  }

  /**
   * Within one generation the model is asked at most once: after a request
   * the cache is current, and a later step of the same generation keeps it.
   * Without a context no strategy survives, and the generation stays.
   */
  lemma CacheAsksOncePerGeneration(c: Cache, generation: int, first: Value, later: Value)
    ensures !AsksModel(NextCache(c, true, generation, first), true, generation)
    ensures NextCache(NextCache(c, true, generation, first), true, generation, later)
      == NextCache(c, true, generation, first)
    ensures NextCache(c, false, generation, first) == Cache(None, c.generation)
  {
  }

  predicate IsLlmMode(mode: string) {
    mode == "llm-mutate" || mode == "llm-full"
  }

  /** The guided path runs in an LLM mode with a truthy cached strategy; the baseline path otherwise. */
  predicate UsesGuidedPath(mode: string, strategy: Option<Value>) {
    IsLlmMode(mode) && strategy.Some? && Truthy(strategy.value)
  }

  // ---------------------------------------------------------------------
  // The objects
  // ---------------------------------------------------------------------

  /** A gene dict, updated in place. */
  class Gene {
    var arguments: seq<Value>
    var account: Option<Value>
    var amount: Option<Value>
    var gaslimit: Option<Value>
    var timestamp: Option<Value>
    var blocknumber: Option<Value>
    var balance: Option<Value>
    var callReturn: Option<Entries>
    var extcodesize: Option<Entries>
    var returndatasize: Option<Entries>
    var otherKeys: nat

    function State(): GeneState
      reads this
    {
      GeneState(arguments, account, amount, gaslimit, timestamp, blocknumber, balance,
                callReturn, extcodesize, returndatasize, otherKeys)
    }

    constructor (s: GeneState)
      ensures State() == s
    {
      arguments := s.arguments;
      account := s.account;
      amount := s.amount;
      gaslimit := s.gaslimit;
      timestamp := s.timestamp;
      blocknumber := s.blocknumber;
      balance := s.balance;
      callReturn := s.callReturn;
      extcodesize := s.extcodesize;
      returndatasize := s.returndatasize;
      otherKeys := s.otherKeys;
    }
  }

  /** The states of a list of genes. */
  function States(cs: seq<Gene>): (r: seq<GeneState>)
    reads set g | g in cs
    ensures |r| == |cs| && forall i :: 0 <= i < |cs| ==> r[i] == cs[i].State()
  {
    seq(|cs|, i reads set g | g in cs requires 0 <= i < |cs| => cs[i].State())
  }

  predicate Distinct(cs: seq<Gene>) {
    forall i, j :: 0 <= i < j < |cs| ==> cs[i] != cs[j]
  }

  /** The mutation operator and the state it carries between calls. */
  class Mutation {
    const pm: real
    const mode: string
    /** Keccak-256, for `_build_function_info_map`. */
    const keccak: Keccak
    var llmMutator: Reconciler.LlmMutator?
    var llmMutationStrategy: Option<Value>
    var strategyGeneration: int
    var contractAbi: Option<seq<Entry>>
    var functionInfoMap: Option<map<string, TargetInfo>>

    /** `__init__` once the probability has been checked. */
    constructor (pm: real, mode: string, keccak: Keccak)
      requires 0.0 < pm <= 1.0
      ensures this.pm == pm && this.mode == mode && this.keccak == keccak
      ensures llmMutator == null && llmMutationStrategy.None? && strategyGeneration == -1
      ensures contractAbi.None? && functionInfoMap.None?
    {
      this.pm := pm;
      this.mode := mode;
      this.keccak := keccak;
      llmMutator := null;
      llmMutationStrategy := None;
      strategyGeneration := -1;
      contractAbi := None;
      functionInfoMap := None;
    }

    /** `Mutation(pm, mode)`: `null` stands for the `ValueError` raised unless `0 < pm <= 1`. */
    static method Create(pm: real, mode: string, keccak: Keccak) returns (m: Mutation?)
      ensures m != null <==> 0.0 < pm <= 1.0
      ensures m != null ==> fresh(m) && m.pm == pm && m.mode == mode && m.functionInfoMap.None?
      ensures m != null ==> m.llmMutationStrategy.None? && m.strategyGeneration == -1
    {
      if pm <= 0.0 || pm > 1.0 {
        return null;
      }
      m := new Mutation(pm, mode, keccak);
    }

    /** `_build_function_info_map`: every function entry under its selector, a later one replacing an earlier one. */
    method BuildFunctionInfoMap(abi: seq<Entry>) returns (infoMap: map<string, TargetInfo>)
      ensures infoMap == TargetsBySelector(keccak, abi)
    {
      infoMap := map[];
      var i := 0;
      while i < |abi|
        invariant 0 <= i <= |abi|
        invariant infoMap == TargetsBySelector(keccak, abi[..i])
      {
        var entry := abi[i];
        assert abi[..i + 1][..i] == abi[..i];
        if entry.kind == "function" {
          var inputTypes := Types(entry.inputs);
          var paramNames := Names(entry.inputs);
          var signatureText := entry.name + "(" + Join(",", inputTypes) + ")";
          var funcHash := ("0x" + HexOf(keccak(signatureText)))[2..10];
          var normalized := if StartsWith(funcHash, "0x") then funcHash else "0x" + funcHash;
          infoMap := infoMap[normalized := TargetInfo(entry.name, paramNames)];
        }
        i := i + 1;
      }
      assert abi[..i] == abi;
    }

    /** The values of one address-keyed map, redrawn one address at a time. */
    method RedrawEntries(m: Entries, f: MapField, hash: Value, p: Producers, draws: nat -> real, t: nat) returns (m': Entries, t': nat)
      ensures (Some(m'), t') == RefreshEntries(Some(m), f, hash, p, pm, draws, t)
    {
      m' := m;
      var k := 0;
      while k < |m|
        invariant 0 <= k <= |m|
        invariant m' == Redrawn(m, f, hash, p, pm, draws, t, k)
      {
        if draws(t + k) <= pm {
          m' := m'[k := (m[k].0, p.entry(f, t + k + 1, hash, m[k].0))];
        }
        k := k + 1;
      }
      t' := t + |m|;
    }

    /** A missing map: created empty, holding the producer's entry when its address is truthy. */
    method NewEntries(f: MapField, hash: Value, p: Producers, draws: nat -> real, t: nat) returns (m': Entries)
      ensures (Some(m'), t) == RefreshEntries(None, f, hash, p, pm, draws, t)
    {
      m' := [];
      var address, value := p.newEntry(f, t, hash).0, p.newEntry(f, t, hash).1;
      if address.Some? && address.value != "" && address.value !in EntryKeys(m') {
        m' := m' + [(address.value, value)];
        assert m' == [(address.value, value)];
      }
    }

    /** `get_else_mutation_info`: the transaction fields, the block and balance fields, then the three maps. */
    method GetElseMutationInfo(p: Producers, gene: Gene, draws: nat -> real, t: nat) returns (t': nat)
      requires |gene.arguments| > 0
      modifies gene
      ensures Step(gene.State(), t') == ElseMutation(old(gene.State()), p, pm, draws, t)
    {
      var functionHash := gene.arguments[0];
      ghost var tr := Trace(Step(gene.State(), t), ElseStages, functionHash, p, pm, draws);
      t' := TransactionStep(p, gene, functionHash, draws, t);
      assert Step(gene.State(), t') == tr[1];
      t' := BlockStep(Timestamp, p, gene, functionHash, draws, t');
      assert Step(gene.State(), t') == tr[2];
      t' := BlockStep(Blocknumber, p, gene, functionHash, draws, t');
      assert Step(gene.State(), t') == tr[3];
      t' := BlockStep(Balance, p, gene, functionHash, draws, t');
      assert Step(gene.State(), t') == tr[4];
      t' := MapStep(CallReturn, p, gene, functionHash, draws, t');
      assert Step(gene.State(), t') == tr[5];
      t' := MapStep(Extcodesize, p, gene, functionHash, draws, t');
      assert Step(gene.State(), t') == tr[6];
      t' := MapStep(Returndatasize, p, gene, functionHash, draws, t');
      assert Step(gene.State(), t') == tr[7];
    }

    /** One block or balance field: redrawn when present, produced when missing. */
    method BlockStep(f: BlockField, p: Producers, gene: Gene, functionHash: Value, draws: nat -> real, t: nat) returns (t': nat)
      modifies gene
      ensures Step(gene.State(), t') == ApplyStage(Step(old(gene.State()), t), Block(f), functionHash, p, pm, draws)
    {
      var v := match f
        case Timestamp => gene.timestamp
        case Blocknumber => gene.blocknumber
        case Balance => gene.balance;
      var v' := v;
      t' := t;
      if v.Some? {
        var d := draws(t');
        t' := t' + 1;
        if d <= pm {
          v' := Some(p.block(f, t', functionHash));
        }
      } else {
        v' := Some(p.block(f, t', functionHash));
      }
      match f {
        case Timestamp => gene.timestamp := v';
        case Blocknumber => gene.blocknumber := v';
        case Balance => gene.balance := v';
      }
    }

    /** One address-keyed map: each existing address redrawn, or a new map created. */
    method MapStep(f: MapField, p: Producers, gene: Gene, functionHash: Value, draws: nat -> real, t: nat) returns (t': nat)
      modifies gene
      ensures Step(gene.State(), t') == ApplyStage(Step(old(gene.State()), t), Map(f), functionHash, p, pm, draws)
    {
      var m := match f
        case CallReturn => gene.callReturn
        case Extcodesize => gene.extcodesize
        case Returndatasize => gene.returndatasize;
      var m': Entries;
      if m.Some? {
        m', t' := RedrawEntries(m.value, f, functionHash, p, draws, t);
      } else {
        m' := NewEntries(f, functionHash, p, draws, t);
        t' := t;
      }
      match f {
        case CallReturn => gene.callReturn := Some(m');
        case Extcodesize => gene.extcodesize := Some(m');
        case Returndatasize => gene.returndatasize := Some(m');
      }
    }

    /** The `if`/`elif` chain over account, amount and gas limit. */
    method TransactionStep(p: Producers, gene: Gene, functionHash: Value, draws: nat -> real, t: nat) returns (t': nat)
      modifies gene
      ensures Step(gene.State(), t') == TransactionFields(old(gene.State()), functionHash, p, pm, draws, t)
    {
      t' := t;
      if gene.account.Some? {
        t' := t' + 1;
        if draws(t) <= pm {
          gene.account := Some(p.account(t', functionHash));
          return;
        }
      }
      if gene.amount.Some? {
        var d := draws(t');
        t' := t' + 1;
        if d <= pm {
          gene.amount := Some(p.amount(t', functionHash));
          return;
        }
      }
      if gene.gaslimit.Some? {
        var d := draws(t');
        t' := t' + 1;
        if d <= pm {
          gene.gaslimit := Some(p.gaslimit(t', functionHash));
        }
      }
    }

    /** One baseline pass over the arguments: a draw per index, a new value when it is at most `pm`. */
    method ArgumentPass(interface: Interface, p: Producers, gene: Gene, draws: nat -> real, t: nat) returns (ok: bool, t': nat)
      requires |gene.arguments| > 0
      modifies gene
      ensures ok <==> Pass(old(gene.arguments), interface, p, pm, draws, t).Some?
      ensures ok ==> Pass(old(gene.arguments), interface, p, pm, draws, t) == Some((gene.arguments, t'))
      ensures gene.State() == old(gene.State()).(arguments := gene.arguments)
    {
      ghost var args0 := gene.arguments;
      ok := true;
      var argumentIndex := 1;
      t' := t;
      while argumentIndex < |gene.arguments|
        invariant 1 <= argumentIndex <= |args0| == |gene.arguments|
        invariant t' == t + argumentIndex - 1
        invariant !PassFails(args0, argumentIndex, interface, pm, draws, t)
        invariant gene.arguments == PassUpTo(args0, argumentIndex, interface, p, pm, draws, t)
        invariant gene.State() == old(gene.State()).(arguments := gene.arguments)
      {
        ok, t' := PassIndex(interface, p, gene, args0, draws, t, argumentIndex, t');
        if !ok {
          return;
        }
        argumentIndex := argumentIndex + 1;
      }
    }

    /** Index `i` of a baseline pass: the draw, and a new value of the looked-up type when it is at most `pm`. */
    method PassIndex(interface: Interface, p: Producers, gene: Gene, ghost args0: seq<Value>, draws: nat -> real, ghost t0: nat, i: nat, t: nat)
      returns (ok: bool, t': nat)
      requires 1 <= i < |args0| && t == t0 + i - 1
      requires !PassFails(args0, i, interface, pm, draws, t0)
      requires gene.arguments == PassUpTo(args0, i, interface, p, pm, draws, t0)
      modifies gene
      ensures t' == t + 1
      ensures ok <==> !PassFails(args0, i + 1, interface, pm, draws, t0)
      ensures ok ==> gene.arguments == PassUpTo(args0, i + 1, interface, p, pm, draws, t0)
      ensures gene.State() == old(gene.State()).(arguments := gene.arguments)
    {
      PassUpToNext(args0, i, interface, p, pm, draws, t0);
      var functionHash := gene.arguments[0];
      var d := draws(t);
      t' := t + 1;
      ok := true;
      if d <= pm {
        var argumentType := TypeAt(interface, functionHash, i - 1);
        if argumentType.None? {
          return false, t';
        }
        gene.arguments := gene.arguments[i := p.argument(t', argumentType.value, functionHash, i - 1)];
      }
    }

    /** `passes` argument passes over the gene, one after the other. */
    method RunArgumentPasses(interface: Interface, p: Producers, gene: Gene, passes: nat, draws: nat -> real, t: nat) returns (ok: bool, t': nat)
      requires |gene.arguments| > 0
      modifies gene
      ensures ok <==> Passes(old(gene.arguments), passes, interface, p, pm, draws, t).Some?
      ensures ok ==> Passes(old(gene.arguments), passes, interface, p, pm, draws, t) == Some((gene.arguments, t'))
      ensures ok ==> gene.State() == old(gene.State()).(arguments := gene.arguments)
    {
      ghost var args0 := gene.arguments;
      var element := 0;
      t' := t;
      while element < passes
        invariant 0 <= element <= passes
        invariant Passes(args0, element, interface, p, pm, draws, t) == Some((gene.arguments, t'))
        invariant gene.State() == old(gene.State()).(arguments := gene.arguments)
      {
        var passOk, t1 := ArgumentPass(interface, p, gene, draws, t');
        if !passOk {
          PassesCrashIsFinal(args0, element + 1, passes, interface, p, pm, draws, t);
          return false, t1;
        }
        t' := t1;
        element := element + 1;
      }
      ok := true;
    }

    /** The baseline treatment of one gene: an argument pass per key other than the transaction fields, then the other fields. */
    method BaselineGeneStep(generator: Generator, gene: Gene, draws: nat -> real, t: nat) returns (ok: bool, t': nat)
      modifies gene
      ensures ok <==> BaselineGene(old(gene.State()), generator.interface, generator.produce, pm, draws, t).Some?
      ensures ok ==> (BaselineGene(old(gene.State()), generator.interface, generator.produce, pm, draws, t)
                      == Some(Step(gene.State(), t')))
    {
      if |gene.arguments| == 0 {
        return false, t;
      }
      var passes := ArgumentPasses(gene.State());
      ok, t' := RunArgumentPasses(generator.interface, generator.produce, gene, passes, draws, t);
      if ok {
        t' := GetElseMutationInfo(generator.produce, gene, draws, t');
      }
    }

    /** The argument loop of `llm_guided_mutation` for one gene, up to the last parameter name. */
    method GuidedArguments(interface: Interface, p: Producers, gene: Gene, paramNames: seq<string>, targetedParams: Option<Value>,
                           draws: nat -> real, t: nat) returns (ok: bool, t': nat)
      requires |gene.arguments| > 0
      modifies gene
      ensures ok <==> GuidedPass(old(gene.arguments), paramNames, targetedParams, interface, p, pm, draws, t).Some?
      ensures ok ==> GuidedPass(old(gene.arguments), paramNames, targetedParams, interface, p, pm, draws, t) == Some((gene.arguments, t'))
      ensures gene.State() == old(gene.State()).(arguments := gene.arguments)
    {
      ghost var args0 := gene.arguments;
      var i := 1;
      t' := t;
      while i < |gene.arguments|
        invariant 1 <= i <= GuidedBound(args0, paramNames) && |gene.arguments| == |args0|
        invariant t' == t + i - 1
        invariant !GuidedFails(args0, paramNames, targetedParams, i, interface, pm, draws, t)
        invariant gene.arguments == GuidedUpTo(args0, paramNames, targetedParams, i, interface, p, pm, draws, t)
        invariant gene.State() == old(gene.State()).(arguments := gene.arguments)
      {
        if i - 1 >= |paramNames| {
          break;
        }
        ok, t' := GuidedIndex(interface, p, gene, args0, paramNames, targetedParams, draws, t, i, t');
        if !ok {
          return;
        }
        i := i + 1;
      }
      ok := true;
    }

    /** One index `i` of the guided argument loop: `in` on the parameter name, the draw, and the redraw when it passes. */
    method GuidedIndex(interface: Interface, p: Producers, gene: Gene, ghost args0: seq<Value>, paramNames: seq<string>, targetedParams: Option<Value>,
                       draws: nat -> real, ghost t0: nat, i: nat, t: nat) returns (ok: bool, t': nat)
      requires 0 < |args0| && 1 <= i < GuidedBound(args0, paramNames) && t == t0 + i - 1
      requires !GuidedFails(args0, paramNames, targetedParams, i, interface, pm, draws, t0)
      requires gene.arguments == GuidedUpTo(args0, paramNames, targetedParams, i, interface, p, pm, draws, t0)
      modifies gene
      ensures ok <==> !GuidedFails(args0, paramNames, targetedParams, i + 1, interface, pm, draws, t0)
      ensures ok ==> t' == t + 1 && gene.arguments == GuidedUpTo(args0, paramNames, targetedParams, i + 1, interface, p, pm, draws, t0)
      ensures gene.State() == old(gene.State()).(arguments := gene.arguments)
    {
      GuidedUpToNext(args0, paramNames, targetedParams, i, interface, p, pm, draws, t0);
      var functionHash := gene.arguments[0];
      var paramIndex := i - 1;
      var targeted := IsTargeted(targetedParams, paramNames[paramIndex]);
      if targeted.None? {
        return false, t;
      }
      var d := draws(t);
      t' := t + 1;
      ok := true;
      if d <= Threshold(targeted.value, pm) {
        var argumentType := TypeAt(interface, functionHash, paramIndex);
        if argumentType.None? {
          return false, t';
        }
        gene.arguments := gene.arguments[i := p.argument(t', argumentType.value, functionHash, paramIndex)];
      }
    }

    /** The guided treatment of one gene (the body of the loop of `llm_guided_mutation`). */
    method GuidedGeneStep(generator: Generator, info: map<string, TargetInfo>, llmTargets: Option<map<string, Value>>, gene: Gene, draws: nat -> real, t: nat)
      returns (ok: bool, t': nat)
      modifies gene
      ensures ok <==> GuidedGene(old(gene.State()), info, llmTargets, generator.interface, generator.produce, pm, draws, t).Some?
      ensures ok ==> (GuidedGene(old(gene.State()), info, llmTargets, generator.interface, generator.produce, pm, draws, t)
                      == Some(Step(gene.State(), t')))
    {
      if |gene.arguments| == 0 {
        return false, t;
      }
      var functionHash := gene.arguments[0];
      if functionHash.Array? || functionHash.Object? {
        return false, t;
      }
      if !(functionHash.Str? && functionHash.s in info) {
        return true, t;
      }
      var funcInfo := info[functionHash.s];
      var funcName := funcInfo.name;
      var paramNames := funcInfo.params;
      if llmTargets.None? {
        return false, t;
      }
      var isTargetedFunction := funcName in llmTargets.value;
      var targetedParams := if isTargetedFunction then Some(llmTargets.value[funcName]) else None;
      ok, t' := GuidedArguments(generator.interface, generator.produce, gene, paramNames, targetedParams, draws, t);
      if ok {
        t' := GetElseMutationInfo(generator.produce, gene, draws, t');
      }
    }

    /** The `else` branch of `mutate`: the baseline treatment of every gene in order; `before` holds the genes' states on entry. */
    method BaselineMutation(generator: Generator, chromosome: seq<Gene>, ghost before: seq<GeneState>, draws: nat -> real, t: nat) returns (ok: bool, t': nat)
      requires Distinct(chromosome) && |before| == |chromosome|
      requires forall j :: 0 <= j < |chromosome| ==> chromosome[j].State() == before[j]
      modifies set g | g in chromosome
      ensures var r := BaselineAll(before, generator.interface, generator.produce, pm, draws, t);
        (ok <==> r.Some?) && (ok ==> r.value.1 == t' && forall j :: 0 <= j < |chromosome| ==> chromosome[j].State() == r.value.0[j])
    {
      ghost var done: seq<GeneState> := [];
      var i := 0;
      t' := t;
      while i < |chromosome|
        invariant 0 <= i <= |chromosome| && |done| == i
        invariant BaselineAll(before[..i], generator.interface, generator.produce, pm, draws, t) == Some((done, t'))
        invariant forall j :: 0 <= j < i ==> chromosome[j].State() == done[j]
        invariant forall j :: i <= j < |chromosome| ==> chromosome[j].State() == before[j]
      {
        var geneOk, t1 := BaselineSweepStep(generator, chromosome, before, i, draws, t, done, t');
        if !geneOk {
          return false, t1;
        }
        done := done + [chromosome[i].State()];
        t' := t1;
        i := i + 1;
      }
      assert before[..i] == before;
      ok := true;
    }

    /** Gene `i` of the baseline loop, as a step of the sweep over the genes before it; the other genes stay as they are. */
    method BaselineSweepStep(generator: Generator, chromosome: seq<Gene>, ghost before: seq<GeneState>, i: nat, draws: nat -> real,
                             ghost t0: nat, ghost done: seq<GeneState>, t: nat) returns (ok: bool, t': nat)
      requires Distinct(chromosome) && i < |before| == |chromosome| && chromosome[i].State() == before[i]
      requires BaselineAll(before[..i], generator.interface, generator.produce, pm, draws, t0) == Some((done, t))
      modifies chromosome[i]
      ensures ok ==> BaselineAll(before[..i + 1], generator.interface, generator.produce, pm, draws, t0) == Some((done + [chromosome[i].State()], t'))
      ensures !ok ==> BaselineAll(before, generator.interface, generator.produce, pm, draws, t0).None?
      ensures forall j :: 0 <= j < |chromosome| && j != i ==> chromosome[j].State() == old(chromosome[j].State())
    {
      ok, t' := BaselineGeneStep(generator, chromosome[i], draws, t);
      SweepStep(before, i, BaselineTreatment(generator.interface, generator.produce, pm, draws), t0);
      if !ok {
        SweepCrashIsFinal(before, i + 1, BaselineTreatment(generator.interface, generator.produce, pm, draws), t0);
      }
    }

    /**
     * `llm_guided_mutation`: the guided treatment of every gene in order.
     * `targets` is the strategy as a dict (`None` when it is not one);
     * `before` holds the genes' states on entry.
     */
    method LlmGuidedMutation(generator: Generator, chromosome: seq<Gene>, ghost before: seq<GeneState>, info: map<string, TargetInfo>,
                             targets: Option<map<string, Value>>, draws: nat -> real, t: nat) returns (ok: bool, t': nat)
      requires Distinct(chromosome) && |before| == |chromosome|
      requires forall j :: 0 <= j < |chromosome| ==> chromosome[j].State() == before[j]
      modifies set g | g in chromosome
      ensures var r := GuidedAll(before, info, targets, generator.interface, generator.produce, pm, draws, t);
        (ok <==> r.Some?) && (ok ==> r.value.1 == t' && forall j :: 0 <= j < |chromosome| ==> chromosome[j].State() == r.value.0[j])
    {
      ghost var done: seq<GeneState> := [];
      var i := 0;
      t' := t;
      while i < |chromosome|
        invariant 0 <= i <= |chromosome|
        invariant |done| == i
        invariant GuidedAll(before[..i], info, targets, generator.interface, generator.produce, pm, draws, t) == Some((done, t'))
        invariant forall j :: 0 <= j < i ==> chromosome[j].State() == done[j]
        invariant forall j :: i <= j < |chromosome| ==> chromosome[j].State() == before[j]
      {
        var geneOk, t1 := GuidedSweepStep(generator, chromosome, before, i, info, targets, draws, t, done, t');
        if !geneOk {
          return false, t1;
        }
        done := done + [chromosome[i].State()];
        t' := t1;
        i := i + 1;
      }
      assert before[..i] == before;
      ok := true;
    }

    /** Gene `i` of `llm_guided_mutation`, as a step of the sweep over the genes before it; the other genes stay as they are. */
    method GuidedSweepStep(generator: Generator, chromosome: seq<Gene>, ghost before: seq<GeneState>, i: nat, info: map<string, TargetInfo>,
                           targets: Option<map<string, Value>>, draws: nat -> real, ghost t0: nat, ghost done: seq<GeneState>, t: nat)
      returns (ok: bool, t': nat)
      requires Distinct(chromosome) && i < |before| == |chromosome| && chromosome[i].State() == before[i]
      requires GuidedAll(before[..i], info, targets, generator.interface, generator.produce, pm, draws, t0) == Some((done, t))
      modifies chromosome[i]
      ensures ok ==> GuidedAll(before[..i + 1], info, targets, generator.interface, generator.produce, pm, draws, t0) == Some((done + [chromosome[i].State()], t'))
      ensures !ok ==> GuidedAll(before, info, targets, generator.interface, generator.produce, pm, draws, t0).None?
      ensures forall j :: 0 <= j < |chromosome| && j != i ==> chromosome[j].State() == old(chromosome[j].State())
    {
      ok, t' := GuidedGeneStep(generator, info, targets, chromosome[i], draws, t);
      SweepStep(before, i, GuidedTreatment(info, targets, generator.interface, generator.produce, pm, draws), t0);
      if !ok {
        SweepCrashIsFinal(before, i + 1, GuidedTreatment(info, targets, generator.interface, generator.produce, pm, draws), t0);
      }
    }

    /** `_initialize_llm_helper`: the helper is built once, from the engine's ABI. */
    method InitializeLlmHelper(abi: seq<Entry>)
      modifies this
      ensures old(llmMutator) != null ==> llmMutator == old(llmMutator) && contractAbi == old(contractAbi)
      ensures old(llmMutator) == null ==> llmMutator != null && fresh(llmMutator) && llmMutator.abi == abi && contractAbi == Some(abi)
      ensures llmMutator != null
      ensures llmMutationStrategy == old(llmMutationStrategy) && strategyGeneration == old(strategyGeneration)
      ensures functionInfoMap == old(functionInfoMap)
    {
      if llmMutator == null {
        contractAbi := Some(abi);
        llmMutator := new Reconciler.LlmMutator(abi);
      }
    }

    /** The LLM step of `mutate`: build the helper, then ask for a strategy once per generation, or drop it without a context. */
    method RefreshStrategy(engine: Engine, ask: (nat, string) -> Reconciler.ModelReply, loads: string -> Parsed)
      modifies this
      ensures Cache(llmMutationStrategy, strategyGeneration)
        == NextCache(old(Cache(llmMutationStrategy, strategyGeneration)), engine.hasContext, engine.currentGeneration,
                     Reconciler.MutationStrategy(StrategyRetries, ask, loads))
      ensures functionInfoMap == old(functionInfoMap) && llmMutator != null
    {
      InitializeLlmHelper(engine.abi);
      if engine.hasContext && strategyGeneration != engine.currentGeneration {
        var strategy := llmMutator.GetMutationStrategy(StrategyRetries, ask, loads);
        llmMutationStrategy := Some(strategy);
        strategyGeneration := engine.currentGeneration;
      } else if !engine.hasContext {
        llmMutationStrategy := None;
      }
    }

    /**
     * `mutate`: in an LLM mode, refresh the cached strategy; build the
     * selector table once; then take the guided path when a truthy
     * strategy is cached and the baseline path otherwise. `before` holds
     * the genes' states on entry.
     */
    method Mutate(generator: Generator, chromosome: seq<Gene>, ghost before: seq<GeneState>, engine: Engine,
                  ask: (nat, string) -> Reconciler.ModelReply, loads: string -> Parsed, draws: nat -> real, t: nat)
      returns (ok: bool, t': nat)
      requires Distinct(chromosome) && |before| == |chromosome|
      requires forall j :: 0 <= j < |chromosome| ==> chromosome[j].State() == before[j]
      modifies this, set g | g in chromosome
      ensures Cache(llmMutationStrategy, strategyGeneration)
        == if IsLlmMode(mode)
           then NextCache(old(Cache(llmMutationStrategy, strategyGeneration)), engine.hasContext, engine.currentGeneration,
                          Reconciler.MutationStrategy(StrategyRetries, ask, loads))
           else old(Cache(llmMutationStrategy, strategyGeneration))
      ensures functionInfoMap == Some(if old(functionInfoMap).Some? then old(functionInfoMap).value else TargetsBySelector(keccak, generator.abi))
      ensures var r := if UsesGuidedPath(mode, llmMutationStrategy)
                       then GuidedAll(before, functionInfoMap.value, AsDict(llmMutationStrategy.value), generator.interface, generator.produce, pm, draws, t)
                       else BaselineAll(before, generator.interface, generator.produce, pm, draws, t);
        (ok <==> r.Some?) && (ok ==> r.value.1 == t' && forall j :: 0 <= j < |chromosome| ==> chromosome[j].State() == r.value.0[j])
    {
      var useLlmMutation := IsLlmMode(mode);
      if useLlmMutation {
        RefreshStrategy(engine, ask, loads);
      }
      if functionInfoMap.None? {
        var infoMap := BuildFunctionInfoMap(generator.abi);
        functionInfoMap := Some(infoMap);
      }
      ok, t' := MutateGenes(generator, chromosome, before, draws, t);
    }

    /** The last step of `mutate`: the guided path when a truthy strategy is cached in an LLM mode, the baseline path otherwise. */
    method MutateGenes(generator: Generator, chromosome: seq<Gene>, ghost before: seq<GeneState>, draws: nat -> real, t: nat)
      returns (ok: bool, t': nat)
      requires functionInfoMap.Some?
      requires Distinct(chromosome) && |before| == |chromosome|
      requires forall j :: 0 <= j < |chromosome| ==> chromosome[j].State() == before[j]
      modifies set g | g in chromosome
      ensures var r := if UsesGuidedPath(mode, llmMutationStrategy)
                       then GuidedAll(before, functionInfoMap.value, AsDict(llmMutationStrategy.value), generator.interface, generator.produce, pm, draws, t)
                       else BaselineAll(before, generator.interface, generator.produce, pm, draws, t);
        (ok <==> r.Some?) && (ok ==> r.value.1 == t' && forall j :: 0 <= j < |chromosome| ==> chromosome[j].State() == r.value.0[j])
    {
      if IsLlmMode(mode) && llmMutationStrategy.Some? && Truthy(llmMutationStrategy.value) {
        ok, t' := LlmGuidedMutation(generator, chromosome, before, functionInfoMap.value, AsDict(llmMutationStrategy.value), draws, t);
      } else {
        ok, t' := BaselineMutation(generator, chromosome, before, draws, t);
      }
    }
  }
}
