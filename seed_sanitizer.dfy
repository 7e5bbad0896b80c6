/**
 * The seed generator's validation of an LLM reply: the reply's
 * "transactions" become seeds for the fuzzer, and every candidate that is
 * turned away is counted under exactly one rejection reason.
 *
 * A candidate's first argument names the function, either by name (looked
 * up in `function_name_to_hash`) or by an interface key (a selector or
 * "constructor"/"fallback"). It is rewritten to the selector, the argument
 * count is checked against the interface, and integer and bool arguments
 * are coerced.
 *
 * Where Python raises outside the per-case handlers (a candidate without
 * "arguments", a candidate that is not an object, an unhashable
 * identifier, a non-numeric "amount"), the whole batch is dropped: the
 * outcome is `Abort`, and the counters bumped so far stay as they are.
 */
module SeedSanitizer {
  import opened Wrappers
  import opened Text
  import opened Numerals
  import opened Json
  import opened Abi
  import SignatureIndex

  /** The keys of `filter_stats["rejection_reasons"]`. */
  datatype Reason = InvalidFormat | AbiMismatch | TypeSanitizeFail | ArgCountMismatch | JsonParseFail

  /** `filter_stats`: the three totals and the five reason counters. */
  datatype FilterStats = FilterStats(
    totalGenerated: nat, totalAccepted: nat, totalRejected: nat,
    invalidFormat: nat, abiMismatch: nat, typeSanitizeFail: nat, argCountMismatch: nat, jsonParseFail: nat)
  {
    /** `rejection_reasons[r]`. */
    function Count(r: Reason): nat {
      match r
      case InvalidFormat => invalidFormat
      case AbiMismatch => abiMismatch
      case TypeSanitizeFail => typeSanitizeFail
      case ArgCountMismatch => argCountMismatch
      case JsonParseFail => jsonParseFail
    }

    /** `rejection_reasons[r] += 1`. */
    function Bump(r: Reason): FilterStats {
      match r
      case InvalidFormat => this.(invalidFormat := invalidFormat + 1)
      case AbiMismatch => this.(abiMismatch := abiMismatch + 1)
      case TypeSanitizeFail => this.(typeSanitizeFail := typeSanitizeFail + 1)
      case ArgCountMismatch => this.(argCountMismatch := argCountMismatch + 1)
      case JsonParseFail => this.(jsonParseFail := jsonParseFail + 1)
    }

    /**
     * What the bookkeeping keeps: no more candidates are decided than were
     * generated, and the rejected total is the sum of the four per-case
     * reasons (a JSON decode failure is not a rejected candidate).
     */
    predicate Consistent() {
      totalAccepted + totalRejected <= totalGenerated
      && totalRejected == invalidFormat + abiMismatch + typeSanitizeFail + argCountMismatch
    }
  }

  /** The counters as `__init__` and `reset_filter_stats` set them. */
  const ZeroStats := FilterStats(0, 0, 0, 0, 0, 0, 0, 0)

  /** The fuzzer's interface: selector (or "constructor"/"fallback") to the list of input types. */
  type Interface = map<string, seq<string>>

  /**
   * An accepted seed: the rewritten arguments and the three integer fields.
   * Its "call_return", "extcodesize" and "returndatasize" maps are always
   * empty and are not represented.
   */
  datatype Seed = Seed(arguments: seq<Value>, amount: int, blocknumber: int, timestamp: int)

  /** Python's `int(f)` on a float: truncation toward zero. */
  function Truncate(f: real): (r: int)
    ensures f >= 0.0 ==> r as real <= f < r as real + 1.0
    ensures f < 0.0 ==> r as real - 1.0 < f <= r as real
  {
    if f >= 0.0 then f.Floor else -((-f).Floor)
  }

  /**
   * Python's `int(v)` on a JSON value: numbers truncate, booleans are 0 or 1,
   * strings are read in base 10; `None` where Python raises (`ValueError` on
   * a malformed string, `TypeError` on null, a list or a dict).
   */
  function IntOf(v: Value): (r: Option<int>)
    ensures v.Int? ==> r == Some(v.i)
    ensures v.Bool? ==> r == Some(if v.b then 1 else 0)
    ensures v.Null? || v.Array? || v.Object? ==> r.None?
    ensures v.Str? ==> r == ParseDecimal(v.s)
  {
    match v
    case Int(i) => Some(i)
    case Bool(b) => Some(if b then 1 else 0)
    case Float(f) => Some(Truncate(f))
    case Str(s) => ParseDecimal(s)
    case _ => None
  }

  /** The source's test `'uint' in t or 'int' in t`. */
  predicate IsIntType(t: string) {
    Contains(t, "uint") || Contains(t, "int")
  }

  predicate IsBoolType(t: string) {
    Contains(t, "bool")
  }

  /** The text that decides, inside a `ValueError` message, between the two reasons. */
  const ArgCountMismatchText := "Argument count mismatch"

  /**
   * How much of a failed text `int()`'s `ValueError` message quotes: the
   * message ends with the text's `repr` cut to 200 characters by `%.200R`,
   * that is the opening quote and the first 199 characters of a text that
   * `repr` writes without escapes.
   */
  const QuotedLength := 199

  /** The part of a failed text that its `ValueError` message repeats. */
  function QuotedPart(s: string): (r: string)
    ensures |r| == if |s| < QuotedLength then |s| else QuotedLength
    ensures r == s[..|r|]
  {
    if |s| <= QuotedLength then s else s[..QuotedLength]
  }

  /**
   * One step of `_sanitize_argument_types`: the argument for declared type
   * `t`. For an integer type a string is read in base 16 when it starts
   * with "0x" and in base 10 otherwise, and numbers and booleans go through
   * `int()`; for a bool type a string becomes whether its lower-case form is
   * "true"; everything else is kept. A string that does not parse raises
   * `ValueError`, whose message quotes the start of the string: the caller
   * counts it as an argument count mismatch when that quoted start contains
   * the phrase.
   */
  function Coerce(t: string, v: Value): (r: Result<Value, Reason>)
    ensures r.Err? <==> (IsIntType(t) && v.Str?
                         && (if StartsWith(v.s, "0x") then ParseHexPrefixed(v.s) else ParseDecimal(v.s)).None?)
    ensures r.Err? ==> r.error == (if Contains(QuotedPart(v.s), ArgCountMismatchText) then ArgCountMismatch else TypeSanitizeFail)
    ensures r.Ok? && IsIntType(t) ==> (r.value.Int? <==> !(v.Null? || v.Array? || v.Object?))
    ensures r.Ok? && IsIntType(t) && !v.Str? && IntOf(v).Some? ==> r.value == Int(IntOf(v).value)
    ensures !IsIntType(t) && IsBoolType(t) && v.Str? ==> r == Ok(Bool(AsciiLower(v.s) == "true"))
    ensures !IsIntType(t) && !(IsBoolType(t) && v.Str?) ==> r == Ok(v)
  {
    if IsIntType(t) then
      match v
      case Str(s) =>
        var parsed := if StartsWith(s, "0x") then ParseHexPrefixed(s) else ParseDecimal(s);
        if parsed.Some? then Ok(Int(parsed.value))
        else Err(if Contains(QuotedPart(s), ArgCountMismatchText) then ArgCountMismatch else TypeSanitizeFail)
      case Int(_) => Ok(v)
      case Float(f) => Ok(Int(Truncate(f)))
      case Bool(b) => Ok(Int(if b then 1 else 0))
      case _ => Ok(v)
    else if IsBoolType(t) && v.Str? then Ok(Bool(AsciiLower(v.s) == "true"))
    else Ok(v)
  }

  /** Coercion is idempotent: a coerced argument coerces to itself. */
  lemma CoerceIdempotent(t: string, v: Value)
    requires Coerce(t, v).Ok?
    ensures Coerce(t, Coerce(t, v).value) == Coerce(t, v)
  {
  }

  /** The arguments coerced in order; the first one that fails decides the error. */
  function CoerceAll(types: seq<string>, vals: seq<Value>): Result<seq<Value>, Reason>
    requires |types| == |vals|
    decreases |vals|
  {
    if |vals| == 0 then Ok([])
    else
      var n := |vals| - 1;
      match CoerceAll(types[..n], vals[..n])
      case Err(e) => Err(e)
      case Ok(done) =>
        match Coerce(types[n], vals[n])
        case Err(e) => Err(e)
        case Ok(v) => Ok(done + [v])
  }

  /**
   * The coercion succeeds exactly when every argument coerces, and then
   * holds each argument's coercion; its error is one of the two the
   * coercion of a single argument can give.
   */
  lemma {:induction false} CoerceAllShape(types: seq<string>, vals: seq<Value>)
    requires |types| == |vals|
    ensures var r := CoerceAll(types, vals);
      (r.Ok? ==> (|r.value| == |vals|
                  && forall k :: 0 <= k < |vals| ==> Coerce(types[k], vals[k]) == Ok(r.value[k])))
      && (r.Ok? <==> forall k :: 0 <= k < |vals| ==> Coerce(types[k], vals[k]).Ok?)
      && (r.Err? ==> r.error == TypeSanitizeFail || r.error == ArgCountMismatch)
    decreases |vals|
  {
    if |vals| > 0 {
      var n := |vals| - 1;
      CoerceAllShape(types[..n], vals[..n]);
      var prior := CoerceAll(types[..n], vals[..n]);
      if prior.Ok? && Coerce(types[n], vals[n]).Ok? {
        var r := CoerceAll(types, vals);
        forall k | 0 <= k < |vals| ensures Coerce(types[k], vals[k]) == Ok(r.value[k]) {
          if k < n {
            assert types[..n][k] == types[k] && vals[..n][k] == vals[k];
          }
        }
      } else if prior.Err? {
        var j :| 0 <= j < n && !Coerce(types[..n][j], vals[..n][j]).Ok?;
        assert types[..n][j] == types[j] && vals[..n][j] == vals[j];
      }
    }
  }

  /** Every value is either as it was or replaced by its coercion. */
  predicate PartlyCoerced(types: seq<string>, before: seq<Value>, after: seq<Value>)
    requires |types| == |before| == |after|
  {
    forall k :: 0 <= k < |before| ==> after[k] == before[k] || Coerce(types[k], before[k]) == Ok(after[k])
  }

  /** When the first `i` arguments coerce and argument `i` fails, the whole coercion fails with that error. */
  lemma {:induction false} CoerceAllFirstError(types: seq<string>, vals: seq<Value>, i: nat)
    requires |types| == |vals| && i < |vals|
    requires CoerceAll(types[..i], vals[..i]).Ok?
    requires Coerce(types[i], vals[i]).Err?
    ensures CoerceAll(types, vals) == Err(Coerce(types[i], vals[i]).error)
    decreases |vals|
  {
    var n := |vals| - 1;
    var e := Coerce(types[i], vals[i]).error;
    if i < n {
      assert types[..n][..i] == types[..i] && vals[..n][..i] == vals[..i];
      CoerceAllFirstError(types[..n], vals[..n], i);
      assert CoerceAll(types[..n], vals[..n]) == Err(e);
    } else {
      assert types[..n] == types[..i] && vals[..n] == vals[..i];
      assert Coerce(types[n], vals[n]) == Err(e);
    }
  }

  /**
   * `_sanitize_argument_types` on the arguments once `arguments[0]` holds
   * the selector: the selector must be an interface key (else a
   * `ValueError` counted as a type failure), the number of remaining
   * arguments must equal the number of declared types, and then every
   * argument is coerced to its type.
   */
  function Sanitize(iface: Interface, args: seq<Value>): (r: Result<seq<Value>, Reason>)
    requires |args| > 0 && args[0].Str?
    ensures args[0].s !in iface ==> r == Err(TypeSanitizeFail)
    ensures args[0].s in iface && |iface[args[0].s]| != |args| - 1 ==> r == Err(ArgCountMismatch)
    ensures r.Ok? ==> (args[0].s in iface && |r.value| == |args| == |iface[args[0].s]| + 1 && r.value[0] == args[0]
                       && forall k :: 1 <= k < |args| ==> Coerce(iface[args[0].s][k - 1], args[k]) == Ok(r.value[k]))
    ensures r.Err? ==> r.error == TypeSanitizeFail || r.error == ArgCountMismatch
  {
    var h := args[0].s;
    if h !in iface then Err(TypeSanitizeFail)
    else if |iface[h]| != |args| - 1 then Err(ArgCountMismatch)
    else
      CoerceAllShape(iface[h], args[1..]);
      match CoerceAll(iface[h], args[1..])
      case Err(e) => Err(e)
      case Ok(vs) => Ok([args[0]] + vs)
  }

  /** Sanitizing sanitized arguments changes nothing. */
  lemma SanitizeIdempotent(iface: Interface, args: seq<Value>)
    requires |args| > 0 && args[0].Str? && Sanitize(iface, args).Ok?
    ensures Sanitize(iface, Sanitize(iface, args).value) == Sanitize(iface, args)
  {
    var out := Sanitize(iface, args).value;
    var types := iface[args[0].s];
    forall k | 0 <= k < |types| ensures Coerce(types[k], out[1..][k]) == Ok(out[1..][k]) {
      CoerceIdempotent(types[k], args[k + 1]);
    }
    CoerceAllPointwise(types, out[1..], out[1..]);
    assert [out[0]] + out[1..] == out;
  }

  /** Arguments that coerce one by one to `outs` coerce as a whole to `outs`. */
  lemma {:induction false} CoerceAllPointwise(types: seq<string>, vals: seq<Value>, outs: seq<Value>)
    requires |types| == |vals| == |outs|
    requires forall k :: 0 <= k < |vals| ==> Coerce(types[k], vals[k]) == Ok(outs[k])
    ensures CoerceAll(types, vals) == Ok(outs)
    decreases |vals|
  {
    if |vals| > 0 {
      var n := |vals| - 1;
      CoerceAllPointwise(types[..n], vals[..n], outs[..n]);
      assert outs[..n] + [outs[n]] == outs;
    }
  }

  /** How the first argument is resolved. */
  datatype Resolution = Resolved(hash: string) | Unknown | Unhashable

  /**
   * The identifier is first looked up as a function name, then as an
   * interface key kept as it is; a list or a dict cannot be looked up at all
   * (`TypeError: unhashable type`), and any other value is unknown.
   */
  function Resolve(nameToHash: map<string, string>, iface: Interface, id: Value): (r: Resolution)
    ensures r.Unhashable? <==> id.Array? || id.Object?
    ensures r.Resolved? <==> id.Str? && (id.s in nameToHash || id.s in iface)
    ensures r.Resolved? ==> r.hash == if id.s in nameToHash then nameToHash[id.s] else id.s
  {
    match id
    case Array(_) => Unhashable
    case Object(_) => Unhashable
    case Str(s) =>
      if s in nameToHash then Resolved(nameToHash[s])
      else if s in iface then Resolved(s)
      else Unknown
    case _ => Unknown
  }

  /** What becomes of one candidate. */
  datatype CaseOutcome = Accept(seed: Seed) | Reject(reason: Reason) | Abort

  /** The three integer fields of an accepted seed, with their defaults. */
  function SeedFields(fields: seq<(string, Value)>): (Option<int>, Option<int>, Option<int>) {
    (IntOf(Get(fields, "amount").GetOr(Int(0))),
     IntOf(Get(fields, "blocknumber").GetOr(Int(1))),
     IntOf(Get(fields, "timestamp").GetOr(Int(0))))
  }

  /** The body of the loop over the candidates in `_parse_and_validate_response`. */
  function ClassifyCase(nameToHash: map<string, string>, iface: Interface, c: Value): (r: CaseOutcome)
    ensures r.Reject? ==> r.reason != JsonParseFail
    ensures r.Accept? ==> c.Object? && Get(c.fields, "arguments").Some?
  {
    if !c.Object? then Abort
    else
      match Get(c.fields, "arguments")
      case None => Abort
      case Some(a) =>
        if !a.Array? || |a.items| == 0 then Reject(InvalidFormat)
        else
          match Resolve(nameToHash, iface, a.items[0])
          case Unhashable => Abort
          case Unknown => Reject(AbiMismatch)
          case Resolved(h) =>
            match Sanitize(iface, [Str(h)] + a.items[1..])
            case Err(e) => Reject(e)
            case Ok(args) =>
              var (amount, blocknumber, timestamp) := SeedFields(c.fields);
              if amount.Some? && blocknumber.Some? && timestamp.Some? then
                Accept(Seed(args, amount.value, blocknumber.value, timestamp.value))
              else Abort
  }

  /** The counters after one candidate's outcome. */
  function Tally(stats: FilterStats, outcome: CaseOutcome): FilterStats {
    match outcome
    case Accept(_) => stats.(totalAccepted := stats.totalAccepted + 1)
    case Reject(r) => stats.Bump(r).(totalRejected := stats.totalRejected + 1)
    case Abort => stats
  }

  /** The seeds, counters and whether the batch was dropped, after the loop has seen `cases`. */
  datatype Batch = Batch(seeds: seq<Seed>, stats: FilterStats, aborted: bool)

  /** One more candidate's outcome: nothing once the batch is dropped; otherwise a seed or a count, or the drop. */
  function Extend(b: Batch, outcome: CaseOutcome): Batch {
    if b.aborted then b
    else
      match outcome
      case Abort => b.(aborted := true)
      case Accept(s) => Batch(b.seeds + [s], Tally(b.stats, outcome), false)
      case Reject(_) => Batch(b.seeds, Tally(b.stats, outcome), false)
  }

  /** The loop of `_parse_and_validate_response` over `cases`, from the counters `stats`. */
  function RunCases(nameToHash: map<string, string>, iface: Interface, cases: seq<Value>, stats: FilterStats): Batch
    decreases |cases|
  {
    if |cases| == 0 then Batch([], stats, false)
    else Extend(RunCases(nameToHash, iface, cases[..|cases| - 1], stats), ClassifyCase(nameToHash, iface, cases[|cases| - 1]))
  }

  /**
   * One outcome leaves the generated total and the JSON counter alone,
   * decides one more candidate unless the batch is (or becomes) dropped,
   * moves the rejected total with the reasons and the accepted total with
   * the seeds.
   */
  lemma ExtendCounts(b: Batch, outcome: CaseOutcome)
    requires outcome.Reject? ==> outcome.reason != JsonParseFail
    ensures var e := Extend(b, outcome);
      e.stats.totalGenerated == b.stats.totalGenerated
      && e.stats.jsonParseFail == b.stats.jsonParseFail
      && e.stats.totalAccepted + e.stats.totalRejected <= b.stats.totalAccepted + b.stats.totalRejected + 1
      && (!e.aborted ==> !b.aborted && e.stats.totalAccepted + e.stats.totalRejected == b.stats.totalAccepted + b.stats.totalRejected + 1)
      && e.stats.totalRejected - b.stats.totalRejected
         == (e.stats.invalidFormat + e.stats.abiMismatch + e.stats.typeSanitizeFail + e.stats.argCountMismatch)
            - (b.stats.invalidFormat + b.stats.abiMismatch + b.stats.typeSanitizeFail + b.stats.argCountMismatch)
      && e.stats.totalAccepted - b.stats.totalAccepted == |e.seeds| - |b.seeds|
  {
  }

  /** What `_parse_and_validate_response` returns, and the counters it leaves. */
  datatype Validated = Validated(seeds: seq<Seed>, stats: FilterStats)

  /**
   * `_parse_and_validate_response` given what `json.loads` made of the
   * stripped reply: a decode error counts only under "json_parse_fail"; a
   * top-level value that is not a dict, or a "transactions" value without a
   * length, raises before anything is counted; a string or dict of
   * transactions adds its length to the generated total and then yields
   * nothing; a list is run candidate by candidate.
   */
  function ParseAndValidate(nameToHash: map<string, string>, iface: Interface, parsed: Parsed, stats: FilterStats): Validated {
    match parsed
    case DecodeError(_) => Validated([], stats.Bump(JsonParseFail))
    case Parsed(data) =>
      if !data.Object? then Validated([], stats)
      else
        var cases := Get(data.fields, "transactions").GetOr(Array([]));
        match Len(cases)
        case None => Validated([], stats)
        case Some(n) =>
          var counted := stats.(totalGenerated := stats.totalGenerated + n);
          if !cases.Array? then Validated([], counted)
          else
            var b := RunCases(nameToHash, iface, cases.items, counted);
            if b.aborted then Validated([], b.stats) else Validated(b.seeds, b.stats)
  }

  /** A rejection raises exactly one reason counter and the rejected total by one, and nothing else. */
  lemma RejectionBumpsOneReason(stats: FilterStats, r: Reason)
    requires r != JsonParseFail
    ensures forall r' :: Tally(stats, Reject(r)).Count(r') == stats.Count(r') + (if r' == r then 1 else 0)
    ensures Tally(stats, Reject(r)).totalRejected == stats.totalRejected + 1
    ensures Tally(stats, Reject(r)).totalAccepted == stats.totalAccepted
    ensures Tally(stats, Reject(r)).totalGenerated == stats.totalGenerated
  {
  }

  /**
   * Over a run, the candidates decided grow by at most the number of
   * candidates (exactly that many when the batch was not dropped), the
   * generated total and the JSON counter stay, the rejected total moves with
   * the four reasons, and the accepted total grows by the number of seeds.
   */
  lemma {:induction false} RunCasesCounts(nameToHash: map<string, string>, iface: Interface, cases: seq<Value>, stats: FilterStats)
    ensures var b := RunCases(nameToHash, iface, cases, stats);
      b.stats.totalGenerated == stats.totalGenerated
      && b.stats.jsonParseFail == stats.jsonParseFail
      && b.stats.totalAccepted + b.stats.totalRejected <= stats.totalAccepted + stats.totalRejected + |cases|
      && (!b.aborted ==> b.stats.totalAccepted + b.stats.totalRejected == stats.totalAccepted + stats.totalRejected + |cases|)
      && b.stats.totalRejected - stats.totalRejected
         == (b.stats.invalidFormat + b.stats.abiMismatch + b.stats.typeSanitizeFail + b.stats.argCountMismatch)
            - (stats.invalidFormat + stats.abiMismatch + stats.typeSanitizeFail + stats.argCountMismatch)
      && b.stats.totalAccepted == stats.totalAccepted + |b.seeds|
    decreases |cases|
  {
    if |cases| > 0 {
      RunCasesCounts(nameToHash, iface, cases[..|cases| - 1], stats);
      ExtendCounts(RunCases(nameToHash, iface, cases[..|cases| - 1], stats), ClassifyCase(nameToHash, iface, cases[|cases| - 1]));
    }
  }

  /** Validating a reply keeps the counters consistent. */
  lemma ParseAndValidateConsistent(nameToHash: map<string, string>, iface: Interface, parsed: Parsed, stats: FilterStats)
    requires stats.Consistent()
    ensures ParseAndValidate(nameToHash, iface, parsed, stats).stats.Consistent()
  {
    if parsed.Parsed? && parsed.value.Object? {
      var cases := Get(parsed.value.fields, "transactions").GetOr(Array([]));
      if cases.Array? {
        var counted := stats.(totalGenerated := stats.totalGenerated + |cases.items|);
        RunCasesCounts(nameToHash, iface, cases.items, counted);
      }
    }
  }

  /**
   * A list of transactions that is run to its end adds as many decided
   * candidates as it has, and returns exactly the accepted ones.
   */
  lemma CompletedBatchAccountsForEveryCase(nameToHash: map<string, string>, iface: Interface, data: Value, stats: FilterStats)
    requires data.Object?
    requires Get(data.fields, "transactions").Some? && Get(data.fields, "transactions").value.Array?
    ensures var items := Get(data.fields, "transactions").value.items;
      var counted := stats.(totalGenerated := stats.totalGenerated + |items|);
      var v := ParseAndValidate(nameToHash, iface, Parsed(data), stats);
      !RunCases(nameToHash, iface, items, counted).aborted ==>
        v.stats.totalGenerated == stats.totalGenerated + |items|
        && v.stats.totalAccepted + v.stats.totalRejected == stats.totalAccepted + stats.totalRejected + |items|
        && v.stats.totalAccepted == stats.totalAccepted + |v.seeds|
  {
    var items := Get(data.fields, "transactions").value.items;
    ListReplyIsRun(nameToHash, iface, data, stats);
    RunCasesCounts(nameToHash, iface, items, stats.(totalGenerated := stats.totalGenerated + |items|));
  }

  /** A dict reply whose transactions are a list: its length is counted as generated, then the candidates are run. */
  lemma ListReplyIsRun(nameToHash: map<string, string>, iface: Interface, data: Value, stats: FilterStats)
    requires data.Object?
    requires Get(data.fields, "transactions").Some? && Get(data.fields, "transactions").value.Array?
    ensures var items := Get(data.fields, "transactions").value.items;
      var b := RunCases(nameToHash, iface, items, stats.(totalGenerated := stats.totalGenerated + |items|));
      ParseAndValidate(nameToHash, iface, Parsed(data), stats) == if b.aborted then Validated([], b.stats) else Validated(b.seeds, b.stats)
  {
  }

  /** A decode failure counts under "json_parse_fail" only and yields no seed. */
  lemma DecodeErrorCountsOnlyParseFailure(nameToHash: map<string, string>, iface: Interface, message: string, stats: FilterStats)
    ensures var v := ParseAndValidate(nameToHash, iface, DecodeError(message), stats);
      v.seeds == [] && v.stats.jsonParseFail == stats.jsonParseFail + 1
      && v.stats.totalRejected == stats.totalRejected
      && v.stats.totalGenerated == stats.totalGenerated && v.stats.totalAccepted == stats.totalAccepted
      && forall r :: r != JsonParseFail ==> v.stats.Count(r) == stats.Count(r)
  {
  }

  /** Once the run is dropped, later candidates change nothing. */
  lemma {:induction false} AbortIsFinal(nameToHash: map<string, string>, iface: Interface, cases: seq<Value>, n: nat, stats: FilterStats)
    requires n <= |cases|
    requires RunCases(nameToHash, iface, cases[..n], stats).aborted
    ensures RunCases(nameToHash, iface, cases, stats) == RunCases(nameToHash, iface, cases[..n], stats)
    decreases |cases|
  {
    if n < |cases| {
      var init := cases[..|cases| - 1];
      assert init[..n] == cases[..n];
      AbortIsFinal(nameToHash, iface, init, n, stats);
    } else {
      assert cases[..n] == cases;
    }
  }

  /** The run is dropped as soon as one candidate is a dict without "arguments" (the `KeyError` at the first check). */
  lemma {:induction false} MissingArgumentsDropsRun(nameToHash: map<string, string>, iface: Interface, cases: seq<Value>, k: nat, stats: FilterStats)
    requires k < |cases| && cases[k].Object? && !HasKey(cases[k].fields, "arguments")
    ensures RunCases(nameToHash, iface, cases, stats).aborted
    decreases |cases|
  {
    var init := cases[..|cases| - 1];
    if k < |cases| - 1 {
      assert init[k] == cases[k];
      MissingArgumentsDropsRun(nameToHash, iface, init, k, stats);
    }
  }

  /** A reply whose transactions list holds a dict without "arguments" yields no seed at all. */
  lemma MissingArgumentsDiscardsBatch(nameToHash: map<string, string>, iface: Interface, data: Value, k: nat, stats: FilterStats)
    requires data.Object?
    requires Get(data.fields, "transactions").Some? && Get(data.fields, "transactions").value.Array?
    requires var items := Get(data.fields, "transactions").value.items;
      k < |items| && items[k].Object? && !HasKey(items[k].fields, "arguments")
    ensures ParseAndValidate(nameToHash, iface, Parsed(data), stats).seeds == []
  {
    var items := Get(data.fields, "transactions").value.items;
    MissingArgumentsDropsRun(nameToHash, iface, items, k, stats.(totalGenerated := stats.totalGenerated + |items|));
  }

  /** What an accepted seed looks like: a selector that is an interface key, its arity, every argument a coerced one. */
  predicate WellFormedSeed(iface: Interface, s: Seed) {
    |s.arguments| > 0 && s.arguments[0].Str? && s.arguments[0].s in iface
    && |s.arguments| == |iface[s.arguments[0].s]| + 1
    && forall k :: 1 <= k < |s.arguments| ==> Coerce(iface[s.arguments[0].s][k - 1], s.arguments[k]) == Ok(s.arguments[k])
  }

  /**
   * An accepted candidate: its identifier resolved by name first, then as an
   * interface key; `arguments[0]` replaced by the result; the arity matches
   * the interface; the integer fields come from the candidate or from the
   * defaults 0, 1 and 0.
   */
  lemma AcceptedCase(nameToHash: map<string, string>, iface: Interface, c: Value)
    requires ClassifyCase(nameToHash, iface, c).Accept?
    ensures var s := ClassifyCase(nameToHash, iface, c).seed;
      var a := Get(c.fields, "arguments").value;
      a.Array? && |a.items| > 0 && a.items[0].Str?
      && WellFormedSeed(iface, s)
      && |s.arguments| == |a.items|
      && s.arguments[0] == Str(if a.items[0].s in nameToHash then nameToHash[a.items[0].s] else a.items[0].s)
      && (!HasKey(c.fields, "amount") ==> s.amount == 0)
      && (!HasKey(c.fields, "blocknumber") ==> s.blocknumber == 1)
      && (!HasKey(c.fields, "timestamp") ==> s.timestamp == 0)
  {
    var a := Get(c.fields, "arguments").value;
    var h := Resolve(nameToHash, iface, a.items[0]).hash;
    var args := [Str(h)] + a.items[1..];
    var out := Sanitize(iface, args).value;
    forall k | 1 <= k < |out| ensures Coerce(iface[h][k - 1], out[k]) == Ok(out[k]) {
      CoerceIdempotent(iface[h][k - 1], args[k]);
    }
  }

  /** Every seed of a run is well formed. */
  lemma {:induction false} RunCasesSeedsWellFormed(nameToHash: map<string, string>, iface: Interface, cases: seq<Value>, stats: FilterStats)
    ensures forall s :: s in RunCases(nameToHash, iface, cases, stats).seeds ==> WellFormedSeed(iface, s)
    decreases |cases|
  {
    if |cases| > 0 {
      RunCasesSeedsWellFormed(nameToHash, iface, cases[..|cases| - 1], stats);
      var outcome := ClassifyCase(nameToHash, iface, cases[|cases| - 1]);
      if outcome.Accept? {
        AcceptedCase(nameToHash, iface, cases[|cases| - 1]);
      }
    }
  }

  /** A reply with seeds is a dict whose transactions are a list, and the seeds are those of the run over it. */
  lemma SeedsComeFromRun(nameToHash: map<string, string>, iface: Interface, parsed: Parsed, stats: FilterStats)
    ensures var v := ParseAndValidate(nameToHash, iface, parsed, stats);
      v.seeds != [] ==>
        parsed.Parsed? && parsed.value.Object?
        && var cases := Get(parsed.value.fields, "transactions").GetOr(Array([]));
           cases.Array?
           && v.seeds == RunCases(nameToHash, iface, cases.items, stats.(totalGenerated := stats.totalGenerated + |cases.items|)).seeds
  {
  }

  /** A well-formed seed's arguments go through sanitizing unchanged. */
  lemma WellFormedSeedIsSanitized(iface: Interface, s: Seed)
    requires WellFormedSeed(iface, s)
    ensures Sanitize(iface, s.arguments) == Ok(s.arguments)
  {
    var types := iface[s.arguments[0].s];
    CoerceAllPointwise(types, s.arguments[1..], s.arguments[1..]);
    assert [s.arguments[0]] + s.arguments[1..] == s.arguments;
  }

  /** Every seed `_parse_and_validate_response` returns is well formed, and sanitizing it again changes nothing. */
  lemma ValidatedSeedsWellFormed(nameToHash: map<string, string>, iface: Interface, parsed: Parsed, stats: FilterStats, s: Seed)
    requires s in ParseAndValidate(nameToHash, iface, parsed, stats).seeds
    ensures WellFormedSeed(iface, s)
    ensures Sanitize(iface, s.arguments) == Ok(s.arguments)
  {
    SeedsComeFromRun(nameToHash, iface, parsed, stats);
    var cases := Get(parsed.value.fields, "transactions").GetOr(Array([]));
    RunCasesSeedsWellFormed(nameToHash, iface, cases.items, stats.(totalGenerated := stats.totalGenerated + |cases.items|));
    WellFormedSeedIsSanitized(iface, s);
  }

  /**
   * A name that the name table resolves to a selector the interface lacks is
   * a type failure, not an ABI mismatch.
   */
  lemma UnindexedSelectorIsTypeFailure(nameToHash: map<string, string>, iface: Interface, c: Value, name: string)
    requires c.Object? && Get(c.fields, "arguments").Some?
    requires var a := Get(c.fields, "arguments").value; a.Array? && |a.items| > 0 && a.items[0] == Str(name)
    requires name in nameToHash && nameToHash[name] !in iface
    ensures ClassifyCase(nameToHash, iface, c) == Reject(TypeSanitizeFail)
  {
  }

  /** An identifier that is neither a known name nor an interface key is an ABI mismatch. */
  lemma UnknownIdentifierIsAbiMismatch(nameToHash: map<string, string>, iface: Interface, c: Value)
    requires c.Object? && Get(c.fields, "arguments").Some?
    requires var a := Get(c.fields, "arguments").value;
      (a.Array? && |a.items| > 0
       && !a.items[0].Array? && !a.items[0].Object?
       && !(a.items[0].Str? && (a.items[0].s in nameToHash || a.items[0].s in iface)))
    ensures ClassifyCase(nameToHash, iface, c) == Reject(AbiMismatch)
  {
  }

  /**
   * Together with the selector tables: when the name table is the one built
   * from the ABI, a seed accepted for an ordinary function name carries the
   * selector of the last function entry of that name.
   */
  lemma AcceptedByNameCarriesLastSelector(keccak: Keccak, abi: seq<Entry>, iface: Interface, c: Value, i: nat)
    requires i < |abi| && SignatureIndex.LastOfName(abi, i)
    requires abi[i].name != "constructor" && abi[i].name != "fallback"
    requires ClassifyCase(SignatureIndex.NameToHash(keccak, abi, iface.Keys), iface, c).Accept?
    requires Get(c.fields, "arguments").value.items[0] == Str(abi[i].name)
    ensures ClassifyCase(SignatureIndex.NameToHash(keccak, abi, iface.Keys), iface, c).seed.arguments[0]
      == Str(Selector(keccak, SignatureIndex.EntrySignature(abi[i])))
  {
    var nameToHash := SignatureIndex.NameToHash(keccak, abi, iface.Keys);
    AcceptedCase(nameToHash, iface, c);
    SignatureIndex.NameToHashOrdinary(keccak, abi, iface.Keys, abi[i].name);
    SignatureIndex.NameHashesLastWins(keccak, abi, i);
  }

  /** "address" is neither an integer nor a bool type. */
  lemma AddressIsUntyped()
    ensures !IsIntType("address") && !IsBoolType("address")
  {
    var t := "address";
    assert 'i' !in t && 'u' !in t && 'b' !in t;
    ContainsFirstChar(t, "int");
    ContainsFirstChar(t, "uint");
    ContainsFirstChar(t, "bool");
  }

  /** "uint256" is an integer type. */
  lemma Uint256IsInt()
    ensures IsIntType("uint256")
  {
    assert StartsWith("uint256", "uint");
  }

  /**
   * A candidate naming `transfer` with an address in hex (kept as text) and
   * an amount in hex (read as 31) is accepted with the selector in front
   * and the default block fields.
   */
  lemma ExampleAccepted(keccak: Keccak)
    ensures var sel := Selector(keccak, "transfer(address,uint256)");
      var iface: Interface := map[sel := ["address", "uint256"]];
      var good := Object([("arguments", Array([Str("transfer"), Str("0xab"), Str("0x1f")]))]);
      ClassifyCase(map["transfer" := sel], iface, good) == Accept(Seed([Str(sel), Str("0xab"), Int(31)], 0, 1, 0))
  {
    var sel := Selector(keccak, "transfer(address,uint256)");
    var iface: Interface := map[sel := ["address", "uint256"]];
    var nameToHash := map["transfer" := sel];
    var goodFields := [("arguments", Array([Str("transfer"), Str("0xab"), Str("0x1f")]))];
    ExampleSanitized(sel);
    ExampleFields();
    assert Resolve(nameToHash, iface, Str("transfer")) == Resolved(sel);
    assert [Str(sel)] + [Str("transfer"), Str("0xab"), Str("0x1f")][1..] == [Str(sel), Str("0xab"), Str("0x1f")];
  }

  /** The accepted example has only "arguments": the block fields take their defaults. */
  lemma ExampleFields()
    ensures var fields := [("arguments", Array([Str("transfer"), Str("0xab"), Str("0x1f")]))];
      Get(fields, "arguments") == Some(Array([Str("transfer"), Str("0xab"), Str("0x1f")]))
      && SeedFields(fields) == (Some(0), Some(1), Some(0))
  {
    var fields := [("arguments", Array([Str("transfer"), Str("0xab"), Str("0x1f")]))];
    assert Get(fields, "arguments") == Some(Array([Str("transfer"), Str("0xab"), Str("0x1f")]));
  }

  /** A "uint256" given as the text "0x1f" is read as hex: 31. */
  lemma HexAmountCoerced()
    ensures Coerce("uint256", Str("0x1f")) == Ok(Int(31))
  {
    Uint256IsInt();
    assert StartsWith("0x1f", "0x") && "0x1f"[2..] == "1f";
    assert DigitsValue("1f", 16) == 31 by {
      assert "1f"[..1] == "1";
    }
  }

  /**
   * The phrase counts only inside the quoted start of the text: an
   * unparsable "uint256" whose phrase begins at character 180 of 203 is a
   * type failure, though the text contains the phrase.
   */
  lemma LatePhraseIsTypeFailure()
    ensures var s := seq(180, _ => 'x') + ArgCountMismatchText;
      Contains(s, ArgCountMismatchText) && Coerce("uint256", Str(s)) == Err(TypeSanitizeFail)
  {
    var s := seq(180, _ => 'x') + ArgCountMismatchText;
    assert s[180..180 + |ArgCountMismatchText|] == ArgCountMismatchText;
    ContainsAt(s, ArgCountMismatchText, 180);
    Uint256IsInt();
    assert s[0] == 'x' && !IsDecDigit(s[0]);
    assert !StartsWith(s, "0x");
    assert ParseDecimal(s).None?;
    var w := QuotedPart(s);
    assert forall i :: 0 <= i <= |w| - |ArgCountMismatchText| ==> w[i] == 'x';
    ContainsNoStart(w, ArgCountMismatchText);
  }

  /** The arguments of the accepted example: the address stays text and the hex amount becomes 31. */
  lemma ExampleSanitized(sel: string)
    ensures Sanitize(map[sel := ["address", "uint256"]], [Str(sel), Str("0xab"), Str("0x1f")]) == Ok([Str(sel), Str("0xab"), Int(31)])
  {
    var types := ["address", "uint256"];
    var vals := [Str("0xab"), Str("0x1f")];
    AddressIsUntyped();
    assert Coerce(types[0], vals[0]) == Ok(Str("0xab"));
    HexAmountCoerced();
    CoerceAllPointwise(types, vals, [Str("0xab"), Int(31)]);
    var args := [Str(sel), Str("0xab"), Str("0x1f")];
    assert args[1..] == vals;
    assert [args[0]] + [Str("0xab"), Int(31)] == [Str(sel), Str("0xab"), Int(31)];
  }

  /** A candidate naming a function the contract lacks is an ABI mismatch. */
  lemma ExampleUnknownName(keccak: Keccak)
    ensures var sel := Selector(keccak, "transfer(address,uint256)");
      var iface: Interface := map[sel := ["address", "uint256"]];
      var bad := Object([("arguments", Array([Str("mint"), Int(1)]))]);
      ClassifyCase(map["transfer" := sel], iface, bad) == Reject(AbiMismatch)
  {
    var sel := Selector(keccak, "transfer(address,uint256)");
    var badFields := [("arguments", Array([Str("mint"), Int(1)]))];
    assert Get(badFields, "arguments") == Some(Array([Str("mint"), Int(1)]));
    assert "mint"[0] != sel[0] && "mint"[0] != "transfer"[0];
  }

  /**
   * The seed generator's state: the ABI and the interface it was built for
   * (with the Keccak-256 function the selectors come from), the two name
   * tables, and the filter counters.
   */
  class LlmGenerator {
    const keccak: Keccak
    const abi: seq<Entry>
    const interface: Interface
    var functionNameToHash: map<string, string>
    var functionInfo: map<string, SignatureIndex.FunctionInfo>
    var filterStats: FilterStats

    /** `__init__`: zeroed counters, then `_build_function_mappings`. */
    constructor (keccak: Keccak, abi: seq<Entry>, interface: Interface)
      ensures this.keccak == keccak && this.abi == abi && this.interface == interface
      ensures functionNameToHash == SignatureIndex.NameToHash(keccak, abi, interface.Keys)
      ensures functionInfo == SignatureIndex.FunctionInfoTable(keccak, abi)
      ensures filterStats == ZeroStats
    {
      this.keccak := keccak;
      this.abi := abi;
      this.interface := interface;
      functionNameToHash := map[];
      functionInfo := map[];
      filterStats := ZeroStats;
      new;
      BuildFunctionMappings();
    }

    /** `reset_filter_stats`: every counter back to zero. */
    method ResetFilterStats()
      modifies this`filterStats
      ensures filterStats == ZeroStats
    {
      filterStats := ZeroStats;
    }

    /**
     * `_build_function_mappings`: nothing for an empty ABI; otherwise each
     * function entry's selector under its name (later overwriting earlier),
     * then the identity entries for "constructor" and "fallback".
     */
    method BuildFunctionMappings()
      requires functionNameToHash == map[] && functionInfo == map[]
      modifies this`functionNameToHash, this`functionInfo
      ensures functionNameToHash == SignatureIndex.NameToHash(keccak, abi, interface.Keys)
      ensures functionInfo == SignatureIndex.FunctionInfoTable(keccak, abi)
    {
      if |abi| == 0 {
        return;
      }
      var i := 0;
      while i < |abi|
        invariant 0 <= i <= |abi|
        invariant functionNameToHash == SignatureIndex.NameHashes(keccak, abi[..i])
        invariant functionInfo == SignatureIndex.NameInfos(keccak, abi[..i])
      {
        var field := abi[i];
        assert abi[..i + 1][..i] == abi[..i];
        if field.kind == "function" {
          var signature, inputTypes := SignatureIndex.BuildSignature(field.name, field.inputs);
          var funcHash := Selector(keccak, signature);
          functionNameToHash := functionNameToHash[field.name := funcHash];
          functionInfo := functionInfo[field.name := SignatureIndex.FunctionInfo(funcHash, signature, inputTypes)];
        }
        i := i + 1;
      }
      assert abi[..i] == abi;
      if "constructor" in interface {
        functionNameToHash := functionNameToHash["constructor" := "constructor"];
      }
      if "fallback" in interface {
        functionNameToHash := functionNameToHash["fallback" := "fallback"];
      }
    }

    /**
     * `_sanitize_argument_types`: the arguments are coerced in place, one by
     * one. On success they are the sanitized arguments; on failure the
     * selector is untouched, each other argument is either untouched or
     * already coerced, and the error is the one the specification names.
     */
    method SanitizeArgumentTypes(arguments: array<Value>) returns (error: Option<Reason>)
      requires arguments.Length > 0 && arguments[0].Str?
      modifies arguments
      ensures error.None? <==> Sanitize(interface, old(arguments[..])).Ok?
      ensures error.Some? ==> Sanitize(interface, old(arguments[..])) == Err(error.value)
      ensures error.None? ==> arguments[..] == Sanitize(interface, old(arguments[..])).value
      ensures error.Some? ==> arguments[0] == old(arguments[0])
      ensures error.Some? ==> (arguments[1..] == old(arguments[1..])
                               || (old(arguments[0]).s in interface && |interface[old(arguments[0]).s]| == arguments.Length - 1
                                   && PartlyCoerced(interface[old(arguments[0]).s], old(arguments[1..]), arguments[1..])))
    {
      var functionHash := arguments[0].s;
      if functionHash !in interface {
        return Some(TypeSanitizeFail);
      }
      var expectedTypes := interface[functionHash];
      if |expectedTypes| != arguments.Length - 1 {
        return Some(ArgCountMismatch);
      }
      ghost var original := arguments[..];
      assert original[1..] == arguments[1..];
      error := CoerceInPlace(arguments, expectedTypes);
      assert arguments[..] == [arguments[0]] + arguments[1..];
    }

    /**
     * The coercion loop of `_sanitize_argument_types`: each argument after
     * the selector is replaced by its coercion to its declared type, until
     * one fails.
     */
    static method CoerceInPlace(arguments: array<Value>, types: seq<string>) returns (error: Option<Reason>)
      requires arguments.Length == |types| + 1
      modifies arguments
      ensures arguments[0] == old(arguments[0])
      ensures error.None? <==> CoerceAll(types, old(arguments[1..])).Ok?
      ensures error.Some? ==> CoerceAll(types, old(arguments[1..])) == Err(error.value)
      ensures error.None? ==> arguments[1..] == CoerceAll(types, old(arguments[1..])).value
      ensures error.Some? ==> PartlyCoerced(types, old(arguments[1..]), arguments[1..])
    {
      ghost var original := arguments[1..];
      var i := 0;
      while i < |types|
        invariant 0 <= i <= |types|
        invariant arguments[0] == old(arguments[0])
        invariant forall k :: 0 <= k < i ==> Coerce(types[k], original[k]) == Ok(arguments[k + 1])
        invariant forall k :: i <= k < |types| ==> arguments[k + 1] == original[k]
      {
        var r := Coerce(types[i], arguments[i + 1]);
        if r.Err? {
          CoerceAllPointwise(types[..i], original[..i], arguments[1..i + 1]);
          CoerceAllFirstError(types, original, i);
          return Some(r.error);
        }
        arguments[i + 1] := r.value;
        i := i + 1;
      }
      CoerceAllPointwise(types, original, arguments[1..]);
      return None;
    }

    /** One candidate, as the loop body decides it. */
    method ProcessCase(c: Value) returns (outcome: CaseOutcome)
      ensures outcome == ClassifyCase(functionNameToHash, interface, c)
    {
      if !c.Object? {
        return Abort;
      }
      var found := Get(c.fields, "arguments");
      if found.None? {
        return Abort;
      }
      var a := found.value;
      if !a.Array? || |a.items| == 0 {
        return Reject(InvalidFormat);
      }
      var items := a.items;
      var identifier := items[0];
      var functionHash: string;
      if identifier.Array? || identifier.Object? {
        return Abort;
      } else if identifier.Str? && identifier.s in functionNameToHash {
        functionHash := functionNameToHash[identifier.s];
      } else if identifier.Str? && identifier.s in interface {
        functionHash := identifier.s;
      } else {
        return Reject(AbiMismatch);
      }
      var arguments := new Value[|items|](k requires 0 <= k < |items| => items[k]);
      arguments[0] := Str(functionHash);
      assert arguments[..] == [Str(functionHash)] + items[1..];
      var error := SanitizeArgumentTypes(arguments);
      if error.Some? {
        return Reject(error.value);
      }
      var amount := IntOf(Get(c.fields, "amount").GetOr(Int(0)));
      var blocknumber := IntOf(Get(c.fields, "blocknumber").GetOr(Int(1)));
      var timestamp := IntOf(Get(c.fields, "timestamp").GetOr(Int(0)));
      if amount.None? || blocknumber.None? || timestamp.None? {
        return Abort;
      }
      return Accept(Seed(arguments[..], amount.value, blocknumber.value, timestamp.value));
    }

    /**
     * `_parse_and_validate_response`: the seeds of the reply, with the
     * counters updated case by case.
     */
    method ParseAndValidateResponse(text: string, loads: string -> Parsed) returns (validCases: seq<Seed>)
      modifies this`filterStats
      ensures Validated(validCases, filterStats)
        == ParseAndValidate(functionNameToHash, interface, loads(Strip(text)), old(filterStats))
    {
      var parsed := loads(Strip(text));
      if parsed.DecodeError? {
        filterStats := filterStats.Bump(JsonParseFail);
        return [];
      }
      var data := parsed.value;
      if !data.Object? {
        return [];
      }
      var cases := Get(data.fields, "transactions").GetOr(Array([]));
      var batchTotal := Len(cases);
      if batchTotal.None? {
        return [];
      }
      filterStats := filterStats.(totalGenerated := filterStats.totalGenerated + batchTotal.value);
      if !cases.Array? {
        return [];
      }
      var aborted;
      validCases, aborted := RunCasesLoop(cases.items);
      if aborted {
        validCases := [];
      }
    }

    /** The loop of `_parse_and_validate_response` over the candidates; `aborted` when one raised. */
    method RunCasesLoop(items: seq<Value>) returns (validCases: seq<Seed>, aborted: bool)
      modifies this`filterStats
      ensures Batch(validCases, filterStats, aborted) == RunCases(functionNameToHash, interface, items, old(filterStats))
    {
      ghost var counted := filterStats;
      validCases := [];
      var i := 0;
      while i < |items|
        invariant 0 <= i <= |items|
        invariant RunCases(functionNameToHash, interface, items[..i], counted) == Batch(validCases, filterStats, false)
      {
        assert items[..i + 1][..i] == items[..i];
        var outcome := ProcessCase(items[i]);
        if outcome.Abort? {
          AbortIsFinal(functionNameToHash, interface, items, i + 1, counted);
          return validCases, true;
        }
        filterStats := Tally(filterStats, outcome);
        if outcome.Accept? {
          validCases := validCases + [outcome.seed];
        }
        i := i + 1;
      }
      assert items[..i] == items;
      aborted := false;
    }
  }
}
