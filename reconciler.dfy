/**
 * The LLM mutator's side of the conversation with the model: the listing
 * of state-changing functions it offers the model, the clean-up of a JSON
 * reply, the reconciliation of the model's `{function: [parameters]}`
 * feedback with the contract's real names (fuzzy, by Levenshtein distance
 * at most 2), and the bounded retry loop that asks for a strategy.
 *
 * The model and `json.loads` are oracles: the model is a function of the
 * attempt number and of the reminder appended to the prompt, and the parser
 * a function of the text.
 */
module Reconciler {
  import opened Wrappers
  import opened Text
  import opened Numerals
  import opened Json
  import opened Abi
  import opened Levenshtein

  /** `self.max_edit_distance`. */
  const MaxEditDistance: nat := 2

  // ---------------------------------------------------------------------
  // The state-function listing (`_extract_state_functions`)
  // ---------------------------------------------------------------------

  /** A function entry that is not marked constant. */
  predicate IsStateFunction(e: Entry) {
    e.kind == "function" && !e.constant
  }

  /** Each input written as "type name". */
  function ParamTexts(inputs: seq<Param>): (ps: seq<string>)
    ensures |ps| == |inputs|
    ensures forall i :: 0 <= i < |inputs| ==> ps[i] == inputs[i].typ + " " + inputs[i].name
  {
    seq(|inputs|, i requires 0 <= i < |inputs| => inputs[i].typ + " " + inputs[i].name)
  }

  /** One item of the listing: `index:name(type name,...)`. */
  function Line(index: nat, name: string, inputs: seq<Param>): string {
    IntText(index) + ":" + name + "(" + Join(",", ParamTexts(inputs)) + ")"
  }

  /** The state functions, in ABI order. */
  function StateEntries(abi: seq<Entry>): (es: seq<Entry>)
    ensures |es| <= |abi|
    ensures forall i :: 0 <= i < |es| ==> IsStateFunction(es[i])
    decreases |abi|
  {
    if |abi| == 0 then []
    else
      var es := StateEntries(abi[..|abi| - 1]);
      if IsStateFunction(abi[|abi| - 1]) then es + [abi[|abi| - 1]] else es
  }

  /** The entries listed are exactly the state functions of the ABI. */
  lemma {:induction false} StateEntriesMembers(abi: seq<Entry>, e: Entry)
    ensures e in StateEntries(abi) <==> e in abi && IsStateFunction(e)
    decreases |abi|
  {
    if |abi| > 0 {
      var init := abi[..|abi| - 1];
      StateEntriesMembers(init, e);
      assert abi == init + [abi[|abi| - 1]];
    }
  }

  /** The position of the first constructor entry. */
  function FirstConstructor(abi: seq<Entry>): (r: Option<nat>)
    ensures r.Some? ==> r.value < |abi| && abi[r.value].kind == "constructor"
    ensures forall j :: 0 <= j < |abi| && (r.None? || j < r.value) ==> abi[j].kind != "constructor"
    decreases |abi|
  {
    if |abi| == 0 then None
    else if abi[0].kind == "constructor" then Some(0)
    else match FirstConstructor(abi[1..]) {
      case None => None
      case Some(k) => Some(k + 1)
    }
  }

  /** The numbered lines for a list of functions, starting at 1. */
  function NumberedLines(es: seq<Entry>): (ls: seq<string>)
    ensures |ls| == |es|
  {
    seq(|es|, i requires 0 <= i < |es| => Line(i + 1, es[i].name, es[i].inputs))
  }

  /** One more entry: the state functions of `abi[..i + 1]` gain `abi[i]` when it is one. */
  lemma StateEntriesStep(abi: seq<Entry>, i: nat)
    requires i < |abi|
    ensures StateEntries(abi[..i + 1])
      == StateEntries(abi[..i]) + (if IsStateFunction(abi[i]) then [abi[i]] else [])
  {
    assert abi[..i + 1][..i] == abi[..i];
  }

  /** Numbering one more function appends its line under the next number. */
  lemma NumberedLinesStep(es: seq<Entry>, e: Entry)
    ensures NumberedLines(es + [e]) == NumberedLines(es) + [Line(|es| + 1, e.name, e.inputs)]
  {
  }

  /**
   * The listing: the state functions numbered from 1 in ABI order, then the
   * first constructor, if any, under the next number.
   */
  function StateFunctionLines(abi: seq<Entry>): (ls: seq<string>)
    ensures |ls| == |StateEntries(abi)| + (if FirstConstructor(abi).Some? then 1 else 0)
    ensures forall i :: 0 <= i < |StateEntries(abi)| ==>
      ls[i] == Line(i + 1, StateEntries(abi)[i].name, StateEntries(abi)[i].inputs)
    ensures FirstConstructor(abi).Some? ==>
      ls[|ls| - 1] == Line(|ls|, "constructor", abi[FirstConstructor(abi).value].inputs)
  {
    var lines := NumberedLines(StateEntries(abi));
    match FirstConstructor(abi)
    case None => lines
    case Some(k) => lines + [Line(|lines| + 1, "constructor", abi[k].inputs)]
  }

  // ---------------------------------------------------------------------
  // Cleaning a reply (`_clean_json_string`)
  // ---------------------------------------------------------------------

  const JsonFence := "```json"
  const Fence := "```"

  /** The reply without a leading "```json" and then without a trailing "```". */
  function Unfenced(s: string): (r: string)
    ensures |r| <= |s|
  {
    var t := if StartsWith(s, JsonFence) then s[|JsonFence|..] else s;
    if EndsWith(t, Fence) then t[..|t| - |Fence|] else t
  }

  /**
   * `_clean_json_string`: fences removed, white space stripped, every
   * single quote turned into a double quote.
   */
  function CleanJsonString(s: string): (r: string)
    ensures '\'' !in r
    ensures |r| <= |s|
    ensures |r| > 0 ==> !IsSpace(r[0]) && !IsSpace(r[|r| - 1])
  {
    var t := Strip(Unfenced(s));
    QuotesReplaced(t);
    ReplaceChar(t, '\'', '"')
  }

  /** Turning single quotes into double quotes leaves none behind and keeps white space off the ends. */
  lemma QuotesReplaced(t: string)
    requires |t| > 0 ==> !IsSpace(t[0]) && !IsSpace(t[|t| - 1])
    ensures var r := ReplaceChar(t, '\'', '"');
      '\'' !in r && (|r| > 0 ==> !IsSpace(r[0]) && !IsSpace(r[|r| - 1]))
  {
    var r := ReplaceChar(t, '\'', '"');
    assert !IsSpace('"');
    assert forall k :: 0 <= k < |r| ==> r[k] != '\'';
  }

  /** Leading white space is skipped up to the first non-space character. */
  lemma {:induction false} StripStartPadded(ws: string, t: string)
    requires forall k :: 0 <= k < |ws| ==> IsSpace(ws[k])
    requires |t| > 0 && !IsSpace(t[0])
    ensures StripStart(ws + t) == t
    decreases |ws|
  {
    if |ws| > 0 {
      assert (ws + t)[1..] == ws[1..] + t;
      StripStartPadded(ws[1..], t);
    } else {
      assert ws + t == t;
    }
  }

  /** Trailing white space is cut back to the last non-space character. */
  lemma {:induction false} StripEndPadded(t: string, ws: string)
    requires forall k :: 0 <= k < |ws| ==> IsSpace(ws[k])
    requires |t| > 0 && !IsSpace(t[|t| - 1])
    ensures StripEnd(t + ws) == t
    decreases |ws|
  {
    if |ws| > 0 {
      assert (t + ws)[..|t + ws| - 1] == t + ws[..|ws| - 1];
      StripEndPadded(t, ws[..|ws| - 1]);
    } else {
      assert t + ws == t;
    }
  }

  /** The fences come off a fenced text. */
  lemma UnfencedFenced(x: string)
    ensures Unfenced(JsonFence + x + Fence) == x
  {
    var s := JsonFence + x + Fence;
    assert s[..|JsonFence|] == JsonFence;
    var t := s[|JsonFence|..];
    assert t == x + Fence;
    assert t[|t| - |Fence|..] == Fence;
    assert t[..|t| - |Fence|] == x;
  }

  /**
   * A body fenced as "```json", padded with white space and closed by "```"
   * comes back as the body itself, when the body has no single quote and
   * no white space at its ends.
   */
  lemma CleanFencedBody(ws1: string, body: string, ws2: string)
    requires forall k :: 0 <= k < |ws1| ==> IsSpace(ws1[k])
    requires forall k :: 0 <= k < |ws2| ==> IsSpace(ws2[k])
    requires |body| > 0 && !IsSpace(body[0]) && !IsSpace(body[|body| - 1]) && '\'' !in body
    ensures CleanJsonString(JsonFence + (ws1 + body + ws2) + Fence) == body
  {
    var x := ws1 + body + ws2;
    UnfencedFenced(x);
    StripPadded(ws1, body, ws2);
    assert ReplaceChar(body, '\'', '"') == body;
  }

  /** `strip` removes exactly the white space around a body with no white space at its ends. */
  lemma StripPadded(ws1: string, body: string, ws2: string)
    requires forall k :: 0 <= k < |ws1| ==> IsSpace(ws1[k])
    requires forall k :: 0 <= k < |ws2| ==> IsSpace(ws2[k])
    requires |body| > 0 && !IsSpace(body[0]) && !IsSpace(body[|body| - 1])
    ensures Strip(ws1 + body + ws2) == body
  {
    assert ws1 + body + ws2 == ws1 + (body + ws2);
    StripStartPadded(ws1, body + ws2);
    StripEndPadded(body, ws2);
  }

  // ---------------------------------------------------------------------
  // Reconciling the feedback (`_validate_and_parse_feedback`)
  // ---------------------------------------------------------------------

  /** The position of the first candidate within `MaxEditDistance` of `target` (the loops with `break`). */
  function FirstWithin(target: string, candidates: seq<string>): (r: Option<nat>)
    ensures r.Some? ==> r.value < |candidates|
    decreases |candidates|
  {
    if |candidates| == 0 then None
    else if Distance(target, candidates[0]) <= MaxEditDistance then Some(0)
    else match FirstWithin(target, candidates[1..]) {
      case None => None
      case Some(k) => Some(k + 1)
    }
  }

  /** The index found is the first candidate within the distance bound; `None` when there is none. */
  lemma {:induction false} FirstWithinSpec(target: string, candidates: seq<string>)
    ensures var r := FirstWithin(target, candidates);
      (r.Some? ==> Distance(target, candidates[r.value]) <= MaxEditDistance)
      && forall j :: 0 <= j < |candidates| && (r.None? || j < r.value) ==> Distance(target, candidates[j]) > MaxEditDistance
    decreases |candidates|
  {
    if |candidates| > 0 && Distance(target, candidates[0]) > MaxEditDistance {
      FirstWithinSpec(target, candidates[1..]);
      var r := FirstWithin(target, candidates);
      forall j | 0 <= j < |candidates| && (r.None? || j < r.value)
        ensures Distance(target, candidates[j]) > MaxEditDistance
      {
        if j > 0 {
          assert candidates[j] == candidates[1..][j - 1];
        }
      }
    }
  }

  /** Something the reminder message reports. */
  datatype Issue =
    | MissingFunction(name: string)
    | NotAList(name: string, received: Value)
    | UnknownParameter(name: string, suggested: Value, available: seq<string>)

  /** The parameters accepted for one function, and the issues found on the way. */
  datatype ParamCheck = ParamCheck(validated: seq<string>, issues: seq<Issue>)

  /**
   * The loop over the model's parameter list for function `name` with real
   * parameters `params`. Each suggestion is replaced by the first real name
   * within the distance bound, or reported; checking goes on after a
   * report. With no real parameters nothing is compared and every
   * suggestion is reported; otherwise a suggestion that is not a string
   * cannot be compared and the call fails (`None`).
   */
  function CheckParams(name: string, params: seq<string>, items: seq<Value>): Option<ParamCheck>
    decreases |items|
  {
    if |items| == 0 then Some(ParamCheck([], []))
    else
      var n := |items| - 1;
      var item := items[n];
      match CheckParams(name, params, items[..n]) {
        case None => None
        case Some(pc) =>
          if |params| == 0 then Some(pc.(issues := pc.issues + [UnknownParameter(name, item, params)]))
          else if !item.Str? then None
          else
            match FirstWithin(item.s, params) {
              case Some(k) =>
                if params[k] != "" then Some(pc.(validated := pc.validated + [params[k]]))
                else Some(pc.(issues := pc.issues + [UnknownParameter(name, item, params)]))
              case None => Some(pc.(issues := pc.issues + [UnknownParameter(name, item, params)]))
            }
      }
  }

  /** Some suggestion is not a string. */
  predicate HasNonString(items: seq<Value>) {
    exists k :: 0 <= k < |items| && !items[k].Str?
  }

  /** A list has a non-string exactly when its front does or its last element is one. */
  lemma NonStringSplit(items: seq<Value>)
    requires |items| > 0
    ensures HasNonString(items) <==> HasNonString(items[..|items| - 1]) || !items[|items| - 1].Str?
  {
    var n := |items| - 1;
    if HasNonString(items[..n]) {
      var k :| 0 <= k < n && !items[..n][k].Str?;
      assert items[k] == items[..n][k];
    }
    if HasNonString(items) && items[n].Str? {
      var k :| 0 <= k < |items| && !items[k].Str?;
      assert items[..n][k] == items[k];
    }
  }

  /**
   * Every suggestion ends up either accepted or reported; only real,
   * non-empty parameter names are accepted; and the check fails exactly
   * when there are real parameters and some suggestion is not a string.
   */
  lemma {:induction false} CheckParamsShape(name: string, params: seq<string>, items: seq<Value>)
    ensures var r := CheckParams(name, params, items);
      (r.Some? ==> |r.value.validated| + |r.value.issues| == |items|)
      && (r.Some? ==> forall p :: p in r.value.validated ==> p in params && p != "")
      && (r.None? <==> |params| > 0 && HasNonString(items))
    decreases |items|
  {
    if |items| > 0 {
      var n := |items| - 1;
      CheckParamsShape(name, params, items[..n]);
      NonStringSplit(items);
      var prior := CheckParams(name, params, items[..n]);
      var r := CheckParams(name, params, items);
      if prior.Some? && r.Some? {
        var pc := prior.value;
        assert r.value.validated == pc.validated || exists k :: 0 <= k < |params| && params[k] != "" && r.value.validated == pc.validated + [params[k]];
      }
    }
  }

  /** The strategy built so far (in ground-truth order) and the issues found so far. */
  datatype Review = Review(strategy: seq<(string, seq<string>)>, issues: seq<Issue>)

  /** How one ground-truth function fares against the model's keys. */
  function CheckFunction(fields: seq<(string, Value)>, name: string, params: seq<string>): (r: Option<Review>)
    ensures r.Some? ==> |r.value.strategy| <= 1
    ensures r.Some? && |r.value.issues| == 0 ==> (
      |r.value.strategy| == 1 && r.value.strategy[0].0 == name
      && forall p :: p in r.value.strategy[0].1 ==> p in params)
  {
    var keys := Keys(fields);
    match FirstWithin(name, keys)
    case None => Some(Review([], [MissingFunction(name)]))
    case Some(k) =>
      if keys[k] == "" then Some(Review([], [MissingFunction(name)]))
      else
        assert keys[k] in keys;
        var v := Get(fields, keys[k]).value;
        if !v.Array? then Some(Review([], [NotAList(name, v)]))
        else
          CheckParamsShape(name, params, v.items);
          match CheckParams(name, params, v.items) {
          case None => None
          case Some(pc) => Some(Review([(name, pc.validated)], pc.issues))
        }
  }

  /** The outer loop over the ground truth, in its order; `None` when a comparison failed. */
  function CheckAll(fields: seq<(string, Value)>, truth: seq<(string, seq<string>)>): Option<Review>
    decreases |truth|
  {
    if |truth| == 0 then Some(Review([], []))
    else
      var n := |truth| - 1;
      match CheckAll(fields, truth[..n]) {
        case None => None
        case Some(rv) =>
          match CheckFunction(fields, truth[n].0, truth[n].1) {
            case None => None
            case Some(one) => Some(Review(rv.strategy + one.strategy, rv.issues + one.issues))
          }
      }
  }

  /** The outcome of validating a feedback text. */
  datatype Verdict =
    | NoJsonObject        // no "{" or no "}"
    | InvalidJson         // the text between them does not parse
    | EmptyOrNotObject    // it parses to something other than a non-empty dict
    | Rejected(issues: seq<Issue>)
    | Incomplete          // fewer validated functions than ground-truth ones
    | Accepted(strategy: seq<(string, seq<string>)>)
    | Crashed             // a comparison raised

  predicate DistinctNames(truth: seq<(string, seq<string>)>) {
    forall i, j :: 0 <= i < j < |truth| ==> truth[i].0 != truth[j].0
  }

  /**
   * `_validate_and_parse_feedback` against the ground truth `truth` (a
   * dict from function name to parameter names, so its names are
   * distinct): the text from the first "{" to the last "}" is parsed and
   * every ground-truth function is looked up in it.
   */
  function ValidateFeedback(truth: seq<(string, seq<string>)>, feedback: string, loads: string -> Parsed): Verdict
    requires DistinctNames(truth)
  {
    var start := Find(feedback, '{');
    var end := RFind(feedback, '}') + 1;
    if start == -1 || end == 0 then NoJsonObject
    else
      match loads(Slice(feedback, start, end))
      case DecodeError(_) => InvalidJson
      case Parsed(v) =>
        if !v.Object? || |v.fields| == 0 then EmptyOrNotObject
        else
          match CheckAll(v.fields, truth)
          case None => Crashed
          case Some(rv) =>
            if |rv.issues| > 0 then Rejected(rv.issues)
            else if |rv.strategy| != |truth| then Incomplete
            else Accepted(rv.strategy)
  }

  /**
   * Without issues, every ground-truth function has its entry in the
   * strategy, in order, holding only real parameter names; entries
   * correspond one to one with the ground truth.
   */
  lemma {:induction false} CheckAllShape(fields: seq<(string, Value)>, truth: seq<(string, seq<string>)>)
    requires CheckAll(fields, truth).Some?
    ensures var rv := CheckAll(fields, truth).value;
      |rv.strategy| <= |truth|
      && (|rv.issues| == 0 ==>
            |rv.strategy| == |truth|
            && forall i :: 0 <= i < |truth| ==>
                 rv.strategy[i].0 == truth[i].0 && forall p :: p in rv.strategy[i].1 ==> p in truth[i].1)
    decreases |truth|
  {
    if |truth| > 0 {
      var n := |truth| - 1;
      var rv := CheckAll(fields, truth[..n]).value;
      CheckAllShape(fields, truth[..n]);
      var one := CheckFunction(fields, truth[n].0, truth[n].1).value;
      var r := CheckAll(fields, truth).value;
      assert r == Review(rv.strategy + one.strategy, rv.issues + one.issues);
      if |r.issues| == 0 {
        forall i | 0 <= i < |truth|
          ensures r.strategy[i].0 == truth[i].0 && forall p :: p in r.strategy[i].1 ==> p in truth[i].1
        {
          if i < n {
            assert r.strategy[i] == rv.strategy[i] && truth[..n][i] == truth[i];
          } else {
            assert r.strategy[i] == one.strategy[0];
          }
        }
      }
    }
  }

  /** The completeness check after the loop never fails: with no issue, the strategy covers the ground truth. */
  lemma NeverIncomplete(truth: seq<(string, seq<string>)>, feedback: string, loads: string -> Parsed)
    requires DistinctNames(truth)
    ensures ValidateFeedback(truth, feedback, loads) != Incomplete
  {
    var start := Find(feedback, '{');
    var end := RFind(feedback, '}') + 1;
    if start != -1 && end != 0 {
      var parsed := loads(Slice(feedback, start, end));
      if parsed.Parsed? && parsed.value.Object? && CheckAll(parsed.value.fields, truth).Some? {
        CheckAllShape(parsed.value.fields, truth);
      }
    }
  }

  /**
   * An accepted strategy has exactly the ground-truth function names as
   * keys, in ground-truth order, and lists only real parameter names of
   * each, in their ground-truth spelling.
   */
  lemma AcceptedStrategyShape(truth: seq<(string, seq<string>)>, feedback: string, loads: string -> Parsed)
    requires DistinctNames(truth)
    requires ValidateFeedback(truth, feedback, loads).Accepted?
    ensures var st := ValidateFeedback(truth, feedback, loads).strategy;
      |st| == |truth|
      && forall i :: 0 <= i < |truth| ==>
           st[i].0 == truth[i].0 && forall p :: p in st[i].1 ==> p in truth[i].1
  {
    var start := Find(feedback, '{');
    var end := RFind(feedback, '}') + 1;
    var parsed := loads(Slice(feedback, start, end));
    CheckAllShape(parsed.value.fields, truth);
  }

  /** The text holds a JSON object candidate exactly when it has both a "{" and a "}". */
  lemma NoBracesNoObject(truth: seq<(string, seq<string>)>, feedback: string, loads: string -> Parsed)
    requires DistinctNames(truth)
    ensures ValidateFeedback(truth, feedback, loads) == NoJsonObject <==> '{' !in feedback || '}' !in feedback
  {
    var start := Find(feedback, '{');
    var end := RFind(feedback, '}') + 1;
    if '{' in feedback {
      var k :| 0 <= k < |feedback| && feedback[k] == '{';
    }
    if '}' in feedback {
      var k :| 0 <= k < |feedback| && feedback[k] == '}';
    }
  }

  /** A single candidate within the bound is the match. */
  lemma FirstWithinOnly(target: string, c: string)
    requires Distance(target, c) <= MaxEditDistance
    ensures FirstWithin(target, [c]) == Some(0)
  {
  }

  /** The second of two candidates is the match when only it is within the bound. */
  lemma FirstWithinSecond(target: string, c0: string, c1: string)
    requires Distance(target, c0) > MaxEditDistance && Distance(target, c1) <= MaxEditDistance
    ensures FirstWithin(target, [c0, c1]) == Some(1)
  {
    assert [c0, c1][1..] == [c1];
  }

  /** A parameter one letter short of the second real name is replaced by it. */
  lemma ExampleParameterRepaired()
    ensures CheckParams("transfer", ["to", "amount"], [Str("amout")]) == Some(ParamCheck(["amount"], []))
  {
    DistanceBounds("amout", "to");
    DistanceOneDeletion("amou", "t", 'n');
    assert "amou" + ['n'] + "t" == "amount" && "amou" + "t" == "amout";
    DistanceSymmetric("amount", "amout");
    FirstWithinSecond("amout", "to", "amount");
    ParamsOneRepaired("transfer", ["to", "amount"], "amout", 1);
  }

  /** A single suggestion whose first match is a non-empty real name is accepted as that name. */
  lemma ParamsOneRepaired(name: string, params: seq<string>, suggestion: string, k: nat)
    requires FirstWithin(suggestion, params) == Some(k) && params[k] != ""
    ensures CheckParams(name, params, [Str(suggestion)]) == Some(ParamCheck([params[k]], []))
  {
    assert [Str(suggestion)][..0] == [];
    assert CheckParams(name, params, []) == Some(ParamCheck([], []));
    assert [] + [params[k]] == [params[k]];
  }

  /**
   * A misspelt function name and a misspelt parameter are both mapped back
   * to the contract's spelling.
   */
  lemma ExampleSpellingRepaired()
    ensures CheckAll([("transfr", Array([Str("amout")]))], [("transfer", ["to", "amount"])])
      == Some(Review([("transfer", ["amount"])], []))
  {
    var fields := [("transfr", Array([Str("amout")]))];
    DistanceOneDeletion("transf", "r", 'e');
    assert "transf" + ['e'] + "r" == "transfer" && "transf" + "r" == "transfr";
    assert Keys(fields) == ["transfr"];
    FirstWithinOnly("transfer", "transfr");
    ExampleParameterRepaired();
    FunctionRepaired(fields, "transfer", ["to", "amount"]);
  }

  /** One ground-truth function whose own check is clean gives its strategy entry. */
  lemma FunctionRepaired(fields: seq<(string, Value)>, name: string, params: seq<string>)
    requires CheckFunction(fields, name, params).Some?
    ensures CheckAll(fields, [(name, params)]) == CheckFunction(fields, name, params)
  {
    assert [(name, params)][..0] == [];
    var one := CheckFunction(fields, name, params).value;
    assert [] + one.strategy == one.strategy && [] + one.issues == one.issues;
  }

  // ---------------------------------------------------------------------
  // The retry loop (`get_mutation_strategy`)
  // ---------------------------------------------------------------------

  /** What one request to the model yields: its message content, or the text of the exception it raised. */
  datatype ModelReply = Reply(content: string) | Failure(error: string)

  /** The reminder kept after an attempt that raised `error`. */
  function ReminderFor(error: string): (r: string)
    ensures r != ""
  {
    "An exception occurred: " + error + ". Please ensure the output is a single, valid JSON object. "
  }

  const ReminderHeader := "\nIMPORTANT: Your previous response had errors. Please correct them. Here are the issues I found: "

  /** What is appended to the prompt: nothing before the first failure, the reminder afterwards. */
  function PromptSuffix(remind: string): string {
    if remind == "" then "" else ReminderHeader + remind
  }

  /**
   * Attempts `attempt` up to `attempts`, with the reminder left by the
   * previous attempt: the first reply that parses is the strategy; a
   * request that raises, or a reply that does not parse, leaves a reminder
   * for the next attempt; after the last attempt the strategy is `{}`.
   */
  function StrategyFrom(attempt: nat, attempts: nat, remind: string, ask: (nat, string) -> ModelReply, loads: string -> Parsed): Value
    decreases attempts - attempt
  {
    if attempt >= attempts then Object([])
    else
      match ask(attempt, PromptSuffix(remind))
      case Failure(e) => StrategyFrom(attempt + 1, attempts, ReminderFor(e), ask, loads)
      case Reply(content) =>
        match loads(content)
        case Parsed(v) => v
        case DecodeError(m) => StrategyFrom(attempt + 1, attempts, ReminderFor(m), ask, loads)
  }

  /** `range(max_retries)`: no attempt at all for a count below one. */
  /** One attempt of the loop: the first parse ends it, anything else moves on with a reminder. */
  lemma StrategyStep(attempt: nat, attempts: nat, remind: string, ask: (nat, string) -> ModelReply, loads: string -> Parsed)
    requires attempt < attempts
    ensures ask(attempt, PromptSuffix(remind)).Failure? ==>
      StrategyFrom(attempt, attempts, remind, ask, loads)
        == StrategyFrom(attempt + 1, attempts, ReminderFor(ask(attempt, PromptSuffix(remind)).error), ask, loads)
    ensures ask(attempt, PromptSuffix(remind)).Reply? ==> (
      var parsed := loads(ask(attempt, PromptSuffix(remind)).content);
      StrategyFrom(attempt, attempts, remind, ask, loads)
        == if parsed.Parsed? then parsed.value
           else StrategyFrom(attempt + 1, attempts, ReminderFor(parsed.message), ask, loads))
  {
  }

  function Attempts(maxRetries: int): nat {
    if maxRetries < 0 then 0 else maxRetries
  }

  function MutationStrategy(maxRetries: int, ask: (nat, string) -> ModelReply, loads: string -> Parsed): Value {
    StrategyFrom(0, Attempts(maxRetries), "", ask, loads)
  }

  /**
   * The strategy is either `{}` or what `json.loads` made of some reply
   * within the attempts; the first attempt carries no reminder and every
   * later one does.
   */
  lemma {:induction false} StrategyComesFromAReply(attempt: nat, attempts: nat, remind: string, ask: (nat, string) -> ModelReply, loads: string -> Parsed)
    requires attempt == 0 ==> remind == ""
    requires attempt > 0 ==> remind != ""
    ensures var v := StrategyFrom(attempt, attempts, remind, ask, loads);
      v == Object([])
      || exists k: nat, r: string :: attempt <= k < attempts && (k == 0 <==> r == "")
           && ask(k, PromptSuffix(r)).Reply? && loads(ask(k, PromptSuffix(r)).content) == Parsed(v)
    decreases attempts - attempt
  {
    if attempt < attempts {
      match ask(attempt, PromptSuffix(remind))
      case Failure(e) =>
        StrategyComesFromAReply(attempt + 1, attempts, ReminderFor(e), ask, loads);
      case Reply(content) =>
        match loads(content)
        case Parsed(v) =>
        case DecodeError(m) =>
          StrategyComesFromAReply(attempt + 1, attempts, ReminderFor(m), ask, loads);
    }
  }

  /** When no attempt yields a reply that parses, the strategy is `{}`. */
  lemma {:induction false} AllAttemptsFailGiveEmpty(attempt: nat, attempts: nat, remind: string, ask: (nat, string) -> ModelReply, loads: string -> Parsed)
    requires forall k: nat, r: string :: attempt <= k < attempts && ask(k, r).Reply? ==> loads(ask(k, r).content).DecodeError?
    ensures StrategyFrom(attempt, attempts, remind, ask, loads) == Object([])
    decreases attempts - attempt
  {
    if attempt < attempts {
      match ask(attempt, PromptSuffix(remind))
      case Failure(e) =>
        AllAttemptsFailGiveEmpty(attempt + 1, attempts, ReminderFor(e), ask, loads);
      case Reply(content) =>
        AllAttemptsFailGiveEmpty(attempt + 1, attempts, ReminderFor(loads(content).message), ask, loads);
    }
  }

  /** With no attempts allowed the model is never asked and the strategy is `{}`. */
  lemma NoAttemptsGiveEmpty(maxRetries: int, ask: (nat, string) -> ModelReply, loads: string -> Parsed)
    requires maxRetries <= 0
    ensures MutationStrategy(maxRetries, ask, loads) == Object([])
  {
  }

  /**
   * The mutator's state: the ABI, the listing of its state functions built
   * at construction, the (never updated) reminder history and the distance
   * bound.
   */
  class LlmMutator {
    const abi: seq<Entry>
    var stateFunctions: string
    var remindHistory: string
    const maxEditDistance: nat

    /** `__init__`: the listing is built from the ABI. */
    constructor (abi: seq<Entry>)
      ensures this.abi == abi
      ensures stateFunctions == Join(",", StateFunctionLines(abi))
      ensures remindHistory == "" && maxEditDistance == MaxEditDistance
    {
      this.abi := abi;
      maxEditDistance := MaxEditDistance;
      remindHistory := "";
      stateFunctions := "";
      new;
      stateFunctions := ExtractStateFunctions();
    }

    /** The inner loop that writes each input as "type name". */
    static method ParamList(inputs: seq<Param>) returns (params: seq<string>)
      ensures params == ParamTexts(inputs)
    {
      params := [];
      var j := 0;
      while j < |inputs|
        invariant 0 <= j <= |inputs|
        invariant params == ParamTexts(inputs)[..j]
      {
        params := params + [inputs[j].typ + " " + inputs[j].name];
        j := j + 1;
      }
    }

    /** One item of the listing, its inputs written out by the inner loop. */
    static method FormatLine(index: nat, name: string, inputs: seq<Param>) returns (line: string)
      ensures line == Line(index, name, inputs)
    {
      var params := ParamList(inputs);
      line := IntText(index) + ":" + name + "(" + Join(",", params) + ")";
    }

    /** The first loop of `_extract_state_functions`: the state functions, numbered from 1 by a counter. */
    static method NumberStateFunctions(abi: seq<Entry>) returns (functions: seq<string>)
      ensures functions == NumberedLines(StateEntries(abi))
    {
      functions := [];
      var index := 1;
      var i := 0;
      while i < |abi|
        invariant 0 <= i <= |abi|
        invariant functions == NumberedLines(StateEntries(abi[..i]))
        invariant index == |functions| + 1
      {
        functions, index := NumberEntry(abi, i, functions, index);
        i := i + 1;
      }
      assert abi[..i] == abi;
    }

    /** One entry of the first loop: a state function gets its line under the counter, which then moves on. */
    static method NumberEntry(abi: seq<Entry>, i: nat, functions: seq<string>, index: nat) returns (functions': seq<string>, index': nat)
      requires i < |abi| && functions == NumberedLines(StateEntries(abi[..i])) && index == |functions| + 1
      ensures functions' == NumberedLines(StateEntries(abi[..i + 1])) && index' == |functions'| + 1
    {
      var func := abi[i];
      StateEntriesStep(abi, i);
      functions', index' := functions, index;
      if func.kind == "function" && !func.constant {
        var line := FormatLine(index, func.name, func.inputs);
        NumberedLinesStep(StateEntries(abi[..i]), func);
        functions' := functions + [line];
        index' := index + 1;
      }
    }

    /** The second loop: the line of the first constructor, numbered `index`, if there is one. */
    static method ConstructorLine(abi: seq<Entry>, index: nat) returns (line: Option<string>)
      ensures FirstConstructor(abi).None? ==> line.None?
      ensures FirstConstructor(abi).Some? ==>
        line == Some(Line(index, "constructor", abi[FirstConstructor(abi).value].inputs))
    {
      var i := 0;
      while i < |abi|
        invariant 0 <= i <= |abi|
        invariant forall j :: 0 <= j < i ==> abi[j].kind != "constructor"
      {
        var func := abi[i];
        if func.kind == "constructor" {
          var text := FormatLine(index, "constructor", func.inputs);
          assert FirstConstructor(abi) == Some(i);
          return Some(text);
        }
        i := i + 1;
      }
      return None;
    }

    /**
     * `_extract_state_functions`: the numbered state functions, then the
     * first constructor, if any, under the next number, joined by ",".
     */
    method ExtractStateFunctions() returns (listing: string)
      ensures listing == Join(",", StateFunctionLines(abi))
    {
      var functions := NumberStateFunctions(abi);
      var index := |functions| + 1;
      var ctorLine := ConstructorLine(abi, index);
      if ctorLine.Some? {
        functions := functions + [ctorLine.value];
      }
      listing := Join(",", functions);
    }

    /** The first candidate within the distance bound (a `for` loop with `break`). */
    static method MatchFirst(target: string, candidates: seq<string>) returns (found: Option<nat>)
      ensures found == FirstWithin(target, candidates)
    {
      FirstWithinSpec(target, candidates);
      var j := 0;
      while j < |candidates|
        invariant 0 <= j <= |candidates|
        invariant forall k :: 0 <= k < j ==> Distance(target, candidates[k]) > MaxEditDistance
      {
        if Distance(target, candidates[j]) <= MaxEditDistance {
          return Some(j);
        }
        j := j + 1;
      }
      return None;
    }

    /** The loop over the model's suggestions for one function. */
    static method CheckParamList(name: string, params: seq<string>, items: seq<Value>) returns (result: Option<ParamCheck>)
      ensures result == CheckParams(name, params, items)
    {
      var validated: seq<string> := [];
      var issues: seq<Issue> := [];
      var j := 0;
      while j < |items|
        invariant 0 <= j <= |items|
        invariant CheckParams(name, params, items[..j]) == Some(ParamCheck(validated, issues))
      {
        var item := items[j];
        assert items[..j + 1][..j] == items[..j];
        var matched: Option<nat> := None;
        if |params| > 0 {
          if !item.Str? {
            assert !items[..j + 1][j].Str?;
            CheckParamsCrashIsFinal(name, params, items, j + 1);
            return None;
          }
          matched := MatchFirst(item.s, params);
        }
        if matched.Some? && params[matched.value] != "" {
          validated := validated + [params[matched.value]];
        } else {
          issues := issues + [UnknownParameter(name, item, params)];
        }
        j := j + 1;
      }
      assert items[..j] == items;
      return Some(ParamCheck(validated, issues));
    }

    /**
     * One round of the loop over the ground truth: look the function up
     * among the model's keys, then check its parameter list.
     */
    static method CheckOneFunction(fields: seq<(string, Value)>, keys: seq<string>, name: string, params: seq<string>)
      returns (result: Option<Review>)
      requires keys == Keys(fields)
      ensures result == CheckFunction(fields, name, params)
    {
      var matched := MatchFirst(name, keys);
      if matched.None? || keys[matched.value] == "" {
        return Some(Review([], [MissingFunction(name)]));
      }
      assert keys[matched.value] in keys;
      var llmParamList := Get(fields, keys[matched.value]).value;
      if !llmParamList.Array? {
        return Some(Review([], [NotAList(name, llmParamList)]));
      }
      var checked := CheckParamList(name, params, llmParamList.items);
      if checked.None? {
        return None;
      }
      return Some(Review([(name, checked.value.validated)], checked.value.issues));
    }

    /**
     * `_validate_and_parse_feedback` with the ground truth given as the
     * ordered dict it is meant to be.
     */
    method ValidateAndParseFeedback(truth: seq<(string, seq<string>)>, feedback: string, loads: string -> Parsed) returns (verdict: Verdict)
      requires DistinctNames(truth)
      ensures verdict == ValidateFeedback(truth, feedback, loads)
    {
      var startPos := Find(feedback, '{');
      var endPos := RFind(feedback, '}') + 1;
      if startPos == -1 || endPos == 0 {
        return NoJsonObject;
      }
      var parsed := loads(Slice(feedback, startPos, endPos));
      if parsed.DecodeError? {
        return InvalidJson;
      }
      var llmFeedback := parsed.value;
      if !llmFeedback.Object? || |llmFeedback.fields| == 0 {
        return EmptyOrNotObject;
      }
      var review := ReviewFunctions(llmFeedback.fields, truth);
      if review.None? {
        return Crashed;
      }
      if |review.value.issues| > 0 {
        return Rejected(review.value.issues);
      }
      if |review.value.strategy| != |truth| {
        return Incomplete;
      }
      return Accepted(review.value.strategy);
    }

    /** The loop of `_validate_and_parse_feedback` over the ground truth; `None` when a comparison raised. */
    static method ReviewFunctions(fields: seq<(string, Value)>, truth: seq<(string, seq<string>)>) returns (review: Option<Review>)
      ensures review == CheckAll(fields, truth)
    {
      var keys := Keys(fields);
      var strategy: seq<(string, seq<string>)> := [];
      var issues: seq<Issue> := [];
      var i := 0;
      while i < |truth|
        invariant 0 <= i <= |truth|
        invariant CheckAll(fields, truth[..i]) == Some(Review(strategy, issues))
      {
        assert truth[..i + 1][..i] == truth[..i];
        var checked := CheckOneFunction(fields, keys, truth[i].0, truth[i].1);
        if checked.None? {
          CheckAllCrashIsFinal(fields, truth, i + 1);
          return None;
        }
        strategy := strategy + checked.value.strategy;
        issues := issues + checked.value.issues;
        i := i + 1;
      }
      assert truth[..i] == truth;
      return Some(Review(strategy, issues));
    }

    /** `get_mutation_strategy`: at most `max_retries` attempts, carrying the reminder of the last failure. */
    method GetMutationStrategy(maxRetries: int, ask: (nat, string) -> ModelReply, loads: string -> Parsed) returns (strategy: Value)
      ensures strategy == MutationStrategy(maxRetries, ask, loads)
    {
      var remind := "";
      var attempt := 0;
      ghost var attempts := Attempts(maxRetries);
      while attempt < maxRetries
        decreases maxRetries - attempt
        invariant 0 <= attempt <= attempts
        invariant StrategyFrom(attempt, attempts, remind, ask, loads) == MutationStrategy(maxRetries, ask, loads)
      {
        var response := ask(attempt, PromptSuffix(remind));
        StrategyStep(attempt, attempts, remind, ask, loads);
        match response {
          case Failure(e) =>
            remind := ReminderFor(e);
          case Reply(content) =>
            var parsed := loads(content);
            if parsed.Parsed? {
              return parsed.value;
            }
            remind := ReminderFor(parsed.message);
        }
        attempt := attempt + 1;
      }
      return Object([]);
    }
  }

  /** Once a comparison has failed, later suggestions change nothing. */
  lemma {:induction false} CheckParamsCrashIsFinal(name: string, params: seq<string>, items: seq<Value>, n: nat)
    requires n <= |items| && CheckParams(name, params, items[..n]).None?
    ensures CheckParams(name, params, items).None?
  {
    CheckParamsShape(name, params, items[..n]);
    CheckParamsShape(name, params, items);
    var k :| 0 <= k < n && !items[..n][k].Str?;
    assert items[k] == items[..n][k];
  }

  /** Once a comparison has failed, later ground-truth functions change nothing. */
  lemma {:induction false} CheckAllCrashIsFinal(fields: seq<(string, Value)>, truth: seq<(string, seq<string>)>, n: nat)
    requires n <= |truth| && CheckAll(fields, truth[..n]).None?
    ensures CheckAll(fields, truth).None?
    decreases |truth|
  {
    if n < |truth| {
      var init := truth[..|truth| - 1];
      assert init[..n] == truth[..n];
      CheckAllCrashIsFinal(fields, init, n);
    } else {
      assert truth[..n] == truth;
    }
  }
}
