/**
 * The two selector tables built from a contract's ABI.
 *
 * The seed generator keeps `function_name_to_hash`, keyed by function name
 * (a later overload of the same name replaces an earlier one), plus the
 * identity entries "constructor" and "fallback" when the fuzzer's interface
 * has them, and `function_info` with each name's selector, signature text
 * and input types. The mutator keeps `function_info_map`, keyed by selector,
 * with each function's name and ordered parameter names.
 *
 * Both compute the selector through different string slicing; `Selector`
 * and `MutationSelector` below are the two, and they are proved equal.
 */
module SignatureIndex {
  import opened Text
  import opened Abi

  /** The canonical signature text of an ABI entry. */
  function EntrySignature(e: Entry): string {
    SignatureText(e.name, Types(e.inputs))
  }

  /** `name` is the name of some function entry of the ABI. */
  predicate DeclaresFunction(abi: seq<Entry>, name: string) {
    exists i :: 0 <= i < |abi| && IsFunction(abi[i]) && abi[i].name == name
  }

  /** Entry `i` is the last function entry named `abi[i].name`. */
  predicate LastOfName(abi: seq<Entry>, i: nat)
    requires i < |abi|
  {
    IsFunction(abi[i])
    && forall j :: i < j < |abi| ==> !(IsFunction(abi[j]) && abi[j].name == abi[i].name)
  }

  /** What `function_info[name]` holds: the selector, the signature text and the input types. */
  datatype FunctionInfo = FunctionInfo(hash: string, signature: string, inputs: seq<string>)

  function InfoOf(keccak: Keccak, e: Entry): FunctionInfo {
    var sig := EntrySignature(e);
    FunctionInfo(Selector(keccak, sig), sig, Types(e.inputs))
  }

  /** The name-keyed entries the loop over the ABI writes, in ABI order, so a later entry overwrites. */
  function NameHashes(keccak: Keccak, abi: seq<Entry>): map<string, string>
    decreases |abi|
  {
    if |abi| == 0 then map[]
    else
      var m := NameHashes(keccak, abi[..|abi| - 1]);
      var e := abi[|abi| - 1];
      if IsFunction(e) then m[e.name := Selector(keccak, EntrySignature(e))] else m
  }

  /** `function_info` as the same loop leaves it. */
  function NameInfos(keccak: Keccak, abi: seq<Entry>): map<string, FunctionInfo>
    decreases |abi|
  {
    if |abi| == 0 then map[]
    else
      var m := NameInfos(keccak, abi[..|abi| - 1]);
      var e := abi[|abi| - 1];
      if IsFunction(e) then m[e.name := InfoOf(keccak, e)] else m
  }

  /**
   * `function_name_to_hash` after `_build_function_mappings`: empty for an
   * empty ABI (the method returns early); otherwise the function entries,
   * then "constructor" and "fallback" mapped to themselves when they are
   * keys of the interface.
   */
  function NameToHash(keccak: Keccak, abi: seq<Entry>, interfaceKeys: set<string>): map<string, string> {
    if |abi| == 0 then map[]
    else
      var m := NameHashes(keccak, abi);
      var m' := if "constructor" in interfaceKeys then m["constructor" := "constructor"] else m;
      if "fallback" in interfaceKeys then m'["fallback" := "fallback"] else m'
  }

  /** `function_info` after `_build_function_mappings`. */
  function FunctionInfoTable(keccak: Keccak, abi: seq<Entry>): map<string, FunctionInfo> {
    NameInfos(keccak, abi)
  }

  /** The keys of the name table are exactly the names of the function entries. */
  lemma {:induction false} NameHashesKeys(keccak: Keccak, abi: seq<Entry>)
    ensures forall name :: name in NameHashes(keccak, abi) <==> DeclaresFunction(abi, name)
    decreases |abi|
  {
    if |abi| > 0 {
      var init := abi[..|abi| - 1];
      NameHashesKeys(keccak, init);
      forall name ensures DeclaresFunction(init, name) ==> DeclaresFunction(abi, name) {
        if DeclaresFunction(init, name) {
          var i :| 0 <= i < |init| && IsFunction(init[i]) && init[i].name == name;
          assert abi[i] == init[i];
        }
      }
      forall name | DeclaresFunction(abi, name) && name != abi[|abi| - 1].name
        ensures DeclaresFunction(init, name)
      {
        var i :| 0 <= i < |abi| && IsFunction(abi[i]) && abi[i].name == name;
        assert init[i] == abi[i];
      }
      forall name | DeclaresFunction(abi, name) && !IsFunction(abi[|abi| - 1])
        ensures DeclaresFunction(init, name)
      {
        var i :| 0 <= i < |abi| && IsFunction(abi[i]) && abi[i].name == name;
        assert init[i] == abi[i];
      }
    }
  }

  /** A name's entry in the name table is the selector of the last function entry with that name. */
  lemma {:induction false} NameHashesLastWins(keccak: Keccak, abi: seq<Entry>, i: nat)
    requires i < |abi| && LastOfName(abi, i)
    ensures abi[i].name in NameHashes(keccak, abi)
    ensures NameHashes(keccak, abi)[abi[i].name] == Selector(keccak, EntrySignature(abi[i]))
    decreases |abi|
  {
    if i < |abi| - 1 {
      var init := abi[..|abi| - 1];
      assert init[i] == abi[i];
      assert LastOfName(init, i) by {
        forall j | i < j < |init| ensures !(IsFunction(init[j]) && init[j].name == init[i].name) {
          assert init[j] == abi[j];
        }
      }
      NameHashesLastWins(keccak, init, i);
    }
  }

  /** `function_info` has the same keys as the name table, and each holds the selector the name table holds. */
  lemma {:induction false} NameInfosAgree(keccak: Keccak, abi: seq<Entry>)
    ensures NameInfos(keccak, abi).Keys == NameHashes(keccak, abi).Keys
    ensures forall name :: name in NameInfos(keccak, abi) ==>
      NameInfos(keccak, abi)[name].hash == NameHashes(keccak, abi)[name]
      && NameInfos(keccak, abi)[name].hash == Selector(keccak, NameInfos(keccak, abi)[name].signature)
    decreases |abi|
  {
    if |abi| > 0 {
      NameInfosAgree(keccak, abi[..|abi| - 1]);
    }
  }

  /**
   * "constructor" and "fallback" map to themselves exactly when the ABI is
   * not empty and they are keys of the interface: a selector never equals
   * either word, so a function entry of that name cannot fake the identity.
   */
  lemma SpecialEntries(keccak: Keccak, abi: seq<Entry>, interfaceKeys: set<string>, special: string)
    requires special == "constructor" || special == "fallback"
    ensures (special in NameToHash(keccak, abi, interfaceKeys) && NameToHash(keccak, abi, interfaceKeys)[special] == special)
      <==> (|abi| > 0 && special in interfaceKeys)
  {
    if |abi| > 0 && special !in interfaceKeys && special in NameHashes(keccak, abi) {
      NameHashesKeys(keccak, abi);
      var i :| 0 <= i < |abi| && IsFunction(abi[i]) && abi[i].name == special;
      NameHashesValues(keccak, abi, special);
    }
  }

  /** Every value of the name table is the selector of some function entry's signature. */
  lemma {:induction false} NameHashesValues(keccak: Keccak, abi: seq<Entry>, name: string)
    requires name in NameHashes(keccak, abi)
    ensures exists i :: (0 <= i < |abi| && IsFunction(abi[i]) && abi[i].name == name
                         && NameHashes(keccak, abi)[name] == Selector(keccak, EntrySignature(abi[i])))
    ensures NameHashes(keccak, abi)[name] != "constructor" && NameHashes(keccak, abi)[name] != "fallback"
    decreases |abi|
  {
    var init := abi[..|abi| - 1];
    var e := abi[|abi| - 1];
    if IsFunction(e) && e.name == name {
      SelectorIsNotSpecial(keccak, EntrySignature(e));
    } else {
      NameHashesValues(keccak, init, name);
      var i :| 0 <= i < |init| && IsFunction(init[i]) && init[i].name == name
        && NameHashes(keccak, init)[name] == Selector(keccak, EntrySignature(init[i]));
      assert abi[i] == init[i];
    }
  }

  /** Outside the two special names, the generator's table is the name table of the function entries (or empty). */
  lemma NameToHashOrdinary(keccak: Keccak, abi: seq<Entry>, interfaceKeys: set<string>, name: string)
    requires name != "constructor" && name != "fallback"
    ensures name in NameToHash(keccak, abi, interfaceKeys) <==> |abi| > 0 && DeclaresFunction(abi, name)
    ensures name in NameToHash(keccak, abi, interfaceKeys) ==>
      NameToHash(keccak, abi, interfaceKeys)[name] == NameHashes(keccak, abi)[name]
  {
    NameHashesKeys(keccak, abi);
    if |abi| > 0 {
      var m := NameHashes(keccak, abi);
      var m' := if "constructor" in interfaceKeys then m["constructor" := "constructor"] else m;
      assert name in m' <==> name in m;
      assert name in m' ==> m'[name] == m[name];
      var m'' := if "fallback" in interfaceKeys then m'["fallback" := "fallback"] else m';
      assert NameToHash(keccak, abi, interfaceKeys) == m'';
    }
  }

  /**
   * The loop of `_build_function_mappings` that writes the signature text:
   * the name, "(", each input type followed by "," unless it is the last,
   * then ")". It also collects the input types.
   */
  method BuildSignature(name: string, inputs: seq<Param>) returns (signature: string, inputTypes: seq<string>)
    ensures signature == SignatureText(name, Types(inputs))
    ensures inputTypes == Types(inputs)
  {
    ghost var ts := Types(inputs);
    signature := name + "(";
    inputTypes := [];
    var i := 0;
    while i < |inputs|
      invariant 0 <= i <= |inputs|
      invariant inputTypes == ts[..i]
      invariant signature == name + "(" + Join(",", ts[..i]) + (if 0 < i < |inputs| then "," else "")
    {
      var inputType := inputs[i].typ;
      assert ts[..i + 1][..i] == ts[..i];
      inputTypes := inputTypes + [inputType];
      signature := signature + inputType;
      if i < |inputs| - 1 {
        signature := signature + ",";
      }
      i := i + 1;
    }
    assert ts[..i] == ts;
    signature := signature + ")";
  }

  /**
   * The mutator's selector: `sha3(text).hex()` is "0x" and 64 hex digits,
   * `[2:10]` keeps the first eight, and "0x" is put back unless the slice
   * already starts with it.
   */
  function MutationSelector(keccak: Keccak, signature: string): string {
    var full := "0x" + HexOf(keccak(signature));
    var h := full[2..10];
    if StartsWith(h, "0x") then h else "0x" + h
  }

  /** Both renderings of the selector give the same text, so the two tables agree on keys. */
  lemma MutationSelectorIsSelector(keccak: Keccak, signature: string)
    ensures MutationSelector(keccak, signature) == Selector(keccak, signature)
  {
    var d := keccak(signature);
    var full := "0x" + HexOf(d);
    HexOfPrefix(d, 4);
    assert full[2..10] == HexOf(d)[..8];
    assert IsLowerHex(full[2..10][1]);
  }

  /** What `function_info_map[selector]` holds. */
  datatype TargetInfo = TargetInfo(name: string, params: seq<string>)

  /** `function_info_map` as `_build_function_info_map` returns it. */
  function TargetsBySelector(keccak: Keccak, abi: seq<Entry>): map<string, TargetInfo>
    decreases |abi|
  {
    if |abi| == 0 then map[]
    else
      var m := TargetsBySelector(keccak, abi[..|abi| - 1]);
      var e := abi[|abi| - 1];
      if IsFunction(e) then m[MutationSelector(keccak, EntrySignature(e)) := TargetInfo(e.name, Names(e.inputs))] else m
  }

  /** `sel` is the selector of some function entry of the ABI. */
  predicate DeclaresSelector(keccak: Keccak, abi: seq<Entry>, sel: string) {
    exists i :: 0 <= i < |abi| && IsFunction(abi[i]) && Selector(keccak, EntrySignature(abi[i])) == sel
  }

  /** The selector keys are exactly the selectors of the function entries. */
  lemma {:induction false} TargetsKeys(keccak: Keccak, abi: seq<Entry>, sel: string)
    ensures sel in TargetsBySelector(keccak, abi) <==> DeclaresSelector(keccak, abi, sel)
    decreases |abi|
  {
    if |abi| > 0 {
      var init := abi[..|abi| - 1];
      var e := abi[|abi| - 1];
      TargetsKeys(keccak, init, sel);
      TargetsKeyStep(keccak, abi, sel);
      if DeclaresSelector(keccak, init, sel) {
        var i :| 0 <= i < |init| && IsFunction(init[i]) && Selector(keccak, EntrySignature(init[i])) == sel;
        assert abi[i] == init[i];
      }
      if DeclaresSelector(keccak, abi, sel) {
        var i :| 0 <= i < |abi| && IsFunction(abi[i]) && Selector(keccak, EntrySignature(abi[i])) == sel;
        if i < |init| {
          assert init[i] == abi[i];
        }
      }
    }
  }

  /** One more entry: a function entry adds its selector to the keys. */
  lemma TargetsKeyStep(keccak: Keccak, abi: seq<Entry>, sel: string)
    requires |abi| > 0
    ensures var e := abi[|abi| - 1];
      sel in TargetsBySelector(keccak, abi)
      <==> sel in TargetsBySelector(keccak, abi[..|abi| - 1]) || (IsFunction(e) && sel == Selector(keccak, EntrySignature(e)))
  {
    MutationSelectorIsSelector(keccak, EntrySignature(abi[|abi| - 1]));
  }

  /** Every selector key is "0x" and eight lower-case hex digits. */
  lemma TargetsKeysAreSelectors(keccak: Keccak, abi: seq<Entry>, sel: string)
    ensures sel in TargetsBySelector(keccak, abi) ==> IsSelectorText(sel)
  {
    TargetsKeys(keccak, abi, sel);
    if sel in TargetsBySelector(keccak, abi) {
      var i :| 0 <= i < |abi| && IsFunction(abi[i]) && Selector(keccak, EntrySignature(abi[i])) == sel;
    }
  }

  /** A selector's entry names the last function entry with that selector, with its parameter names in declaration order. */
  lemma {:induction false} TargetsLastWins(keccak: Keccak, abi: seq<Entry>, i: nat)
    requires i < |abi| && IsFunction(abi[i])
    requires forall j :: i < j < |abi| && IsFunction(abi[j]) ==>
      Selector(keccak, EntrySignature(abi[j])) != Selector(keccak, EntrySignature(abi[i]))
    ensures Selector(keccak, EntrySignature(abi[i])) in TargetsBySelector(keccak, abi)
    ensures TargetsBySelector(keccak, abi)[Selector(keccak, EntrySignature(abi[i]))]
      == TargetInfo(abi[i].name, Names(abi[i].inputs))
    decreases |abi|
  {
    var e := abi[|abi| - 1];
    MutationSelectorIsSelector(keccak, EntrySignature(e));
    if i < |abi| - 1 {
      var init := abi[..|abi| - 1];
      assert init[i] == abi[i];
      forall j | i < j < |init| && IsFunction(init[j])
        ensures Selector(keccak, EntrySignature(init[j])) != Selector(keccak, EntrySignature(init[i]))
      {
        assert init[j] == abi[j];
      }
      TargetsLastWins(keccak, init, i);
    }
  }

  /**
   * The selector that name resolution yields for a function name is always a
   * key of the mutator's table, and when no two function entries of
   * different names share a selector, that key's entry carries the same name.
   */
  lemma ResolvedSelectorIsIndexed(keccak: Keccak, abi: seq<Entry>, name: string)
    requires name in NameHashes(keccak, abi)
    requires forall i, j ::
      (0 <= i < |abi| && 0 <= j < |abi| && IsFunction(abi[i]) && IsFunction(abi[j])
       && Selector(keccak, EntrySignature(abi[i])) == Selector(keccak, EntrySignature(abi[j])))
      ==> abi[i].name == abi[j].name
    ensures NameHashes(keccak, abi)[name] in TargetsBySelector(keccak, abi)
    ensures TargetsBySelector(keccak, abi)[NameHashes(keccak, abi)[name]].name == name
  {
    var sel := NameHashes(keccak, abi)[name];
    NameHashesValues(keccak, abi, name);
    var i :| 0 <= i < |abi| && IsFunction(abi[i]) && abi[i].name == name && sel == Selector(keccak, EntrySignature(abi[i]));
    var k := LastWithSelector(keccak, abi, i);
    TargetsLastWins(keccak, abi, k);
  }

  /** The last function entry at or after `i` whose selector equals entry `i`'s. */
  lemma {:induction false} LastWithSelector(keccak: Keccak, abi: seq<Entry>, i: nat) returns (k: nat)
    requires i < |abi| && IsFunction(abi[i])
    ensures i <= k < |abi| && IsFunction(abi[k])
    ensures Selector(keccak, EntrySignature(abi[k])) == Selector(keccak, EntrySignature(abi[i]))
    ensures forall j :: k < j < |abi| && IsFunction(abi[j]) ==>
      Selector(keccak, EntrySignature(abi[j])) != Selector(keccak, EntrySignature(abi[k]))
    decreases |abi| - i
  {
    var sel := Selector(keccak, EntrySignature(abi[i]));
    if j :| i < j < |abi| && IsFunction(abi[j]) && Selector(keccak, EntrySignature(abi[j])) == sel {
      k := LastWithSelector(keccak, abi, j);
    } else {
      k := i;
    }
  }

  /**
   * Two overloads of one name (different type lists of non-empty types
   * without "," or "(") have different signature texts, so only a hash
   * collision can make them share a selector in the mutator's table; the
   * name table keeps only the later one.
   */
  lemma OverloadsHaveDistinctSignatures(e1: Entry, e2: Entry)
    requires e1.name == e2.name && '(' !in e1.name
    requires Types(e1.inputs) != Types(e2.inputs)
    requires forall k :: 0 <= k < |e1.inputs| ==> e1.inputs[k].typ != "" && ',' !in e1.inputs[k].typ
    requires forall k :: 0 <= k < |e2.inputs| ==> e2.inputs[k].typ != "" && ',' !in e2.inputs[k].typ
    ensures EntrySignature(e1) != EntrySignature(e2)
  {
    if EntrySignature(e1) == EntrySignature(e2) {
      SignatureTextInjective(e1.name, Types(e1.inputs), e2.name, Types(e2.inputs));
      assert false;
    }
  }
}
