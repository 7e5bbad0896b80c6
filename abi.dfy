/**
 * Contract ABI entries, their canonical signature text and the 4-byte
 * function selector derived from it (Solidity Contract ABI Specification,
 * section "Function Selector": the first four bytes of the Keccak-256 hash
 * of `name(type1,type2,...)`, written in lower-case hex after "0x").
 *
 * The hash itself is not modelled: every operation that needs it takes the
 * Keccak-256 function as a parameter.
 */
module Abi {
  import opened Text
  import Numerals

  type Byte = b: int | 0 <= b < 256

  type Digest = d: seq<Byte> | |d| == 32 witness seq(32, _ => 0)

  /** Keccak-256 of the UTF-8 encoding of a text (`Web3.sha3(text=...)`). */
  type Keccak = string -> Digest

  /** One element of an entry's `inputs`. */
  datatype Param = Param(name: string, typ: string)

  /** One ABI entry: its `type` tag ("function", "constructor", "fallback", "event", ...), `name`, `inputs` and `constant` flag. */
  datatype Entry = Entry(kind: string, name: string, inputs: seq<Param>, constant: bool)

  predicate IsFunction(e: Entry) {
    e.kind == "function"
  }

  /** The declared input types, in order. */
  function Types(inputs: seq<Param>): (ts: seq<string>)
    ensures |ts| == |inputs| && forall i :: 0 <= i < |inputs| ==> ts[i] == inputs[i].typ
  {
    seq(|inputs|, i requires 0 <= i < |inputs| => inputs[i].typ)
  }

  /** The declared input names, in order. */
  function Names(inputs: seq<Param>): (ns: seq<string>)
    ensures |ns| == |inputs| && forall i :: 0 <= i < |inputs| ==> ns[i] == inputs[i].name
  {
    seq(|inputs|, i requires 0 <= i < |inputs| => inputs[i].name)
  }

  /** The canonical signature text: the name, "(", the types joined by "," with no spaces, ")". */
  function SignatureText(name: string, types: seq<string>): string {
    name + "(" + Join(",", types) + ")"
  }

  predicate IsLowerHex(c: char) {
    '0' <= c <= '9' || 'a' <= c <= 'f'
  }

  /** Lower-case hex of a byte string, two digits per byte, without prefix. */
  function HexOf(bs: seq<Byte>): (r: string)
    ensures |r| == 2 * |bs|
    ensures forall i :: 0 <= i < |r| ==> IsLowerHex(r[i])
    decreases |bs|
  {
    if |bs| == 0 then ""
    else
      var b := bs[|bs| - 1];
      HexOf(bs[..|bs| - 1]) + [Numerals.DigitChar(b / 16), Numerals.DigitChar(b % 16)]
  }

  /** The hex of a prefix of the bytes is the matching prefix of the hex. */
  lemma {:induction false} HexOfPrefix(bs: seq<Byte>, n: nat)
    requires n <= |bs|
    ensures HexOf(bs)[..2 * n] == HexOf(bs[..n])
    decreases |bs|
  {
    if n < |bs| {
      var init := bs[..|bs| - 1];
      HexOfPrefix(init, n);
      assert init[..n] == bs[..n];
    } else {
      assert bs[..n] == bs;
    }
  }

  /** What a selector looks like: "0x" and eight lower-case hex digits. */
  predicate IsSelectorText(s: string) {
    |s| == 10 && s[..2] == "0x" && forall i :: 2 <= i < 10 ==> IsLowerHex(s[i])
  }

  /** `Web3.sha3(text=signature)[0:4].hex()`: the selector of a signature text. */
  function Selector(keccak: Keccak, signature: string): (r: string)
    ensures IsSelectorText(r)
  {
    "0x" + HexOf(keccak(signature)[..4])
  }

  /** A selector is never one of the identity entries "constructor" and "fallback". */
  lemma SelectorIsNotSpecial(keccak: Keccak, signature: string)
    ensures Selector(keccak, signature) != "constructor"
    ensures Selector(keccak, signature) != "fallback"
  {
    var s := Selector(keccak, signature);
    assert s[0] == '0';
  }

  /** A joined list of at least two parts contains the separator right after the joined prefix. */
  lemma JoinCommaAt(parts: seq<string>)
    requires |parts| >= 2
    ensures |Join(",", parts[..|parts| - 1])| < |Join(",", parts)|
    ensures Join(",", parts)[|Join(",", parts[..|parts| - 1])|] == ','
  {
  }

  /** Joining comma-free parts gives a text with a comma exactly when there are at least two parts. */
  lemma JoinHasComma(parts: seq<string>)
    requires forall i :: 0 <= i < |parts| ==> ',' !in parts[i]
    ensures ',' in Join(",", parts) <==> |parts| >= 2
  {
    if |parts| >= 2 {
      JoinCommaAt(parts);
    }
  }

  /** Joining non-empty parts gives the empty text only for no parts. */
  lemma JoinIsEmpty(parts: seq<string>)
    requires forall i :: 0 <= i < |parts| ==> parts[i] != ""
    ensures Join(",", parts) == "" <==> |parts| == 0
  {
    if |parts| > 0 {
      assert |Join(",", parts)| >= |parts[|parts| - 1]|;
    }
  }

  /** Two positions of `c` that each have no `c` after them within `s` are the same position. */
  lemma LastOccurrenceUnique(s: string, c: char, p: nat, q: nat)
    requires p < |s| && q < |s| && s[p] == c && s[q] == c
    requires forall k :: p < k < |s| ==> s[k] != c
    requires forall k :: q < k < |s| ==> s[k] != c
    ensures p == q
  {
  }

  /** Two positions of `c` that each have no `c` before them are the same position. */
  lemma FirstOccurrenceUnique(s: string, c: char, p: nat, q: nat)
    requires p < |s| && q < |s| && s[p] == c && s[q] == c
    requires forall k :: 0 <= k < p ==> s[k] != c
    requires forall k :: 0 <= k < q ==> s[k] != c
    ensures p == q
  {
  }

  /** If `x + "," + y == x' + "," + y'` and neither `y` nor `y'` holds a comma, the two sides split the same way. */
  lemma {:induction false} SplitAtLastComma(x: string, y: string, x': string, y': string)
    requires x + "," + y == x' + "," + y'
    requires ',' !in y && ',' !in y'
    ensures x == x' && y == y'
  {
    var s := x + "," + y;
    var s' := x' + "," + y';
    forall k | |x| < k < |s| ensures s[k] != ',' {
      assert s[k] == y[k - |x| - 1];
    }
    forall k | |x'| < k < |s'| ensures s'[k] != ',' {
      assert s'[k] == y'[k - |x'| - 1];
    }
    LastOccurrenceUnique(s, ',', |x|, |x'|);
    assert y == s[|x| + 1..] == y';
    assert x == s[..|x|] == x';
  }

  /** Joining with "," is injective on lists of non-empty, comma-free parts. */
  lemma {:induction false} JoinInjective(a: seq<string>, b: seq<string>)
    requires forall i :: 0 <= i < |a| ==> a[i] != "" && ',' !in a[i]
    requires forall i :: 0 <= i < |b| ==> b[i] != "" && ',' !in b[i]
    requires Join(",", a) == Join(",", b)
    ensures a == b
    decreases |a|
  {
    JoinHasComma(a);
    JoinHasComma(b);
    JoinIsEmpty(a);
    JoinIsEmpty(b);
    if |a| >= 2 {
      SplitAtLastComma(Join(",", a[..|a| - 1]), a[|a| - 1], Join(",", b[..|b| - 1]), b[|b| - 1]);
      JoinInjective(a[..|a| - 1], b[..|b| - 1]);
      assert a == a[..|a| - 1] + [a[|a| - 1]];
      assert b == b[..|b| - 1] + [b[|b| - 1]];
    }
  }

  /**
   * The signature text determines the name and the type list, for names
   * without "(" and non-empty types without "," or "(": two overloads of a
   * name always have different signature texts.
   */
  lemma {:induction false} SignatureTextInjective(n1: string, t1: seq<string>, n2: string, t2: seq<string>)
    requires '(' !in n1 && '(' !in n2
    requires forall i :: 0 <= i < |t1| ==> t1[i] != "" && ',' !in t1[i]
    requires forall i :: 0 <= i < |t2| ==> t2[i] != "" && ',' !in t2[i]
    requires SignatureText(n1, t1) == SignatureText(n2, t2)
    ensures n1 == n2 && t1 == t2
  {
    var s := SignatureText(n1, t1);
    assert s[|n1|] == '(' && s[|n2|] == '(';
    forall k | 0 <= k < |n1| ensures s[k] != '(' {
      assert s[k] == n1[k];
    }
    forall k | 0 <= k < |n2| ensures s[k] != '(' {
      assert s[k] == n2[k];
    }
    FirstOccurrenceUnique(s, '(', |n1|, |n2|);
    assert n1 == s[..|n1|] == n2;
    var j1, j2 := Join(",", t1), Join(",", t2);
    assert j1 == s[|n1| + 1..|s| - 1] == j2;
    JoinInjective(t1, t2);
  }
}
