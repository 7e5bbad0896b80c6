/**
 * Levenshtein edit distance between two texts: the least number of
 * single-character insertions, deletions and substitutions that turn one
 * into the other (what `Levenshtein.distance` computes for two `str`s).
 */
module Levenshtein {

  function Min3(x: nat, y: nat, z: nat): (m: nat)
    ensures m <= x && m <= y && m <= z
    ensures m == x || m == y || m == z
  {
    if x <= y && x <= z then x else if y <= z then y else z
  }

  function Max(x: nat, y: nat): nat {
    if x < y then y else x
  }

  /**
   * The distance, by the usual recurrence on the last characters: delete
   * the last character of `a`, insert the last character of `b`, or
   * substitute (free when they agree).
   */
  function Distance(a: string, b: string): nat
    decreases |a| + |b|
  {
    if |a| == 0 then |b|
    else if |b| == 0 then |a|
    else
      var a', b' := a[..|a| - 1], b[..|b| - 1];
      Min3(Distance(a', b) + 1, Distance(a, b') + 1,
           Distance(a', b') + (if a[|a| - 1] == b[|b| - 1] then 0 else 1))
  }

  /** The distance lies between the difference of the lengths and the longer length. */
  lemma {:induction false} DistanceBounds(a: string, b: string)
    ensures |a| - |b| <= Distance(a, b) && |b| - |a| <= Distance(a, b)
    ensures Distance(a, b) <= Max(|a|, |b|)
    decreases |a| + |b|
  {
    if |a| > 0 && |b| > 0 {
      var a', b' := a[..|a| - 1], b[..|b| - 1];
      DistanceBounds(a', b);
      DistanceBounds(a, b');
      DistanceBounds(a', b');
    }
  }

  /** A text is at distance zero from itself. */
  lemma {:induction false} DistanceToSelf(a: string)
    ensures Distance(a, a) == 0
    decreases |a|
  {
    if |a| > 0 {
      DistanceToSelf(a[..|a| - 1]);
    }
  }

  /** Distance zero means equal texts, and only equal texts are at distance zero. */
  lemma {:induction false} DistanceZeroIffEqual(a: string, b: string)
    ensures Distance(a, b) == 0 <==> a == b
    decreases |a| + |b|
  {
    if |a| > 0 && |b| > 0 {
      var a', b' := a[..|a| - 1], b[..|b| - 1];
      DistanceZeroIffEqual(a', b');
      assert a == a' + [a[|a| - 1]] && b == b' + [b[|b| - 1]];
    }
    if a == b {
      DistanceToSelf(a);
    }
  }

  /** The distance does not depend on the order of its arguments. */
  lemma {:induction false} DistanceSymmetric(a: string, b: string)
    ensures Distance(a, b) == Distance(b, a)
    decreases |a| + |b|
  {
    if |a| > 0 && |b| > 0 {
      var a', b' := a[..|a| - 1], b[..|b| - 1];
      DistanceSymmetric(a', b);
      DistanceSymmetric(a, b');
      DistanceSymmetric(a', b');
    }
  }

  /** Deleting one character is at distance at most one. */
  lemma {:induction false} DistanceOneDeletion(u: string, v: string, c: char)
    ensures Distance(u + [c] + v, u + v) <= 1
    decreases |v|
  {
    if |v| == 0 {
      assert u + [c] + v == u + [c] && u + v == u;
      assert (u + [c])[..|u|] == u;
      DistanceToSelf(u);
    } else {
      var v' := v[..|v| - 1];
      DistanceOneDeletion(u, v', c);
      assert (u + [c] + v)[..|u + [c] + v| - 1] == u + [c] + v';
      assert (u + v)[..|u + v| - 1] == u + v';
    }
  }

  /** Replacing one character is at distance at most one. */
  lemma {:induction false} DistanceOneSubstitution(u: string, v: string, c: char, d: char)
    ensures Distance(u + [c] + v, u + [d] + v) <= 1
    decreases |v|
  {
    if |v| == 0 {
      assert u + [c] + v == u + [c] && u + [d] + v == u + [d];
      assert (u + [c])[..|u|] == u && (u + [d])[..|u|] == u;
      DistanceToSelf(u);
    } else {
      var v' := v[..|v| - 1];
      DistanceOneSubstitution(u, v', c, d);
      assert (u + [c] + v)[..|u + [c] + v| - 1] == u + [c] + v';
      assert (u + [d] + v)[..|u + [d] + v| - 1] == u + [d] + v';
    }
  }

  /** One edit: a single substitution, insertion or deletion is at distance at most one. */
  lemma DistanceOneEdit(u: string, v: string, c: char, d: char)
    ensures Distance(u + [c] + v, u + v) <= 1
    ensures Distance(u + v, u + [c] + v) <= 1
    ensures Distance(u + [c] + v, u + [d] + v) <= 1
  {
    DistanceOneDeletion(u, v, c);
    DistanceSymmetric(u + [c] + v, u + v);
    DistanceOneSubstitution(u, v, c, d);
  }

  /**
   * An edit script read alongside both texts from their ends: keep a
   * character both share, substitute one for another, delete one of the
   * first text, or insert one of the second.
   */
  datatype Op = Keep | Substitute(c: char) | Delete | Insert(c: char)

  /** What a script costs: every operation but `Keep` is one edit. */
  function Cost(ops: seq<Op>): nat
    decreases |ops|
  {
    if |ops| == 0 then 0
    else Cost(ops[..|ops| - 1]) + (if ops[|ops| - 1].Keep? then 0 else 1)
  }

  /** `ops` turns `a` into `b`: its last operation accounts for the last characters, the rest for what precedes them. */
  predicate Transforms(ops: seq<Op>, a: string, b: string)
    decreases |ops|
  {
    if |ops| == 0 then a == [] && b == []
    else
      var op, rest := ops[|ops| - 1], ops[..|ops| - 1];
      match op
      case Keep =>
        |a| > 0 && |b| > 0 && a[|a| - 1] == b[|b| - 1] && Transforms(rest, a[..|a| - 1], b[..|b| - 1])
      case Substitute(c) =>
        |a| > 0 && |b| > 0 && b[|b| - 1] == c && Transforms(rest, a[..|a| - 1], b[..|b| - 1])
      case Delete =>
        |a| > 0 && Transforms(rest, a[..|a| - 1], b)
      case Insert(c) =>
        |b| > 0 && b[|b| - 1] == c && Transforms(rest, a, b[..|b| - 1])
  }

  /** No script that turns `a` into `b` is cheaper than the distance. */
  lemma {:induction false} DistanceAtMostEveryScript(ops: seq<Op>, a: string, b: string)
    requires Transforms(ops, a, b)
    ensures Distance(a, b) <= Cost(ops)
    decreases |ops|
  {
    if |ops| > 0 {
      var rest := ops[..|ops| - 1];
      match ops[|ops| - 1]
      case Keep =>
        DistanceAtMostEveryScript(rest, a[..|a| - 1], b[..|b| - 1]);
      case Substitute(_) =>
        DistanceAtMostEveryScript(rest, a[..|a| - 1], b[..|b| - 1]);
      case Delete =>
        DistanceAtMostEveryScript(rest, a[..|a| - 1], b);
      case Insert(_) =>
        DistanceAtMostEveryScript(rest, a, b[..|b| - 1]);
    }
  }

  /** A cheapest script: it turns `a` into `b` at exactly the distance. */
  function CheapestScript(a: string, b: string): (ops: seq<Op>)
    ensures Transforms(ops, a, b) && Cost(ops) == Distance(a, b)
    decreases |a| + |b|
  {
    if |a| == 0 && |b| == 0 then []
    else if |a| == 0 then
      var ops := CheapestScript(a, b[..|b| - 1]) + [Insert(b[|b| - 1])];
      assert ops[..|ops| - 1] == CheapestScript(a, b[..|b| - 1]);
      ops
    else if |b| == 0 then
      var ops := CheapestScript(a[..|a| - 1], b) + [Delete];
      assert ops[..|ops| - 1] == CheapestScript(a[..|a| - 1], b);
      ops
    else
      var a', b' := a[..|a| - 1], b[..|b| - 1];
      var d := Distance(a, b);
      if d == Distance(a', b') + (if a[|a| - 1] == b[|b| - 1] then 0 else 1) then
        var op := if a[|a| - 1] == b[|b| - 1] then Keep else Substitute(b[|b| - 1]);
        var ops := CheapestScript(a', b') + [op];
        assert ops[..|ops| - 1] == CheapestScript(a', b');
        ops
      else if d == Distance(a', b) + 1 then
        var ops := CheapestScript(a', b) + [Delete];
        assert ops[..|ops| - 1] == CheapestScript(a', b);
        ops
      else
        var ops := CheapestScript(a, b') + [Insert(b[|b| - 1])];
        assert ops[..|ops| - 1] == CheapestScript(a, b');
        ops
  }

  /** The distance is the cost of the cheapest script: one exists at that cost, and none is cheaper. */
  lemma DistanceIsCheapestScript(a: string, b: string)
    ensures exists ops :: Transforms(ops, a, b) && Cost(ops) == Distance(a, b)
    ensures forall ops :: Transforms(ops, a, b) ==> Distance(a, b) <= Cost(ops)
  {
    var ops := CheapestScript(a, b);
    forall ops' | Transforms(ops', a, b)
      ensures Distance(a, b) <= Cost(ops')
    {
      DistanceAtMostEveryScript(ops', a, b);
    }
  }
}
