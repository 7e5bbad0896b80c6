/**
 * JSON values as Python's `json.loads` hands them over, and the few Python
 * operations the fuzzer applies to them: `dict.get`, iteration over a dict's
 * keys, `len`, truthiness and the `in` operator with a string on the left.
 *
 * An object is kept as the ordered list of its key/value pairs. Python's
 * dict built from it keeps the first position of a repeated key and the
 * value of its last occurrence; `Get` and `Keys` below reproduce both.
 */
module Json {
  import opened Wrappers
  import opened Text

  datatype Value =
    | Null
    | Bool(b: bool)
    | Int(i: int)
    | Float(f: real)   // a finite JSON number written with a fraction or exponent
    | Str(s: string)
    | Array(items: seq<Value>)
    | Object(fields: seq<(string, Value)>)

  /** The result of `json.loads` on a text: a value, or the message of its `JSONDecodeError`. */
  datatype Parsed = Parsed(value: Value) | DecodeError(message: string)

  predicate HasKey(fields: seq<(string, Value)>, k: string) {
    exists i :: 0 <= i < |fields| && fields[i].0 == k
  }

  /** `d.get(k)`: the value of the last pair with key `k`, as `json.loads` keeps it. */
  function Get(fields: seq<(string, Value)>, k: string): (r: Option<Value>)
    ensures r.Some? <==> HasKey(fields, k)
    ensures r.Some? ==> exists i :: 0 <= i < |fields| && fields[i] == (k, r.value)
                                  && forall j :: i < j < |fields| ==> fields[j].0 != k
    decreases |fields|
  {
    if |fields| == 0 then None
    else if fields[|fields| - 1].0 == k then Some(fields[|fields| - 1].1)
    else
      var init := fields[..|fields| - 1];
      assert forall j :: 0 <= j < |init| ==> init[j] == fields[j];
      Get(init, k)
  }

  /** The dict `json.loads` builds from an object: each key once, holding the value of its last pair; `None` for any other value. */
  function AsDict(v: Value): Option<map<string, Value>> {
    if v.Object? then Some(map k | k in Keys(v.fields) :: Get(v.fields, k).value) else None
  }

  /** The keys of the dict, each once, in the order of their first occurrence. */
  function Keys(fields: seq<(string, Value)>): (ks: seq<string>)
    ensures forall k :: k in ks <==> HasKey(fields, k)
    ensures forall i, j :: 0 <= i < j < |ks| ==> ks[i] != ks[j]
    ensures |ks| <= |fields|
    decreases |fields|
  {
    if |fields| == 0 then []
    else
      var ks := Keys(fields[..|fields| - 1]);
      var k := fields[|fields| - 1].0;
      assert forall k' :: HasKey(fields[..|fields| - 1], k') ==> HasKey(fields, k') by {
        forall k' | HasKey(fields[..|fields| - 1], k') ensures HasKey(fields, k') {
          var i :| 0 <= i < |fields| - 1 && fields[..|fields| - 1][i].0 == k';
          assert fields[i].0 == k';
        }
      }
      if k in ks then ks else ks + [k]
  }

  /** The position of the first pair with key `k`. */
  function FirstIndex(fields: seq<(string, Value)>, k: string): (i: nat)
    requires HasKey(fields, k)
    ensures i < |fields| && fields[i].0 == k
    ensures forall j :: 0 <= j < i ==> fields[j].0 != k
    decreases |fields|
  {
    if fields[0].0 == k then 0
    else
      assert HasKey(fields[1..], k) by {
        var i :| 0 <= i < |fields| && fields[i].0 == k;
        assert fields[1..][i - 1].0 == k;
      }
      1 + FirstIndex(fields[1..], k)
  }

  /** The dict's keys come in the order of their first pairs, as iteration over it visits them. */
  lemma {:induction false} KeysInFirstOccurrenceOrder(fields: seq<(string, Value)>)
    ensures forall a, b :: 0 <= a < b < |Keys(fields)| ==>
      FirstIndex(fields, Keys(fields)[a]) < FirstIndex(fields, Keys(fields)[b])
    decreases |fields|
  {
    if |fields| > 0 {
      var init := fields[..|fields| - 1];
      var ks := Keys(init);
      KeysInFirstOccurrenceOrder(init);
      forall k | HasKey(init, k)
        ensures HasKey(fields, k) && FirstIndex(fields, k) == FirstIndex(init, k)
      {
        FirstIndexOfPrefix(fields, init, k);
      }
      var k := fields[|fields| - 1].0;
      if k !in ks {
        assert !HasKey(init, k);
        assert FirstIndex(fields, k) == |fields| - 1;
      }
    }
  }

  /** A key of a prefix has its first pair at the same position in the whole list. */
  lemma FirstIndexOfPrefix(fields: seq<(string, Value)>, init: seq<(string, Value)>, k: string)
    requires |init| <= |fields| && init == fields[..|init|] && HasKey(init, k)
    ensures HasKey(fields, k) && FirstIndex(fields, k) == FirstIndex(init, k)
  {
    var i := FirstIndex(init, k);
    assert fields[i] == init[i];
  }

  /** Membership in the dict is `HasKey`, and lookup is `Get`. */
  lemma AsDictAgrees(v: Value, k: string)
    ensures AsDict(v).Some? <==> v.Object?
    ensures v.Object? ==> (k in AsDict(v).value <==> HasKey(v.fields, k))
    ensures v.Object? && HasKey(v.fields, k) ==> AsDict(v).value[k] == Get(v.fields, k).value
  {
  }

  /** Python's truthiness (`bool(v)`). */
  predicate Truthy(v: Value) {
    match v
    case Null => false
    case Bool(b) => b
    case Int(i) => i != 0
    case Float(f) => f != 0.0
    case Str(s) => s != ""
    case Array(items) => |items| > 0
    case Object(fields) => |fields| > 0
  }

  /** Python's `len(v)`; `None` where Python raises `TypeError`. */
  function Len(v: Value): (r: Option<nat>)
    ensures r.Some? <==> v.Str? || v.Array? || v.Object?
    ensures r.Some? ==> (r.value == 0 <==> !Truthy(v))
  {
    match v
    case Str(s) => Some(|s|)
    case Array(items) => Some(|items|)
    case Object(fields) =>
      assert |fields| > 0 ==> HasKey(fields, fields[0].0);
      Some(|Keys(fields)|)
    case _ => None
  }

  /**
   * Python's `item in container` for a string `item`: key membership in a
   * dict, element equality in a list, substring in a string; `None` where
   * Python raises `TypeError` (a number, a boolean or null on the right).
   */
  function In(item: string, container: Value): (r: Option<bool>)
    ensures r.Some? <==> container.Object? || container.Array? || container.Str?
    ensures container.Object? ==> r == Some(HasKey(container.fields, item))
    ensures container.Array? ==> r == Some(Str(item) in container.items)
  {
    match container
    case Object(fields) => Some(HasKey(fields, item))
    case Array(items) => Some(Str(item) in items)
    case Str(s) => Some(Contains(s, item))
    case _ => None
  }
}
