/** `pickBigInt`: read an integer amount from an event record whose field name
    varies between producers, trying a priority list of alias keys. */
module FieldPick {
  import opened Wrappers
  import opened JsValue

  /** What the `try` block makes of a present value: a BigInt as is, a finite
      number floored, a string through `BigInt(string)` (the partial `parse`);
      anything else, and the RangeError of `BigInt(Math.floor(NaN))` or of an
      infinity, yields nothing and the key is skipped. */
  function ToBigInt(v: Value, parse: string -> Option<int>): (r: Option<int>)
    ensures v.BigInt? ==> r == Some(v.i)
    ensures v.Num? && v.n.Finite? ==>
              r.Some? && r.value as real <= v.n.x < r.value as real + 1.0
    ensures v.Num? && !v.n.Finite? ==> r.None?
    ensures v.Str? ==> r == parse(v.s)
    ensures r.Some? ==> v.BigInt? || v.Num? || v.Str?
  {
    match v
    case BigInt(i) => Some(i)
    case Num(n) => if n.Finite? then Some(n.x.Floor) else None
    case Str(s) => parse(s)
    case _ => None
  }

  /** The contribution of key `k`: None when the key is skipped (absent,
      null, or not convertible). */
  function Candidate(obj: Value, k: string, parse: string -> Option<int>): (r: Option<int>)
    ensures !obj.Obj? || k !in obj.fields || IsNullish(obj.fields[k]) ==> r.None?
    ensures obj.Obj? && k in obj.fields && !IsNullish(obj.fields[k]) ==> r == ToBigInt(obj.fields[k], parse)
    ensures r.Some? ==> obj.Obj? && k in obj.fields && ToBigInt(obj.fields[k], parse) == r
  {
    if !Truthy(obj) || IsNullish(Get(obj, k)) then None
    else ToBigInt(Get(obj, k), parse)
  }

  /** Specification of `pickBigInt`: the first key that yields a value, else 0. */
  function Pick(obj: Value, keys: seq<string>, parse: string -> Option<int>): (r: int)
    ensures r == 0 || exists i :: 0 <= i < |keys| && Candidate(obj, keys[i], parse) == Some(r)
    decreases |keys|
  {
    if |keys| == 0 then 0
    else match Candidate(obj, keys[0], parse)
      case Some(i) => i
      case None => Pick(obj, keys[1..], parse)
  }

  /** The first key that yields a value decides the result. */
  lemma {:induction false} PickFirstMatch(obj: Value, keys: seq<string>, parse: string -> Option<int>, i: nat)
    requires i < |keys| && Candidate(obj, keys[i], parse).Some?
    requires forall j :: 0 <= j < i ==> Candidate(obj, keys[j], parse).None?
    ensures Pick(obj, keys, parse) == Candidate(obj, keys[i], parse).value
  {
    if i > 0 {
      assert Candidate(obj, keys[0], parse).None?;
      assert keys[1..][i - 1] == keys[i];
      PickFirstMatch(obj, keys[1..], parse, i - 1);
    }
  }

  /** When no key yields a value the result is 0. */
  lemma {:induction false} PickDefault(obj: Value, keys: seq<string>, parse: string -> Option<int>)
    requires forall j :: 0 <= j < |keys| ==> Candidate(obj, keys[j], parse).None?
    ensures Pick(obj, keys, parse) == 0
  {
    if |keys| > 0 {
      assert Candidate(obj, keys[0], parse).None?;
      PickDefault(obj, keys[1..], parse);
    }
  }

  /** Lines 93-104: scan the keys in order, skip nullish values, return the
      first successful conversion; return 0 when none succeeds. */
  method PickBigInt(obj: Value, keys: seq<string>, parse: string -> Option<int>) returns (r: int)
    ensures r == Pick(obj, keys, parse)
  {
    for n := 0 to |keys|
      invariant Pick(obj, keys, parse) == Pick(obj, keys[n..], parse)
    {
      assert keys[n..][1..] == keys[n + 1..];
      var k := keys[n];
      if !Truthy(obj) || IsNullish(Get(obj, k)) {
        continue;
      }
      var v := Get(obj, k);
      match v {
        case BigInt(i) =>
          return i;
        case Num(x) =>
          if x.Finite? {
            return x.x.Floor;
          }
        case Str(s) =>
          var parsed := parse(s);
          if parsed.Some? {
            return parsed.value;
          }
        case _ =>
      }
    }
    return 0;
  }
}
