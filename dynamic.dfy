/**
 * The JavaScript runtime values that the pretty-printer's decoders inspect,
 * as a closed datatype. Each decoder asks one question about a value
 * ("is it a Gleam custom type instance?", "is it an array?", "is it
 * undefined?"); here each answer is a constructor test.
 */
module Dynamic {

  /** Gleam's `Result`, as the compiled JavaScript builds it with `new Ok(..)` and `new Error(..)`. */
  datatype Result<+T, +E> = Ok(value: T) | Error(error: E)

  /** One own enumerable property of an object: its key and the value stored under it. */
  datatype Property = Property(key: string, value: DynamicValue)

  /**
   * A runtime value.
   * - `Record`: an instance of Gleam's `CustomType` class; `name` is its
   *   constructor's name and `props` its own properties in enumeration order.
   * - `ArrayValue`: a JavaScript array (a Gleam tuple is compiled to one).
   * - `Undefined`: JavaScript's `undefined` (Gleam's `Nil`).
   * - everything else the decoders reject: `null`, booleans, numbers and
   *   strings, and `Object` for every other runtime value (other objects,
   *   functions, symbols, bigints), with a description of its kind.
   */
  datatype DynamicValue =
    | Record(name: string, props: seq<Property>)
    | ArrayValue(elements: seq<DynamicValue>)
    | Undefined
    | Null
    | Bool(b: bool)
    | Int(i: int)
    | Float(x: real)
    | Str(s: string)
    | Object(kind: string)

  /** `Object.keys(record)`: the own keys, in enumeration order. */
  function Keys(props: seq<Property>): (keys: seq<string>)
    ensures |keys| == |props|
    ensures forall i :: 0 <= i < |props| ==> keys[i] == props[i].key
  {
    if props == [] then [] else [props[0].key] + Keys(props[1..])
  }

  /** `Object.values(record)`: the own values, in the same order as `Keys`. */
  function Values(props: seq<Property>): (values: seq<DynamicValue>)
    ensures |values| == |props|
    ensures forall i :: 0 <= i < |props| ==> values[i] == props[i].value
  {
    if props == [] then [] else [props[0].value] + Values(props[1..])
  }

  /** A JavaScript object never has two own properties with the same key. */
  predicate DistinctKeys(props: seq<Property>)
  {
    forall i, j :: 0 <= i < j < |props| ==> props[i].key != props[j].key
  }

  /**
   * `record[key]` for a key taken from the record's own keys: the value of the
   * first own property with that key. The prototype chain is not modelled, so a
   * key with no own property gives `undefined` here.
   */
  function Get(props: seq<Property>, key: string): (v: DynamicValue)
    ensures (forall i :: 0 <= i < |props| ==> props[i].key != key) ==> v == Undefined
  {
    if props == [] then Undefined
    else if props[0].key == key then props[0].value
    else Get(props[1..], key)
  }

  /** Looking a record up by one of its own keys gives the value enumerated with that key. */
  lemma {:induction false} GetAt(props: seq<Property>, i: nat)
    requires DistinctKeys(props)
    requires i < |props|
    ensures Get(props, props[i].key) == props[i].value
  {
    if i > 0 {
      assert props[0].key != props[i].key;
      assert DistinctKeys(props[1..]) by {
        forall a, b | 0 <= a < b < |props| - 1
          ensures props[1..][a].key != props[1..][b].key
        {
          assert props[1..][a] == props[a + 1] && props[1..][b] == props[b + 1];
        }
      }
      GetAt(props[1..], i - 1);
      assert props[1..][i - 1] == props[i];
    }
  }
}
