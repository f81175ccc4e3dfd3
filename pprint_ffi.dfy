/**
 * The label-aware decoders of `src/pprint_ffi.mjs`. A custom type decodes to
 * its constructor name and one `Field` per own key: `Labelled(key, value)`
 * when `parseInt(key)` is NaN, `Positional(value)` otherwise. Failures carry
 * no diagnostic: they are `Error(undefined)`.
 */
module PprintFfi {
  import opened Dynamic
  import opened ParseInt

  /** The decoder's `Field`: a named field or a positional one. */
  datatype Field = Labelled(key: string, value: DynamicValue) | Positional(value: DynamicValue)

  /** The decoder's `TCustom` as this variant builds it. */
  datatype CustomShape = TCustom(name: string, fields: seq<Field>)

  /** The field for one own key: `isNaN(parseInt(key))` chooses the wrapper, `record[key]` the value. */
  function LabelField(props: seq<Property>, key: string): (f: Field)
    ensures f.value == Get(props, key)
    ensures f.Labelled? <==> ParseIntIsNaN(key)
    ensures f.Labelled? ==> f.key == key
  {
    if ParseIntIsNaN(key) then Labelled(key, Get(props, key)) else Positional(Get(props, key))
  }

  /** `Object.keys(record).map(label => ...)`: one field per key, in the same order. */
  function LabelFields(props: seq<Property>, labels: seq<string>): (fs: seq<Field>)
    ensures |fs| == |labels|
    ensures forall i :: 0 <= i < |labels| ==> fs[i] == LabelField(props, labels[i])
  {
    if labels == [] then [] else [LabelField(props, labels[0])] + LabelFields(props, labels[1..])
  }

  /** A custom type instance gives its constructor name and one field per own key, in key order. */
  function DecodeCustomType(value: DynamicValue): (r: Result<CustomShape, DynamicValue>)
    ensures r.Ok? <==> value.Record?
    ensures value.Record? ==>
      r.value.name == value.name && |r.value.fields| == |value.props|
      && forall i :: 0 <= i < |value.props| ==>
        var f, key := r.value.fields[i], value.props[i].key;
        f.value == Get(value.props, key)
        && (f.Labelled? <==> ParseIntIsNaN(key))
        && (f.Labelled? ==> f.key == key)
    ensures !value.Record? ==> r == Error(Undefined)
  {
    if value.Record? then Ok(TCustom(value.name, LabelFields(value.props, Keys(value.props))))
    else Error(Undefined)
  }

  /** An array gives its elements, in order. */
  function DecodeTuple(value: DynamicValue): (r: Result<seq<DynamicValue>, DynamicValue>)
    ensures r.Ok? <==> value.ArrayValue?
    ensures value.ArrayValue? ==> r.value == value.elements
    ensures !value.ArrayValue? ==> r == Error(Undefined)
  {
    if value.ArrayValue? then Ok(value.elements) else Error(Undefined)
  }

  /** `undefined` gives `Ok(undefined)`. */
  function DecodeNil(value: DynamicValue): (r: Result<DynamicValue, DynamicValue>)
    ensures r.Ok? <==> value == Undefined
    ensures r.Ok? ==> r.value == Undefined
    ensures !r.Ok? ==> r == Error(Undefined)
  {
    if value == Undefined then Ok(Undefined) else Error(Undefined)
  }

  /** Any value is a dynamic value: `from` hands its argument back. */
  function From(value: DynamicValue): (r: DynamicValue)
    ensures r == value
  {
    value
  }

  /** The field an own property should give: its key decides the wrapper, its value is kept. */
  function ExpectedField(p: Property): Field
  {
    if ParseIntIsNaN(p.key) then Labelled(p.key, p.value) else Positional(p.value)
  }

  /** `ExpectedField` of every property, in order. */
  function ExpectedFields(props: seq<Property>): (fs: seq<Field>)
    ensures |fs| == |props|
    ensures forall i :: 0 <= i < |props| ==> fs[i] == ExpectedField(props[i])
  {
    if props == [] then [] else [ExpectedField(props[0])] + ExpectedFields(props[1..])
  }

  /**
   * The i-th field of a decoded record carries the i-th own key and the value
   * enumerated with it: a NaN key gives `Labelled`, a numeric one `Positional`.
   */
  lemma FieldAt(value: DynamicValue, i: nat)
    requires value.Record? && DistinctKeys(value.props)
    requires i < |value.props|
    ensures DecodeCustomType(value).Ok?
    ensures DecodeCustomType(value).value.fields[i] == ExpectedField(value.props[i])
  {
    GetAt(value.props, i);
  }

  /** A decoded record's fields are its own properties, each wrapped by `ExpectedField`, in order. */
  lemma DecodedFields(value: DynamicValue)
    requires value.Record? && DistinctKeys(value.props)
    ensures DecodeCustomType(value) == Ok(TCustom(value.name, ExpectedFields(value.props)))
  {
    var fields := DecodeCustomType(value).value.fields;
    forall i | 0 <= i < |value.props|
      ensures fields[i] == ExpectedFields(value.props)[i]
    {
      FieldAt(value, i);
    }
    assert fields == ExpectedFields(value.props);
  }

  /** A record whose keys are "0", "1", ... (a Gleam constructor without labels) has only positional fields. */
  lemma IndexKeysArePositional(value: DynamicValue)
    requires value.Record? && DistinctKeys(value.props)
    requires forall i :: 0 <= i < |value.props| ==> value.props[i].key == DecimalString(i)
    ensures forall i :: 0 <= i < |value.props| ==>
      DecodeCustomType(value).value.fields[i] == Positional(value.props[i].value)
  {
    forall i | 0 <= i < |value.props|
      ensures DecodeCustomType(value).value.fields[i] == Positional(value.props[i].value)
    {
      FieldAt(value, i);
      DecimalStringIsNumeric(i);
    }
  }

  /** A record whose keys start with a lower-case letter (Gleam labels) has only labelled fields. */
  lemma NamedKeysAreLabelled(value: DynamicValue)
    requires value.Record? && DistinctKeys(value.props)
    requires forall i :: 0 <= i < |value.props| ==>
      value.props[i].key != [] && 'a' <= value.props[i].key[0] <= 'z'
    ensures forall i :: 0 <= i < |value.props| ==>
      DecodeCustomType(value).value.fields[i] == Labelled(value.props[i].key, value.props[i].value)
  {
    forall i | 0 <= i < |value.props|
      ensures DecodeCustomType(value).value.fields[i] == Labelled(value.props[i].key, value.props[i].value)
    {
      FieldAt(value, i);
      IdentifierIsNaN(value.props[i].key);
    }
  }

  /** The three keys of `MixedRecord`: only `name` makes `parseInt` give NaN. */
  lemma MixedKeys()
    ensures !ParseIntIsNaN("0") && !ParseIntIsNaN("1") && ParseIntIsNaN("name")
  {
    DecimalDigitsAreNumeric("0");
    DecimalDigitsAreNumeric("1");
    IdentifierIsNaN("name");
  }

  /**
   * The record `{0: x, name: y, 1: z}`: `Object.keys` enumerates the index keys
   * first, in ascending order, then `name`, so only the last field is labelled.
   */
  lemma MixedRecord(x: DynamicValue, y: DynamicValue, z: DynamicValue)
    ensures DecodeCustomType(Record("Mixed", [Property("0", x), Property("1", z), Property("name", y)]))
      == Ok(TCustom("Mixed", [Positional(x), Positional(z), Labelled("name", y)]))
  {
    var props := [Property("0", x), Property("1", z), Property("name", y)];
    assert DistinctKeys(props) by {
      assert "0"[0] != "1"[0] && "0"[0] != "name"[0] && "1"[0] != "name"[0];
    }
    DecodedFields(Record("Mixed", props));
    MixedKeys();
    var fields := ExpectedFields(props);
    assert |fields| == 3;
    assert fields == [fields[0], fields[1], fields[2]];
    assert fields[0] == Positional(x) && fields[1] == Positional(z) && fields[2] == Labelled("name", y);
  }
}
