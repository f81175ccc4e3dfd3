/**
 * How the two decoder files relate: they accept exactly the same values,
 * they return the same payload for tuples and nil, and for a custom type the
 * label-aware fields, once unwrapped, are the values-only fields. Only the
 * error payloads differ.
 */
module Variants {
  import opened Dynamic
  import Ffi
  import PprintFfi

  /** The value inside a field, whichever wrapper it has. */
  function Unwrap(fields: seq<PprintFfi.Field>): (values: seq<DynamicValue>)
    ensures |values| == |fields|
    ensures forall i :: 0 <= i < |fields| ==> values[i] == fields[i].value
  {
    seq(|fields|, i requires 0 <= i < |fields| => fields[i].value)
  }

  /** Both files accept the same values and agree on what a tuple and nil decode to. */
  lemma SameAcceptance(value: DynamicValue, classify: DynamicValue -> string)
    ensures PprintFfi.DecodeCustomType(value).Ok? == Ffi.DecodeCustomType(value, classify).Ok?
    ensures PprintFfi.DecodeTuple(value).Ok? == Ffi.DecodeTuple(value, classify).Ok?
    ensures PprintFfi.DecodeNil(value).Ok? == Ffi.DecodeNil(value, classify).Ok?
    ensures PprintFfi.DecodeTuple(value).Ok? ==>
      PprintFfi.DecodeTuple(value).value == Ffi.DecodeTuple(value, classify).value
    ensures PprintFfi.DecodeNil(value).Ok? ==>
      PprintFfi.DecodeNil(value).value == Ffi.DecodeNil(value, classify).value
  {
  }

  /**
   * `Object.keys` followed by `record[key]` meets `Object.values`: the
   * label-aware fields carry the same values, in the same order, and under
   * the same constructor name as the values-only ones.
   */
  lemma UnwrappedFieldsAgree(value: DynamicValue, classify: DynamicValue -> string)
    requires value.Record? && DistinctKeys(value.props)
    ensures PprintFfi.DecodeCustomType(value).Ok? && Ffi.DecodeCustomType(value, classify).Ok?
    ensures PprintFfi.DecodeCustomType(value).value.name == Ffi.DecodeCustomType(value, classify).value.name
    ensures Unwrap(PprintFfi.DecodeCustomType(value).value.fields)
      == Ffi.DecodeCustomType(value, classify).value.fields
  {
    var labelled := PprintFfi.DecodeCustomType(value).value.fields;
    var plain := Ffi.DecodeCustomType(value, classify).value.fields;
    forall i | 0 <= i < |value.props|
      ensures Unwrap(labelled)[i] == plain[i]
    {
      PprintFfi.FieldAt(value, i);
    }
  }
}
