/**
 * The values-only decoders of `src/ffi.mjs`. A custom type decodes to its
 * constructor name and its raw field values; every failure is a one-element
 * list holding a `DecodeError` with an empty path.
 *
 * `classify` stands for gleam_stdlib's `classify_dynamic`, which labels what
 * a value is ("Int", "String", ...). Its code is not part of this model, so
 * it is a parameter and nothing is assumed about the labels it gives.
 */
module Ffi {
  import opened Dynamic

  /** gleam/dynamic's `DecodeError(expected, found, path)`. */
  datatype DecodeError = DecodeError(expected: string, got: string, path: seq<string>)

  type DecodeErrors = seq<DecodeError>

  /** The decoder's `TCustom` as this variant builds it: the fields are bare values. */
  datatype CustomShape = TCustom(name: string, fields: seq<DynamicValue>)

  /** An error that carries one `DecodeError` with an empty path. */
  function DecoderErrorNoClassify<T>(expected: string, got: string): (r: Result<T, DecodeErrors>)
    ensures r.Error? && |r.error| == 1
    ensures r.error[0].expected == expected && r.error[0].got == got && r.error[0].path == []
  {
    Error([DecodeError(expected, got, [])])
  }

  /** An error whose `got` label is what `classify` says of the rejected value. */
  function DecoderError<T>(expected: string, got: DynamicValue, classify: DynamicValue -> string)
    : (r: Result<T, DecodeErrors>)
    ensures r == Error([DecodeError(expected, classify(got), [])])
  {
    DecoderErrorNoClassify(expected, classify(got))
  }

  /** A custom type instance gives its constructor name and its own values in enumeration order. */
  function DecodeCustomType(value: DynamicValue, classify: DynamicValue -> string)
    : (r: Result<CustomShape, DecodeErrors>)
    ensures r.Ok? <==> value.Record?
    ensures value.Record? ==>
      r.value.name == value.name && |r.value.fields| == |value.props|
      && forall i :: 0 <= i < |value.props| ==> r.value.fields[i] == value.props[i].value
    ensures !value.Record? ==> r == Error([DecodeError("CustomType", classify(value), [])])
  {
    if value.Record? then Ok(TCustom(value.name, Values(value.props)))
    else DecoderError("CustomType", value, classify)
  }

  /** An array gives its elements, in order. */
  function DecodeTuple(value: DynamicValue, classify: DynamicValue -> string)
    : (r: Result<seq<DynamicValue>, DecodeErrors>)
    ensures r.Ok? <==> value.ArrayValue?
    ensures value.ArrayValue? ==> r.value == value.elements
    ensures !value.ArrayValue? ==> r == Error([DecodeError("Tuple", classify(value), [])])
  {
    if value.ArrayValue? then Ok(value.elements)
    else DecoderError("Tuple", value, classify)
  }

  /** `undefined` gives `Ok` of `undefined` (`new Ok()` has no payload). */
  function DecodeNil(value: DynamicValue, classify: DynamicValue -> string)
    : (r: Result<DynamicValue, DecodeErrors>)
    ensures r.Ok? <==> value == Undefined
    ensures r.Ok? ==> r.value == Undefined
    ensures !r.Ok? ==> r == Error([DecodeError("Nil", classify(value), [])])
  {
    if value == Undefined then Ok(Undefined)
    else DecoderError("Nil", value, classify)
  }

  /** The three shapes are disjoint: no value is accepted by two decoders. */
  lemma AtMostOneDecodes(value: DynamicValue, classify: DynamicValue -> string)
    ensures !(DecodeCustomType(value, classify).Ok? && DecodeTuple(value, classify).Ok?)
    ensures !(DecodeCustomType(value, classify).Ok? && DecodeNil(value, classify).Ok?)
    ensures !(DecodeTuple(value, classify).Ok? && DecodeNil(value, classify).Ok?)
  {
  }

  /** Every other value (null, scalars, other objects) is rejected by all three. */
  lemma OthersRejected(value: DynamicValue, classify: DynamicValue -> string)
    ensures (DecodeCustomType(value, classify).Error? && DecodeTuple(value, classify).Error?
             && DecodeNil(value, classify).Error?)
      <==> !(value.Record? || value.ArrayValue? || value.Undefined?)
  {
  }
}
