# Dynamic value decoders of the Gleam pretty-printer

The pretty-printer (MystPi/pprint) is given a value whose shape is unknown at run time. It asks one of three foreign
JavaScript decoders whether that value is a Gleam custom type instance, a tuple (a JavaScript array) or `Nil`
(`undefined`). Each decoder answers with a Gleam `Result`. The repository has two versions of these decoders:

- `src/ffi.mjs` is values-only. A custom type decodes to `TCustom(name, values)`. Every failure is
  `Error([DecodeError(expected, got, [])])`, where `got` comes from gleam_stdlib's `classify_dynamic`.
- `src/pprint_ffi.mjs` is label-aware. A custom type decodes to `TCustom(name, fields)`, with one field per own key.
  A key gives `Labelled(key, value)` when `parseInt(key)` is NaN and `Positional(value)` otherwise. Every failure is
  `Error(undefined)`. It also has `from`, the identity.

The model uses a closed datatype `Dynamic.DynamicValue` for runtime values. `Record` is a `CustomType` instance, with its
constructor name and its own properties in enumeration order. `ArrayValue` is an array. `Undefined`, `Null`, booleans,
numbers and strings have their own constructors, and `Object(kind)` stands for every other runtime value (other objects,
functions, symbols, bigints). Each decoder becomes one pure function that pattern-matches on this
datatype.

Modules:

- `Dynamic` (`dynamic.dfy`) holds the runtime values, `Result`, and `Object.keys`, `Object.values` and `record[key]`.
- `ParseInt` (`parse_int.dfy`) decides whether `parseInt(key)` is NaN. It follows section 19.2.5 of ECMA-262:
  drop leading StrWhiteSpaceChar characters, drop one sign, let a `0x`/`0X` prefix switch to radix 16, and report NaN
  when no digit of that radix comes next.
- `Ffi` (`ffi.dfy`) is `src/ffi.mjs`.
- `PprintFfi` (`pprint_ffi.dfy`) is `src/pprint_ffi.mjs`.
- `Variants` (`variants.dfy`) relates the two versions.

The two files are independent sets of decoders, not one classifier with a policy switch. The label-aware one fails with
`Error(undefined)` and carries no diagnostic. `Variants` proves that both accept the same values and that the labelled
fields unwrap to the values-only fields.

## Model

| member | source | states |
|---|---|---|
| `Dynamic.Keys` | src/pprint_ffi.mjs:7 | the key list has one entry per own property, in enumeration order |
| `Dynamic.Values` | src/ffi.mjs:21 | the value list has one entry per own property, in the same order |
| `Dynamic.Get` | src/pprint_ffi.mjs:9-10 | own-key lookup gives the value of the first own property with that key (with `GetAt`); a key with no own property gives `Undefined` |
| `Dynamic.GetAt` | src/pprint_ffi.mjs:9-10 | with distinct keys, looking up the i-th own key gives the i-th own value |
| `ParseInt.TrimStart` | src/pprint_ffi.mjs:8 | the result is no longer than the input, does not start with white space, and only white space was dropped |
| `ParseInt.TrimStartIsSuffix` | src/pprint_ffi.mjs:8 | trimming keeps a suffix of the key unchanged |
| `ParseInt.StripSign` | src/pprint_ffi.mjs:8 | the sign step of `parseInt`: at most one leading `+` or `-` is dropped; no contract of its own, its effect is stated by `SignIgnored` and `TwoSignsAreNaN` |
| `ParseInt.DigitRun` | src/pprint_ffi.mjs:8 | the result is the length of the longest prefix made of radix digits |
| `ParseInt.NoDigits` | src/pprint_ffi.mjs:8 | the radix and digit-run step: a `0x`/`0X` prefix selects radix 16, and the outcome is NaN when the digit run is empty; no contract of its own, its rule is in `NaNIffNoLeadingDigit` and `HexPrefixNeedsHexDigit` |
| `ParseInt.ParseIntIsNaN` | src/pprint_ffi.mjs:8 | `isNaN(parseInt(key))`; no contract of its own, its rule is in `NaNIffNoLeadingDigit` and the lemmas after it |
| `ParseInt.NaNIffNoLeadingDigit` | src/pprint_ffi.mjs:8 | `parseInt` is NaN iff, after white space and sign, a `0x` prefix is not followed by a hex digit or no decimal digit comes first |
| `ParseInt.TrimStartSkipsWhiteSpace` | src/pprint_ffi.mjs:8 | trimming a white-space prefix followed by `s` gives the same result as trimming `s` |
| `ParseInt.LeadingWhiteSpaceIgnored` | src/pprint_ffi.mjs:8 | leading white space never changes whether `parseInt` is NaN |
| `ParseInt.SignIgnored` | src/pprint_ffi.mjs:8 | one sign before a key that starts with neither white space nor a sign changes nothing |
| `ParseInt.TwoSignsAreNaN` | src/pprint_ffi.mjs:8 | two signs in a row always give NaN |
| `ParseInt.HexPrefixNeedsHexDigit` | src/pprint_ffi.mjs:8 | after `0x`/`0X` the result is NaN iff no hex digit follows, so `"0x"` and `"0xg"` give NaN |
| `ParseInt.IdentifierIsNaN` | src/pprint_ffi.mjs:8-9 | a key starting with a letter, `_` or `$` gives NaN |
| `ParseInt.DecimalDigitsAreNumeric` | src/pprint_ffi.mjs:8-10 | a non-empty all-decimal key gives a number |
| `ParseInt.DecimalString` | src/pprint_ffi.mjs:8-10 | the decimal rendering of an index is non-empty, made of decimal digits, has no leading zero, and its digits stand for the index |
| `ParseInt.DecimalStringIsNumeric` | src/pprint_ffi.mjs:8-10 | every index key "0", "1", ... gives a number |
| `Ffi.DecoderErrorNoClassify` | src/ffi.mjs:10-16 | the error is a one-element list holding `DecodeError(expected, got, [])` |
| `Ffi.DecoderError` | src/ffi.mjs:6-8 | the error's `got` is the classification of the rejected value and its path is empty |
| `Ffi.DecodeCustomType` | src/ffi.mjs:18-29 | `Ok` iff the value is a custom type; then the name is the constructor name and the fields are exactly the own values, same count, same order; otherwise the one-element `"CustomType"` error |
| `Ffi.DecodeTuple` | src/ffi.mjs:31-34 | `Ok` of the same elements in the same order iff the value is an array; otherwise the one-element `"Tuple"` error |
| `Ffi.DecodeNil` | src/ffi.mjs:36-39 | `Ok(undefined)` iff the value is `undefined`; otherwise the one-element `"Nil"` error |
| `Ffi.AtMostOneDecodes` | src/ffi.mjs:18-39 | no value is accepted by two of the three decoders |
| `Ffi.OthersRejected` | src/ffi.mjs:18-39 | all three decoders fail exactly on values that are neither custom types, arrays nor `undefined` |
| `PprintFfi.LabelField` | src/pprint_ffi.mjs:8-10 | the field holds `record[key]`; it is `Labelled` with that key iff `parseInt(key)` is NaN |
| `PprintFfi.LabelFields` | src/pprint_ffi.mjs:7-11 | one field per key, in key order |
| `PprintFfi.DecodeCustomType` | src/pprint_ffi.mjs:4-17 | `Ok` iff the value is a custom type; then the name is the constructor name, with one field per own key, in key order, labelled iff its key is NaN under `parseInt`; otherwise `Error(undefined)` |
| `PprintFfi.DecodeTuple` | src/pprint_ffi.mjs:19-22 | `Ok` of the array's elements in order iff the value is an array; otherwise `Error(undefined)` |
| `PprintFfi.DecodeNil` | src/pprint_ffi.mjs:24-27 | `Ok(undefined)` iff the value is `undefined`; otherwise `Error(undefined)` |
| `PprintFfi.From` | src/pprint_ffi.mjs:29-31 | `from` is the identity |
| `PprintFfi.ExpectedFields` | src/pprint_ffi.mjs:7-11 | one expected field per own property, in order |
| `PprintFfi.FieldAt` | src/pprint_ffi.mjs:7-11 | the i-th field of a decoded record is `Labelled(key_i, value_i)` when `parseInt(key_i)` is NaN, and `Positional(value_i)` otherwise |
| `PprintFfi.DecodedFields` | src/pprint_ffi.mjs:4-14 | a record decodes to its constructor name and its own properties, each wrapped by the labelling rule, in order |
| `PprintFfi.IndexKeysArePositional` | src/pprint_ffi.mjs:8-10 | a record keyed "0", "1", ... decodes to positional fields only, carrying its values in order |
| `PprintFfi.NamedKeysAreLabelled` | src/pprint_ffi.mjs:8-9 | a record whose keys start with a lower-case letter decodes to labelled fields only, each with its own key and value |
| `PprintFfi.MixedKeys` | src/pprint_ffi.mjs:8 | `parseInt` gives a number for "0" and "1" and NaN for "name" |
| `PprintFfi.MixedRecord` | src/pprint_ffi.mjs:4-14 | `{0: x, name: y, 1: z}`, whose index keys enumerate before the named key, decodes to `[Positional(x), Positional(z), Labelled("name", y)]` |
| `Variants.SameAcceptance` | src/pprint_ffi.mjs:4-27 | these decoders and those of `src/ffi.mjs` (lines 18-39) accept exactly the same values for each of the three shapes, and give the same payload for tuples and nil |
| `Variants.UnwrappedFieldsAgree` | src/pprint_ffi.mjs:7-11 | with distinct keys, unwrapping the label-aware fields gives the values-only fields of `src/ffi.mjs`, under the same name |

## Left out

- `classify_dynamic` of gleam_stdlib is not part of this model. The `Ffi` decoders take it as a parameter `classify`, and
  nothing is assumed about the labels it returns.
- Runtime reflection (`instanceof CustomType`, `constructor.name`, `Array.isArray`, `=== undefined`) is not modelled
  on JavaScript objects. It becomes the constructors of `DynamicValue`.
- JavaScript's own-property enumeration order (integer-like keys first, then insertion order) is not modelled. A record's
  `props` already lists its properties in enumeration order. That each key occurs once (`DistinctKeys`) is a property
  of JavaScript objects, so lemmas that look keys up take it as a hypothesis.
- `toList` and `List.fromArray` are taken to be the identity on sequences. Gleam lists are not modelled separately.
- The numeric result of `parseInt` is left out. Only whether it is NaN is modelled.
- JavaScript strings are UTF-16 code units, but a Dafny `char` is a Unicode scalar value. So keys holding a lone
  surrogate cannot be represented. The NaN test does not depend on this, because every white-space and digit character
  is a single BMP code unit. The white-space set is the complete StrWhiteSpaceChar set of ECMA-262. Its Zs part is fixed
  to the current Unicode list of space separators.
- Dynamic.Get: the prototype chain is not modelled. A key with no own property gives `Undefined`, whereas JavaScript
  would find inherited members such as `constructor` or `withFields`. The decoders never look such keys up: they only
  read keys taken from `Object.keys`.
- `Field.key` is named `label` in the source. Dafny reserves the word `label`.
- Numbers are modelled as `Int` and `Float` values without arithmetic, since no decoder inspects them.
- The import wiring, the renderer in `pprint/decoder` and the other Gleam modules are not part of this model. The same
  goes for colouring and layout.
