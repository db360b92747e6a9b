# Fastsearch schema types and derive validation, in Dafny

This project models the core of the Fastsearch Rust client that turns a document
struct into a collection schema:

- **The type mapper** (`field_type.dfy`, module `FieldTypes`). The
  `ToFastsearchField` trait gives every supported Rust type a schema type tag,
  a string such as `"int32"` or `"object[]"`. The implementations generated by
  `impl_to_fastsearch_field!` form a closed table. It covers the scalars (`String`,
  the integer widths, both float widths, `bool`), string-keyed `HashMap` and
  `BTreeMap` with any value type, and one level of `Vec` over each of these.
  `ToFastsearchType` is that table, entry by entry, over the datatype
  `NativeType`. `Supported` is its domain. The lemmas prove the structure the
  table follows:
  - every tag is one of `string`, `int32`, `int64`, `float`, `bool` or `object`,
    with a `[]` suffix exactly for a `Vec`;
  - the `Vec` entry of each element type is that type's entry plus `[]`;
  - the tags group the types into kinds;
  - a map's value type is erased;
  - `Vec<Vec<_>>` has no entry.
- **The attribute validator of `#[derive(Fastsearch)]`** (`derive.dfy`, module
  `Derive`). The macro reads the struct-level keys `collection_name` and
  `default_sorting_field` and the field-level key `facet`. It then either
  yields a schema or fails the build. `BuildSchema` models it as a pure
  function that returns a `Result`. It succeeds exactly when the declaration
  satisfies `StructValid`. The schema then keeps the fields in declaration
  order, each with its tag and its facet flag. Every error names a real fault.
  The macro's own source is not part of this model. Only the rules that the
  derive's compile-fail tests and its documented example exercise are modelled.
- **The scenarios** (`derive_scenarios.dfy`, module `DeriveScenarios`): the
  documented `Company` example and each compile-fail test, with the exact
  outcome.

The model checks the literal on `default_sorting_field` first, then each field's
attribute keys in declaration order, left to right, then whether the sort field
exists. Only after that does it look up each field type. A derive macro sees only tokens. Whether a field type implements
`ToFastsearchField` (fastsearch/src/field/field_type.rs:8-11) is decided only
when the code the derive generates is compiled. So an unsupported type is
reported only when the derive itself accepted the declaration. The compile-fail
tests each contain a single fault, so they do not fix the order among the
derive's own checks. The lemmas that name an exact error state the conditions
under which it holds. `DuplicateKeyRejected` and `UnknownKeyRejected` state
rejection for every declaration.

`u32` maps to `int64`, as the code has it, not to `int32`.

## Model

| member | source | states |
|---|---|---|
| `FieldTypes.TagShape` | fastsearch/src/field/field_type.rs:34-66 | every tag is one of the six element tags, followed by `[]` exactly when the type is a `Vec` |
| `FieldTypes.VecAppendsSuffix` | fastsearch/src/field/field_type.rs:34-66 | for every element type `E`, the entry of `Vec<E>` is the entry of `E` followed by `[]` |
| `FieldTypes.Supported` | fastsearch/src/field/field_type.rs:34-66 | a type has an entry exactly when it is a scalar or a string-keyed map, or a `Vec` of one |
| `FieldTypes.ToFastsearchType` | fastsearch/src/field/field_type.rs:34-66 | the tag of each supported type, entry by entry: each entry is the name of its element type's kind. The kinds are: narrow integers `int32`; `u32`, 64-bit and architecture-width integers `int64`; floats `float`; text `string`; `bool`; maps `object`. A `Vec` adds the array modifier |
| `FieldTypes.SameTagIffSameKind` | fastsearch/src/field/field_type.rs:34-66 | two supported types get the same tag if and only if both or neither is a `Vec` and their element types have the same kind |
| `FieldTypes.StringAndBoolTags` | fastsearch/src/field/field_type.rs:34-47 | `String` maps to `string` and `bool` to `bool` |
| `FieldTypes.IntegerTags` | fastsearch/src/field/field_type.rs:35-44 | `i8`, `u8`, `i16`, `u16` and `i32` map to `int32`; `u32`, `i64`, `u64`, `isize` and `usize` map to `int64` |
| `FieldTypes.FloatTags` | fastsearch/src/field/field_type.rs:45-46 | `f32` and `f64` both map to `float` |
| `FieldTypes.MapValueErased` | fastsearch/src/field/field_type.rs:48-66 | `HashMap<String, T>` and `BTreeMap<String, T>` map to `object`, and a `Vec` of either to `object[]`, for every value type `T` |
| `FieldTypes.NestedVecUnsupported` | fastsearch/src/field/field_type.rs:51-66 | `Vec<Vec<_>>` is outside the table's domain |
| `Derive.KeysValidIffAtMostOneFacet` | fastsearch/tests/derive/ui/duplicated_attribute.rs:7-8 | a field's attribute keys are acceptable exactly when there are none or a single `facet` |
| `Derive.CheckKeys` | fastsearch/tests/derive/ui/unknown_attribute.rs:8 | the key scan succeeds exactly when every key is `facet` and none repeats. An error names a key that is not `facet` or a key written twice |
| `Derive.CheckFieldKeys` | fastsearch/src/lib.rs:24-25 | a field's attributes are accepted exactly when its keys are acceptable. Otherwise the error is an unknown or repeated key of that field, never a type error |
| `Derive.CheckAllKeys` | fastsearch/src/lib.rs:21-26 | every field's attributes are accepted exactly when each field's are. Otherwise the error is that of a field whose attributes are rejected, and every field before it has acceptable attributes |
| `Derive.MapFieldTypes` | fastsearch/src/field/field_type.rs:8-11 | there is one entry per field, in declaration order, each with its type's tag and its facet flag, exactly when every field type has a tag. Otherwise the error names the first field whose type has none |
| `Derive.BuildSchema` | fastsearch/src/lib.rs:19-26 | a schema is built exactly when the declaration is valid. It then carries the collection name, the literal sort field and one entry per field, in order. Otherwise the error is a true fault of the declaration. An unsupported type is reported only when every check the derive makes has passed |
| `Derive.FirstAttributeFaultReported` | fastsearch/tests/derive/ui/unknown_attribute.rs:5-11 | once the sort-field literal check passes, the first field whose attributes are rejected decides the error, whatever the field types and the sort field |
| `Derive.FirstTypeFaultReported` | fastsearch/src/field/field_type.rs:8-11 | when every derive check passes, the error is the first field whose type has no `ToFastsearchField` implementation |
| `Derive.DuplicateKeyRejected` | fastsearch/tests/derive/ui/duplicated_attribute.rs:7-8 | a key written twice on any field makes the build fail, whatever else is declared |
| `Derive.DuplicateFacetReported` | fastsearch/tests/derive/ui/duplicated_attribute.rs:7-9 | `facet` written twice on the first field whose attributes are rejected is reported as a duplicated `facet` on that field, whatever the field types |
| `Derive.UnknownKeyRejected` | fastsearch/tests/derive/ui/unknown_attribute.rs:8 | a field key other than `facet` makes the build fail |
| `Derive.UnknownKeyReported` | fastsearch/tests/derive/ui/unknown_attribute.rs:8-9 | a single unrecognised key on the first field whose attributes are rejected is reported as that key on that field, whatever the field types |
| `Derive.NonLiteralSortFieldRejected` | fastsearch/tests/derive/ui/non_strliteral_default_field.rs:5 | a `default_sorting_field` given as an identifier is rejected, whatever the fields |
| `Derive.SortFieldExistence` | fastsearch/tests/derive/ui/wrong_sorting_field.rs:5-9 | with acceptable field attributes, a literal sort field naming no field fails with an error that names the struct and the missing field, whatever the field types. With acceptable fields, one naming a field builds a schema that carries the name verbatim |
| `DeriveScenarios.DocCompanyAccepted` | fastsearch/src/lib.rs:19-26 | the documented `Company` builds to collection `companies` with fields `company_name: string`, `num_employees: int32`, `country: string` (a facet), sorted by `num_employees` |
| `DeriveScenarios.DuplicatedAttributeRejected` | fastsearch/tests/derive/ui/duplicated_attribute.rs:3-10 | two `#[fastsearch(facet)]` on `country_code` fail with a duplicated `facet` on `country_code` |
| `DeriveScenarios.NonStrLiteralDefaultFieldRejected` | fastsearch/tests/derive/ui/non_strliteral_default_field.rs:4-11 | `default_sorting_field = company_name` fails as a non-literal value, although the field exists |
| `DeriveScenarios.UnknownAttributeRejected` | fastsearch/tests/derive/ui/unknown_attribute.rs:4-11 | `#[fastsearch(facets)]` on `country` fails as an unknown key `facets` on `country`, whatever fields follow |
| `DeriveScenarios.AttributeFaultBeforeTypeFault` | fastsearch/src/field/field_type.rs:8-11 | a field of type `Vec<Vec<i8>>` followed by a field with `facets` reports the unknown `facets`, not the type |
| `DeriveScenarios.DanglingSortFieldBeforeTypeFault` | fastsearch/src/field/field_type.rs:8-11 | a dangling `default_sorting_field` is reported ahead of a `Vec<Vec<i8>>` field |
| `DeriveScenarios.WrongSortingFieldRejected` | fastsearch/tests/derive/ui/wrong_sorting_field.rs:4-10 | `default_sorting_field = "wrong_field"` fails, naming `Company` and `wrong_field` |

## Left out

- The `impl_to_fastsearch_field!` macro and the trait dispatch (fastsearch/src/field/field_type.rs:8-32) are not modelled. Only the table they generate is.
- `NativeType` has only the types that have an entry, plus `Vec` nesting and a map's value type. Any other Rust type, such as a map with non-`String` keys, is not expressible.
- `Option<...>` fields are not expressible (fastsearch/tests/derive/ui/unknown_attribute.rs:10). The scenario lemma for that test holds for any fields after `country`, instead.
- Struct-level attributes are a record of the two recognised keys. So an unknown or repeated struct-level key, or a non-literal `collection_name`, cannot be expressed: no test exercises these cases.
- A field key given with a value (`facet = ...`) is not modelled. Field attributes are keys only.
- How the collection name defaults when `collection_name` is absent is not modelled: the schema carries the attribute as given (`None`). The derive's code generation and the `collection_schema` module are not part of this model.
- Duplicate field names, an `optional` flag, and restricting the sort field to numeric types are not modelled: no test exercises them. The Rust compiler already rejects duplicate struct fields.
- JSON serialisation of the schema, and the network client that sends it (collection creation, document indexing and search), are not modelled: they are I/O.
- Derive.BuildSchema: the order among the derive's own checks is a modelling choice, since each compile-fail test has a single fault. Within one field, `CheckKeys` scans left to right and tests for an unknown key before a repeat, so `["facets", "facets"]` reports `UnknownAttribute`, not `DuplicateAttribute`. Only the first type fault is kept, whereas the Rust compiler reports one E0277 error per unsupported field.
- The example program's mock client (fastsearch-example/src/main.rs) is not modelled: it only prints and returns fixed results.
