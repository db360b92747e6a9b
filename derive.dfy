/** The attribute validator and schema builder behind `#[derive(Fastsearch)]`:
    it reads the `#[fastsearch(...)]` attributes of a struct and of its fields and
    either yields the collection schema or rejects the declaration. Only the
    rules that the derive's compile-fail tests and its documented example pin
    down are modelled. */
module Derive {
  import opened FieldTypes

  datatype Option<T> = None | Some(value: T)

  datatype Result<T, E> = Ok(value: T) | Err(error: E)

  /** The value written after `key =` in an attribute: a string literal, or a
      bare identifier such as `default_sorting_field = company_name`. */
  datatype AttrValue = StrLit(text: string) | Ident(name: string)

  /** The struct-level `#[fastsearch(collection_name = "...", default_sorting_field = ...)]`;
      each key is either given once or absent. */
  datatype TypeAttrs = TypeAttrs(collectionName: Option<string>, defaultSortingField: Option<AttrValue>)

  /** A struct field: its name, its Rust type, and the keys of all its
      `#[fastsearch(...)]` attributes in the order written (two attributes
      `#[fastsearch(facet)]` give `["facet", "facet"]`). */
  datatype FieldDecl = FieldDecl(name: string, ty: NativeType, keys: seq<string>)

  datatype StructDecl = StructDecl(name: string, attrs: TypeAttrs, fields: seq<FieldDecl>)

  /** One field of the collection schema. */
  datatype FieldSchema = FieldSchema(name: string, fieldType: string, facet: bool)

  datatype Schema = Schema(collectionName: Option<string>, fields: seq<FieldSchema>, defaultSortingField: Option<string>)

  datatype SchemaError =
    | DuplicateAttribute(field: string, key: string)
    | UnknownAttribute(field: string, key: string)
    | NonLiteralAttributeValue(key: string)
    | DanglingSortField(structName: string, sortField: string)
    | UnsupportedNativeType(field: string)

  /** The only key a field attribute may carry. */
  const FacetKey: string := "facet"

  const SortKey: string := "default_sorting_field"

  /** Field attribute keys: all recognised, none given twice. */
  predicate KeysValid(keys: seq<string>) {
    && (forall i :: 0 <= i < |keys| ==> keys[i] == FacetKey)
    && (forall i, j :: 0 <= i < j < |keys| ==> keys[i] != keys[j])
  }

  /** `key` is written at least twice in `keys`. */
  predicate Repeated(keys: seq<string>, key: string) {
    exists i, j :: 0 <= i < j < |keys| && keys[i] == key && keys[j] == key
  }

  /** With a single recognised key, a field's attributes are valid exactly when
      they are absent or are one `facet`. */
  lemma {:induction false} KeysValidIffAtMostOneFacet(keys: seq<string>)
    ensures KeysValid(keys) <==> keys == [] || keys == [FacetKey]
  {
    if |keys| == 1 {
      assert keys == [keys[0]];
    } else if |keys| >= 2 {
      // two keys would both have to be `facet` and yet differ
      assert !(keys[0] == FacetKey && keys[1] == FacetKey && keys[0] != keys[1]);
    }
  }

  /** Scans the keys left to right from position `i`: the first key that is not
      recognised, or that repeats an earlier one, is the error reported. */
  function CheckKeys(field: string, keys: seq<string>, i: nat): (r: Option<SchemaError>)
    requires i <= |keys|
    requires KeysValid(keys[..i])
    ensures r.None? <==> KeysValid(keys)
    ensures r.Some? ==> match r.value
      case UnknownAttribute(f, k) => f == field && k in keys && k != FacetKey
      case DuplicateAttribute(f, k) => f == field && Repeated(keys, k)
      case _ => false
    decreases |keys| - i
  {
    if i == |keys| then
      assert keys[..i] == keys;
      None
    else if keys[i] != FacetKey then
      Some(UnknownAttribute(field, keys[i]))
    else if keys[i] in keys[..i] then
      Some(DuplicateAttribute(field, keys[i]))
    else
      assert keys[..i + 1] == keys[..i] + [keys[i]];
      CheckKeys(field, keys, i + 1)
  }

  /** A field the derive accepts: valid attributes and a type with a tag. */
  predicate FieldValid(f: FieldDecl) {
    KeysValid(f.keys) && Supported(f.ty)
  }

  /** `e` is a true report of what is wrong with field `f`. */
  predicate FieldFault(f: FieldDecl, e: SchemaError) {
    match e
    case UnknownAttribute(n, k) => n == f.name && k in f.keys && k != FacetKey
    case DuplicateAttribute(n, k) => n == f.name && Repeated(f.keys, k)
    case UnsupportedNativeType(n) => n == f.name && !Supported(f.ty)
    case _ => false
  }

  /** `fs` is the schema entry of field `f`: same name, the field type's tag,
      and the facet flag exactly when the field carries `facet`. */
  predicate Describes(fs: FieldSchema, f: FieldDecl) {
    && fs.name == f.name
    && Supported(f.ty)
    && fs.fieldType == ToFastsearchType(f.ty)
    && fs.facet == (FacetKey in f.keys)
  }

  /** The attributes of one field, as the derive reads them. */
  function CheckFieldKeys(f: FieldDecl): (r: Option<SchemaError>)
    ensures r.None? <==> KeysValid(f.keys)
    ensures r.Some? ==> FieldFault(f, r.value) && !r.value.UnsupportedNativeType?
  {
    CheckKeys(f.name, f.keys, 0)
  }

  /** The attributes of every field before position `i` are accepted. */
  predicate KeysValidBefore(fields: seq<FieldDecl>, i: nat)
    requires i <= |fields|
  {
    forall j :: 0 <= j < i ==> KeysValid(fields[j].keys)
  }

  /** The derive's pass over the fields in declaration order: the first field
      whose attributes are rejected stops it. Field types play no part here. */
  function CheckAllKeys(fields: seq<FieldDecl>): (r: Option<SchemaError>)
    ensures r.None? <==> forall i :: 0 <= i < |fields| ==> KeysValid(fields[i].keys)
    ensures r.Some? ==>
      exists i :: 0 <= i < |fields| && CheckFieldKeys(fields[i]) == r && KeysValidBefore(fields, i)
  {
    if fields == [] then None
    else
      match CheckFieldKeys(fields[0])
      case Some(e) => Some(e)
      case None =>
        var r := CheckAllKeys(fields[1..]);
        if r.Some? then
          var i :| 0 <= i < |fields[1..]| && CheckFieldKeys(fields[1..][i]) == r && KeysValidBefore(fields[1..], i);
          assert CheckFieldKeys(fields[i + 1]) == r;
          assert KeysValidBefore(fields, i + 1) by {
            forall j | 0 <= j < i + 1 ensures KeysValid(fields[j].keys) {
              if j > 0 { assert fields[j] == fields[1..][j - 1]; }
            }
          }
          r
        else
          assert forall i :: 1 <= i < |fields| ==> fields[i] == fields[1..][i - 1];
          None
  }

  /** The type of every field before position `i` has a tag. */
  predicate SupportedBefore(fields: seq<FieldDecl>, i: nat)
    requires i <= |fields|
  {
    forall j :: 0 <= j < i ==> Supported(fields[j].ty)
  }

  /** The schema entries, one per field in declaration order, each with its
      type's tag. This is where `ToFastsearchField` is asked for every field
      type: the first type without an implementation is the error. */
  function MapFieldTypes(fields: seq<FieldDecl>): (r: Result<seq<FieldSchema>, SchemaError>)
    ensures r.Ok? <==> forall i :: 0 <= i < |fields| ==> Supported(fields[i].ty)
    ensures r.Ok? ==>
      && |r.value| == |fields|
      && forall i :: 0 <= i < |fields| ==> Describes(r.value[i], fields[i])
    ensures r.Err? ==>
      exists i :: 0 <= i < |fields| && !Supported(fields[i].ty)
        && r.error == UnsupportedNativeType(fields[i].name) && SupportedBefore(fields, i)
  {
    if fields == [] then Ok([])
    else
      var f := fields[0];
      if !Supported(f.ty) then
        assert SupportedBefore(fields, 0);
        Err(UnsupportedNativeType(f.name))
      else
        var head := FieldSchema(f.name, ToFastsearchType(f.ty), FacetKey in f.keys);
        match MapFieldTypes(fields[1..])
        case Err(e) =>
          var i :| 0 <= i < |fields[1..]| && !Supported(fields[1..][i].ty)
            && e == UnsupportedNativeType(fields[1..][i].name) && SupportedBefore(fields[1..], i);
          assert fields[i + 1] == fields[1..][i];
          assert SupportedBefore(fields, i + 1) by {
            forall j | 0 <= j < i + 1 ensures Supported(fields[j].ty) {
              if j > 0 { assert fields[j] == fields[1..][j - 1]; }
            }
          }
          Err(e)
        case Ok(tail) =>
          assert forall i :: 1 <= i < |fields| ==> fields[i] == fields[1..][i - 1];
          Ok([head] + tail)
  }

  /** `default_sorting_field`, when given, must be a string literal. */
  predicate SortValueLiteral(attrs: TypeAttrs) {
    attrs.defaultSortingField.Some? ==> attrs.defaultSortingField.value.StrLit?
  }

  /** The sort field's name, once it is known to be a literal. */
  function SortFieldName(attrs: TypeAttrs): (r: Option<string>)
    requires SortValueLiteral(attrs)
  {
    match attrs.defaultSortingField
    case None => None
    case Some(v) => Some(v.text)
  }

  predicate HasField(fields: seq<FieldDecl>, name: string) {
    exists i :: 0 <= i < |fields| && fields[i].name == name
  }

  /** Everything the derive itself checks: the sort field is a literal naming an
      existing field, and every field's attributes are acceptable. */
  predicate DeriveChecksPass(s: StructDecl) {
    && SortValueLiteral(s.attrs)
    && (forall i :: 0 <= i < |s.fields| ==> KeysValid(s.fields[i].keys))
    && (SortFieldName(s.attrs).Some? ==> HasField(s.fields, SortFieldName(s.attrs).value))
  }

  /** A declaration that derives and whose generated code compiles. */
  predicate StructValid(s: StructDecl) {
    && SortValueLiteral(s.attrs)
    && (forall i :: 0 <= i < |s.fields| ==> FieldValid(s.fields[i]))
    && (SortFieldName(s.attrs).Some? ==> HasField(s.fields, SortFieldName(s.attrs).value))
  }

  /** `e` is a true report of what is wrong with declaration `s`. */
  predicate StructFault(s: StructDecl, e: SchemaError) {
    match e
    case NonLiteralAttributeValue(k) =>
      k == SortKey && !SortValueLiteral(s.attrs)
    case DanglingSortField(n, f) =>
      && n == s.name
      && SortValueLiteral(s.attrs)
      && SortFieldName(s.attrs) == Some(f)
      && !HasField(s.fields, f)
    case _ =>
      exists i :: 0 <= i < |s.fields| && FieldFault(s.fields[i], e)
  }

  /** The derive followed by the compilation of the code it generates. The derive
      checks the literal on `default_sorting_field`, then every field's attributes
      in declaration order, then the sort field's existence. Only the generated
      code asks `ToFastsearchField` for each field type, so an unsupported type is
      reported only when the derive itself has accepted the declaration. */
  function BuildSchema(s: StructDecl): (r: Result<Schema, SchemaError>)
    ensures r.Ok? <==> StructValid(s)
    ensures r.Ok? ==> && r.value.collectionName == s.attrs.collectionName
                      && r.value.defaultSortingField == SortFieldName(s.attrs)
                      && |r.value.fields| == |s.fields|
                      && forall i :: 0 <= i < |s.fields| ==> Describes(r.value.fields[i], s.fields[i])
    ensures r.Err? ==> StructFault(s, r.error)
    ensures r.Err? && r.error.UnsupportedNativeType? ==> DeriveChecksPass(s)
  {
    if !SortValueLiteral(s.attrs) then
      Err(NonLiteralAttributeValue(SortKey))
    else
      match CheckAllKeys(s.fields)
      case Some(e) => Err(e)
      case None =>
        var sort := SortFieldName(s.attrs);
        if sort.Some? && !HasField(s.fields, sort.value) then
          Err(DanglingSortField(s.name, sort.value))
        else
          match MapFieldTypes(s.fields)
          case Err(e) => Err(e)
          case Ok(fs) => Ok(Schema(s.attrs.collectionName, fs, sort))
  }

  /** Once the sort-field literal check passes, the first field whose attributes
      are rejected decides the error, whatever the types of any field (earlier
      ones included) and whatever the sort field names. */
  lemma {:induction false} FirstAttributeFaultReported(s: StructDecl, i: nat)
    requires SortValueLiteral(s.attrs)
    requires i < |s.fields| && KeysValidBefore(s.fields, i) && !KeysValid(s.fields[i].keys)
    ensures BuildSchema(s).Err? && CheckFieldKeys(s.fields[i]) == Some(BuildSchema(s).error)
  {
    var r := CheckAllKeys(s.fields);
    assert r.Some?;
    var i' :| 0 <= i' < |s.fields| && CheckFieldKeys(s.fields[i']) == r && KeysValidBefore(s.fields, i');
    // no earlier field is rejected, and none after the first rejected one is reached
    assert i' == i;
  }

  /** When everything the derive checks passes, the first field whose type has
      no `ToFastsearchField` implementation is the error. */
  lemma {:induction false} FirstTypeFaultReported(s: StructDecl, i: nat)
    requires DeriveChecksPass(s)
    requires i < |s.fields| && SupportedBefore(s.fields, i) && !Supported(s.fields[i].ty)
    ensures BuildSchema(s) == Err(UnsupportedNativeType(s.fields[i].name))
  {
    var r := MapFieldTypes(s.fields);
    assert r.Err?;
    var i' :| 0 <= i' < |s.fields| && !Supported(s.fields[i'].ty)
      && r.error == UnsupportedNativeType(s.fields[i'].name) && SupportedBefore(s.fields, i');
    assert i' == i;
  }

  /** The same field key written twice is rejected, whatever the values, the
      field's type and the rest of the declaration. */
  lemma DuplicateKeyRejected(s: StructDecl, i: nat, k: string)
    requires i < |s.fields| && Repeated(s.fields[i].keys, k)
    ensures BuildSchema(s).Err?
  {
  }

  /** `#[fastsearch(facet)]` twice on the first field with rejected attributes is
      reported as a duplicated `facet` on that field, whatever the field types. */
  lemma {:induction false} DuplicateFacetReported(s: StructDecl, i: nat)
    requires SortValueLiteral(s.attrs)
    requires i < |s.fields| && KeysValidBefore(s.fields, i)
    requires s.fields[i].keys == [FacetKey, FacetKey]
    ensures BuildSchema(s) == Err(DuplicateAttribute(s.fields[i].name, FacetKey))
  {
    var keys := s.fields[i].keys;
    KeysValidIffAtMostOneFacet(keys);
    assert keys[..1] == [FacetKey];
    FirstAttributeFaultReported(s, i);
  }

  /** A field key other than `facet` is rejected. */
  lemma UnknownKeyRejected(s: StructDecl, i: nat, k: string)
    requires i < |s.fields| && k in s.fields[i].keys && k != FacetKey
    ensures BuildSchema(s).Err?
  {
  }

  /** A single unrecognised key on the first field with rejected attributes is
      reported as exactly that key on that field. */
  lemma {:induction false} UnknownKeyReported(s: StructDecl, i: nat, k: string)
    requires SortValueLiteral(s.attrs)
    requires i < |s.fields| && KeysValidBefore(s.fields, i)
    requires s.fields[i].keys == [k] && k != FacetKey
    ensures BuildSchema(s) == Err(UnknownAttribute(s.fields[i].name, k))
  {
    KeysValidIffAtMostOneFacet(s.fields[i].keys);
    FirstAttributeFaultReported(s, i);
  }

  /** `default_sorting_field` given as an identifier is rejected before anything
      else is looked at. */
  lemma NonLiteralSortFieldRejected(s: StructDecl, id: string)
    requires s.attrs.defaultSortingField == Some(Ident(id))
    ensures BuildSchema(s) == Err(NonLiteralAttributeValue(SortKey))
  {
  }

  /** With acceptable field attributes, a literal sort field that names no field
      is reported with the struct and the missing name, whatever the field types;
      with acceptable fields, one that names a field builds a schema carrying
      that name verbatim. */
  lemma SortFieldExistence(s: StructDecl, name: string)
    requires s.attrs.defaultSortingField == Some(StrLit(name))
    requires forall i :: 0 <= i < |s.fields| ==> KeysValid(s.fields[i].keys)
    ensures !HasField(s.fields, name) ==> BuildSchema(s) == Err(DanglingSortField(s.name, name))
    ensures HasField(s.fields, name) && (forall i :: 0 <= i < |s.fields| ==> Supported(s.fields[i].ty))
      ==> BuildSchema(s).Ok? && BuildSchema(s).value.defaultSortingField == Some(name)
  {
  }
}
