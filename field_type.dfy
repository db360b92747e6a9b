/** The schema type of a document field, as fastsearch's `ToFastsearchField` trait
    assigns it: a closed table from Rust native types to the tag strings the
    indexing service expects (`FieldType` is a plain string). */
module FieldTypes {

  /** The Rust types the table speaks about. Maps are always keyed by `String`;
      their value type is kept here only so that its erasure can be stated. */
  datatype NativeType =
    | String
    | I8 | U8 | I16 | U16 | I32 | U32
    | I64 | U64 | ISize | USize
    | F32 | F64
    | Bool
    | HashMapStr(value: NativeType)
    | BTreeMapStr(value: NativeType)
    | Vec(elem: NativeType)

  /** A type that has an entry of its own: everything but a `Vec`. */
  predicate IsElement(t: NativeType) {
    !t.Vec?
  }

  /** The domain of the table: an element type, or a `Vec` of one (one level only). */
  predicate Supported(t: NativeType): (b: bool)
    ensures b <==> exists e :: IsElement(e) && (t == e || t == Vec(e))
  {
    if IsElement(t) then
      assert IsElement(t) && t == t;
      true
    else
      assert t == Vec(t.elem);
      IsElement(t.elem)
  }

  /** The tags of the element types. */
  predicate IsScalarTag(s: string) {
    s == "string" || s == "int32" || s == "int64" || s == "float" || s == "bool" || s == "object"
  }

  /** The modifier that turns an element tag into the tag of an array of it. */
  const ArraySuffix: string := "[]"

  predicate HasArraySuffix(s: string) {
    |s| >= 2 && s[|s| - 2..] == ArraySuffix
  }

  /** The tag before the array modifier. */
  function StripArraySuffix(s: string): (r: string)
    requires HasArraySuffix(s)
  {
    s[..|s| - 2]
  }

  /** `to_fastsearch_type` for every type that implements the trait, entry by entry.
      Every entry is the name of its element type's kind, with the array modifier
      for a `Vec`. */
  function ToFastsearchType(t: NativeType): (r: string)
    requires Supported(t)
    ensures r == Render(KindOf(ElementOf(t)), t.Vec?)
  {
    match t
    case String => "string"
    case I8 => "int32"
    case U8 => "int32"
    case I16 => "int32"
    case U16 => "int32"
    case I32 => "int32"
    case U32 => "int64"
    case I64 => "int64"
    case U64 => "int64"
    case ISize => "int64"
    case USize => "int64"
    case F32 => "float"
    case F64 => "float"
    case Bool => "bool"
    case HashMapStr(_) => "object"
    case BTreeMapStr(_) => "object"
    case Vec(e) =>
      match e
      case String => "string[]"
      case I8 => "int32[]"
      case U8 => "int32[]"
      case I16 => "int32[]"
      case U16 => "int32[]"
      case I32 => "int32[]"
      case U32 => "int64[]"
      case I64 => "int64[]"
      case U64 => "int64[]"
      case ISize => "int64[]"
      case USize => "int64[]"
      case F32 => "float[]"
      case F64 => "float[]"
      case Bool => "bool[]"
      case HashMapStr(_) => "object[]"
      case BTreeMapStr(_) => "object[]"
  }

  /** No element tag carries the array modifier. */
  lemma ScalarTagHasNoSuffix(s: string)
    requires IsScalarTag(s)
    ensures !HasArraySuffix(s)
  {
    assert s[|s| - 1] != ']';
  }

  /** Every tag is an element tag, followed by `[]` exactly when the type is a `Vec`. */
  lemma {:induction false} TagShape(t: NativeType)
    requires Supported(t)
    ensures HasArraySuffix(ToFastsearchType(t)) <==> t.Vec?
    ensures var r := ToFastsearchType(t);
      if t.Vec? then IsScalarTag(StripArraySuffix(r)) else IsScalarTag(r)
  {
    match t
    case Vec(e) =>
      VecAppendsSuffix(e);
      var x := ToFastsearchType(e);
      assert IsScalarTag(x);
      assert (x + ArraySuffix)[..|x|] == x;
      assert (x + ArraySuffix)[|x|..] == ArraySuffix;
    case _ =>
      ScalarTagHasNoSuffix(ToFastsearchType(t));
  }

  /** The array entries are the element entries with the modifier appended. */
  lemma {:induction false} VecAppendsSuffix(e: NativeType)
    requires IsElement(e)
    ensures Supported(Vec(e)) && Supported(e)
    ensures ToFastsearchType(Vec(e)) == ToFastsearchType(e) + ArraySuffix
  {
    match e
    case String =>
    case I8 =>
    case U8 =>
    case I16 =>
    case U16 =>
    case I32 =>
    case U32 =>
    case I64 =>
    case U64 =>
    case ISize =>
    case USize =>
    case F32 =>
    case F64 =>
    case Bool =>
    case HashMapStr(_) =>
    case BTreeMapStr(_) =>
  }

  /** The kinds the table groups its entries into: integers of up to 16 bits and
      `i32`; `u32`, 64-bit and architecture-width integers; both float widths;
      text; boolean; maps. */
  datatype SchemaKind = StringKind | Int32Kind | Int64Kind | FloatKind | BoolKind | ObjectKind

  function KindName(k: SchemaKind): (r: string)
    ensures IsScalarTag(r)
  {
    match k
    case StringKind => "string"
    case Int32Kind => "int32"
    case Int64Kind => "int64"
    case FloatKind => "float"
    case BoolKind => "bool"
    case ObjectKind => "object"
  }

  /** The kind of an element type, by group. */
  function KindOf(e: NativeType): (k: SchemaKind)
    requires IsElement(e)
  {
    if e.String? then StringKind
    else if e.I8? || e.U8? || e.I16? || e.U16? || e.I32? then Int32Kind
    else if e.U32? || e.I64? || e.U64? || e.ISize? || e.USize? then Int64Kind
    else if e.F32? || e.F64? then FloatKind
    else if e.Bool? then BoolKind
    else ObjectKind
  }

  /** The element type a supported type is built on. */
  function ElementOf(t: NativeType): (e: NativeType)
    requires Supported(t)
    ensures IsElement(e)
  {
    if t.Vec? then t.elem else t
  }

  /** The tag a supported type should get from its kind and its arrayness. */
  function Render(k: SchemaKind, isArray: bool): (r: string) {
    if isArray then KindName(k) + ArraySuffix else KindName(k)
  }

  lemma {:induction false} KindNameInjective(k1: SchemaKind, k2: SchemaKind)
    ensures KindName(k1) == KindName(k2) <==> k1 == k2
  {
    if KindName(k1) == KindName(k2) {
      match k1
      case StringKind => assert KindName(k2)[0] == 's';
      case Int32Kind => assert KindName(k2)[3] == '3';
      case Int64Kind => assert KindName(k2)[3] == '6';
      case FloatKind => assert KindName(k2)[0] == 'f';
      case BoolKind => assert KindName(k2)[0] == 'b';
      case ObjectKind => assert KindName(k2)[0] == 'o';
    }
  }

  /** Two supported types get the same tag exactly when both or neither is a `Vec`
      and their element types are of the same kind. */
  lemma {:induction false} SameTagIffSameKind(a: NativeType, b: NativeType)
    requires Supported(a) && Supported(b)
    ensures ToFastsearchType(a) == ToFastsearchType(b)
        <==> a.Vec? == b.Vec? && KindOf(ElementOf(a)) == KindOf(ElementOf(b))
  {
    var ka, kb := KindOf(ElementOf(a)), KindOf(ElementOf(b));
    KindNameInjective(ka, kb);
    if ToFastsearchType(a) == ToFastsearchType(b) {
      var ra, rb := ToFastsearchType(a), ToFastsearchType(b);
      assert a.Vec? == b.Vec?;
      if a.Vec? {
        assert KindName(ka) == ra[..|ra| - 2];
        assert KindName(kb) == rb[..|rb| - 2];
      }
    }
  }

  /** Text maps to `string` and a boolean to `bool`. */
  lemma StringAndBoolTags()
    ensures ToFastsearchType(String) == "string"
    ensures ToFastsearchType(Bool) == "bool"
  {
  }

  /** Integers up to 32 bits map to `int32`, except `u32`, which needs `int64`;
      64-bit and architecture-width integers map to `int64`. */
  lemma IntegerTags()
    ensures forall t :: t in {I8, U8, I16, U16, I32} ==> ToFastsearchType(t) == "int32"
    ensures ToFastsearchType(U32) == "int64"
    ensures forall t :: t in {U32, I64, U64, ISize, USize} ==> ToFastsearchType(t) == "int64"
  {
  }

  /** Both float widths map to `float`. */
  lemma FloatTags()
    ensures ToFastsearchType(F32) == "float" && ToFastsearchType(F64) == "float"
  {
  }

  /** A string-keyed map maps to `object` whatever its value type, even one that
      has no tag of its own; so does each array of such maps to `object[]`. */
  lemma MapValueErased(v1: NativeType, v2: NativeType)
    ensures ToFastsearchType(HashMapStr(v1)) == "object" && ToFastsearchType(BTreeMapStr(v2)) == "object"
    ensures ToFastsearchType(Vec(HashMapStr(v1))) == "object[]" && ToFastsearchType(Vec(BTreeMapStr(v2))) == "object[]"
  {
  }

  /** Only one level of `Vec` has an entry. */
  lemma NestedVecUnsupported(e: NativeType)
    ensures !Supported(Vec(Vec(e)))
  {
  }
}
