/**
 * The Go side of a conversion: the target types unmarshalType is asked to
 * fill (standing for the reflect.Type it inspects) and the Go values it
 * builds (standing for the reflect.Value it returns).
 */
module Targets {
  import opened Base

  /**
   * A Go type, reduced to what unmarshalType looks at: its reflect.Kind and,
   * for slices, maps and structs, the types inside it.
   */
  datatype Type =
    | IntType(width: nat)              // int8, int16, int32, int64, and int (64 bits)
    | StringType
    | BoolType
    | FloatType(width: nat)            // float32, float64
    | SliceType(elem: Type)
    | MapType(key: Type, elem: Type)
    | StructType(fields: seq<Field>)
    | InterfaceType                    // interface{}
    | OtherType                        // every other kind: unsigned integers, pointers, arrays, ...

  /**
   * A struct field: its Go name, its `cereal` tag if it has one, whether
   * reflect may set it (it is exported), and its type.
   */
  datatype Field = Field(name: seq<byte>, tag: Option<seq<byte>>, settable: bool, ty: Type)

  /** The attribute name a field answers to: its `cereal` tag when it has one, otherwise its name. */
  function KeyOf(f: Field): seq<byte>
  {
    match f.tag
    case Some(t) => t
    case None => f.name
  }

  /** A type whose values can be converted from scalars: the kinds Go map keys take here. */
  predicate IsScalarType(t: Type)
  {
    t.IntType? || t.StringType? || t.BoolType? || t.FloatType?
  }

  /**
   * A type Go accepts and the model covers: integer widths 8, 16, 32, 64,
   * float widths 32 and 64, and map keys of a non-composite kind (Go itself
   * rejects slice and map keys; struct keys are not covered).
   */
  predicate ValidType(t: Type)
  {
    match t
    case IntType(w) => w == 8 || w == 16 || w == 32 || w == 64
    case FloatType(w) => w == 32 || w == 64
    case SliceType(e) => ValidType(e)
    case MapType(k, e) => (IsScalarType(k) || k.InterfaceType? || k.OtherType?) && ValidType(k) && ValidType(e)
    case StructType(fs) => forall i :: 0 <= i < |fs| ==> ValidType(fs[i].ty)
    case _ => true
  }

  /** A Go value: what reflect.New(rt).Elem() holds once unmarshalType has filled it. */
  datatype Out =
    | OInt(i: int)
    | OStr(s: seq<byte>)
    | OBool(b: bool)
    | OFloat(bits: bv64)
    | OSlice(elems: seq<Out>)
    | OMap(entries: map<Out, Out>)
    | OStruct(fields: seq<Out>)     // the field values, in declaration order
    | ONil                          // the zero value of an interface or of any other kind

  function Pow2(n: nat): (p: nat)
    ensures p >= 1
  {
    if n == 0 then 1 else 2 * Pow2(n - 1)
  }

  /** reflect.Value.OverflowInt for a signed integer of `width` bits, negated: `x` fits. */
  predicate Fits(x: int, width: nat)
    requires width > 0
  {
    -(Pow2(width - 1) as int) <= x < Pow2(width - 1)
  }

  /** The zero value of `t` (what reflect.New(t).Elem() holds). Nil and empty slices and maps are not told apart. */
  function Zero(t: Type): Out
  {
    match t
    case IntType(_) => OInt(0)
    case StringType => OStr([])
    case BoolType => OBool(false)
    case FloatType(_) => OFloat(0)
    case SliceType(_) => OSlice([])
    case MapType(_, _) => OMap(map[])
    case StructType(fs) => OStruct(seq(|fs|, i requires 0 <= i < |fs| => Zero(fs[i].ty)))
    case _ => ONil
  }

  /** `o` is a value of type `t`: of its kind, within its width, and so on inside. */
  predicate HasType(o: Out, t: Type)
    requires ValidType(t)
  {
    match t
    case IntType(w) => o.OInt? && Fits(o.i, w)
    case StringType => o.OStr?
    case BoolType => o.OBool?
    case FloatType(_) => o.OFloat?
    case SliceType(e) => o.OSlice? && forall i :: 0 <= i < |o.elems| ==> HasType(o.elems[i], e)
    case MapType(k, e) => o.OMap? && forall x :: x in o.entries ==> HasType(x, k) && HasType(o.entries[x], e)
    case StructType(fs) => o.OStruct? && |o.fields| == |fs| && forall i :: 0 <= i < |fs| ==> HasType(o.fields[i], fs[i].ty)
    case _ => o.ONil?
  }

  /** The zero value of a type is a value of that type. */
  lemma {:induction false} ZeroHasType(t: Type)
    requires ValidType(t)
    ensures HasType(Zero(t), t)
  {
    match t
    case IntType(w) =>
    case StructType(fs) =>
      forall i | 0 <= i < |fs| ensures HasType(Zero(t).fields[i], fs[i].ty) {
        ZeroHasType(fs[i].ty);
      }
    case _ =>
  }
}
