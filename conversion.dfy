/**
 * What unmarshalType (parse.go) and the unmarshal methods of object.go
 * compute, as functions of the target type, the decoded value and the object
 * table it refers into. A scalar conversion fails with a definite error; a
 * composite one is stated only as succeeding or not, because which of
 * several failing dict entries or object attributes is reported depends on
 * Go's map iteration order.
 */
module Conversion {
  import opened Base
  import opened Values
  import opened Targets

  function AsOption(r: Result<Out>): (o: Option<Out>)
    ensures o.Some? <==> r.Ok?
    ensures o.Some? ==> o.value == r.value
  {
    match r
    case Ok(x) => Some(x)
    case Err(_) => None
  }

  /** The Go value `o` holds the same scalar as the decoded `v`: the same integer, bytes, truth value or float bits. */
  predicate Carries(o: Out, v: Value)
  {
    match o
    case OInt(i) => v == Int(i)
    case OStr(s) => v == Str(s)
    case OBool(b) => v == Bool(b)
    case OFloat(bits) => v == Float(bits)
    case _ => false
  }

  /**
   * unmarshalType on a value that is not a composite: the switch on the
   * target's kind. Integer kinds take an int that fits their width, string,
   * float and bool kinds take a value of their own kind, and every other
   * kind is unsupported.
   */
  function ConvertScalar(t: Type, v: Value): (r: Result<Out>)
    requires ValidType(t)
    ensures r.Ok? ==> HasType(r.value, t) && Carries(r.value, v)
    ensures !IsScalarType(t) ==> r == Err(Unsupported)
  {
    match t
    case IntType(w) =>
      if !v.Int? then Err(TypeMismatch)
      else if !Fits(v.i, w) then Err(Overflow(v.i))
      else Ok(OInt(v.i))
    case StringType => if v.Str? then Ok(OStr(v.s)) else Err(TypeMismatch)
    case FloatType(_) => if v.Float? then Ok(OFloat(v.bits)) else Err(TypeMismatch)
    case BoolType => if v.Bool? then Ok(OBool(v.b)) else Err(TypeMismatch)
    case _ => Err(Unsupported)
  }

  /** The slot a value refers to, when it is a reference to an allocated slot (Go: `v.(parser)` succeeds). */
  predicate IsComposite(v: Value, table: seq<Slot>)
  {
    v.Ref? && v.index < |table| && !table[v.index].Unset?
  }

  /** unmarshalType: a composite is unmarshalled into a zero value of the target type, anything else converted by kind. */
  function Convert(t: Type, v: Value, table: seq<Slot>): Option<Out>
    requires ValidType(t)
    decreases t, 4
  {
    if IsComposite(v, table) then ConvertSlot(t, table[v.index], table)
    else AsOption(ConvertScalar(t, v))
  }

  /** The unmarshal method of the slot's kind. */
  function ConvertSlot(t: Type, s: Slot, table: seq<Slot>): Option<Out>
    requires ValidType(t)
    decreases t, 3
  {
    match s
    case Unset => None
    case List(vs) => ConvertList(t, vs, table)
    case Tuple(vs) => ConvertList(t, vs, table)
    case Dict(es) => ConvertDict(t, es, table)
    case Obj(_, attrs) => ConvertStruct(t, attrs, table)
  }

  /** list.unmarshal (and tuple's): a slice target, one converted element per stored value, in order. */
  function ConvertList(t: Type, vs: seq<Value>, table: seq<Slot>): Option<Out>
    requires ValidType(t)
    decreases t, 2
  {
    if !t.SliceType? then None
    else if forall i :: 0 <= i < |vs| ==> Convert(t.elem, vs[i], table).Some? then
      Some(OSlice(seq(|vs|, i requires 0 <= i < |vs| && Convert(t.elem, vs[i], table).Some? =>
                               Convert(t.elem, vs[i], table).value)))
    else None
  }

  /**
   * unmarshalType for a map key. Keys are of a non-composite kind, so a
   * composite key never converts (its unmarshal method wants a slice, map or
   * struct target); any other key converts by kind.
   */
  function ConvertKey(t: Type, k: Value, table: seq<Slot>): (r: Option<Out>)
    requires ValidType(t) && !t.SliceType? && !t.MapType? && !t.StructType?
  {
    if IsComposite(k, table) then None else AsOption(ConvertScalar(t, k))
  }

  /**
   * dict.unmarshal: a map target, holding every stored pair with its key and
   * its value converted; it fails if any one conversion fails.
   */
  function ConvertDict(t: Type, es: map<Value, Value>, table: seq<Slot>): Option<Out>
    requires ValidType(t)
    decreases t, 2
  {
    if !t.MapType? then None
    else if PairsConvert(t, es, table, es.Keys) then Some(OMap(ConvertedPairs(t, es, table, es.Keys)))
    else None
  }

  /** Every key of `ks` is a stored key, converts to the key type, and its value converts to the element type. */
  predicate PairsConvert(t: Type, es: map<Value, Value>, table: seq<Slot>, ks: set<Value>)
    requires ValidType(t) && t.MapType?
    decreases t, 0
  {
    forall k :: k in ks ==> k in es && ConvertKey(t.key, k, table).Some? && Convert(t.elem, es[k], table).Some?
  }

  /** The pairs of `ks`, their keys and values converted. */
  function ConvertedPairs(t: Type, es: map<Value, Value>, table: seq<Slot>, ks: set<Value>): map<Out, Out>
    requires ValidType(t) && t.MapType? && PairsConvert(t, es, table, ks)
    decreases t, 1
  {
    map k | k in ks :: ConvertKey(t.key, k, table).value := Convert(t.elem, es[k], table).value
  }

  /** The fieldMap of obj.unmarshal over the first `n` fields: each field's key to its index, a later field winning. */
  function FieldMapUpTo(fs: seq<Field>, n: nat): (m: map<seq<byte>, nat>)
    requires n <= |fs|
    ensures forall k :: k in m ==> m[k] < n && KeyOf(fs[m[k]]) == k
  {
    if n == 0 then map[] else FieldMapUpTo(fs, n - 1)[KeyOf(fs[n - 1]) := n - 1]
  }

  function FieldMap(fs: seq<Field>): map<seq<byte>, nat>
  {
    FieldMapUpTo(fs, |fs|)
  }

  /** Field `i` is filled by obj.unmarshal: the attribute its key names exists, the key leads to it, and it is settable. */
  predicate Filled(fs: seq<Field>, attrs: map<seq<byte>, Value>, i: nat)
    requires i < |fs|
  {
    && fs[i].settable
    && KeyOf(fs[i]) in attrs
    && KeyOf(fs[i]) in FieldMap(fs)
    && FieldMap(fs)[KeyOf(fs[i])] == i
  }

  /**
   * obj.unmarshal: a struct target; each field some attribute fills gets
   * that attribute converted to its type, every other field keeps its zero
   * value; it fails if any one conversion fails.
   */
  function ConvertStruct(t: Type, attrs: map<seq<byte>, Value>, table: seq<Slot>): Option<Out>
    requires ValidType(t)
    decreases t, 2
  {
    if !t.StructType? then None
    else if FieldsConvert(t, attrs, table) then
      Some(OStruct(seq(|t.fields|, i requires 0 <= i < |t.fields| => FieldValue(t, attrs, table, i))))
    else None
  }

  /** The attribute of every filled field converts to the field's type. */
  predicate FieldsConvert(t: Type, attrs: map<seq<byte>, Value>, table: seq<Slot>)
    requires ValidType(t) && t.StructType?
    decreases t, 0
  {
    forall i :: 0 <= i < |t.fields| && Filled(t.fields, attrs, i) ==> Convert(t.fields[i].ty, attrs[KeyOf(t.fields[i])], table).Some?
  }

  /** Field `i` after obj.unmarshal: its attribute converted when it is filled, its zero value otherwise. */
  function FieldValue(t: Type, attrs: map<seq<byte>, Value>, table: seq<Slot>, i: nat): Out
    requires ValidType(t) && t.StructType? && i < |t.fields|
    decreases t, 1
  {
    var f := t.fields[i];
    if Filled(t.fields, attrs, i) && Convert(f.ty, attrs[KeyOf(f)], table).Some? then Convert(f.ty, attrs[KeyOf(f)], table).value
    else Zero(f.ty)
  }
}
