/**
 * What the decoder produces (parse.go, object.go): scalar values, references
 * into the per-decode object table, and the table slots themselves.
 */
module Values {
  import opened Base

  /** strconv.ParseFloat(s, 64), supplied by the caller: the IEEE bits, or no result. */
  type FloatParser = seq<byte> -> Option<bv64>

  /**
   * A decoded element (the `interface{}` parseElem returns). Composites never
   * appear inline: parseElem yields them only as the table slot an `r` element
   * names, which `Ref(index)` stands for (a Go pointer to that slot).
   */
  datatype Value =
    | Nil                  // `n`, and a reference to a slot not yet allocated
    | Bool(b: bool)
    | Int(i: int)
    | Float(bits: bv64)
    | Str(s: seq<byte>)
    | Ref(index: nat)

  /** One entry of the object table: nil, or one of the composites of object.go. */
  datatype Slot =
    | Unset                                               // nil, before phase 1 reaches it
    | List(vals: seq<Value>)                              // list (also Python sets)
    | Tuple(vals: seq<Value>)                             // tuple (embeds list)
    | Dict(entries: map<Value, Value>)                    // dict
    | Obj(name: seq<byte>, attrs: map<seq<byte>, Value>)  // obj

  /** Two slots are of the same composite kind (phase 2 refills a slot but never changes its kind). */
  predicate SameKind(s: Slot, t: Slot)
  {
    match s
    case Unset => t.Unset?
    case List(_) => t.List?
    case Tuple(_) => t.Tuple?
    case Dict(_) => t.Dict?
    case Obj(name, _) => t.Obj? && t.name == name
  }

  /** Slot `j` exists and has been allocated. */
  predicate Declared(table: seq<Slot>, j: nat)
  {
    j < |table| && !table[j].Unset?
  }

  /** A value whose reference, if any, names an allocated slot. */
  predicate ValueOk(table: seq<Slot>, v: Value)
  {
    v.Ref? ==> Declared(table, v.index)
  }

  predicate SlotOk(table: seq<Slot>, s: Slot)
  {
    match s
    case Unset => true
    case List(vals) => forall i :: 0 <= i < |vals| ==> ValueOk(table, vals[i])
    case Tuple(vals) => forall i :: 0 <= i < |vals| ==> ValueOk(table, vals[i])
    case Dict(entries) => forall k :: k in entries ==> ValueOk(table, k) && ValueOk(table, entries[k])
    case Obj(_, attrs) => forall a :: a in attrs ==> ValueOk(table, attrs[a])
  }

  /** Every reference stored anywhere in the table names an allocated slot. */
  predicate TableOk(table: seq<Slot>)
  {
    forall j :: 0 <= j < |table| ==> SlotOk(table, table[j])
  }

  /** `t` is `s` with possibly more slots allocated, none removed. */
  predicate Grows(s: seq<Slot>, t: seq<Slot>)
  {
    |s| == |t| && forall j :: 0 <= j < |s| && Declared(s, j) ==> Declared(t, j)
  }
}
