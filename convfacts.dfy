/**
 * Properties of the conversion in conversion.dfy: a converted value has the
 * target type, integer widths are checked, a field is found by tag or name
 * with the last such field winning, attributes no field answers to are
 * ignored, and no two dict entries collapse into one map entry.
 */
module ConversionFacts {
  import opened Base
  import opened Values
  import opened Targets
  import opened Conversion

  /**
   * What unmarshalType produces is a value of the target type: of its kind,
   * within its integer width, and so on for every element, entry and field.
   */
  lemma {:induction false} ConvertHasType(t: Type, v: Value, table: seq<Slot>, o: Out)
    requires ValidType(t) && Convert(t, v, table) == Some(o)
    ensures HasType(o, t)
    decreases t, 2
  {
    if IsComposite(v, table) {
      ConvertSlotHasType(t, table[v.index], table, o);
    }
  }

  lemma {:induction false} ConvertSlotHasType(t: Type, s: Slot, table: seq<Slot>, o: Out)
    requires ValidType(t) && ConvertSlot(t, s, table) == Some(o)
    ensures HasType(o, t)
    decreases t, 1
  {
    match s
    case List(vs) => ListHasType(t, vs, table, o);
    case Tuple(vs) => ListHasType(t, vs, table, o);
    case Dict(es) => DictHasType(t, es, table, o);
    case Obj(_, attrs) => StructHasType(t, attrs, table, o);
  }

  lemma {:induction false} ListHasType(t: Type, vs: seq<Value>, table: seq<Slot>, o: Out)
    requires ValidType(t) && ConvertList(t, vs, table) == Some(o)
    ensures HasType(o, t)
    decreases t, 0
  {
    forall i | 0 <= i < |o.elems| ensures HasType(o.elems[i], t.elem) {
      ConvertHasType(t.elem, vs[i], table, o.elems[i]);
    }
  }

  lemma {:induction false} DictHasType(t: Type, es: map<Value, Value>, table: seq<Slot>, o: Out)
    requires ValidType(t) && ConvertDict(t, es, table) == Some(o)
    ensures HasType(o, t)
    decreases t, 0
  {
    forall x | x in o.entries ensures HasType(x, t.key) && HasType(o.entries[x], t.elem) {
      var k := DictKeyOf(t, es, table, o, x);
      ConvertHasType(t.elem, es[k], table, o.entries[x]);
    }
  }

  /** Each key of the map dict.unmarshal builds comes from a stored key, and holds that key's value converted. */
  lemma DictKeyOf(t: Type, es: map<Value, Value>, table: seq<Slot>, o: Out, x: Out) returns (k: Value)
    requires ValidType(t) && ConvertDict(t, es, table) == Some(o) && x in o.entries
    ensures t.MapType? && k in es && ConvertKey(t.key, k, table) == Some(x) && HasType(x, t.key)
    ensures Convert(t.elem, es[k], table) == Some(o.entries[x])
  {
    k := PairKeyOf(t, es, table, es.Keys, x);
    assert !IsComposite(k, table);
  }

  lemma PairKeyOf(t: Type, es: map<Value, Value>, table: seq<Slot>, ks: set<Value>, x: Out) returns (k: Value)
    requires ValidType(t) && t.MapType? && PairsConvert(t, es, table, ks) && x in ConvertedPairs(t, es, table, ks)
    ensures k in ks && k in es && ConvertKey(t.key, k, table) == Some(x)
    ensures Convert(t.elem, es[k], table) == Some(ConvertedPairs(t, es, table, ks)[x])
  {
    k :| k in ks && ConvertKey(t.key, k, table).value == x;
  }

  lemma {:induction false} StructHasType(t: Type, attrs: map<seq<byte>, Value>, table: seq<Slot>, o: Out)
    requires ValidType(t) && ConvertStruct(t, attrs, table) == Some(o)
    ensures HasType(o, t)
    decreases t, 0
  {
    var fs := t.fields;
    forall i | 0 <= i < |fs| ensures HasType(o.fields[i], fs[i].ty) {
      if Filled(fs, attrs, i) {
        ConvertHasType(fs[i].ty, attrs[KeyOf(fs[i])], table, o.fields[i]);
      } else {
        ZeroHasType(fs[i].ty);
      }
    }
  }

  /**
   * An integer converts to an integer kind exactly when it fits the kind's
   * width, and then keeps its value; otherwise the error is an overflow.
   */
  lemma IntConversion(w: nat, x: int, table: seq<Slot>)
    requires ValidType(IntType(w))
    ensures Convert(IntType(w), Int(x), table) == if Fits(x, w) then Some(OInt(x)) else None
    ensures !Fits(x, w) ==> ConvertScalar(IntType(w), Int(x)) == Err(Overflow(x))
  {
  }

  /**
   * A string target takes only a string, and gets its bytes; any other
   * value that is not a composite is a type mismatch.
   */
  lemma StringConversion(v: Value, table: seq<Slot>)
    requires !IsComposite(v, table)
    ensures Convert(StringType, v, table) == if v.Str? then Some(OStr(v.s)) else None
    ensures !v.Str? ==> ConvertScalar(StringType, v) == Err(TypeMismatch)
  {
  }

  /** A bool target takes only a bool, and gets its truth value; anything else that is not a composite is a type mismatch. */
  lemma BoolConversion(v: Value, table: seq<Slot>)
    requires !IsComposite(v, table)
    ensures Convert(BoolType, v, table) == if v.Bool? then Some(OBool(v.b)) else None
    ensures !v.Bool? ==> ConvertScalar(BoolType, v) == Err(TypeMismatch)
  {
  }

  /**
   * A float target of either width takes only a float, and gets its bits;
   * anything else that is not a composite is a type mismatch.
   */
  lemma FloatConversion(w: nat, v: Value, table: seq<Slot>)
    requires ValidType(FloatType(w)) && !IsComposite(v, table)
    ensures Convert(FloatType(w), v, table) == if v.Float? then Some(OFloat(v.bits)) else None
    ensures !v.Float? ==> ConvertScalar(FloatType(w), v) == Err(TypeMismatch)
  {
  }

  /** An integer target takes only an int: anything else that is not a composite is a type mismatch. */
  lemma IntNeedsInt(w: nat, v: Value, table: seq<Slot>)
    requires ValidType(IntType(w)) && !IsComposite(v, table) && !v.Int?
    ensures Convert(IntType(w), v, table).None?
    ensures ConvertScalar(IntType(w), v) == Err(TypeMismatch)
  {
  }

  /** None (and so a reference to a slot not yet allocated when it was read) converts to no type at all. */
  lemma NilNeverConverts(t: Type, table: seq<Slot>)
    requires ValidType(t)
    ensures Convert(t, Nil, table).None?
  {
  }

  /** An interface{} target, or one of a kind the converter does not know, accepts no value, composite or not. */
  lemma {:induction false} InterfaceNeverConverts(t: Type, v: Value, table: seq<Slot>)
    requires t.InterfaceType? || t.OtherType?
    ensures Convert(t, v, table).None?
  {
    if IsComposite(v, table) {
      match table[v.index]
      case List(vs) => assert ConvertList(t, vs, table).None?;
      case Tuple(vs) => assert ConvertList(t, vs, table).None?;
      case Dict(es) => assert ConvertDict(t, es, table).None?;
      case Obj(_, attrs) => assert ConvertStruct(t, attrs, table).None?;
    }
  }

  /** A map key goes through unmarshalType like any other value: ConvertKey is that conversion at a non-composite key type. */
  lemma {:induction false} ConvertKeyAgrees(t: Type, k: Value, table: seq<Slot>)
    requires ValidType(t) && !t.SliceType? && !t.MapType? && !t.StructType?
    ensures Convert(t, k, table) == ConvertKey(t, k, table)
  {
    if IsComposite(k, table) {
      match table[k.index]
      case List(vs) => assert ConvertList(t, vs, table).None?;
      case Tuple(vs) => assert ConvertList(t, vs, table).None?;
      case Dict(es) => assert ConvertDict(t, es, table).None?;
      case Obj(_, attrs) => assert ConvertStruct(t, attrs, table).None?;
    }
  }

  /** No field after `i` and before `n` bears the key of field `i`. */
  predicate LastWithKey(fs: seq<Field>, i: nat, n: nat)
    requires i < n <= |fs|
  {
    forall j :: i < j < n ==> KeyOf(fs[j]) != KeyOf(fs[i])
  }

  /**
   * The fieldMap of obj.unmarshal holds the key of every field, and leads
   * from that key to the field exactly when no later field has the same key:
   * a later field with the same tag or name wins.
   */
  lemma {:induction false} FieldMapLastWins(fs: seq<Field>, n: nat, i: nat)
    requires i < n <= |fs|
    ensures KeyOf(fs[i]) in FieldMapUpTo(fs, n)
    ensures FieldMapUpTo(fs, n)[KeyOf(fs[i])] == i <==> LastWithKey(fs, i, n)
    decreases n
  {
    var m := FieldMapUpTo(fs, n);
    if i < n - 1 {
      FieldMapLastWins(fs, n - 1, i);
      var prev := FieldMapUpTo(fs, n - 1);
      if KeyOf(fs[i]) == KeyOf(fs[n - 1]) {
        assert m[KeyOf(fs[i])] == n - 1;
        assert !LastWithKey(fs, i, n);
      } else {
        assert m[KeyOf(fs[i])] == prev[KeyOf(fs[i])];
        assert LastWithKey(fs, i, n) <==> LastWithKey(fs, i, n - 1);
      }
    }
  }

  /** Field `i` is filled when it is settable, some attribute bears its key, and no later field bears the same key. */
  lemma FilledIff(fs: seq<Field>, attrs: map<seq<byte>, Value>, i: nat)
    requires i < |fs|
    ensures Filled(fs, attrs, i) <==> fs[i].settable && KeyOf(fs[i]) in attrs && LastWithKey(fs, i, |fs|)
  {
    FieldMapLastWins(fs, |fs|, i);
  }

  /**
   * The fields of a converted object: each settable field whose key an
   * attribute bears, and which no later field shadows, holds that attribute
   * converted to its type; every other field holds its zero value.
   */
  lemma StructFields(fs: seq<Field>, attrs: map<seq<byte>, Value>, table: seq<Slot>, o: Out, i: nat)
    requires ValidType(StructType(fs)) && ConvertStruct(StructType(fs), attrs, table) == Some(o) && i < |fs|
    ensures |o.fields| == |fs|
    ensures fs[i].settable && KeyOf(fs[i]) in attrs && LastWithKey(fs, i, |fs|) ==>
              Convert(fs[i].ty, attrs[KeyOf(fs[i])], table) == Some(o.fields[i])
    ensures !(fs[i].settable && KeyOf(fs[i]) in attrs && LastWithKey(fs, i, |fs|)) ==> o.fields[i] == Zero(fs[i].ty)
  {
    FilledIff(fs, attrs, i);
  }

  /**
   * An attribute that no field answers to (by tag or by name) does not
   * change the conversion of an object, whatever its value.
   */
  lemma UnknownAttributeIgnored(t: Type, attrs: map<seq<byte>, Value>, a: seq<byte>, x: Value, table: seq<Slot>)
    requires ValidType(t) && t.StructType? && a !in attrs
    requires forall i :: 0 <= i < |t.fields| ==> KeyOf(t.fields[i]) != a
    ensures ConvertStruct(t, attrs[a := x], table) == ConvertStruct(t, attrs, table)
  {
    var fs := t.fields;
    var more := attrs[a := x];
    forall i | 0 <= i < |fs|
      ensures Filled(fs, more, i) == Filled(fs, attrs, i)
      ensures Filled(fs, attrs, i) ==> more[KeyOf(fs[i])] == attrs[KeyOf(fs[i])]
    {
      assert KeyOf(fs[i]) != a;
    }
    assert FieldsConvert(t, more, table) == FieldsConvert(t, attrs, table);
    forall i | 0 <= i < |fs| ensures FieldValue(t, more, table, i) == FieldValue(t, attrs, table, i) {
    }
    if FieldsConvert(t, attrs, table) {
      assert ConvertStruct(t, more, table).value.fields == ConvertStruct(t, attrs, table).value.fields;
    }
  }

  /** The keys that the keys of `es` convert to. */
  ghost function KeyImage(t: Type, es: set<Value>, table: seq<Slot>): set<Out>
    requires ValidType(t) && !t.SliceType? && !t.MapType? && !t.StructType?
    requires forall k :: k in es ==> ConvertKey(t, k, table).Some?
  {
    set k | k in es :: ConvertKey(t, k, table).value
  }

  /** Distinct keys convert to distinct Go keys, so the converted keys are as many as the keys. */
  lemma {:induction false} KeyImageSize(t: Type, es: set<Value>, table: seq<Slot>)
    requires ValidType(t) && !t.SliceType? && !t.MapType? && !t.StructType?
    requires forall k :: k in es ==> ConvertKey(t, k, table).Some?
    ensures |KeyImage(t, es, table)| == |es|
    decreases |es|
  {
    if es != {} {
      var k :| k in es;
      var rest := es - {k};
      KeyImageSize(t, rest, table);
      var y := ConvertKey(t, k, table).value;
      assert y !in KeyImage(t, rest, table);
      assert KeyImage(t, es, table) == KeyImage(t, rest, table) + {y};
    }
  }

  /** dict.unmarshal loses no entry: distinct keys stay distinct, so the map holds as many entries as the dict. */
  lemma DictSize(t: Type, es: map<Value, Value>, table: seq<Slot>, o: Out)
    requires ValidType(t) && ConvertDict(t, es, table) == Some(o)
    ensures t.MapType? && |o.entries| == |es|
  {
    KeyImageSize(t.key, es.Keys, table);
    assert o.entries.Keys == KeyImage(t.key, es.Keys, table);
    assert |o.entries| == |o.entries.Keys|;
    assert |es| == |es.Keys|;
  }

  /** Every stored pair is in the map that dict.unmarshal builds, with its key and its value converted. */
  lemma DictPairs(t: Type, es: map<Value, Value>, table: seq<Slot>, o: Out, k: Value)
    requires ValidType(t) && ConvertDict(t, es, table) == Some(o) && k in es
    ensures t.MapType? && Convert(t.key, k, table).Some? && Convert(t.key, k, table).value in o.entries
    ensures Convert(t.elem, es[k], table) == Some(o.entries[Convert(t.key, k, table).value])
  {
    ConvertKeyAgrees(t.key, k, table);
  }
}
