/**
 * Unmarshal (parse.go), unmarshalType and the unmarshal methods of
 * object.go, as methods that build the Go value the reflection code would
 * leave in its target. Each is proved to produce exactly what conversion.dfy
 * specifies, and to fail exactly when that conversion fails.
 */
module Unmarshalling {
  import opened Base
  import opened Values
  import opened Targets
  import opened Conversion
  import opened ConversionFacts
  import opened Grammar
  import opened Decoding

  /** unmarshalType: a composite goes to its own unmarshal method, anything else is converted by the target's kind. */
  method UnmarshalType(t: Type, v: Value, table: seq<Slot>) returns (r: Result<Out>)
    requires ValidType(t)
    ensures AsOption(r) == Convert(t, v, table)
    ensures !IsComposite(v, table) ==> r == ConvertScalar(t, v)
    decreases t, 3
  {
    if v.Ref? && v.index < |table| && !table[v.index].Unset? {
      r := SlotUnmarshal(t, table[v.index], table);
    } else {
      r := ConvertScalar(t, v);
    }
  }

  /** `p.unmarshal(newVal)`: the unmarshal method of the slot's kind, into a zero value of type `t`. */
  method SlotUnmarshal(t: Type, s: Slot, table: seq<Slot>) returns (r: Result<Out>)
    requires ValidType(t) && !s.Unset?
    ensures AsOption(r) == ConvertSlot(t, s, table)
    decreases t, 2
  {
    match s
    case List(vs) => r := ListUnmarshal(t, vs, table);
    case Tuple(vs) => r := ListUnmarshal(t, vs, table);
    case Dict(es) => r := DictUnmarshal(t, es, table);
    case Obj(_, attrs) => r := ObjUnmarshal(t, attrs, table);
  }

  /** list.unmarshal: append each stored value, converted to the element type, to a slice. */
  method ListUnmarshal(t: Type, vs: seq<Value>, table: seq<Slot>) returns (r: Result<Out>)
    requires ValidType(t)
    ensures AsOption(r) == ConvertList(t, vs, table)
    ensures !t.SliceType? ==> r == Err(NotSlice)
    decreases t, 1
  {
    if !t.SliceType? {
      return Err(NotSlice);
    }
    var out: seq<Out> := [];
    var k := 0;
    while k < |vs|
      invariant 0 <= k <= |vs| && |out| == k
      invariant forall i :: 0 <= i < k ==> Convert(t.elem, vs[i], table) == Some(out[i])
    {
      var x := UnmarshalType(t.elem, vs[k], table);
      if x.Err? {
        assert Convert(t.elem, vs[k], table).None?;
        return x;
      }
      out := out + [x.value];
      k := k + 1;
    }
    assert out == seq(|vs|, i requires 0 <= i < |vs| && Convert(t.elem, vs[i], table).Some? => Convert(t.elem, vs[i], table).value);
    r := Ok(OSlice(out));
  }

  /** Storing one more pair: its converted key is new, since distinct keys convert to distinct keys. */
  lemma StoreNext(t: Type, es: map<Value, Value>, table: seq<Slot>, done: set<Value>, k: Value)
    requires ValidType(t) && t.MapType? && k in es && k !in done
    requires PairsConvert(t, es, table, done + {k})
    ensures ConvertedPairs(t, es, table, done)[ConvertKey(t.key, k, table).value := Convert(t.elem, es[k], table).value]
            == ConvertedPairs(t, es, table, done + {k})
  {
  }

  /** The loop of dict.unmarshal: every pair stored, its value converted first and then its key. */
  method StorePairs(t: Type, es: map<Value, Value>, table: seq<Slot>) returns (r: Result<map<Out, Out>>)
    requires ValidType(t) && t.MapType?
    ensures r.Ok? <==> PairsConvert(t, es, table, es.Keys)
    ensures r.Ok? ==> r.value == ConvertedPairs(t, es, table, es.Keys)
    decreases t, 0
  {
    var m: map<Out, Out> := map[];
    var todo := es.Keys;
    ghost var done: set<Value> := {};
    while todo != {}
      invariant todo !! done && todo + done == es.Keys
      invariant PairsConvert(t, es, table, done)
      invariant m == ConvertedPairs(t, es, table, done)
      decreases todo
    {
      var k :| k in todo;
      var val := UnmarshalType(t.elem, es[k], table);
      if val.Err? {
        return Err(val.error);
      }
      var key := UnmarshalType(t.key, k, table);
      ConvertKeyAgrees(t.key, k, table);
      if key.Err? {
        return Err(key.error);
      }
      StoreNext(t, es, table, done, k);
      m := m[key.value := val.value];
      todo := todo - {k};
      done := done + {k};
    }
    r := Ok(m);
  }

  /** dict.unmarshal: a map target, into which every stored pair goes. */
  method DictUnmarshal(t: Type, es: map<Value, Value>, table: seq<Slot>) returns (r: Result<Out>)
    requires ValidType(t)
    ensures AsOption(r) == ConvertDict(t, es, table)
    ensures !t.MapType? ==> r == Err(NotMap)
    decreases t, 1
  {
    if !t.MapType? {
      return Err(NotMap);
    }
    var pairs := StorePairs(t, es, table);
    if pairs.Err? {
      return Err(pairs.error);
    }
    r := Ok(OMap(pairs.value));
  }

  /** The fieldMap of obj.unmarshal: each field's tag, or its name when it has none, to its index. */
  method BuildFieldMap(fs: seq<Field>) returns (m: map<seq<byte>, nat>)
    ensures m == FieldMap(fs)
  {
    m := map[];
    for i := 0 to |fs|
      invariant m == FieldMapUpTo(fs, i)
    {
      var f := fs[i];
      if f.tag.Some? {
        m := m[f.tag.value := i];
      } else {
        m := m[f.name := i];
      }
    }
  }

  /** Every filled field whose key is in `done` converts. */
  ghost predicate DoneConvert(t: Type, attrs: map<seq<byte>, Value>, table: seq<Slot>, done: set<seq<byte>>)
    requires ValidType(t) && t.StructType?
  {
    forall i :: 0 <= i < |t.fields| && Filled(t.fields, attrs, i) && KeyOf(t.fields[i]) in done ==>
      Convert(t.fields[i].ty, attrs[KeyOf(t.fields[i])], table).Some?
  }

  /** The fields obj.unmarshal has set once it has visited the attributes in `done`; the others are still zero. */
  ghost function PartialFields(t: Type, attrs: map<seq<byte>, Value>, table: seq<Slot>, done: set<seq<byte>>): seq<Out>
    requires ValidType(t) && t.StructType?
  {
    seq(|t.fields|, i requires 0 <= i < |t.fields| =>
      if KeyOf(t.fields[i]) in done then FieldValue(t, attrs, table, i) else Zero(t.fields[i].ty))
  }

  /** Visiting an attribute that fills no field changes nothing. */
  lemma SkipAttribute(t: Type, attrs: map<seq<byte>, Value>, table: seq<Slot>, done: set<seq<byte>>, key: seq<byte>)
    requires ValidType(t) && t.StructType? && DoneConvert(t, attrs, table, done)
    requires forall i :: 0 <= i < |t.fields| && KeyOf(t.fields[i]) == key ==> !Filled(t.fields, attrs, i)
    ensures DoneConvert(t, attrs, table, done + {key})
    ensures PartialFields(t, attrs, table, done + {key}) == PartialFields(t, attrs, table, done)
  {
  }

  /** Visiting the attribute that fills field `idx` sets that field to the attribute converted. */
  lemma FillAttribute(t: Type, attrs: map<seq<byte>, Value>, table: seq<Slot>, done: set<seq<byte>>, idx: nat, x: Out)
    requires ValidType(t) && t.StructType? && idx < |t.fields| && DoneConvert(t, attrs, table, done)
    requires Filled(t.fields, attrs, idx) && Convert(t.fields[idx].ty, attrs[KeyOf(t.fields[idx])], table) == Some(x)
    ensures DoneConvert(t, attrs, table, done + {KeyOf(t.fields[idx])})
    ensures PartialFields(t, attrs, table, done)[idx := x] == PartialFields(t, attrs, table, done + {KeyOf(t.fields[idx])})
  {
  }

  /** Once every attribute is visited, each field holds its final value. */
  lemma AllVisited(t: Type, attrs: map<seq<byte>, Value>, table: seq<Slot>)
    requires ValidType(t) && t.StructType?
    ensures PartialFields(t, attrs, table, attrs.Keys) == seq(|t.fields|, i requires 0 <= i < |t.fields| => FieldValue(t, attrs, table, i))
  {
    var p := PartialFields(t, attrs, table, attrs.Keys);
    forall i | 0 <= i < |t.fields| ensures p[i] == FieldValue(t, attrs, table, i) {
      if KeyOf(t.fields[i]) !in attrs {
        assert !Filled(t.fields, attrs, i);
      }
    }
  }

  /**
   * The loop of obj.unmarshal: each attribute whose key leads to a settable
   * field is converted into that field (a composite one directly by its
   * unmarshal method); the other attributes are skipped, and the fields no
   * attribute fills keep their zero value.
   */
  method FillFields(t: Type, attrs: map<seq<byte>, Value>, table: seq<Slot>) returns (r: Result<seq<Out>>)
    requires ValidType(t) && t.StructType?
    ensures r.Ok? <==> FieldsConvert(t, attrs, table)
    ensures r.Ok? ==> r.value == PartialFields(t, attrs, table, attrs.Keys)
    decreases t, 0
  {
    var fs := t.fields;
    var fieldMap := BuildFieldMap(fs);
    var out := seq(|fs|, i requires 0 <= i < |fs| => Zero(fs[i].ty));
    var todo := attrs.Keys;
    ghost var done: set<seq<byte>> := {};
    while todo != {}
      invariant todo !! done && todo + done == attrs.Keys
      invariant DoneConvert(t, attrs, table, done)
      invariant out == PartialFields(t, attrs, table, done)
      decreases todo
    {
      var key :| key in todo;
      todo := todo - {key};
      if key !in fieldMap || !fs[fieldMap[key]].settable {
        SkipAttribute(t, attrs, table, done, key);
        done := done + {key};
        continue;
      }
      var idx := fieldMap[key];
      var value := attrs[key];
      var x: Result<Out>;
      if value.Ref? && value.index < |table| && !table[value.index].Unset? {
        x := SlotUnmarshal(fs[idx].ty, table[value.index], table);
      } else {
        x := UnmarshalType(fs[idx].ty, value, table);
      }
      if x.Err? {
        assert Filled(fs, attrs, idx);
        return Err(x.error);
      }
      FillAttribute(t, attrs, table, done, idx, x.value);
      out := out[idx := x.value];
      done := done + {key};
    }
    r := Ok(out);
  }

  /** obj.unmarshal: a struct target, whose fields the attributes fill. */
  method ObjUnmarshal(t: Type, attrs: map<seq<byte>, Value>, table: seq<Slot>) returns (r: Result<Out>)
    requires ValidType(t)
    ensures AsOption(r) == ConvertStruct(t, attrs, table)
    ensures !t.StructType? ==> r == Err(NotStruct)
    decreases t, 1
  {
    if !t.StructType? {
      return Err(NotStruct);
    }
    var fields := FillFields(t, attrs, table);
    if fields.Err? {
      return Err(fields.error);
    }
    AllVisited(t, attrs, table);
    r := Ok(OStruct(fields.value));
  }

  /** What Unmarshal is given to fill: a non-nil pointer to a value of some type, or something else. */
  datatype Dest = PointerTo(target: Type) | NilPointer | NotAPointer

  /**
   * Unmarshal: the destination must be a non-nil pointer; the document is
   * parsed, and its root converted to the pointed-to type. On success the
   * result is the new value of `*v`, and it has that type.
   */
  method Unmarshal(data: seq<byte>, pf: FloatParser, dest: Dest) returns (r: Result<Out>)
    requires dest.PointerTo? ==> ValidType(dest.target)
    ensures !dest.PointerTo? ==> r == Err(NotPointer)
    ensures dest.PointerTo? && Decode(data, pf).Err? ==> r == Err(Decode(data, pf).error)
    ensures dest.PointerTo? && Decode(data, pf).Ok? ==>
              AsOption(r) == Convert(dest.target, Decode(data, pf).value.root, Decode(data, pf).value.table)
    ensures r.Ok? ==> dest.PointerTo? && HasType(r.value, dest.target)
  {
    if !dest.PointerTo? {
      return Err(NotPointer);
    }
    var root := ParseDocument(data, pf);
    if root.Err? {
      return Err(root.error);
    }
    r := UnmarshalType(dest.target, root.value.root, root.value.table);
    if r.Ok? {
      ConvertHasType(dest.target, root.value.root, root.value.table, r.value);
    }
  }
}
