/**
 * The decoder of parse.go and the parse methods of object.go, as a class
 * that owns the byte buffer and the object table of one decode. (In Go the
 * table is a package variable that `parse` re-creates on every call; here it
 * is a field of the Decoder that one call allocates.) Every method is proved
 * to do exactly what the reference definition in grammar.dfy says.
 */
module Decoding {
  import opened Base
  import opened Buffers
  import opened Values
  import opened Grammar

  /**
   * A parse method's outcome `err` and the table it left agree with the
   * reference outcome `r` for slot `i`: the same error, or slot `i` replaced
   * by the parsed slot and the cursor just past its payload.
   */
  ghost predicate Refilled(err: Option<Error>, r: Result<Parsed<Slot>>, before: seq<Slot>, after: seq<Slot>, i: nat, off: nat)
  {
    match r
    case Err(e) => err == Some(e)
    case Ok(p) => err.None? && i < |before| && after == before[i := p.val] && off == p.next
  }

  class Decoder {
    const buf: Buffer
    const parseFloat: FloatParser
    var table: seq<Slot>

    ghost predicate Valid()
      reads this, buf
    {
      buf.Valid()
    }

    /** newBuffer(data) with an empty object table. */
    constructor (data: seq<byte>, pf: FloatParser)
      ensures Valid() && fresh(buf)
      ensures buf.data == data && buf.off == 0 && parseFloat == pf && table == []
    {
      buf := new Buffer(data);
      parseFloat := pf;
      table := [];
    }

    /** parseElem: read a tag byte and its payload. */
    method ParseElem() returns (r: Result<Value>)
      requires Valid()
      modifies buf
      ensures Valid() && old(buf.off) <= buf.off
      ensures Step(r, buf.off) == ElemAt(buf.data, old(buf.off), table, parseFloat)
    {
      var code := buf.ReadByte();
      if code.Err? {
        return Err(code.error);
      }
      var tag := code.value;
      if tag == TAG_BOOL {
        r := ParseBool();
      } else if tag == TAG_INT || tag == TAG_LONG {
        var n := buf.ReadLineInt();
        r := if n.Ok? then Ok(Int(n.value)) else Err(n.error);
      } else if tag == TAG_FLOAT {
        r := ParseFloat();
      } else if tag == TAG_REF {
        r := ParseRef();
      } else if tag == TAG_STR || tag == TAG_UNICODE {
        r := ParseStr();
      } else if tag == TAG_NONE {
        r := Ok(Nil);
      } else {
        r := Err(BadTag(tag));
      }
    }

    /** The `b` case of parseElem: one byte, '1' or '0'. */
    method ParseBool() returns (r: Result<Value>)
      requires Valid()
      modifies buf
      ensures Valid() && old(buf.off) <= buf.off
      ensures Step(r, buf.off) == BoolAt(buf.data, old(buf.off))
    {
      var val := buf.ReadByte();
      if val.Err? {
        return Err(val.error);
      }
      if val.value == TRUE_BYTE {
        r := Ok(Bool(true));
      } else if val.value == FALSE_BYTE {
        r := Ok(Bool(false));
      } else {
        r := Err(BadBool(val.value));
      }
    }

    /** The `f` case of parseElem: one line, handed to strconv.ParseFloat. */
    method ParseFloat() returns (r: Result<Value>)
      requires Valid()
      modifies buf
      ensures Valid() && old(buf.off) <= buf.off
      ensures Step(r, buf.off) == FloatAt(buf.data, old(buf.off), parseFloat)
    {
      var line, eof := buf.ReadLineStr();
      if eof {
        return Err(Eof);
      }
      var f := parseFloat(line);
      r := if f.Some? then Ok(Float(f.value)) else Err(BadFloat);
    }

    /** The `r` case of parseElem: an index line, checked against the table. */
    method ParseRef() returns (r: Result<Value>)
      requires Valid()
      modifies buf
      ensures Valid() && old(buf.off) <= buf.off
      ensures Step(r, buf.off) == RefAt(buf.data, old(buf.off), table)
    {
      var idx := buf.ReadLineInt();
      if idx.Err? {
        return Err(idx.error);
      }
      if idx.value < 0 || idx.value >= |table| {
        return Err(BadRef(idx.value));
      }
      r := Ok(if table[idx.value].Unset? then Nil else Ref(idx.value));
    }

    /** The `s` and `u` cases of parseElem: a length line, then that many bytes. */
    method ParseStr() returns (r: Result<Value>)
      requires Valid()
      modifies buf
      ensures Valid() && old(buf.off) <= buf.off
      ensures Step(r, buf.off) == StrAt(buf.data, old(buf.off))
    {
      var len := buf.ReadLineInt();
      if len.Err? {
        return Err(len.error);
      }
      if len.value < 0 {
        return Err(NegativeLength(len.value));
      }
      var val := buf.Read(len.value);
      r := if val.Ok? then Ok(Str(val.value)) else Err(val.error);
    }

    /** list.parse (and tuple.parse) on slot `i`: a count line, then that many elements. */
    method ListParse(i: nat) returns (err: Option<Error>)
      requires Valid() && i < |table| && (table[i].List? || table[i].Tuple?)
      modifies this, buf
      ensures Valid() && old(buf.off) <= buf.off
      ensures Refilled(err, ListSlotAt(buf.data, old(buf.off), old(table), parseFloat, old(table)[i].Tuple?), old(table), table, i, buf.off)
    {
      var count := buf.ReadLineInt();
      if count.Err? {
        return Some(count.error);
      }
      if count.value < 0 {
        return Some(NegativeLength(count.value));
      }
      ghost var start := buf.off;
      ghost var whole := ElemsAt(buf.data, start, table, parseFloat, count.value, []);
      var vals: seq<Value> := [];
      var k := 0;
      while k < count.value
        invariant Valid() && table == old(table)
        invariant 0 <= k <= count.value && start <= buf.off
        invariant whole == ElemsAt(buf.data, buf.off, table, parseFloat, count.value - k, vals)
      {
        ghost var before := buf.off;
        ghost var rest: nat := count.value - k;
        var v := ParseElem();
        ElemsAtStep(buf.data, before, table, parseFloat, rest, vals, v, buf.off);
        if v.Err? {
          return Some(v.error);
        }
        vals := vals + [v.value];
        k := k + 1;
        assert count.value - k == rest - 1;
      }
      table := table[i := if table[i].Tuple? then Tuple(vals) else List(vals)];
      err := None;
    }

    /** dict.parse on slot `i`: a count line, then that many (value, key) pairs. */
    method DictParse(i: nat) returns (err: Option<Error>)
      requires Valid() && i < |table| && table[i].Dict?
      modifies this, buf
      ensures Valid() && old(buf.off) <= buf.off
      ensures Refilled(err, DictSlotAt(buf.data, old(buf.off), old(table), parseFloat), old(table), table, i, buf.off)
    {
      var count := buf.ReadLineInt();
      if count.Err? {
        return Some(count.error);
      }
      var pairs := ParsePairs(count.value);
      if pairs.Err? {
        return Some(pairs.error);
      }
      table := table[i := Dict(pairs.value)];
      err := None;
    }

    /** The loop of dict.parse: `count` pairs, none when `count` is negative, stored into a fresh map. */
    method ParsePairs(count: int) returns (r: Result<map<Value, Value>>)
      requires Valid()
      modifies buf
      ensures Valid() && old(buf.off) <= buf.off
      ensures Step(r, buf.off) == PairsAt(buf.data, old(buf.off), table, parseFloat, if count < 0 then 0 else count, map[])
    {
      var left: nat := if count < 0 then 0 else count;
      ghost var whole := PairsAt(buf.data, buf.off, table, parseFloat, left, map[]);
      var entries: map<Value, Value> := map[];
      while left > 0
        invariant Valid() && old(buf.off) <= buf.off
        invariant whole == PairsAt(buf.data, buf.off, table, parseFloat, left, entries)
      {
        var pair := ParsePair(left, entries);
        if pair.Err? {
          return Err(pair.error);
        }
        entries := entries[pair.value.1 := pair.value.0];
        left := left - 1;
      }
      r := Ok(entries);
    }

    /** One pass of the loop of dict.parse: a value, then its key; the rest of the loop goes on from just past them. */
    method ParsePair(ghost k: nat, ghost acc: map<Value, Value>) returns (r: Result<(Value, Value)>)
      requires Valid() && 0 < k
      modifies buf
      ensures Valid() && old(buf.off) <= buf.off
      ensures r.Err? ==> PairsAt(buf.data, old(buf.off), table, parseFloat, k, acc) == Err(r.error)
      ensures r.Ok? ==> PairsAt(buf.data, old(buf.off), table, parseFloat, k, acc)
                        == PairsAt(buf.data, buf.off, table, parseFloat, k - 1, acc[r.value.1 := r.value.0])
    {
      ghost var before := buf.off;
      var val := ParseElem();
      ghost var mid := buf.off;
      if val.Err? {
        PairsAtStep(buf.data, before, table, parseFloat, k, acc, val, mid, val, mid);
        return Err(val.error);
      }
      var key := ParseElem();
      PairsAtStep(buf.data, before, table, parseFloat, k, acc, val, mid, key, buf.off);
      if key.Err? {
        return Err(key.error);
      }
      r := Ok((val.value, key.value));
    }

    /** obj.parse on slot `i`: copy the entries of the dict the next element names into the attributes. */
    method ObjParse(i: nat) returns (err: Option<Error>)
      requires Valid() && i < |table| && table[i].Obj?
      modifies this, buf
      ensures Valid() && old(buf.off) <= buf.off
      ensures Refilled(err, ObjSlotAt(buf.data, old(buf.off), old(table), parseFloat, old(table)[i].name, old(table)[i].attrs),
                       old(table), table, i, buf.off)
    {
      ghost var off0 := buf.off;
      var v := ParseElem();
      ObjAtStep(buf.data, off0, table, parseFloat, table[i].attrs, v, buf.off);
      if v.Err? {
        return Some(v.error);
      }
      if !(v.value.Ref? && v.value.index < |table| && table[v.value.index].Dict?) {
        return Some(NotADict);
      }
      var attrs := CopyStrKeyed(table[i].attrs, table[v.value.index].entries);
      if attrs.Err? {
        return Some(attrs.error);
      }
      table := table[i := Obj(table[i].name, attrs.value)];
      err := None;
    }
    /** `objs[i].parse(buf)`: dispatch on the kind of slot `i` (a nil slot would panic). */
    method SlotParse(i: nat) returns (err: Option<Error>)
      requires Valid() && i < |table|
      modifies this, buf
      ensures Valid() && old(buf.off) <= buf.off
      ensures Refilled(err, SlotAt(buf.data, old(buf.off), old(table), parseFloat, i), old(table), table, i, buf.off)
    {
      match table[i]
      case Unset => err := Some(NilObject(i));
      case List(_) => err := ListParse(i);
      case Tuple(_) => err := ListParse(i);
      case Dict(_) => err := DictParse(i);
      case Obj(_, _) => err := ObjParse(i);
    }

    /** parse: the magic line, the object count, phases 1 and 2, then the root element. */
    method Parse() returns (r: Result<Decoded>)
      requires Valid() && buf.off == 0
      modifies this, buf
      ensures Valid()
      ensures r == Decode(buf.data, parseFloat)
    {
      var line, eof := buf.ReadLineStr();
      if eof {
        return Err(Eof);
      }
      if line != MAGIC {
        return Err(BadMagic(line));
      }
      var count := buf.ReadLineInt();
      if count.Err? {
        return Err(count.error);
      }
      if count.value < 0 {
        return Err(NegativeLength(count.value));
      }
      table := NilSlots(count.value);
      ghost var start := buf.off;
      assert Decode(buf.data, parseFloat) == ObjectsAt(buf.data, start, count.value, parseFloat);
      var numTuples := DeclareSlots();
      if numTuples.Err? {
        return Err(numTuples.error);
      }
      ghost var mid, declared := buf.off, table;
      var err := FillSlots(count.value - numTuples.value);
      if err.Some? {
        return Err(err.value);
      }
      assert Decode(buf.data, parseFloat) == RootAt(buf.data, buf.off, table, parseFloat);
      var root := ParseElem();
      if root.Err? {
        return Err(root.error);
      }
      r := Ok(Decoded(root.value, table));
    }

    /**
     * The first loop of parse: one type line per slot, allocating it; tuples
     * are parsed on the spot. Yields the number of tuples.
     */
    method DeclareSlots() returns (r: Result<nat>)
      requires Valid()
      modifies this, buf
      ensures Valid() && old(buf.off) <= buf.off
      ensures var d := Phase1(buf.data, old(buf.off), old(table), parseFloat, 0, 0, []);
              match r
              case Err(e) => d == Err(e)
              case Ok(n) => d.Ok? && d.value.next == buf.off && d.value.table == table && d.value.numTuples == n
    {
      ghost var start, table1 := buf.off, table;
      ghost var names: seq<seq<byte>> := [];
      var numTuples := 0;
      var i := 0;
      while i < |table|
        invariant Valid() && |table| == |table1|
        invariant 0 <= numTuples <= i <= |table| && start <= buf.off
        invariant Phase1(buf.data, start, table1, parseFloat, 0, 0, [])
               == Phase1(buf.data, buf.off, table, parseFloat, i, numTuples, names)
      {
        var objType := DeclareSlot(i, numTuples, names);
        if objType.Err? {
          return Err(objType.error);
        }
        if objType.value == TUPLE {
          numTuples := numTuples + 1;
        }
        names := names + [objType.value];
        i := i + 1;
      }
      r := Ok(numTuples);
    }

    /**
     * One pass of the first loop of parse, for slot `i`: read its type line and
     * allocate the slot (parsing a tuple at once); yields the type line.
     */
    method DeclareSlot(i: nat, ghost numTuples: nat, ghost names: seq<seq<byte>>) returns (r: Result<seq<byte>>)
      requires Valid() && i < |table| && numTuples <= i
      modifies this, buf
      ensures Valid() && old(buf.off) <= buf.off
      ensures r.Err? ==> Phase1(buf.data, old(buf.off), old(table), parseFloat, i, numTuples, names) == Err(r.error)
      ensures r.Ok? ==> |table| == |old(table)|
      ensures r.Ok? ==> Phase1(buf.data, old(buf.off), old(table), parseFloat, i, numTuples, names)
                        == Phase1(buf.data, buf.off, table, parseFloat, i + 1,
                                  if r.value == TUPLE then numTuples + 1 else numTuples, names + [r.value])
    {
      ghost var off0, table0 := buf.off, table;
      var objType, eof := buf.ReadLineStr();
      if eof {
        Phase1Next(buf.data, off0, table0, parseFloat, i, numTuples, names, objType, buf.off, true, None, table, buf.off);
        return Err(Eof);
      }
      ghost var next := buf.off;
      var err: Option<Error> := None;
      if objType == DICT {
        table := table[i := Dict(map[])];
      } else if objType == LIST || objType == SET {
        table := table[i := List([])];
      } else if objType == TUPLE {
        table := table[i := Tuple([])];
        err := ListParse(i);
      } else {
        table := table[i := Obj(objType, map[])];
      }
      Phase1Next(buf.data, off0, table0, parseFloat, i, numTuples, names, objType, next, false, err, table, buf.off);
      if err.Some? {
        return Err(err.value);
      }
      r := Ok(objType);
    }

    /** The second loop of parse: the payloads of slots 0 to `limit` - 1, by index. */
    method FillSlots(limit: nat) returns (err: Option<Error>)
      requires Valid() && limit <= |table|
      modifies this, buf
      ensures Valid() && old(buf.off) <= buf.off
      ensures var p := Phase2(buf.data, old(buf.off), old(table), parseFloat, 0, limit);
              match err
              case Some(e) => p == Err(e)
              case None => p == Ok(Parsed(table, buf.off))
    {
      ghost var start, table2 := buf.off, table;
      var i := 0;
      while i < limit
        invariant Valid() && |table| == |table2|
        invariant 0 <= i <= limit && start <= buf.off
        invariant Phase2(buf.data, start, table2, parseFloat, 0, limit)
               == Phase2(buf.data, buf.off, table, parseFloat, i, limit)
      {
        ghost var off0, table0 := buf.off, table;
        err := SlotParse(i);
        Phase2Next(buf.data, off0, table0, parseFloat, i, limit, err, table, buf.off);
        if err.Some? {
          return;
        }
        i := i + 1;
      }
      err := None;
    }
  }

  /** One iteration of the phase-1 loop, as the method performs it: the phase goes on from where it ends. */
  lemma Phase1Next(data: seq<byte>, off: nat, table: seq<Slot>, pf: FloatParser, i: nat, numTuples: nat, names: seq<seq<byte>>,
                   line: seq<byte>, next: nat, eof: bool, err: Option<Error>, after: seq<Slot>, off2: nat)
    requires off <= next <= off2 <= |data| && i < |table| && numTuples <= i
    requires LineAt(data, off) == Line(line, next, eof)
    requires !eof && line == TUPLE ==>
               Refilled(err, ListSlotAt(data, next, table[i := SlotFor(line)], pf, true), table[i := SlotFor(line)], after, i, off2)
    requires !eof && line != TUPLE ==> err.None? && after == table[i := SlotFor(line)] && off2 == next
    ensures eof ==> Phase1(data, off, table, pf, i, numTuples, names) == Err(Eof)
    ensures !eof && err.Some? ==> Phase1(data, off, table, pf, i, numTuples, names) == Err(err.value)
    ensures !eof && err.None? ==>
              && |after| == |table|
              && Phase1(data, off, table, pf, i, numTuples, names)
                 == Phase1(data, off2, after, pf, i + 1, if line == TUPLE then numTuples + 1 else numTuples, names + [line])
  {
  }

  /** One iteration of the phase-2 loop: the phase goes on from where the slot's parse ends. */
  lemma Phase2Next(data: seq<byte>, off: nat, table: seq<Slot>, pf: FloatParser, i: nat, limit: nat,
                   err: Option<Error>, after: seq<Slot>, off2: nat)
    requires off <= off2 <= |data| && i < limit <= |table|
    requires Refilled(err, SlotAt(data, off, table, pf, i), table, after, i, off2)
    ensures err.Some? ==> Phase2(data, off, table, pf, i, limit) == Err(err.value)
    ensures err.None? ==> |after| == |table| && Phase2(data, off, table, pf, i, limit) == Phase2(data, off2, after, pf, i + 1, limit)
  {
  }

  /**
   * The loop of obj.parse: store each entry of a dict under its string key,
   * failing on the first key that is not a string.
   */
  method CopyStrKeyed(attrs: map<seq<byte>, Value>, entries: map<Value, Value>) returns (r: Result<map<seq<byte>, Value>>)
    ensures r.Err? <==> exists k :: k in entries && !k.Str?
    ensures r.Err? ==> r.error == NonStringKey
    ensures r.Ok? ==> (forall k :: k in entries ==> k.Str?) && r.value == attrs + StrKeyed(entries)
  {
    var out := attrs;
    var todo := entries.Keys;
    ghost var done: set<Value> := {};
    while todo != {}
      invariant todo !! done && todo + done == entries.Keys
      invariant forall k :: k in done ==> k.Str?
      invariant forall a :: a in out <==> a in attrs || Str(a) in done
      invariant forall a :: a in out ==> out[a] == if Str(a) in done then entries[Str(a)] else attrs[a]
      decreases todo
    {
      var k :| k in todo;
      if !k.Str? {
        return Err(NonStringKey);
      }
      out := out[k.s := entries[k]];
      todo := todo - {k};
      done := done + {k};
    }
    assert out == attrs + StrKeyed(entries) by {
      var want := attrs + StrKeyed(entries);
      assert forall a :: a in want <==> a in attrs || Str(a) in entries;
      assert out.Keys == want.Keys;
    }
    r := Ok(out);
  }

  /** Go's `parse(data)`: a fresh decoder (and so a fresh table) for each call. */
  method ParseDocument(data: seq<byte>, pf: FloatParser) returns (r: Result<Decoded>)
    ensures r == Decode(data, pf)
  {
    var d := new Decoder(data, pf);
    r := d.Parse();
  }
}
