/**
 * The reference definition of the decoder (parse.go `parseElem` and `parse`,
 * object.go `parse` methods) as functions of the input bytes, the read
 * offset and the object table. Each function gives the outcome of one read:
 * an error, or the value and the offset just past it. The class in
 * decoder.dfy performs the same reads on a Buffer and is proved to agree.
 */
module Grammar {
  import opened Base
  import opened Strconv
  import opened Buffers
  import opened Values

  const TAG_BOOL: byte := 98      // 'b'
  const TAG_INT: byte := 105      // 'i'
  const TAG_LONG: byte := 108     // 'l'
  const TAG_FLOAT: byte := 102    // 'f'
  const TAG_REF: byte := 114      // 'r'
  const TAG_STR: byte := 115      // 's'
  const TAG_UNICODE: byte := 117  // 'u'
  const TAG_NONE: byte := 110     // 'n'
  const TRUE_BYTE: byte := 49     // '1'
  const FALSE_BYTE: byte := 48    // '0'

  const MAGIC: seq<byte> := Ascii("cereal1")
  const DICT: seq<byte> := Ascii("dict")
  const LIST: seq<byte> := Ascii("list")
  const SET: seq<byte> := Ascii("set")
  const TUPLE: seq<byte> := Ascii("tuple")

  predicate IsTag(b: byte)
  {
    b in {TAG_BOOL, TAG_INT, TAG_LONG, TAG_FLOAT, TAG_REF, TAG_STR, TAG_UNICODE, TAG_NONE}
  }

  /** parseElem: one tagged element at `off`. */
  function ElemAt(data: seq<byte>, off: nat, table: seq<Slot>, pf: FloatParser): (r: Result<Parsed<Value>>)
    requires off <= |data|
    ensures r.Ok? ==> off < r.value.next <= |data| && ValueOk(table, r.value.val)
    ensures r.Ok? ==> IsTag(data[off])
  {
    if off == |data| then Err(Eof)
    else
      var tag := data[off];
      if tag == TAG_BOOL then BoolAt(data, off + 1)
      else if tag == TAG_INT || tag == TAG_LONG then IntAt(data, off + 1)
      else if tag == TAG_FLOAT then FloatAt(data, off + 1, pf)
      else if tag == TAG_REF then RefAt(data, off + 1, table)
      else if tag == TAG_STR || tag == TAG_UNICODE then StrAt(data, off + 1)
      else if tag == TAG_NONE then Ok(Parsed(Nil, off + 1))
      else Err(BadTag(tag))
  }

  /** The payload of a `b` element: exactly one byte, '1' for true or '0' for false. */
  function BoolAt(data: seq<byte>, off: nat): (r: Result<Parsed<Value>>)
    requires off <= |data|
    ensures r.Ok? <==> off < |data| && (data[off] == TRUE_BYTE || data[off] == FALSE_BYTE)
    ensures r.Ok? ==> r.value == Parsed(Bool(data[off] == TRUE_BYTE), off + 1)
  {
    if off == |data| then Err(Eof)
    else if data[off] == TRUE_BYTE then Ok(Parsed(Bool(true), off + 1))
    else if data[off] == FALSE_BYTE then Ok(Parsed(Bool(false), off + 1))
    else Err(BadBool(data[off]))
  }

  /** The payload of an `i` or `l` element: one integer line. */
  function IntAt(data: seq<byte>, off: nat): (r: Result<Parsed<Value>>)
    requires off <= |data|
    ensures r.Ok? ==> off < r.value.next <= |data| && r.value.val.Int?
  {
    match LineIntAt(data, off)
    case Err(e) => Err(e)
    case Ok(p) => Ok(Parsed(Int(p.val), p.next))
  }

  /** The payload of an `f` element: one line, handed to the float parser. */
  function FloatAt(data: seq<byte>, off: nat, pf: FloatParser): (r: Result<Parsed<Value>>)
    requires off <= |data|
    ensures r.Ok? ==> off < r.value.next <= |data| && r.value.val.Float?
  {
    var l := LineAt(data, off);
    if l.eof then Err(Eof)
    else
      match pf(l.text)
      case None => Err(BadFloat)
      case Some(bits) => Ok(Parsed(Float(bits), l.next))
  }

  /**
   * An `f` payload fails with EOF whenever its line hits the end of the data;
   * it succeeds exactly when the line is complete and the float parser
   * accepts it, and then yields the parser's bits and ends where the line does.
   */
  lemma FloatAtOutcome(data: seq<byte>, off: nat, pf: FloatParser)
    requires off <= |data|
    ensures NEWLINE !in data[off..] ==> FloatAt(data, off, pf) == Err(Eof)
    ensures FloatAt(data, off, pf).Ok? <==> !LineAt(data, off).eof && pf(LineAt(data, off).text).Some?
    ensures FloatAt(data, off, pf).Ok? ==>
              FloatAt(data, off, pf).value == Parsed(Float(pf(LineAt(data, off).text).value), LineAt(data, off).next)
    ensures !LineAt(data, off).eof && pf(LineAt(data, off).text).None? ==> FloatAt(data, off, pf) == Err(BadFloat)
  {
    LineAtSplits(data, off);
  }

  /**
   * The payload of an `r` element: an index line, accepted only inside the
   * table; a slot phase 1 has not reached yet is still nil and yields Nil.
   */
  function RefAt(data: seq<byte>, off: nat, table: seq<Slot>): (r: Result<Parsed<Value>>)
    requires off <= |data|
    ensures r.Ok? ==> off < r.value.next <= |data| && ValueOk(table, r.value.val)
    ensures r.Ok? <==> LineIntAt(data, off).Ok? && 0 <= LineIntAt(data, off).value.val < |table|
    ensures r.Ok? && r.value.val.Ref? ==> r.value.val.index == LineIntAt(data, off).value.val
    ensures r.Ok? ==> r.value.val.Ref? || r.value.val.Nil?
    ensures r.Ok? ==> (r.value.val.Nil? <==> table[LineIntAt(data, off).value.val].Unset?)
  {
    match LineIntAt(data, off)
    case Err(e) => Err(e)
    case Ok(p) =>
      if p.val < 0 || p.val >= |table| then Err(BadRef(p.val))
      else Ok(Parsed(if table[p.val].Unset? then Nil else Ref(p.val), p.next))
  }

  /** The payload of an `s` or `u` element: a length line, then one Read of that many bytes. */
  function StrAt(data: seq<byte>, off: nat): (r: Result<Parsed<Value>>)
    requires off <= |data|
    ensures r.Ok? ==> off < r.value.next <= |data| && r.value.val.Str?
    ensures r.Ok? ==> LineIntAt(data, off).Ok? && |r.value.val.s| == LineIntAt(data, off).value.val
  {
    match LineIntAt(data, off)
    case Err(e) => Err(e)
    case Ok(p) =>
      if p.val < 0 then Err(NegativeLength(p.val))
      else
        match ReadAt(data, p.next, p.val)
        case Err(e) => Err(e)
        case Ok(q) => Ok(Parsed(Str(q.val), q.next))
  }

  /** The loop of list.parse: `k` more elements, appended to `acc` in stream order. */
  function ElemsAt(data: seq<byte>, off: nat, table: seq<Slot>, pf: FloatParser, k: nat, acc: seq<Value>)
    : (r: Result<Parsed<seq<Value>>>)
    requires off <= |data|
    ensures r.Ok? ==> off <= r.value.next <= |data|
    ensures r.Ok? ==> |r.value.val| == |acc| + k && r.value.val[..|acc|] == acc
    ensures r.Ok? ==> forall i :: |acc| <= i < |r.value.val| ==> ValueOk(table, r.value.val[i])
    decreases k
  {
    if k == 0 then Ok(Parsed(acc, off))
    else
      match ElemAt(data, off, table, pf)
      case Err(e) => Err(e)
      case Ok(p) => ElemsAt(data, p.next, table, pf, k - 1, acc + [p.val])
  }

  /** One more element read by the loop of list.parse: the rest of the loop goes on from just past it. */
  lemma ElemsAtStep(data: seq<byte>, off: nat, table: seq<Slot>, pf: FloatParser, k: nat, acc: seq<Value>, r: Result<Value>, next: nat)
    requires off <= next <= |data| && 0 < k
    requires Step(r, next) == ElemAt(data, off, table, pf)
    ensures r.Err? ==> ElemsAt(data, off, table, pf, k, acc) == Err(r.error)
    ensures r.Ok? ==> ElemsAt(data, off, table, pf, k, acc) == ElemsAt(data, next, table, pf, k - 1, acc + [r.value])
  {
  }

  /** list.parse (also tuple.parse): a count line, then that many elements. */
  function ListAt(data: seq<byte>, off: nat, table: seq<Slot>, pf: FloatParser): (r: Result<Parsed<seq<Value>>>)
    requires off <= |data|
  {
    match LineIntAt(data, off)
    case Err(e) => Err(e)
    case Ok(c) =>
      if c.val < 0 then Err(NegativeLength(c.val))
      else ElemsAt(data, c.next, table, pf, c.val, [])
  }

  /** The loop of dict.parse: `k` more pairs, each value first and key second, stored into `acc`. */
  function PairsAt(data: seq<byte>, off: nat, table: seq<Slot>, pf: FloatParser, k: nat, acc: map<Value, Value>)
    : (r: Result<Parsed<map<Value, Value>>>)
    requires off <= |data|
    ensures r.Ok? ==> off <= r.value.next <= |data|
    decreases k
  {
    if k == 0 then Ok(Parsed(acc, off))
    else
      match ElemAt(data, off, table, pf)
      case Err(e) => Err(e)
      case Ok(v) =>
        match ElemAt(data, v.next, table, pf)
        case Err(e) => Err(e)
        case Ok(key) => PairsAt(data, key.next, table, pf, k - 1, acc[key.val := v.val])
  }

  /** One more pair read by the loop of dict.parse: the rest of the loop goes on from just past it. */
  lemma PairsAtStep(data: seq<byte>, off: nat, table: seq<Slot>, pf: FloatParser, k: nat, acc: map<Value, Value>,
                    val: Result<Value>, mid: nat, key: Result<Value>, next: nat)
    requires off <= mid <= next <= |data| && 0 < k
    requires Step(val, mid) == ElemAt(data, off, table, pf)
    requires val.Ok? ==> Step(key, next) == ElemAt(data, mid, table, pf)
    ensures val.Err? ==> PairsAt(data, off, table, pf, k, acc) == Err(val.error)
    ensures val.Ok? && key.Err? ==> PairsAt(data, off, table, pf, k, acc) == Err(key.error)
    ensures val.Ok? && key.Ok? ==>
              PairsAt(data, off, table, pf, k, acc) == PairsAt(data, next, table, pf, k - 1, acc[key.value := val.value])
  {
  }

  /** dict.parse: a count line, then that many pairs; a negative count reads no pair. */
  function DictAt(data: seq<byte>, off: nat, table: seq<Slot>, pf: FloatParser): (r: Result<Parsed<map<Value, Value>>>)
    requires off <= |data|
  {
    match LineIntAt(data, off)
    case Err(e) => Err(e)
    case Ok(c) => PairsAt(data, c.next, table, pf, if c.val < 0 then 0 else c.val, map[])
  }

  /** The entries of a dict whose keys are all strings, keyed by those strings. */
  function StrKeyed(entries: map<Value, Value>): (attrs: map<seq<byte>, Value>)
    requires forall k :: k in entries ==> k.Str?
    ensures forall k :: k in entries ==> k.s in attrs && attrs[k.s] == entries[k]
    ensures forall a :: a in attrs ==> Str(a) in entries
  {
    map k | k in entries :: k.s := entries[k]
  }

  /**
   * obj.parse: one element, which must name a dict slot whose keys are all
   * strings; its entries, as they are now, are added to the attributes.
   */
  function ObjAt(data: seq<byte>, off: nat, table: seq<Slot>, pf: FloatParser, attrs: map<seq<byte>, Value>)
    : (r: Result<Parsed<map<seq<byte>, Value>>>)
    requires off <= |data|
  {
    match ElemAt(data, off, table, pf)
    case Err(e) => Err(e)
    case Ok(p) => AttrsOf(p.val, p.next, table, attrs)
  }

  /** What obj.parse makes of the element `v` it read, which ended at `next`. */
  function AttrsOf(v: Value, next: nat, table: seq<Slot>, attrs: map<seq<byte>, Value>)
    : (r: Result<Parsed<map<seq<byte>, Value>>>)
  {
    if !(v.Ref? && v.index < |table| && table[v.index].Dict?) then Err(NotADict)
    else
      var entries := table[v.index].entries;
      if exists k :: k in entries && !k.Str? then Err(NonStringKey)
      else Ok(Parsed(attrs + StrKeyed(entries), next))
  }

  /** obj.parse after its one element: the outcome depends only on that element and where it ended. */
  lemma ObjAtStep(data: seq<byte>, off: nat, table: seq<Slot>, pf: FloatParser, attrs: map<seq<byte>, Value>,
                  v: Result<Value>, next: nat)
    requires off <= next <= |data|
    requires Step(v, next) == ElemAt(data, off, table, pf)
    ensures v.Err? ==> ObjAt(data, off, table, pf, attrs) == Err(v.error)
    ensures v.Ok? ==> ObjAt(data, off, table, pf, attrs) == AttrsOf(v.value, next, table, attrs)
  {
  }

  /** `objs[i].parse(buf)`: the parse method of slot `i`'s kind; the slot keeps its kind. */
  function SlotAt(data: seq<byte>, off: nat, table: seq<Slot>, pf: FloatParser, i: nat): (r: Result<Parsed<Slot>>)
    requires off <= |data| && i < |table|
    ensures r.Ok? ==> off <= r.value.next <= |data| && SameKind(table[i], r.value.val)
  {
    match table[i]
    case Unset => Err(NilObject(i))
    case List(_) => ListSlotAt(data, off, table, pf, false)
    case Tuple(_) => ListSlotAt(data, off, table, pf, true)
    case Dict(_) => DictSlotAt(data, off, table, pf)
    case Obj(name, attrs) => ObjSlotAt(data, off, table, pf, name, attrs)
  }

  /** list.parse or tuple.parse, as the slot it leaves. */
  function ListSlotAt(data: seq<byte>, off: nat, table: seq<Slot>, pf: FloatParser, tuple: bool): (r: Result<Parsed<Slot>>)
    requires off <= |data|
    ensures r.Ok? ==> off <= r.value.next <= |data| && (if tuple then r.value.val.Tuple? else r.value.val.List?)
  {
    match ListAt(data, off, table, pf)
    case Err(e) => Err(e)
    case Ok(p) => Ok(Parsed(if tuple then Tuple(p.val) else List(p.val), p.next))
  }

  /** dict.parse, as the slot it leaves. */
  function DictSlotAt(data: seq<byte>, off: nat, table: seq<Slot>, pf: FloatParser): (r: Result<Parsed<Slot>>)
    requires off <= |data|
    ensures r.Ok? ==> off <= r.value.next <= |data| && r.value.val.Dict?
  {
    match DictAt(data, off, table, pf)
    case Err(e) => Err(e)
    case Ok(p) => Ok(Parsed(Dict(p.val), p.next))
  }

  /** obj.parse on an object of class `name` with attributes `attrs`, as the slot it leaves. */
  function ObjSlotAt(data: seq<byte>, off: nat, table: seq<Slot>, pf: FloatParser, name: seq<byte>, attrs: map<seq<byte>, Value>)
    : (r: Result<Parsed<Slot>>)
    requires off <= |data|
    ensures r.Ok? ==> off <= r.value.next <= |data| && r.value.val.Obj? && r.value.val.name == name
  {
    match ObjAt(data, off, table, pf, attrs)
    case Err(e) => Err(e)
    case Ok(p) => Ok(Parsed(Obj(name, p.val), p.next))
  }

  /** The state after phase 1: the offset, the table, the tuple count and the type lines read. */
  datatype Declarations = Declarations(next: nat, table: seq<Slot>, numTuples: nat, names: seq<seq<byte>>)

  /** The empty slot a type line allocates (a tuple is then filled on the spot). */
  function SlotFor(name: seq<byte>): Slot
  {
    if name == DICT then Dict(map[])
    else if name == LIST || name == SET then List([])
    else if name == TUPLE then Tuple([])
    else Obj(name, map[])
  }

  /**
   * Phase 1 of parse, from slot `i` on: read a type line per slot and allocate
   * the slot; a tuple is parsed at once, with its own slot already allocated.
   */
  function Phase1(data: seq<byte>, off: nat, table: seq<Slot>, pf: FloatParser, i: nat, numTuples: nat, names: seq<seq<byte>>)
    : (r: Result<Declarations>)
    requires off <= |data| && i <= |table| && numTuples <= i
    ensures r.Ok? ==> off <= r.value.next <= |data| && |r.value.table| == |table|
    ensures r.Ok? ==> numTuples <= r.value.numTuples <= |table|
    decreases |table| - i
  {
    if i == |table| then Ok(Declarations(off, table, numTuples, names))
    else
      var l := LineAt(data, off);
      if l.eof then Err(Eof)
      else
        var t := table[i := SlotFor(l.text)];
        if l.text == TUPLE then
          match SlotAt(data, l.next, t, pf, i)
          case Err(e) => Err(e)
          case Ok(p) => Phase1(data, p.next, t[i := p.val], pf, i + 1, numTuples + 1, names + [l.text])
        else
          Phase1(data, l.next, t, pf, i + 1, numTuples, names + [l.text])
  }

  /** Phase 2 of parse, from slot `i` on: parse the payload of each slot below `limit`, by index. */
  function Phase2(data: seq<byte>, off: nat, table: seq<Slot>, pf: FloatParser, i: nat, limit: nat)
    : (r: Result<Parsed<seq<Slot>>>)
    requires off <= |data| && i <= limit <= |table|
    ensures r.Ok? ==> off <= r.value.next <= |data| && |r.value.val| == |table|
    decreases limit - i, 1
  {
    if i == limit then Ok(Parsed(table, off)) else Phase2Slot(data, off, table, pf, i, limit)
  }

  /** One slot of phase 2: parse slot `i`, store what it yields, and go on with the next. */
  function Phase2Slot(data: seq<byte>, off: nat, table: seq<Slot>, pf: FloatParser, i: nat, limit: nat)
    : (r: Result<Parsed<seq<Slot>>>)
    requires off <= |data| && i < limit <= |table|
    ensures r.Ok? ==> off <= r.value.next <= |data| && |r.value.val| == |table|
    decreases limit - i, 0
  {
    match SlotAt(data, off, table, pf, i)
    case Err(e) => Err(e)
    case Ok(p) => Phase2(data, p.next, table[i := p.val], pf, i + 1, limit)
  }

  /** A whole document: the root element and the object table it may refer to. */
  datatype Decoded = Decoded(root: Value, table: seq<Slot>)

  /** `make([]parser, count)`: a table of `count` nil slots. */
  function NilSlots(count: nat): seq<Slot>
  {
    seq(count, _ => Unset)
  }

  /** parse: magic line, object count, phase 1, phase 2, then the root element. */
  function Decode(data: seq<byte>, pf: FloatParser): Result<Decoded>
  {
    var magic := LineAt(data, 0);
    if magic.eof then Err(Eof)
    else if magic.text != MAGIC then Err(BadMagic(magic.text))
    else
      match LineIntAt(data, magic.next)
      case Err(e) => Err(e)
      case Ok(c) =>
        if c.val < 0 then Err(NegativeLength(c.val))
        else ObjectsAt(data, c.next, c.val, pf)
  }

  /** parse after the object count: phase 1 over `count` nil slots, then phase 2, then the root. */
  function ObjectsAt(data: seq<byte>, off: nat, count: nat, pf: FloatParser): Result<Decoded>
    requires off <= |data|
  {
    match Phase1(data, off, NilSlots(count), pf, 0, 0, [])
    case Err(e) => Err(e)
    case Ok(d) =>
      match Phase2(data, d.next, d.table, pf, 0, count - d.numTuples)
      case Err(e) => Err(e)
      case Ok(p) => RootAt(data, p.next, p.val, pf)
  }

  /** The last step of parse: the root element, read against the finished table. */
  function RootAt(data: seq<byte>, off: nat, table: seq<Slot>, pf: FloatParser): Result<Decoded>
    requires off <= |data|
  {
    match ElemAt(data, off, table, pf)
    case Err(e) => Err(e)
    case Ok(root) => Ok(Decoded(root.val, table))
  }
}
