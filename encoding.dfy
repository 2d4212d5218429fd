/**
 * The writer's side of the wire format: how cerealizer lays out a line, an
 * integer line and a tagged element. The decoder never writes, so these
 * functions serve as an independent reference for what the readers of
 * buffer.go and parse.go accept: each lemma here states that reading back
 * what the writer lays out yields exactly the written value and consumes
 * exactly the written bytes, whatever follows them.
 */
module Encoding {
  import opened Base
  import opened Strconv
  import opened Buffers
  import opened Values
  import opened Grammar
  import opened GrammarFacts

  /** `s` occurs in `data` starting at offset `off`, byte by byte. */
  predicate At(data: seq<byte>, off: nat, s: seq<byte>)
    decreases |s|
  {
    if s == [] then off <= |data|
    else off < |data| && data[off] == s[0] && At(data, off + 1, s[1..])
  }

  lemma {:induction false} AtIsSlice(data: seq<byte>, off: nat, s: seq<byte>)
    ensures At(data, off, s) <==> off + |s| <= |data| && data[off..off + |s|] == s
    decreases |s|
  {
    if s != [] {
      AtIsSlice(data, off + 1, s[1..]);
      if off + |s| <= |data| {
        assert data[off..off + |s|] == [data[off]] + data[off + 1..off + 1 + |s[1..]|];
        assert s == [s[0]] + s[1..];
      }
    }
  }

  lemma AtSplit(data: seq<byte>, off: nat, a: seq<byte>, b: seq<byte>)
    requires At(data, off, a + b)
    ensures At(data, off, a) && At(data, off + |a|, b)
  {
    AtIsSlice(data, off, a + b);
    AtIsSlice(data, off, a);
    AtIsSlice(data, off + |a|, b);
    assert data[off..off + |a|] == (a + b)[..|a|];
    assert data[off + |a|..off + |a| + |b|] == (a + b)[|a|..];
  }

  /** The decimal line cerealizer writes for a count, a length, an index or an integer. */
  function IntLine(n: int): seq<byte>
  {
    Itoa(n) + [NEWLINE]
  }

  /** How a float is rendered as text by the writer (Python's repr), supplied by the caller. */
  type FloatFormatter = bv64 -> seq<byte>

  /**
   * The text `ff` writes for these bits is one line that `pf` parses back to
   * the same bits. This is asked of each written float, not of every bit
   * pattern: repr writes every NaN as `nan`, so no parser undoes it for all.
   */
  predicate FloatReadsBack(pf: FloatParser, ff: FloatFormatter, bits: bv64)
  {
    NEWLINE !in ff(bits) && pf(ff(bits)) == Some(bits)
  }

  /** A written element that is a float reads back as itself. */
  predicate FloatOk(pf: FloatParser, ff: FloatFormatter, v: Value)
  {
    v.Float? ==> FloatReadsBack(pf, ff, v.bits)
  }

  /** How cerealizer writes one element: the tag byte, then the payload. */
  function EncodeValue(v: Value, ff: FloatFormatter): seq<byte>
  {
    match v
    case Nil => [TAG_NONE]
    case Bool(b) => [TAG_BOOL, if b then TRUE_BYTE else FALSE_BYTE]
    case Int(i) => [TAG_INT] + IntLine(i)
    case Float(bits) => [TAG_FLOAT] + ff(bits) + [NEWLINE]
    case Str(s) => [TAG_STR] + IntLine(|s|) + s
    case Ref(j) => [TAG_REF] + IntLine(j)
  }

  /** Elements written one after another. */
  function EncodeValues(vs: seq<Value>, ff: FloatFormatter): seq<byte>
  {
    if vs == [] then [] else EncodeValue(vs[0], ff) + EncodeValues(vs[1..], ff)
  }

  /**
   * A value the writer can emit for the table at hand: integers and string
   * lengths within Go's `int`, and references only to allocated slots (a
   * reference to a slot phase 1 has not reached yet reads back as nil).
   */
  predicate Encodable(table: seq<Slot>, v: Value)
  {
    match v
    case Int(i) => MinInt <= i <= MaxInt
    case Str(s) => |s| <= MaxInt
    case Ref(j) => Declared(table, j) && j <= MaxInt
    case _ => true
  }

  /** The decimal rendering never contains a newline. */
  lemma ItoaHasNoNewline(n: int)
    ensures NEWLINE !in Itoa(n)
  {
    var m: nat := if n < 0 then -n else n;
    DigitsCorrect(m);
    var d := Digits(m);
    assert forall k :: 0 <= k < |d| ==> d[k] != NEWLINE;
    if n < 0 {
      assert Itoa(n) == [MINUS] + d;
    }
  }

  /** readLineStr reads back a line the writer laid out: its text, and the offset past its newline. */
  lemma LineAtRoundTrip(data: seq<byte>, off: nat, text: seq<byte>)
    requires NEWLINE !in text && At(data, off, text + [NEWLINE])
    ensures LineAt(data, off) == Line(text, off + |text| + 1, false)
  {
    AtIsSlice(data, off, text + [NEWLINE]);
    LineEndIsFirstNewline(data, off);
    var e := LineEnd(data, off);
    var stop := off + |text|;
    assert data[stop] == (text + [NEWLINE])[|text|];
    assert forall k :: off <= k < stop ==> data[k] == text[k - off];
    assert e == stop;
    assert data[off..e] == (text + [NEWLINE])[..|text|];
  }

  /** readLineInt reads back the integer line of any Go `int`. */
  lemma LineIntAtRoundTrip(data: seq<byte>, off: nat, n: int)
    requires MinInt <= n <= MaxInt && At(data, off, IntLine(n))
    ensures LineIntAt(data, off) == Ok(Parsed(n, off + |IntLine(n)|))
  {
    ItoaHasNoNewline(n);
    LineAtRoundTrip(data, off, Itoa(n));
    AtoiItoa(n);
  }

  /** readLineInt reads back an integer line followed by anything, and stops at what follows. */
  lemma LineIntAtPrefix(data: seq<byte>, off: nat, n: int, rest: seq<byte>, next: nat)
    requires MinInt <= n <= MaxInt && At(data, off, IntLine(n) + rest) && next == off + |IntLine(n)|
    ensures LineIntAt(data, off) == Ok(Parsed(n, next))
    ensures At(data, next, rest)
  {
    AtSplit(data, off, IntLine(n), rest);
    LineIntAtRoundTrip(data, off, n);
  }

  /** A tag byte followed by its payload. */
  lemma TagThen(data: seq<byte>, off: nat, tag: byte, payload: seq<byte>)
    requires At(data, off, [tag] + payload)
    ensures off < |data| && data[off] == tag && At(data, off + 1, payload)
  {
    assert ([tag] + payload)[1..] == payload;
  }

  /** parseElem reads back any element the writer emits, and stops exactly where it ends. */
  lemma ElemAtRoundTrip(data: seq<byte>, off: nat, table: seq<Slot>, pf: FloatParser, ff: FloatFormatter, v: Value, next: nat)
    requires FloatOk(pf, ff, v) && Encodable(table, v)
    requires At(data, off, EncodeValue(v, ff)) && next == off + |EncodeValue(v, ff)|
    ensures ElemAt(data, off, table, pf) == Ok(Parsed(v, next))
  {
    match v
    case Nil =>
      TagThen(data, off, TAG_NONE, []);
    case Bool(b) =>
      TagThen(data, off, TAG_BOOL, [if b then TRUE_BYTE else FALSE_BYTE]);
      BoolRoundTrip(data, off + 1, b);
    case Int(i) =>
      TagThen(data, off, TAG_INT, IntLine(i));
      IntRoundTrip(data, off + 1, i, next);
    case Float(bits) =>
      assert EncodeValue(v, ff) == [TAG_FLOAT] + (ff(bits) + [NEWLINE]);
      TagThen(data, off, TAG_FLOAT, ff(bits) + [NEWLINE]);
      FloatRoundTrip(data, off + 1, pf, ff, bits, next);
    case Str(s) =>
      assert EncodeValue(v, ff) == [TAG_STR] + (IntLine(|s|) + s);
      TagThen(data, off, TAG_STR, IntLine(|s|) + s);
      StrRoundTrip(data, off + 1, s, next);
    case Ref(j) =>
      TagThen(data, off, TAG_REF, IntLine(j));
      RefRoundTrip(data, off + 1, table, j, next);
  }

  lemma BoolRoundTrip(data: seq<byte>, off: nat, b: bool)
    requires At(data, off, [if b then TRUE_BYTE else FALSE_BYTE])
    ensures BoolAt(data, off) == Ok(Parsed(Bool(b), off + 1))
  {
  }

  lemma IntRoundTrip(data: seq<byte>, off: nat, i: int, next: nat)
    requires MinInt <= i <= MaxInt && At(data, off, IntLine(i)) && next == off + |IntLine(i)|
    ensures IntAt(data, off) == Ok(Parsed(Int(i), next))
  {
    LineIntAtRoundTrip(data, off, i);
    IntAtLine(data, off, i, next);
  }

  /** An `i` payload is the integer its line holds. */
  lemma IntAtLine(data: seq<byte>, off: nat, i: int, next: nat)
    requires off <= |data| && LineIntAt(data, off) == Ok(Parsed(i, next))
    ensures IntAt(data, off) == Ok(Parsed(Int(i), next))
  {
  }

  lemma FloatRoundTrip(data: seq<byte>, off: nat, pf: FloatParser, ff: FloatFormatter, bits: bv64, next: nat)
    requires FloatReadsBack(pf, ff, bits) && At(data, off, ff(bits) + [NEWLINE]) && next == off + |ff(bits)| + 1
    ensures FloatAt(data, off, pf) == Ok(Parsed(Float(bits), next))
  {
    LineAtRoundTrip(data, off, ff(bits));
  }

  lemma StrRoundTrip(data: seq<byte>, off: nat, s: seq<byte>, next: nat)
    requires |s| <= MaxInt && At(data, off, IntLine(|s|) + s) && next == off + |IntLine(|s|)| + |s|
    ensures StrAt(data, off) == Ok(Parsed(Str(s), next))
  {
    var mid := off + |IntLine(|s|)|;
    LineIntAtPrefix(data, off, |s|, s, mid);
    AtIsSlice(data, mid, s);
    assert ReadAt(data, mid, |s|) == Ok(Parsed(s, next)) by {
      assert data[mid..mid + |s|] + Zeros(0) == s;
    }
  }

  lemma RefRoundTrip(data: seq<byte>, off: nat, table: seq<Slot>, j: nat, next: nat)
    requires Declared(table, j) && j <= MaxInt && At(data, off, IntLine(j)) && next == off + |IntLine(j)|
    ensures RefAt(data, off, table) == Ok(Parsed(Ref(j), next))
  {
    LineIntAtRoundTrip(data, off, j);
  }

  /** A written reference to a slot phase 1 has not reached yet reads back as None. */
  lemma RefAtEarly(data: seq<byte>, off: nat, table: seq<Slot>, j: nat, next: nat)
    requires j < |table| && table[j].Unset? && j <= MaxInt && At(data, off, IntLine(j)) && next == off + |IntLine(j)|
    ensures RefAt(data, off, table) == Ok(Parsed(Nil, next))
  {
    LineIntAtRoundTrip(data, off, j);
  }

  /** What follows a prefix of bytes held at `off` starts where that prefix ends. */
  lemma AtRest(data: seq<byte>, off: nat, whole: seq<byte>, head: seq<byte>, tail: seq<byte>, mid: nat)
    requires whole == head + tail && At(data, off, whole) && mid == off + |head|
    ensures At(data, mid, tail) && mid + |tail| == off + |whole|
  {
    AtSplit(data, off, head, tail);
  }

  /** If the elements after the first read back in order, so do all of them. */
  lemma WrittenStep(data: seq<byte>, off: nat, table: seq<Slot>, pf: FloatParser, ff: FloatFormatter, vs: seq<Value>,
                    mid: nat, end: nat)
    requires vs != [] && FloatOk(pf, ff, vs[0]) && Encodable(table, vs[0])
    requires At(data, off, EncodeValues(vs, ff)) && mid == off + |EncodeValue(vs[0], ff)|
    requires ReadsInOrder(data, table, pf, mid, vs[1..], end)
    ensures ReadsInOrder(data, table, pf, off, vs, end)
  {
    AtSplit(data, off, EncodeValue(vs[0], ff), EncodeValues(vs[1..], ff));
    ElemAtRoundTrip(data, off, table, pf, ff, vs[0], mid);
    ReadsInOrderCons(data, table, pf, off, mid, vs, end);
  }

  /** Written elements lie in the stream one after another, each readable by parseElem. */
  lemma {:induction false} WrittenInOrder(data: seq<byte>, off: nat, table: seq<Slot>, pf: FloatParser, ff: FloatFormatter,
                                          vs: seq<Value>, end: nat)
    requires forall i :: 0 <= i < |vs| ==> FloatOk(pf, ff, vs[i]) && Encodable(table, vs[i])
    requires At(data, off, EncodeValues(vs, ff)) && end == off + |EncodeValues(vs, ff)|
    ensures ReadsInOrder(data, table, pf, off, vs, end)
    decreases |vs|
  {
    if vs == [] {
      assert EncodeValues(vs, ff) == [];
      EmptyRun(data, table, pf, off);
    } else {
      var mid := off + |EncodeValue(vs[0], ff)|;
      AtRest(data, off, EncodeValues(vs, ff), EncodeValue(vs[0], ff), EncodeValues(vs[1..], ff), mid);
      WrittenInOrder(data, mid, table, pf, ff, vs[1..], end);
      WrittenStep(data, off, table, pf, ff, vs, mid, end);
    }
  }

  /** The element loop of list.parse reads back a run of written elements, in order, and stops where they end. */
  lemma ElemsAtRoundTrip(data: seq<byte>, off: nat, table: seq<Slot>, pf: FloatParser, ff: FloatFormatter,
                         vs: seq<Value>, acc: seq<Value>, end: nat)
    requires forall i :: 0 <= i < |vs| ==> FloatOk(pf, ff, vs[i]) && Encodable(table, vs[i])
    requires At(data, off, EncodeValues(vs, ff)) && end == off + |EncodeValues(vs, ff)|
    ensures ElemsAt(data, off, table, pf, |vs|, acc) == Ok(Parsed(acc + vs, end))
  {
    assert off <= |data|;
    WrittenInOrder(data, off, table, pf, ff, vs, end);
    ElemsAtInOrder(data, off, table, pf, |vs|, acc, vs, end);
  }

  /** list.parse (and tuple.parse) reads back a written list: the count line, then its elements. */
  lemma ListAtRoundTrip(data: seq<byte>, off: nat, table: seq<Slot>, pf: FloatParser, ff: FloatFormatter,
                        vs: seq<Value>, start: nat, end: nat)
    requires |vs| <= MaxInt && forall i :: 0 <= i < |vs| ==> FloatOk(pf, ff, vs[i]) && Encodable(table, vs[i])
    requires At(data, off, IntLine(|vs|) + EncodeValues(vs, ff))
    requires start == off + |IntLine(|vs|)| && end == start + |EncodeValues(vs, ff)|
    ensures ListAt(data, off, table, pf) == Ok(Parsed(vs, end))
  {
    LineIntAtPrefix(data, off, |vs|, EncodeValues(vs, ff), start);
    ElemsAtRoundTrip(data, start, table, pf, ff, vs, [], end);
    assert [] + vs == vs;
    ListAtCount(data, off, table, pf, vs, start, end);
  }

  /** A document with an empty object table and a scalar root. */
  function ScalarDocument(root: Value, ff: FloatFormatter): seq<byte>
  {
    MAGIC + [NEWLINE] + IntLine(0) + EncodeValue(root, ff)
  }

  /** parse reads back such a document: its root, and an empty table. */
  lemma DecodeScalarDocument(pf: FloatParser, ff: FloatFormatter, root: Value, rest: seq<byte>)
    requires FloatOk(pf, ff, root) && !root.Ref? && Encodable([], root)
    ensures Decode(ScalarDocument(root, ff) + rest, pf) == Ok(Decoded(root, []))
  {
    var data := ScalarDocument(root, ff) + rest;
    var header := MAGIC + [NEWLINE] + IntLine(0);
    AtPrefix(data, ScalarDocument(root, ff), rest);
    AtSplit(data, 0, header, EncodeValue(root, ff));
    AtSplit(data, 0, MAGIC + [NEWLINE], IntLine(0));
    assert NEWLINE !in MAGIC;
    LineAtRoundTrip(data, 0, MAGIC);
    LineIntAtRoundTrip(data, |MAGIC| + 1, 0);
    ElemAtRoundTrip(data, |header|, [], pf, ff, root, |header| + |EncodeValue(root, ff)|);
    DecodeEmpty(data, pf, |header|);
  }

  /** Bytes that start with `s` hold `s` at offset 0. */
  lemma AtPrefix(data: seq<byte>, s: seq<byte>, rest: seq<byte>)
    requires data == s + rest
    ensures At(data, 0, s)
  {
    AtIsSlice(data, 0, s);
    assert data[0..|s|] == s;
  }

  /** A header that declares no objects: both phases are empty and only the root is read. */
  lemma DecodeEmpty(data: seq<byte>, pf: FloatParser, off: nat)
    requires |MAGIC| + 1 <= off <= |data| && LineAt(data, 0) == Line(MAGIC, |MAGIC| + 1, false)
    requires LineIntAt(data, |MAGIC| + 1) == Ok(Parsed(0, off))
    ensures Decode(data, pf) == RootAt(data, off, [], pf)
  {
    assert NilSlots(0) == [];
  }
}
