/**
 * Properties of the reference decoder in grammar.dfy: the element loops read
 * in stream order, dict pairs are stored value-then-key with the last
 * duplicate winning, the two phases keep each slot's kind, and a decoded
 * document is well formed (every reference names an allocated slot).
 */
module GrammarFacts {
  import opened Base
  import opened Buffers
  import opened Values
  import opened Grammar

  /**
   * The elements `vs` lie one after another in `data` from `off`: parseElem
   * reads the first at `off`, the next where that one ends, and so on; the
   * last one ends at `end`.
   */
  ghost predicate ReadsInOrder(data: seq<byte>, table: seq<Slot>, pf: FloatParser, off: nat, vs: seq<Value>, end: nat)
    decreases |vs|, 1
  {
    && off <= |data|
    && if vs == [] then end == off else ReadsFirst(data, table, pf, off, vs, end)
  }

  /** parseElem reads `vs[0]` at `off`, and the rest of `vs` lie in order from where it ends. */
  ghost predicate ReadsFirst(data: seq<byte>, table: seq<Slot>, pf: FloatParser, off: nat, vs: seq<Value>, end: nat)
    requires off <= |data| && vs != []
    decreases |vs|, 0
  {
    match ElemAt(data, off, table, pf)
    case Err(_) => false
    case Ok(p) => p.val == vs[0] && ReadsInOrder(data, table, pf, p.next, vs[1..], end)
  }

  /**
   * The loop of list.parse succeeds with the elements `vs`, appended to what
   * it had, and stops at `end` exactly when `vs` lie in order in the stream
   * from where it starts and end at `end`.
   */
  lemma {:induction false} ElemsAtInOrder(data: seq<byte>, off: nat, table: seq<Slot>, pf: FloatParser, k: nat, acc: seq<Value>,
                                          vs: seq<Value>, end: nat)
    requires off <= |data|
    ensures ElemsAt(data, off, table, pf, k, acc) == Ok(Parsed(acc + vs, end))
            <==> |vs| == k && ReadsInOrder(data, table, pf, off, vs, end)
    decreases k
  {
    if ElemsAt(data, off, table, pf, k, acc) == Ok(Parsed(acc + vs, end)) {
      ElemsAtReads(data, off, table, pf, k, acc, vs, end);
    }
    if |vs| == k && ReadsInOrder(data, table, pf, off, vs, end) {
      ReadsElemsAt(data, off, table, pf, acc, vs, end);
    }
  }

  /** A run of the loop of list.parse that succeeds read its new elements in order. */
  lemma {:induction false} ElemsAtReads(data: seq<byte>, off: nat, table: seq<Slot>, pf: FloatParser, k: nat, acc: seq<Value>,
                                        vs: seq<Value>, end: nat)
    requires off <= |data| && ElemsAt(data, off, table, pf, k, acc) == Ok(Parsed(acc + vs, end))
    ensures |vs| == k && ReadsInOrder(data, table, pf, off, vs, end)
    decreases k
  {
    if k == 0 {
      assert |acc + vs| == |acc|;
      EmptyRun(data, table, pf, off);
    } else {
      var p := ElemsAtUnfold(data, off, table, pf, k, acc, acc + vs, end);
      assert vs[0] == p.val by {
        assert (acc + vs)[..|acc| + 1] == acc + [p.val];
        assert (acc + vs)[..|acc| + 1][|acc|] == vs[0];
      }
      assert acc + vs == (acc + [p.val]) + vs[1..];
      ElemsAtReads(data, p.next, table, pf, k - 1, acc + [p.val], vs[1..], end);
      ReadsInOrderCons(data, table, pf, off, p.next, vs, end);
    }
  }

  /** Elements read in order are what the loop of list.parse appends. */
  lemma {:induction false} ReadsElemsAt(data: seq<byte>, off: nat, table: seq<Slot>, pf: FloatParser, acc: seq<Value>,
                                        vs: seq<Value>, end: nat)
    requires off <= |data| && ReadsInOrder(data, table, pf, off, vs, end)
    ensures ElemsAt(data, off, table, pf, |vs|, acc) == Ok(Parsed(acc + vs, end))
    decreases |vs|
  {
    if vs == [] {
      assert acc + vs == acc;
    } else {
      var mid := ReadsInOrderUnfold(data, table, pf, off, vs, end);
      ElemsAtStep(data, off, table, pf, |vs|, acc, Ok(vs[0]), mid);
      Shift(acc, vs);
      ReadsElemsAt(data, mid, table, pf, acc + [vs[0]], vs[1..], end);
    }
  }

  /** Moving the first element of `vs` over to `acc`. */
  lemma Shift<T>(acc: seq<T>, vs: seq<T>)
    requires vs != []
    ensures |vs[1..]| == |vs| - 1 && acc + vs == (acc + [vs[0]]) + vs[1..]
  {
    assert vs == [vs[0]] + vs[1..];
  }

  /** A successful run of the loop of list.parse read its first element and went on from where that one ends. */
  lemma ElemsAtUnfold(data: seq<byte>, off: nat, table: seq<Slot>, pf: FloatParser, k: nat, acc: seq<Value>,
                      vs: seq<Value>, end: nat) returns (p: Parsed<Value>)
    requires off <= |data| && 0 < k && ElemsAt(data, off, table, pf, k, acc) == Ok(Parsed(vs, end))
    ensures ElemAt(data, off, table, pf) == Ok(p) && p.next <= |data|
    ensures ElemsAt(data, p.next, table, pf, k - 1, acc + [p.val]) == Ok(Parsed(vs, end))
  {
    p := ElemAt(data, off, table, pf).value;
    ElemsAtStep(data, off, table, pf, k, acc, Ok(p.val), p.next);
  }

  /** Elements read in order: the first at `off`, the others from where it ends. */
  lemma ReadsInOrderUnfold(data: seq<byte>, table: seq<Slot>, pf: FloatParser, off: nat, vs: seq<Value>, end: nat)
    returns (mid: nat)
    requires off <= |data| && vs != [] && ReadsInOrder(data, table, pf, off, vs, end)
    ensures off <= mid <= |data| && ElemAt(data, off, table, pf) == Ok(Parsed(vs[0], mid))
    ensures ReadsInOrder(data, table, pf, mid, vs[1..], end)
  {
    mid := ElemAt(data, off, table, pf).value.next;
  }

  /** A run read in order: its first element, then the rest read in order from where that one ends. */
  lemma ReadsInOrderCons(data: seq<byte>, table: seq<Slot>, pf: FloatParser, off: nat, mid: nat, vs: seq<Value>, end: nat)
    requires off <= |data| && vs != []
    requires ElemAt(data, off, table, pf) == Ok(Parsed(vs[0], mid)) && ReadsInOrder(data, table, pf, mid, vs[1..], end)
    ensures ReadsInOrder(data, table, pf, off, vs, end)
  {
  }

  /** The empty run ends where it starts. */
  lemma EmptyRun(data: seq<byte>, table: seq<Slot>, pf: FloatParser, off: nat)
    requires off <= |data|
    ensures ReadsInOrder(data, table, pf, off, [], off)
  {
  }

  /** list.parse succeeds when its count line reads `n` and the element loop then reads `n` elements. */
  lemma ListAtCount(data: seq<byte>, off: nat, table: seq<Slot>, pf: FloatParser, vs: seq<Value>, start: nat, end: nat)
    requires off <= |data| && LineIntAt(data, off) == Ok(Parsed(|vs|, start))
    requires start <= |data| && ElemsAt(data, start, table, pf, |vs|, []) == Ok(Parsed(vs, end))
    ensures ListAt(data, off, table, pf) == Ok(Parsed(vs, end))
  {
  }

  /** The dict entries after storing the pairs `ps` (key, value) one by one into `acc`. */
  function Stored(acc: map<Value, Value>, ps: seq<(Value, Value)>): map<Value, Value>
    decreases |ps|
  {
    if ps == [] then acc else Stored(acc[ps[0].0 := ps[0].1], ps[1..])
  }

  /** A key stored by a pair with no later pair for the same key ends up with that pair's value. */
  lemma {:induction false} StoredLastWins(acc: map<Value, Value>, ps: seq<(Value, Value)>, j: nat)
    requires j < |ps| && forall l :: j < l < |ps| ==> ps[l].0 != ps[j].0
    ensures ps[j].0 in Stored(acc, ps) && Stored(acc, ps)[ps[j].0] == ps[j].1
    decreases |ps|
  {
    if j == 0 {
      StoredUntouched(acc[ps[0].0 := ps[0].1], ps[1..], ps[0].0);
    } else {
      StoredLastWins(acc[ps[0].0 := ps[0].1], ps[1..], j - 1);
    }
  }

  /** A key no pair stores keeps what it had, or stays absent. */
  lemma {:induction false} StoredUntouched(acc: map<Value, Value>, ps: seq<(Value, Value)>, key: Value)
    requires forall l :: 0 <= l < |ps| ==> ps[l].0 != key
    ensures key in Stored(acc, ps) <==> key in acc
    ensures key in acc ==> Stored(acc, ps)[key] == acc[key]
    decreases |ps|
  {
    if ps != [] {
      StoredUntouched(acc[ps[0].0 := ps[0].1], ps[1..], key);
    }
  }

  /**
   * The pairs `ps` lie in order in `data` from `off`, each written value
   * first and key second, and the last one ends at `end`.
   */
  ghost predicate PairsInOrder(data: seq<byte>, table: seq<Slot>, pf: FloatParser, off: nat, ps: seq<(Value, Value)>, end: nat)
    decreases |ps|
  {
    && off <= |data|
    && if ps == [] then end == off
       else
         match ElemAt(data, off, table, pf)
         case Err(_) => false
         case Ok(v) =>
           && v.val == ps[0].1
           && match ElemAt(data, v.next, table, pf)
              case Err(_) => false
              case Ok(k) => k.val == ps[0].0 && PairsInOrder(data, table, pf, k.next, ps[1..], end)
  }

  /** The first of the pairs `ps` that lie in order from `off`, and where the others start. */
  lemma PairsInOrderUnfold(data: seq<byte>, table: seq<Slot>, pf: FloatParser, off: nat, ps: seq<(Value, Value)>, end: nat,
                           acc: map<Value, Value>) returns (next: nat)
    requires ps != [] && PairsInOrder(data, table, pf, off, ps, end)
    ensures off < next <= |data| && PairsInOrder(data, table, pf, next, ps[1..], end)
    ensures PairsAt(data, off, table, pf, |ps|, acc) == PairsAt(data, next, table, pf, |ps[1..]|, acc[ps[0].0 := ps[0].1])
    ensures Stored(acc, ps) == Stored(acc[ps[0].0 := ps[0].1], ps[1..])
  {
    var v := ElemAt(data, off, table, pf).value;
    var k := ElemAt(data, v.next, table, pf).value;
    next := k.next;
    PairsAtStep(data, off, table, pf, |ps|, acc, Ok(v.val), v.next, Ok(k.val), k.next);
  }

  /** The loop of dict.parse stores the pairs it reads in stream order, a later one overwriting an earlier one. */
  lemma {:induction false} PairsAtStores(data: seq<byte>, off: nat, table: seq<Slot>, pf: FloatParser, acc: map<Value, Value>,
                                         ps: seq<(Value, Value)>, end: nat)
    requires PairsInOrder(data, table, pf, off, ps, end)
    ensures PairsAt(data, off, table, pf, |ps|, acc) == Ok(Parsed(Stored(acc, ps), end))
    decreases |ps|
  {
    if ps != [] {
      var next := PairsInOrderUnfold(data, table, pf, off, ps, end, acc);
      PairsAtStores(data, next, table, pf, acc[ps[0].0 := ps[0].1], ps[1..], end);
    }
  }

  /** A run of dict.parse that succeeds read a value and a key first, and went on from past them. */
  lemma PairsAtUnfold(data: seq<byte>, off: nat, table: seq<Slot>, pf: FloatParser, n: nat, acc: map<Value, Value>,
                      m: map<Value, Value>, end: nat) returns (v: Parsed<Value>, k: Parsed<Value>)
    requires off <= |data| && 0 < n && PairsAt(data, off, table, pf, n, acc) == Ok(Parsed(m, end))
    ensures ElemAt(data, off, table, pf) == Ok(v) && v.next <= |data| && ElemAt(data, v.next, table, pf) == Ok(k)
    ensures off < k.next <= |data| && ValueOk(table, v.val) && ValueOk(table, k.val)
    ensures PairsAt(data, k.next, table, pf, n - 1, acc[k.val := v.val]) == Ok(Parsed(m, end))
  {
    v := ElemAt(data, off, table, pf).value;
    k := ElemAt(data, v.next, table, pf).value;
    PairsAtStep(data, off, table, pf, n, acc, Ok(v.val), v.next, Ok(k.val), k.next);
  }

  /** A value and a key read from `off`, followed by pairs in order, are pairs in order. */
  lemma PairsInOrderCons(data: seq<byte>, table: seq<Slot>, pf: FloatParser, off: nat, v: Parsed<Value>, k: Parsed<Value>,
                         rest: seq<(Value, Value)>, end: nat)
    requires off <= v.next <= |data| && ElemAt(data, off, table, pf) == Ok(v) && ElemAt(data, v.next, table, pf) == Ok(k)
    requires PairsInOrder(data, table, pf, k.next, rest, end)
    ensures PairsInOrder(data, table, pf, off, [(k.val, v.val)] + rest, end)
  {
    assert ([(k.val, v.val)] + rest)[1..] == rest;
  }

  /** Storing a first pair, then the others. */
  lemma StoredCons(acc: map<Value, Value>, p: (Value, Value), rest: seq<(Value, Value)>)
    ensures |[p] + rest| == |rest| + 1 && Stored(acc, [p] + rest) == Stored(acc[p.0 := p.1], rest)
  {
    assert ([p] + rest)[1..] == rest;
  }

  /** Every run of dict.parse that succeeds read some pairs in order and stored them. */
  lemma {:induction false} PairsAtRead(data: seq<byte>, off: nat, table: seq<Slot>, pf: FloatParser, n: nat, acc: map<Value, Value>,
                                       m: map<Value, Value>, end: nat) returns (ps: seq<(Value, Value)>)
    requires off <= |data| && PairsAt(data, off, table, pf, n, acc) == Ok(Parsed(m, end))
    ensures |ps| == n && PairsInOrder(data, table, pf, off, ps, end) && m == Stored(acc, ps)
    decreases n
  {
    if n == 0 {
      ps := [];
    } else {
      var v, k := PairsAtUnfold(data, off, table, pf, n, acc, m, end);
      var rest := PairsAtRead(data, k.next, table, pf, n - 1, acc[k.val := v.val], m, end);
      PairsInOrderCons(data, table, pf, off, v, k, rest, end);
      StoredCons(acc, (k.val, v.val), rest);
      ps := [(k.val, v.val)] + rest;
    }
  }

  /** A table that only gains allocated slots keeps every reference valid. */
  lemma GrowsKeepsSlotOk(s: seq<Slot>, t: seq<Slot>, x: Slot)
    requires Grows(s, t) && SlotOk(s, x)
    ensures SlotOk(t, x)
  {
  }

  /** Storing an allocated, well-formed slot keeps the table well formed and only gains allocated slots. */
  lemma StoreOk(table: seq<Slot>, i: nat, x: Slot)
    requires TableOk(table) && i < |table| && SlotOk(table, x) && !x.Unset?
    ensures TableOk(table[i := x]) && Grows(table, table[i := x])
  {
    var t := table[i := x];
    forall j | 0 <= j < |t| ensures SlotOk(t, t[j]) {
      if j == i {
        GrowsKeepsSlotOk(table, t, x);
      } else {
        GrowsKeepsSlotOk(table, t, table[j]);
      }
    }
  }

  /** Storing a pair of valid values in a dict of valid entries keeps its entries valid. */
  lemma StorePairOk(table: seq<Slot>, acc: map<Value, Value>, key: Value, val: Value)
    requires SlotOk(table, Dict(acc)) && ValueOk(table, key) && ValueOk(table, val)
    ensures SlotOk(table, Dict(acc[key := val]))
  {
  }

  /** The entries dict.parse stores are values valid in the table it reads against. */
  lemma PairsAtOk(data: seq<byte>, off: nat, table: seq<Slot>, pf: FloatParser, n: nat, acc: map<Value, Value>,
                  m: map<Value, Value>, end: nat)
    requires off <= |data| && PairsAt(data, off, table, pf, n, acc) == Ok(Parsed(m, end))
    requires SlotOk(table, Dict(acc))
    ensures SlotOk(table, Dict(m))
  {
    var ps := PairsAtRead(data, off, table, pf, n, acc, m, end);
    PairsInOrderOk(data, table, pf, off, ps, end);
    StoredOk(table, acc, ps);
  }

  /** Pairs that lie in order in the stream hold only references valid in the table they were read against. */
  lemma {:induction false} PairsInOrderOk(data: seq<byte>, table: seq<Slot>, pf: FloatParser, off: nat,
                                          ps: seq<(Value, Value)>, end: nat)
    requires PairsInOrder(data, table, pf, off, ps, end)
    ensures forall l :: 0 <= l < |ps| ==> ValueOk(table, ps[l].0) && ValueOk(table, ps[l].1)
    decreases |ps|
  {
    if ps != [] {
      var v := ElemAt(data, off, table, pf).value;
      var k := ElemAt(data, v.next, table, pf).value;
      PairsInOrderOk(data, table, pf, k.next, ps[1..], end);
      forall l | 0 < l < |ps| ensures ValueOk(table, ps[l].0) && ValueOk(table, ps[l].1) {
        assert ps[l] == ps[1..][l - 1];
      }
    }
  }

  /** Storing valid pairs one by one into valid entries leaves valid entries. */
  lemma {:induction false} StoredOk(table: seq<Slot>, acc: map<Value, Value>, ps: seq<(Value, Value)>)
    requires SlotOk(table, Dict(acc))
    requires forall l :: 0 <= l < |ps| ==> ValueOk(table, ps[l].0) && ValueOk(table, ps[l].1)
    ensures SlotOk(table, Dict(Stored(acc, ps)))
    decreases |ps|
  {
    if ps != [] {
      StorePairOk(table, acc, ps[0].0, ps[0].1);
      forall l | 0 <= l < |ps[1..]| ensures ValueOk(table, ps[1..][l].0) && ValueOk(table, ps[1..][l].1) {
        assert ps[1..][l] == ps[l + 1];
      }
      StoredOk(table, acc[ps[0].0 := ps[0].1], ps[1..]);
    }
  }

  /** What a slot's parse method yields holds only references valid in the table it reads against. */
  lemma SlotAtOk(data: seq<byte>, off: nat, table: seq<Slot>, pf: FloatParser, i: nat, p: Parsed<Slot>)
    requires off <= |data| && i < |table| && TableOk(table)
    requires SlotAt(data, off, table, pf, i) == Ok(p)
    ensures SlotOk(table, p.val)
  {
    match table[i]
    case Unset =>
    case List(_) =>
    case Tuple(_) =>
    case Dict(_) =>
      var c := LineIntAt(data, off).value;
      PairsAtOk(data, c.next, table, pf, if c.val < 0 then 0 else c.val, map[], p.val.entries, p.next);
    case Obj(name, attrs) =>
      var e := ElemAt(data, off, table, pf).value;
      assert SlotOk(table, table[i]);
      assert SlotOk(table, table[e.val.index]);
  }

  /** `v` names a dict slot of the table (Go: `v.(*dict)` succeeds). */
  predicate NamesDict(table: seq<Slot>, v: Value)
  {
    v.Ref? && v.index < |table| && table[v.index].Dict?
  }

  /**
   * obj.parse after its element `e`, which ended at `next`: it fails with the
   * element's error, then with NotADict unless `e` names a dict slot, then
   * with NonStringKey if that dict has a key that is not a string. It
   * succeeds exactly otherwise, and the object then holds its earlier
   * attributes overlaid with that dict's entries as they are at this point,
   * keyed by their strings.
   */
  lemma ObjSlotAtOutcome(data: seq<byte>, off: nat, table: seq<Slot>, pf: FloatParser, name: seq<byte>,
                         attrs: map<seq<byte>, Value>, e: Result<Value>, next: nat)
    requires off <= next <= |data| && Step(e, next) == ElemAt(data, off, table, pf)
    ensures e.Err? ==> ObjSlotAt(data, off, table, pf, name, attrs) == Err(e.error)
    ensures e.Ok? && !NamesDict(table, e.value) ==> ObjSlotAt(data, off, table, pf, name, attrs) == Err(NotADict)
    ensures e.Ok? && NamesDict(table, e.value) && (exists k :: k in table[e.value.index].entries && !k.Str?) ==>
              ObjSlotAt(data, off, table, pf, name, attrs) == Err(NonStringKey)
    ensures ObjSlotAt(data, off, table, pf, name, attrs).Ok? <==>
              e.Ok? && NamesDict(table, e.value) && forall k :: k in table[e.value.index].entries ==> k.Str?
    ensures ObjSlotAt(data, off, table, pf, name, attrs).Ok? ==>
              ObjSlotAt(data, off, table, pf, name, attrs)
                == Ok(Parsed(Obj(name, attrs + StrKeyed(table[e.value.index].entries)), next))
  {
    ObjAtStep(data, off, table, pf, attrs, e, next);
  }

  /** The number of `tuple` type lines among `names`. */
  function CountTuples(names: seq<seq<byte>>): nat
  {
    if names == [] then 0 else (if names[0] == TUPLE then 1 else 0) + CountTuples(names[1..])
  }

  /**
   * Phase 1 reads one type line per remaining slot, in order, and leaves each
   * of those slots of the kind its line names (SlotFor); the slots before `i`
   * are untouched, and `numTuples` grows by the number of `tuple` lines.
   */
  lemma {:induction false} Phase1Shape(data: seq<byte>, off: nat, table: seq<Slot>, pf: FloatParser, i: nat, numTuples: nat,
                                       names: seq<seq<byte>>, d: Declarations)
    requires off <= |data| && i <= |table| && numTuples <= i && |names| == i
    requires Phase1(data, off, table, pf, i, numTuples, names) == Ok(d)
    ensures |d.table| == |table| && |d.names| == |table| && d.names[..i] == names
    ensures forall j :: 0 <= j < i ==> d.table[j] == table[j]
    ensures forall j :: i <= j < |table| ==> SameKind(SlotFor(d.names[j]), d.table[j])
    ensures d.numTuples == numTuples + CountTuples(d.names[i..])
    decreases |table| - i
  {
    if i == |table| {
      assert d.names[i..] == [];
    } else {
      var line, next, x, tuples := Phase1Unfold(data, off, table, pf, i, numTuples, names, d);
      Phase1Shape(data, next, table[i := x], pf, i + 1, tuples, names + [line], d);
      assert d.names[..i + 1][..i] == d.names[..i];
      assert d.names[i] == d.names[..i + 1][i];
      assert d.names[i..][1..] == d.names[i + 1..];
    }
  }

  /**
   * What phase 2 does to the table: it parses the slots in [i, limit) by
   * index, each of which must be allocated and keeps its kind, and leaves the
   * slots outside that range as they were.
   */
  predicate Reshaped(table: seq<Slot>, final: seq<Slot>, i: nat, limit: nat)
  {
    && |final| == |table|
    && (forall j :: 0 <= j < |table| ==> SameKind(table[j], final[j]))
    && (forall j :: 0 <= j < |table| && !(i <= j < limit) ==> final[j] == table[j])
    && (forall j :: i <= j < limit && j < |table| ==> !table[j].Unset?)
  }

  /** A successful phase 2 over [i, limit) reshapes the table as Reshaped says. */
  lemma {:induction false} Phase2Shape(data: seq<byte>, off: nat, table: seq<Slot>, pf: FloatParser, i: nat, limit: nat,
                                       p: Parsed<seq<Slot>>)
    requires off <= |data| && i <= limit <= |table|
    requires Phase2(data, off, table, pf, i, limit) == Ok(p)
    ensures Reshaped(table, p.val, i, limit)
    decreases limit - i
  {
    if i == limit {
      Phase2Done(data, off, table, pf, i, limit, p);
    } else {
      var next, t := Phase2Unfold(data, off, table, pf, i, limit, p);
      Phase2Shape(data, next, t, pf, i + 1, limit, p);
      ReshapedStep(table, t, p.val, i, limit);
    }
  }

  /** Refilling slot `i` of `table` (giving `t`) and then reshaping [i + 1, limit) of `t` reshapes [i, limit) of `table`. */
  lemma ReshapedStep(table: seq<Slot>, t: seq<Slot>, final: seq<Slot>, i: nat, limit: nat)
    requires i < limit <= |table| && |t| == |table| && !table[i].Unset? && SameKind(table[i], t[i])
    requires forall j :: 0 <= j < |table| && j != i ==> t[j] == table[j]
    requires Reshaped(t, final, i + 1, limit)
    ensures Reshaped(table, final, i, limit)
  {
    OutsideStep(table, t, final, i, limit);
    KindsStep(table, t, final, i);
    AllocatedStep(table, t, i, limit);
  }

  /** Phase 2 keeps every slot's kind (a slot's parse method refills it and never changes its kind). */
  lemma Phase2Kinds(data: seq<byte>, off: nat, table: seq<Slot>, pf: FloatParser, i: nat, limit: nat,
                    p: Parsed<seq<Slot>>)
    requires off <= |data| && i <= limit <= |table|
    requires Phase2(data, off, table, pf, i, limit) == Ok(p)
    ensures |p.val| == |table| && forall j :: 0 <= j < |table| ==> SameKind(table[j], p.val[j])
  {
    Phase2Shape(data, off, table, pf, i, limit, p);
  }

  /**
   * Phase 2 parses the slots in [i, limit) by index, whatever their kind, and
   * leaves the slots outside that range as they were.
   */
  lemma Phase2Range(data: seq<byte>, off: nat, table: seq<Slot>, pf: FloatParser, i: nat, limit: nat,
                    p: Parsed<seq<Slot>>)
    requires off <= |data| && i <= limit <= |table|
    requires Phase2(data, off, table, pf, i, limit) == Ok(p)
    ensures |p.val| == |table| && forall j :: 0 <= j < |table| && !(i <= j < limit) ==> p.val[j] == table[j]
  {
    Phase2Shape(data, off, table, pf, i, limit, p);
  }

  /** Slots outside [i + 1, limit) of `t`, which differs from `table` only at `i`, are those outside [i, limit) of `table`. */
  lemma OutsideStep(table: seq<Slot>, t: seq<Slot>, final: seq<Slot>, i: nat, limit: nat)
    requires i < limit <= |table| && |t| == |table| && |final| == |table|
    requires forall j :: 0 <= j < |table| && j != i ==> t[j] == table[j]
    requires forall j :: 0 <= j < |table| && !(i + 1 <= j < limit) ==> final[j] == t[j]
    ensures forall j :: 0 <= j < |table| && !(i <= j < limit) ==> final[j] == table[j]
  {
  }

  /** Phase 2 fails on a slot in its range that is still nil: when it succeeds, all of them were allocated. */
  lemma Phase2Allocated(data: seq<byte>, off: nat, table: seq<Slot>, pf: FloatParser, i: nat, limit: nat,
                        p: Parsed<seq<Slot>>)
    requires off <= |data| && i <= limit <= |table|
    requires Phase2(data, off, table, pf, i, limit) == Ok(p)
    ensures forall j :: i <= j < limit ==> !table[j].Unset?
  {
    Phase2Shape(data, off, table, pf, i, limit, p);
  }

  /** If slot `i` of `table` and slots (i, limit) of `t`, which differs from it only at `i`, are allocated, then so are slots [i, limit) of `table`. */
  lemma AllocatedStep(table: seq<Slot>, t: seq<Slot>, i: nat, limit: nat)
    requires i < limit <= |table| && !table[i].Unset? && |t| == |table|
    requires forall j :: 0 <= j < |table| && j != i ==> t[j] == table[j]
    requires forall j :: i + 1 <= j < limit ==> !t[j].Unset?
    ensures forall j :: i <= j < limit ==> !table[j].Unset?
  {
    forall j | i < j < limit ensures !table[j].Unset? {
      assert t[j] == table[j];
    }
  }

  /** Refilling slot `i` with a slot of its kind (giving `t`), then keeping every kind, keeps every kind of `table`. */
  lemma KindsStep(table: seq<Slot>, t: seq<Slot>, final: seq<Slot>, i: nat)
    requires i < |table| && |t| == |table| && |final| == |table| && SameKind(table[i], t[i])
    requires forall j :: 0 <= j < |table| && j != i ==> t[j] == table[j]
    requires forall j :: 0 <= j < |table| ==> SameKind(t[j], final[j])
    ensures forall j :: 0 <= j < |table| ==> SameKind(table[j], final[j])
  {
    forall j | 0 <= j < |table| ensures SameKind(table[j], final[j]) {
      SameKindTrans(table[j], t[j], final[j]);
    }
  }

  lemma SameKindTrans(a: Slot, b: Slot, c: Slot)
    requires SameKind(a, b) && SameKind(b, c)
    ensures SameKind(a, c)
  {
  }

  /** A phase 2 that succeeds parsed slot `i` first and went on from where that parse ended. */
  lemma Phase2Unfold(data: seq<byte>, off: nat, table: seq<Slot>, pf: FloatParser, i: nat, limit: nat,
                     p: Parsed<seq<Slot>>) returns (next: nat, t: seq<Slot>)
    requires off <= |data| && i < limit <= |table| && Phase2(data, off, table, pf, i, limit) == Ok(p)
    ensures next <= |data| && |t| == |table| && !table[i].Unset? && SameKind(table[i], t[i])
    ensures forall j :: 0 <= j < |table| && j != i ==> t[j] == table[j]
    ensures i + 1 <= limit && Phase2(data, next, t, pf, i + 1, limit) == Ok(p)
  {
    var s := SlotAt(data, off, table, pf, i).value;
    next, t := s.next, table[i := s.val];
  }

  /** As Phase2Unfold, for a well-formed table: the table after slot `i` is refilled is well formed and only gained. */
  lemma Phase2UnfoldOk(data: seq<byte>, off: nat, table: seq<Slot>, pf: FloatParser, i: nat, limit: nat,
                       p: Parsed<seq<Slot>>) returns (next: nat, t: seq<Slot>)
    requires off <= |data| && i < limit <= |table| && Phase2(data, off, table, pf, i, limit) == Ok(p) && TableOk(table)
    ensures next <= |data| && |t| == |table| && TableOk(t) && Grows(table, t)
    ensures i + 1 <= limit && Phase2(data, next, t, pf, i + 1, limit) == Ok(p)
  {
    var s := SlotAt(data, off, table, pf, i).value;
    SlotAtOk(data, off, table, pf, i, s);
    StoreOk(table, i, s.val);
    next, t := s.next, table[i := s.val];
  }

  /** A phase 2 with no slot left to parse leaves the table as it is. */
  lemma Phase2Done(data: seq<byte>, off: nat, table: seq<Slot>, pf: FloatParser, i: nat, limit: nat,
                   p: Parsed<seq<Slot>>)
    requires off <= |data| && i == limit <= |table| && Phase2(data, off, table, pf, i, limit) == Ok(p)
    ensures p.val == table
  {
  }

  lemma GrowsTrans(s: seq<Slot>, t: seq<Slot>, u: seq<Slot>)
    requires Grows(s, t) && Grows(t, u)
    ensures Grows(s, u)
  {
  }

  /** A phase 1 that succeeds read a type line for slot `i`, allocated it, and went on from past that slot. */
  lemma Phase1Unfold(data: seq<byte>, off: nat, table: seq<Slot>, pf: FloatParser, i: nat, numTuples: nat,
                     names: seq<seq<byte>>, d: Declarations)
    returns (line: seq<byte>, next: nat, x: Slot, tuples: nat)
    requires off <= |data| && i < |table| && numTuples <= i
    requires Phase1(data, off, table, pf, i, numTuples, names) == Ok(d)
    ensures off <= next <= |data| && tuples == numTuples + (if line == TUPLE then 1 else 0) && tuples <= i + 1
    ensures SameKind(SlotFor(line), x)
    ensures TableOk(table[i := SlotFor(line)]) ==> SlotOk(table[i := SlotFor(line)], x)
    ensures Phase1(data, off, table, pf, i, numTuples, names) == Phase1(data, next, table[i := x], pf, i + 1, tuples, names + [line])
  {
    var l := LineAt(data, off);
    line := l.text;
    if line == TUPLE {
      x, next := Phase1TupleUnfold(data, off, table, pf, i, numTuples, names, d, l);
      tuples := numTuples + 1;
    } else {
      Phase1PlainUnfold(data, off, table, pf, i, numTuples, names, d, l);
      next, x, tuples := l.next, SlotFor(line), numTuples;
    }
  }

  /** Phase 1 at a `tuple` line: the tuple's payload is parsed at once, and the phase goes on past it. */
  lemma Phase1TupleUnfold(data: seq<byte>, off: nat, table: seq<Slot>, pf: FloatParser, i: nat, numTuples: nat,
                          names: seq<seq<byte>>, d: Declarations, l: Line) returns (x: Slot, next: nat)
    requires off <= |data| && i < |table| && numTuples <= i
    requires Phase1(data, off, table, pf, i, numTuples, names) == Ok(d)
    requires l == LineAt(data, off) && l.text == TUPLE
    ensures off <= next <= |data| && SameKind(SlotFor(TUPLE), x)
    ensures TableOk(table[i := SlotFor(TUPLE)]) ==> SlotOk(table[i := SlotFor(TUPLE)], x)
    ensures Phase1(data, off, table, pf, i, numTuples, names) == Phase1(data, next, table[i := x], pf, i + 1, numTuples + 1, names + [TUPLE])
  {
    var t := table[i := SlotFor(TUPLE)];
    var p := SlotAt(data, l.next, t, pf, i).value;
    x, next := p.val, p.next;
    if TableOk(t) {
      SlotAtOk(data, l.next, t, pf, i, p);
    }
    assert t[i := x] == table[i := x];
  }

  /** Phase 1 at any other type line: the slot is declared empty, and the phase goes on from the next line. */
  lemma Phase1PlainUnfold(data: seq<byte>, off: nat, table: seq<Slot>, pf: FloatParser, i: nat, numTuples: nat,
                          names: seq<seq<byte>>, d: Declarations, l: Line)
    requires off <= |data| && i < |table| && numTuples <= i
    requires Phase1(data, off, table, pf, i, numTuples, names) == Ok(d)
    requires l == LineAt(data, off) && l.text != TUPLE
    ensures off <= l.next <= |data|
    ensures Phase1(data, off, table, pf, i, numTuples, names)
            == Phase1(data, l.next, table[i := SlotFor(l.text)], pf, i + 1, numTuples, names + [l.text])
  {
  }

  /** Phase 1 keeps every reference in the table valid, and only allocates slots. */
  lemma {:induction false} Phase1Ok(data: seq<byte>, off: nat, table: seq<Slot>, pf: FloatParser, i: nat, numTuples: nat,
                                    names: seq<seq<byte>>, d: Declarations)
    requires off <= |data| && i <= |table| && numTuples <= i && TableOk(table)
    requires Phase1(data, off, table, pf, i, numTuples, names) == Ok(d)
    ensures TableOk(d.table) && Grows(table, d.table)
    decreases |table| - i
  {
    if i == |table| {
      assert d.table == table;
    } else {
      var line, next, x, tuples := Phase1Unfold(data, off, table, pf, i, numTuples, names, d);
      var t := table[i := SlotFor(line)];
      StoreOk(table, i, SlotFor(line));
      StoreOk(t, i, x);
      assert t[i := x] == table[i := x];
      GrowsTrans(table, t, table[i := x]);
      Phase1Ok(data, next, table[i := x], pf, i + 1, tuples, names + [line], d);
      GrowsTrans(table, table[i := x], d.table);
    }
  }

  /** Phase 2 keeps every reference in the table valid, and only allocates slots. */
  lemma {:induction false} Phase2Ok(data: seq<byte>, off: nat, table: seq<Slot>, pf: FloatParser, i: nat, limit: nat,
                                    p: Parsed<seq<Slot>>)
    requires off <= |data| && i <= limit <= |table| && TableOk(table)
    requires Phase2(data, off, table, pf, i, limit) == Ok(p)
    ensures TableOk(p.val) && Grows(table, p.val)
    decreases limit - i
  {
    if i == limit {
      Phase2Done(data, off, table, pf, i, limit, p);
    } else {
      var next, t := Phase2UnfoldOk(data, off, table, pf, i, limit, p);
      Phase2Ok(data, next, t, pf, i + 1, limit, p);
      GrowsTrans(table, t, p.val);
    }
  }

  /** A table of nil slots refers to nothing. */
  lemma NilSlotsOk(count: nat)
    ensures TableOk(NilSlots(count))
  {
    forall j | 0 <= j < count ensures SlotOk(NilSlots(count), NilSlots(count)[j]) {
      assert NilSlots(count)[j].Unset?;
    }
  }

  /** The parts of a successful ObjectsAt: phase 1, phase 2 and the root element, each one succeeding. */
  lemma ObjectsAtParts(data: seq<byte>, off: nat, count: nat, pf: FloatParser, dec: Decoded)
    returns (d: Declarations, p: Parsed<seq<Slot>>)
    requires off <= |data| && ObjectsAt(data, off, count, pf) == Ok(dec)
    ensures Phase1(data, off, NilSlots(count), pf, 0, 0, []) == Ok(d)
    ensures d.next <= |data| && d.numTuples <= count && |d.table| == count
    ensures Phase2(data, d.next, d.table, pf, 0, count - d.numTuples) == Ok(p)
    ensures p.next <= |data| && RootAt(data, p.next, p.val, pf) == Ok(dec)
  {
    d := Phase1(data, off, NilSlots(count), pf, 0, 0, []).value;
    p := Phase2(data, d.next, d.table, pf, 0, count - d.numTuples).value;
  }

  /** Phases 1 and 2 and the root element keep every reference naming an allocated slot. */
  lemma ObjectsAtOk(data: seq<byte>, off: nat, count: nat, pf: FloatParser,
                    d: Declarations, p: Parsed<seq<Slot>>, dec: Decoded)
    requires off <= |data| && Phase1(data, off, NilSlots(count), pf, 0, 0, []) == Ok(d)
    requires d.next <= |data| && d.numTuples <= count && |d.table| == count
    requires Phase2(data, d.next, d.table, pf, 0, count - d.numTuples) == Ok(p)
    requires p.next <= |data| && RootAt(data, p.next, p.val, pf) == Ok(dec)
    ensures |dec.table| == count && TableOk(dec.table) && ValueOk(dec.table, dec.root)
  {
    NilSlotsOk(count);
    Phase1Ok(data, off, NilSlots(count), pf, 0, 0, [], d);
    Phase2Ok(data, d.next, d.table, pf, 0, count - d.numTuples, p);
    RootAtOk(data, p.next, p.val, pf, dec);
  }

  /** The root element is read against the finished table, and is valid in it. */
  lemma RootAtOk(data: seq<byte>, off: nat, table: seq<Slot>, pf: FloatParser, dec: Decoded)
    requires off <= |data| && RootAt(data, off, table, pf) == Ok(dec)
    ensures dec.table == table && ValueOk(table, dec.root)
  {
  }

  /** After phases 1 and 2 no slot is left nil: phase 1 allocates each one and phase 2 keeps its kind. */
  lemma ObjectsAtAllocated(data: seq<byte>, off: nat, count: nat, pf: FloatParser,
                           d: Declarations, p: Parsed<seq<Slot>>)
    requires off <= |data| && Phase1(data, off, NilSlots(count), pf, 0, 0, []) == Ok(d)
    requires d.next <= |data| && d.numTuples <= count && |d.table| == count
    requires Phase2(data, d.next, d.table, pf, 0, count - d.numTuples) == Ok(p)
    ensures |p.val| == count && forall j :: 0 <= j < count ==> Declared(p.val, j)
  {
    Phase1Shape(data, off, NilSlots(count), pf, 0, 0, [], d);
    Phase2Kinds(data, d.next, d.table, pf, 0, count - d.numTuples, p);
    forall j | 0 <= j < count ensures Declared(p.val, j) {
      assert SameKind(SlotFor(d.names[j]), d.table[j]);
      assert SameKind(d.table[j], p.val[j]);
    }
  }

  /** Whatever parse returns is well formed: every reference names an allocated slot, and no slot is left nil. */
  lemma DecodeWellFormed(data: seq<byte>, pf: FloatParser, dec: Decoded)
    requires Decode(data, pf) == Ok(dec)
    ensures TableOk(dec.table) && ValueOk(dec.table, dec.root)
    ensures forall j :: 0 <= j < |dec.table| ==> Declared(dec.table, j)
  {
    var c := LineIntAt(data, LineAt(data, 0).next).value;
    var count: nat := c.val;
    assert ObjectsAt(data, c.next, count, pf) == Ok(dec);
    var d, p := ObjectsAtParts(data, c.next, count, pf, dec);
    ObjectsAtOk(data, c.next, count, pf, d, p, dec);
    ObjectsAtAllocated(data, c.next, count, pf, d, p);
  }

  /**
   * A document parse accepts begins with the magic line `cereal1` and then a
   * line holding the number of objects, which is the size of the table.
   */
  lemma DecodeHeader(data: seq<byte>, pf: FloatParser, dec: Decoded)
    requires Decode(data, pf) == Ok(dec)
    ensures |MAGIC| < |data| && data[..|MAGIC| + 1] == MAGIC + [NEWLINE]
    ensures LineIntAt(data, |MAGIC| + 1).Ok? && LineIntAt(data, |MAGIC| + 1).value.val == |dec.table|
  {
    LineAtSplits(data, 0);
    var c := LineIntAt(data, |MAGIC| + 1).value;
    var count: nat := c.val;
    assert ObjectsAt(data, c.next, count, pf) == Ok(dec);
    var d, p := ObjectsAtParts(data, c.next, count, pf, dec);
    ObjectsAtOk(data, c.next, count, pf, d, p, dec);
  }

  /** When the type lines from `k` on are exactly the `tuple` ones, there are |names| - k of them. */
  lemma {:induction false} CountTuplesLast(names: seq<seq<byte>>, k: nat)
    requires k <= |names| && forall j :: 0 <= j < |names| ==> (names[j] == TUPLE <==> k <= j)
    ensures CountTuples(names) == |names| - k
    decreases |names|
  {
    if names == [] {
    } else if k == 0 {
      CountTuplesLast(names[1..], 0);
    } else {
      CountTuplesLast(names[1..], k - 1);
    }
  }

  /**
   * An archive that declares every tuple after all the other objects (the
   * order in which cerealizer writes them) has phase 2 parse exactly the
   * non-tuple slots: its range 0 .. count - numTuples is the slots before the
   * first tuple.
   */
  lemma TuplesLastPhase2Range(data: seq<byte>, off: nat, count: nat, pf: FloatParser, d: Declarations, k: nat)
    requires off <= |data| && Phase1(data, off, NilSlots(count), pf, 0, 0, []) == Ok(d)
    requires k <= count && |d.names| == count && forall j :: 0 <= j < count ==> (d.names[j] == TUPLE <==> k <= j)
    ensures d.numTuples == count - k
    ensures forall j :: 0 <= j < k ==> !d.table[j].Tuple?
    ensures forall j :: k <= j < count ==> d.table[j].Tuple?
  {
    Phase1Shape(data, off, NilSlots(count), pf, 0, 0, [], d);
    assert d.names[0..] == d.names;
    CountTuplesLast(d.names, k);
    forall j | 0 <= j < count ensures d.table[j].Tuple? <==> k <= j {
      assert SameKind(SlotFor(d.names[j]), d.table[j]);
    }
  }

  /**
   * A phase 2 that succeeds stored in slot `i` exactly what slot `i`'s parse
   * method read, left every other slot as it was, and went on from where that
   * parse ended.
   */
  lemma Phase2Stores(data: seq<byte>, off: nat, table: seq<Slot>, pf: FloatParser, i: nat, limit: nat,
                     p: Parsed<seq<Slot>>) returns (next: nat, t: seq<Slot>)
    requires off <= |data| && i < limit <= |table| && Phase2(data, off, table, pf, i, limit) == Ok(p)
    ensures |t| == |table| && SlotAt(data, off, table, pf, i) == Ok(Parsed(t[i], next))
    ensures forall j :: 0 <= j < |table| && j != i ==> t[j] == table[j]
    ensures next <= |data| && Phase2(data, next, t, pf, i + 1, limit) == Ok(p)
  {
    var s := SlotAt(data, off, table, pf, i).value;
    next, t := s.next, table[i := s.val];
  }
}
