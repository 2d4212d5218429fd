/**
 * The forward-only byte reader of buffer.go: a `bytes.Buffer` over the whole
 * input with the line-reading helpers the decoder uses. The functions give the
 * outcome of each read as a function of the data and the read offset; the
 * class `Buffer` performs the reads and is proved to agree with them.
 */
module Buffers {
  import opened Base
  import opened Strconv

  /** bytes.IndexByte from `off`: the position of the next newline, or |data| when none remains. */
  function LineEnd(data: seq<byte>, off: nat): (e: nat)
    requires off <= |data|
    ensures off <= e <= |data|
    decreases |data| - off
  {
    if off == |data| || data[off] == NEWLINE then off else LineEnd(data, off + 1)
  }

  /** What one readLineStr yields: the text, the offset after the read, and whether it hit EOF. */
  datatype Line = Line(text: seq<byte>, next: nat, eof: bool)

  /** readLineStr at offset `off`. */
  function LineAt(data: seq<byte>, off: nat): (l: Line)
    requires off <= |data|
    ensures off <= l.next <= |data|
  {
    var e := LineEnd(data, off);
    if e == |data| then Line(data[off..], |data|, true)
    else Line(data[off..e], e + 1, false)
  }

  /** LineEnd finds the first newline at or after `off`. */
  lemma {:induction false} LineEndIsFirstNewline(data: seq<byte>, off: nat)
    requires off <= |data|
    ensures forall k :: off <= k < LineEnd(data, off) ==> data[k] != NEWLINE
    ensures LineEnd(data, off) < |data| ==> data[LineEnd(data, off)] == NEWLINE
    decreases |data| - off
  {
    if off < |data| && data[off] != NEWLINE {
      LineEndIsFirstNewline(data, off + 1);
    }
  }

  /**
   * readLineStr consumes one line: without the newline and stopping at the
   * first one when there is one (then exactly that line and its newline are
   * consumed), and otherwise all that remains, flagged as EOF.
   */
  lemma LineAtSplits(data: seq<byte>, off: nat)
    requires off <= |data|
    ensures NEWLINE !in LineAt(data, off).text
    ensures LineAt(data, off).eof <==> NEWLINE !in data[off..]
    ensures !LineAt(data, off).eof ==> data[off..LineAt(data, off).next] == LineAt(data, off).text + [NEWLINE]
    ensures LineAt(data, off).eof ==> LineAt(data, off).text == data[off..] && LineAt(data, off).next == |data|
  {
    LineEndIsFirstNewline(data, off);
    var e := LineEnd(data, off);
    if e < |data| {
      assert data[off..e + 1] == data[off..e] + [NEWLINE];
      assert data[e] == data[off..][e - off];
    }
  }

  /** readLineInt at offset `off`: a full line, then strconv.Atoi. */
  function LineIntAt(data: seq<byte>, off: nat): (r: Result<Parsed<int>>)
    requires off <= |data|
    ensures r.Ok? ==> off < r.value.next <= |data| && MinInt <= r.value.val <= MaxInt
  {
    var l := LineAt(data, off);
    if l.eof then Err(Eof)
    else
      match Atoi(l.text)
      case None => Err(BadInt)
      case Some(v) => Ok(Parsed(v, l.next))
  }

  /**
   * readLineInt fails with EOF whenever the line read hits the end of the
   * data, even after reading bytes; it succeeds exactly when the line is
   * complete and Atoi accepts it, and then yields Atoi's value and ends
   * where the line does; a complete line Atoi rejects is BadInt.
   */
  lemma LineIntAtOutcome(data: seq<byte>, off: nat)
    requires off <= |data|
    ensures NEWLINE !in data[off..] ==> LineIntAt(data, off) == Err(Eof)
    ensures LineIntAt(data, off).Ok? <==> !LineAt(data, off).eof && Atoi(LineAt(data, off).text).Some?
    ensures LineIntAt(data, off).Ok? ==>
              Atoi(LineAt(data, off).text) == Some(LineIntAt(data, off).value.val)
              && LineIntAt(data, off).value.next == LineAt(data, off).next
    ensures !LineAt(data, off).eof && Atoi(LineAt(data, off).text).None? ==> LineIntAt(data, off) == Err(BadInt)
  {
    LineAtSplits(data, off);
  }

  function Zeros(n: nat): (z: seq<byte>)
    ensures |z| == n
  {
    seq(n, _ => 0)
  }

  /**
   * bytes.Buffer.Read into a freshly made (zeroed) slice of `n` bytes at
   * offset `off`: it copies what is there, up to `n` bytes.
   */
  function ReadAt(data: seq<byte>, off: nat, n: nat): (r: Result<Parsed<seq<byte>>>)
    requires off <= |data|
    ensures r.Ok? ==> off <= r.value.next <= |data|
  {
    if off == |data| && n > 0 then Err(Eof)
    else
      var k := if n <= |data| - off then n else |data| - off;
      Ok(Parsed(data[off..off + k] + Zeros(n - k), off + k))
  }

  /**
   * Read fails only when nothing at all remains and bytes are wanted; it
   * otherwise yields exactly `n` bytes: the next min(n, remaining) bytes of
   * the input, then zeros, and consumes only the bytes it copied.
   */
  lemma ReadAtCopies(data: seq<byte>, off: nat, n: nat)
    requires off <= |data|
    ensures ReadAt(data, off, n).Err? <==> off == |data| && n > 0
    ensures ReadAt(data, off, n).Err? ==> ReadAt(data, off, n).error == Eof
    ensures var r := ReadAt(data, off, n);
            r.Ok? ==>
              && |r.value.val| == n
              && (r.value.next == off + n || r.value.next == |data|)
              && off <= r.value.next <= off + n
              && r.value.val[..r.value.next - off] == data[off..r.value.next]
              && forall i :: r.value.next - off <= i < n ==> r.value.val[i] == 0
  {
  }

  /** buffer (buffer.go:10): the input and the read offset of the embedded bytes.Buffer. */
  class Buffer {
    const data: seq<byte>
    var off: nat

    ghost predicate Valid()
      reads this
    {
      off <= |data|
    }

    /** newBuffer */
    constructor (data: seq<byte>)
      ensures Valid() && this.data == data && off == 0
    {
      this.data := data;
      off := 0;
    }

    /** bytes.Buffer.ReadByte */
    method ReadByte() returns (r: Result<byte>)
      requires Valid()
      modifies this
      ensures Valid()
      ensures old(off) < |data| ==> r == Ok(data[old(off)]) && off == old(off) + 1
      ensures old(off) == |data| ==> r == Err(Eof) && off == old(off)
    {
      if off == |data| {
        r := Err(Eof);
      } else {
        r := Ok(data[off]);
        off := off + 1;
      }
    }

    /** bytes.Buffer.Read into a zeroed slice of length `n`. */
    method Read(n: nat) returns (r: Result<seq<byte>>)
      requires Valid()
      modifies this
      ensures Valid() && old(off) <= off
      ensures Step(r, off) == ReadAt(data, old(off), n)
    {
      if off == |data| && n > 0 {
        r := Err(Eof);
        return;
      }
      var k := if n <= |data| - off then n else |data| - off;
      r := Ok(data[off..off + k] + Zeros(n - k));
      off := off + k;
    }

    /** readLineStr: the bytes up to the next newline (removed); on EOF all remaining bytes and the EOF flag. */
    method ReadLineStr() returns (line: seq<byte>, eof: bool)
      requires Valid()
      modifies this
      ensures Valid() && old(off) <= off
      ensures Line(line, off, eof) == LineAt(data, old(off))
    {
      var e := LineEnd(data, off);
      if e == |data| {
        line, eof := data[off..], true;
        off := |data|;
      } else {
        line, eof := data[off..e], false;
        off := e + 1;
      }
    }

    /** readLineInt: fails when the line read fails; otherwise strconv.Atoi of the line. */
    method ReadLineInt() returns (r: Result<int>)
      requires Valid()
      modifies this
      ensures Valid() && old(off) <= off
      ensures Step(r, off) == LineIntAt(data, old(off))
    {
      var line, eof := ReadLineStr();
      if eof {
        return Err(Eof);
      }
      var v := Atoi(line);
      if v.None? {
        return Err(BadInt);
      }
      r := Ok(v.value);
    }
  }
}
