# cereal: a verified model of the cerealizer decoder

`cereal` is a Go package that reads archives written by Python's
*cerealizer* module and unmarshals them into Go values. An archive is a
text-and-bytes stream:

- a magic line `cereal1`;
- a line holding the number of objects;
- one type line per object (`dict`, `list`, `set`, `tuple` or a class name);
  a tuple's payload follows its type line at once;
- the payloads of the first `count - numTuples` objects, by index;
- one root element.

An element is a tag byte and its payload: `b` (one byte `1` or `0`), `i`/`l`
(an integer line), `f` (a float line), `r` (a line holding an index into the
object table), `s`/`u` (a length line, then that many bytes) and `n` (None).
`Unmarshal` then walks the target Go type and the decoded tree together.

This project models the three stages of that core and proves what each
promises.

- **Byte cursor** (`buffer.dfy`, module `Buffers`). `readLineStr`,
  `readLineInt` and the `ReadByte`/`Read` behaviour of the embedded
  `bytes.Buffer`. The class `Buffer` owns the data and the read offset. Its
  methods are proved equal to reference functions of the data and the offset.
  `strconv.Atoi` and its inverse are in `strconv.dfy`.
- **Decoder** (`grammar.dfy`, `decoder.dfy`). `Grammar` defines `parseElem`,
  the `parse` methods of `list`/`tuple`/`dict`/`obj`, both phases of `parse`
  and `parse` itself as pure functions. Each returns an error, or the value and
  the offset just past it. The class `Decoding.Decoder` performs the same reads
  on a `Buffer` and fills its object table in place. Every method is proved
  to yield exactly what the reference functions yield. The object table
  (a package variable in Go) is a field of the decoder. A `r` element is
  `Ref(i)`, so a list or dict that holds it sees the slot's final contents, as
  Go's pointer does. `facts.dfy` proves properties of the reference decoder.
  `encoding.dfy` defines a writer for elements and proves that the decoder
  reads back what the writer writes.
- **Converter** (`targets.dfy`, `conversion.dfy`, `unmarshal.dfy`). Go
  reflection is replaced by a target-type datatype (`Targets.Type`) and an
  output-value datatype (`Targets.Out`). `Conversion.Convert` specifies
  `unmarshalType` and the `unmarshal` methods. The methods of `Unmarshalling`
  build the Go value and are proved to agree with it. `convfacts.dfy` proves
  its properties.

Errors are a datatype (`Base.Error`). A Go `make` with a negative length
panics; the model reports `NegativeLength` instead.

## Model

| member | source | states |
|---|---|---|
| Buffers.LineEndIsFirstNewline | buffer.go:25 | The line end found is the first newline at or after the offset, or the end of the data when none remains. |
| Buffers.LineAtSplits | buffer.go:19-31 | A line read never contains a newline. It hits EOF exactly when no newline remains, and then yields all remaining bytes and leaves the cursor at the end. Otherwise it consumed exactly its text and one newline. |
| Buffers.LineIntAt | buffer.go:36-49 | A successful integer line advances the cursor and yields a value within Go's 64-bit `int` range. |
| Buffers.LineIntAtOutcome | buffer.go:36-49 | `readLineInt` fails with EOF whenever no newline remains, even after bytes were read. It succeeds exactly when the line is complete and `Atoi` accepts it, and then yields `Atoi`'s value and ends where the line does. A complete line `Atoi` rejects fails with `BadInt`. |
| Buffers.ReadAtCopies | parse.go:77-81 | `Read` into a zeroed slice of `n` bytes fails (EOF) exactly when nothing remains and `n > 0`. Otherwise it yields `n` bytes: the next min(`n`, remaining) bytes of the input, then zeros. It consumes only the bytes it copied. |
| Buffers.Buffer.constructor | buffer.go:14-17 | `newBuffer` starts at offset 0 over the given data. |
| Buffers.Buffer.ReadByte | parse.go:27-30 | Yields the byte at the cursor and advances by one. At the end it fails with EOF and does not move. |
| Buffers.Buffer.Read | parse.go:77-81 | The outcome and the new offset are those of `ReadAt`. The offset never decreases and stays within the data. |
| Buffers.Buffer.ReadLineStr | buffer.go:23-32 | The text, the EOF flag and the new offset are those of `LineAt`. |
| Buffers.Buffer.ReadLineInt | buffer.go:36-49 | The outcome is that of `LineIntAt`: EOF whenever the line read hits EOF (even after reading bytes), `BadInt` when `Atoi` rejects the line, otherwise its value. |
| Strconv.AtoiItoa | buffer.go:43-48 | Every integer in `int` range, written in decimal, is read back by `Atoi` as itself. |
| Grammar.ElemAt | parse.go:25-91 | A successful element starts with one of the eight tags, advances the cursor, and holds only a reference that names an allocated slot. |
| Grammar.BoolAt | parse.go:33-46 | A `b` payload succeeds exactly when the next byte is `1` or `0`, and yields true for `1`. |
| Grammar.IntAt | parse.go:48-49 | An `i`/`l` payload yields an integer. |
| Grammar.FloatAt | parse.go:51-57 | An `f` payload yields a float. |
| Grammar.FloatAtOutcome | parse.go:51-57 | An `f` payload fails with EOF whenever no newline remains. It succeeds exactly when the line is complete and the float parser accepts it, and then yields the parser's bits and ends where the line does. A rejected line fails with `BadFloat`. |
| Grammar.RefAt | parse.go:59-69 | An `r` payload succeeds exactly when its index line parses and 0 <= index < table length. It then yields a reference to that slot, or None exactly when the slot is still nil. |
| Grammar.StrAt | parse.go:71-83 | A successful `s`/`u` payload is a string whose length equals the declared length. |
| Grammar.ElemsAt | object.go:37-44 | The element loop keeps what it had as a prefix, appends exactly `k` values, and every new value holds only valid references. |
| Grammar.ElemsAtStep | object.go:37-44 | One pass of the element loop: an error ends the loop with that error. Otherwise the loop goes on from where the element ended, with the element appended. |
| Grammar.PairsAtStep | object.go:104-116 | One pass of the dict loop reads the value, then the key. An error in either ends the loop. Otherwise the loop goes on past them with `acc[key := value]`. |
| Grammar.StrKeyed | object.go:177-184 | Every string key of the dict becomes an attribute holding its entry, and there are no other attributes. |
| Grammar.ObjAtStep | object.go:166-187 | `obj.parse` depends only on the one element it reads and where that element ends. |
| Grammar.SlotAt | parse.go:150-156 | A slot's parse method leaves the slot of the same kind and the cursor within the data. |
| Grammar.ListSlotAt | object.go:72-79 | `tuple.parse` is `list.parse` and leaves a tuple. `list.parse` leaves a list. |
| Grammar.DictSlotAt | object.go:95-119 | `dict.parse` leaves a dict. |
| Grammar.Phase1 | parse.go:117-148 | Phase 1 keeps the table at `count` slots and counts at most that many tuples. |
| Grammar.Phase2 | parse.go:150-156 | Phase 2 keeps the table at `count` slots and the cursor within the data. |
| GrammarFacts.Phase2Stores | parse.go:151-156 | A successful phase 2 stores in slot `i` exactly what that slot's parse method read, leaves every other slot as it was, and goes on from where that parse ended. |
| Decoding.Decoder.constructor | parse.go:99 | A new decoder reads the given data from offset 0 with an empty table. |
| Decoding.Decoder.ParseElem | parse.go:25-91 | The outcome and the new offset are those of `ElemAt`. |
| Decoding.Decoder.ParseBool | parse.go:33-46 | The outcome is that of `BoolAt`. |
| Decoding.Decoder.ParseFloat | parse.go:51-57 | The outcome is that of `FloatAt`. |
| Decoding.Decoder.ParseRef | parse.go:59-69 | The outcome is that of `RefAt`. |
| Decoding.Decoder.ParseStr | parse.go:71-83 | The outcome is that of `StrAt`. |
| Decoding.Decoder.ListParse | object.go:26-47 | The table and the offset afterwards are those `ListSlotAt` gives: slot `i` holds the elements read, or the error is the reference error. |
| Decoding.Decoder.DictParse | object.go:95-119 | Slot `i` and the offset afterwards are those `DictSlotAt` gives. |
| Decoding.Decoder.ParsePairs | object.go:104-116 | The counted loop of `dict.parse` yields what `PairsAt` yields for that count (none when it is negative), from a fresh map. |
| Decoding.Decoder.ParsePair | object.go:105-115 | One pass reads a value, then a key. The rest of the loop goes on from past them with that pair stored. |
| Decoding.Decoder.ObjParse | object.go:166-187 | Slot `i` and the offset afterwards are those `ObjSlotAt` gives. |
| Decoding.Decoder.SlotParse | parse.go:140-156 | Dispatches on the kind of slot `i`: a nil slot fails, and every other kind ends as `SlotAt` gives. |
| Decoding.Decoder.Parse | parse.go:97-160 | The outcome is `Decode` of the data: the root and the final table, or the first error. |
| Decoding.Decoder.DeclareSlots | parse.go:119-148 | The first loop of `parse` leaves the table, the offset and the tuple count that `Phase1` gives. |
| Decoding.Decoder.DeclareSlot | parse.go:124-147 | One pass of the first loop, for slot `i`: phase 1 goes on from the next slot with the line's kind allocated. |
| Decoding.Decoder.FillSlots | parse.go:150-156 | The second loop of `parse` leaves the table and the offset that `Phase2` gives. |
| Decoding.Phase1Next | parse.go:123-148 | One iteration of phase 1, as the method performs it, is one step of `Phase1`. |
| Decoding.Phase2Next | parse.go:151-156 | One iteration of phase 2 is one step of `Phase2`. |
| Decoding.CopyStrKeyed | object.go:177-184 | Fails exactly when some key is not a string. Otherwise yields the attributes overlaid with the dict's entries. |
| Decoding.ParseDocument | parse.go:97-99 | `parse(data)` with a fresh decoder and table yields `Decode(data)`. |
| GrammarFacts.ElemsAtInOrder | object.go:37-44 | The element loop yields `acc + vs` exactly when `vs` has `k` elements lying one after another in the stream. |
| GrammarFacts.ElemsAtReads | object.go:37-44 | A successful element loop read its values in stream order. |
| GrammarFacts.ReadsElemsAt | object.go:37-44 | Values lying in order in the stream are what the element loop appends, in that order. |
| GrammarFacts.ListAtCount | object.go:30-44 | `list.parse` yields the values its count line announces and its element loop reads. |
| GrammarFacts.StoredLastWins | object.go:115 | A key stored by a pair with no later pair for that key ends up with that pair's value. |
| GrammarFacts.StoredUntouched | object.go:115 | A key no pair stores keeps its entry, or stays absent. |
| GrammarFacts.PairsAtStores | object.go:104-116 | Pairs lying in order (value first, then key) are stored one by one in stream order. |
| GrammarFacts.PairsAtRead | object.go:104-116 | Every successful dict loop read exactly `n` pairs in order and stored them. |
| GrammarFacts.PairsAtOk | object.go:104-116 | The entries stored by the dict loop hold only references to allocated slots. |
| GrammarFacts.SlotAtOk | parse.go:150-156 | What a slot's parse method yields holds only references valid in the table it reads against. |
| GrammarFacts.Phase1Shape | parse.go:123-148 | Phase 1 reads one type line per slot. `dict` gives a dict, `list`/`set` a list, `tuple` a tuple, anything else an object of that class. `numTuples` is the number of `tuple` lines. |
| GrammarFacts.Phase2Shape | parse.go:151-156 | A successful phase 2 over `i .. limit-1` found each of those slots allocated, kept every slot's kind and left the slots outside the range as they were. |
| GrammarFacts.Phase2Kinds | parse.go:151-156 | Phase 2 never changes a slot's kind. |
| GrammarFacts.Phase2Range | parse.go:151-156 | Phase 2 touches only the slots `i .. limit-1`, by index, whatever their kind. |
| GrammarFacts.Phase2Allocated | parse.go:151-156 | A phase 2 that succeeds found every slot in its range allocated (a nil slot fails). |
| GrammarFacts.Phase1Ok | parse.go:123-148 | Phase 1 keeps every reference in the table valid and only allocates slots. |
| GrammarFacts.Phase2Ok | parse.go:151-156 | Phase 2 keeps every reference in the table valid and only allocates slots. |
| GrammarFacts.ObjSlotAtOutcome | object.go:166-187 | `obj.parse` fails with the element's error, then `NotADict` unless the element is a reference to a dict slot, then `NonStringKey` if that dict has a non-string key. It succeeds exactly otherwise. The object then keeps its class name and holds its earlier attributes overlaid with the dict's entries as they are at that moment. |
| GrammarFacts.NilSlotsOk | parse.go:117 | A table of nil slots refers to nothing. |
| GrammarFacts.ObjectsAtOk | parse.go:117-159 | After both phases and the root, the table has `count` slots, every reference in it is valid, and so is the root. |
| GrammarFacts.RootAtOk | parse.go:158-159 | The root is read against the finished table and refers only to allocated slots. |
| GrammarFacts.ObjectsAtAllocated | parse.go:117-156 | After both phases no slot is left nil. |
| GrammarFacts.DecodeWellFormed | parse.go:97-160 | Whatever `parse` returns is well formed: every reference names an allocated slot and no slot is nil. |
| GrammarFacts.DecodeHeader | parse.go:101-117 | A document `parse` accepts starts with `cereal1` and a newline, followed by a count line equal to the table size. |
| GrammarFacts.TuplesLastPhase2Range | parse.go:119-156 | When every tuple is declared after all other objects (as cerealizer writes them), `numTuples` counts them and phase 2's range is exactly the non-tuple slots. |
| Encoding.LineAtRoundTrip | buffer.go:19-31 | A line without newline, written with its newline, is read back by `readLineStr`, which stops just past it. |
| Encoding.LineIntAtRoundTrip | buffer.go:36-49 | An integer line in `int` range is read back by `readLineInt` as that integer. |
| Encoding.ElemAtRoundTrip | parse.go:25-91 | `parseElem` reads back every element the writer emits and stops exactly where it ends. For a float, this needs only that its own text parses back to its bits. |
| Encoding.BoolRoundTrip | parse.go:33-46 | A written boolean is read back. |
| Encoding.IntRoundTrip | parse.go:48-49 | A written integer is read back. |
| Encoding.FloatRoundTrip | parse.go:51-57 | A written float is read back when the float parser turns its text back into its bits. |
| Encoding.StrRoundTrip | parse.go:71-83 | A written string is read back with its length. |
| Encoding.RefRoundTrip | parse.go:59-69 | A written reference to an allocated slot is read back. |
| Encoding.RefAtEarly | parse.go:59-69 | A written reference to a slot that is still nil (not yet reached by phase 1, parse.go:117) reads back as None. |
| Encoding.WrittenInOrder | object.go:37-44 | Written elements lie in the stream one after another, each readable by `parseElem`. Only the floats among them must parse back. |
| Encoding.ElemsAtRoundTrip | object.go:37-44 | The element loop reads back a run of written elements, in order. Only the floats among them must parse back. |
| Encoding.ListAtRoundTrip | object.go:26-47 | `list.parse` reads back a written count line and its elements. Only the floats among them must parse back. |
| Encoding.DecodeScalarDocument | parse.go:97-160 | `parse` reads back a document with no objects and a scalar root, whatever follows it. A float root must parse back; no other root needs anything of the float parser. |
| Encoding.DecodeEmpty | parse.go:117-159 | A count of 0 gives two empty phases, and only the root is read. |
| Targets.ZeroHasType | parse.go:195 | The zero value `reflect.New(rt).Elem()` is a value of type `rt`. |
| Conversion.ConvertScalar | parse.go:204-270 | A successful scalar conversion yields a value of the target type that carries the decoded scalar unchanged (the same integer, bytes, truth value or bits). A target of no scalar kind is unsupported. |
| Conversion.FieldMapUpTo | object.go:207-219 | The field map leads each key to an earlier field with that key. |
| ConversionFacts.ConvertHasType | parse.go:189-272 | What `unmarshalType` produces is a value of the target type, down to every element, entry and field. |
| ConversionFacts.ConvertSlotHasType | parse.go:194-199 | What a composite's `unmarshal` produces has the target type. |
| ConversionFacts.ListHasType | object.go:51-68 | A converted list is a slice whose elements have the element type. |
| ConversionFacts.DictHasType | object.go:123-147 | A converted dict is a map whose keys and values have the key and element types. |
| ConversionFacts.DictKeyOf | object.go:132-144 | Each key of the built map comes from a stored key and holds that key's value, converted. |
| ConversionFacts.StructHasType | object.go:192-249 | A converted object is a struct whose fields have their declared types. |
| ConversionFacts.IntConversion | parse.go:207-223 | An integer converts to an integer kind exactly when it fits the width, and keeps its value. Otherwise the error is an overflow. |
| ConversionFacts.IntNeedsInt | parse.go:207-213 | An integer target fails with a type mismatch on any non-composite value that is not an integer. |
| ConversionFacts.StringConversion | parse.go:226-234 | A string target converts exactly a string and keeps its bytes. Anything else that is not a composite is a type mismatch. |
| ConversionFacts.BoolConversion | parse.go:253-260 | A bool target converts exactly a bool and keeps its value. Anything else that is not a composite is a type mismatch. |
| ConversionFacts.FloatConversion | parse.go:237-251 | A float target of either width converts exactly a float and keeps its bits. Anything else that is not a composite is a type mismatch. |
| ConversionFacts.NilNeverConverts | parse.go:204-267 | None converts to no target type. |
| ConversionFacts.InterfaceNeverConverts | parse.go:262-267 | An `interface{}` target, or one of an unhandled kind, accepts no value, composite or not. |
| ConversionFacts.ConvertKeyAgrees | object.go:138-141 | A map key goes through `unmarshalType` like any other value. |
| ConversionFacts.FieldMapLastWins | object.go:207-219 | The field map holds every field's key. It leads from a key to a field exactly when no later field has that key. |
| ConversionFacts.FilledIff | object.go:221-230 | A field is filled exactly when it is settable, an attribute bears its key, and no later field shadows it. |
| ConversionFacts.StructFields | object.go:221-246 | A filled field holds its attribute converted to its type. Every other field keeps its zero value. |
| ConversionFacts.UnknownAttributeIgnored | object.go:221-225 | An attribute no field answers to does not change the result, whatever its value. |
| ConversionFacts.KeyImageSize | object.go:138-143 | Distinct keys convert to distinct Go keys. |
| ConversionFacts.DictSize | object.go:130-144 | The built map has as many entries as the dict: no entry is lost. |
| ConversionFacts.DictPairs | object.go:132-144 | Every stored pair is in the built map, with its key and its value converted. |
| Unmarshalling.UnmarshalType | parse.go:189-272 | Succeeds exactly when `Convert` does, with its value. For a non-composite it gives the kind's definite error. |
| Unmarshalling.SlotUnmarshal | parse.go:194-199 | A composite goes to its own `unmarshal` method, and the outcome is `ConvertSlot`. |
| Unmarshalling.ListUnmarshal | object.go:51-68 | Fails (`NotSlice`) unless the target is a slice. Otherwise it yields a slice with element `i` = value `i` converted, or fails if any one fails. |
| Unmarshalling.StorePairs | object.go:130-146 | The map loop succeeds exactly when every key and value converts, and yields all pairs converted. |
| Unmarshalling.DictUnmarshal | object.go:123-147 | Fails (`NotMap`) unless the target is a map. Otherwise the outcome is `ConvertDict`. |
| Unmarshalling.BuildFieldMap | object.go:207-219 | Builds the field map of the struct type. |
| Unmarshalling.SkipAttribute | object.go:221-230 | Skipping an attribute that fills no field changes no field. |
| Unmarshalling.FillAttribute | object.go:232-245 | Visiting the attribute of a filled field sets that field to the converted attribute. |
| Unmarshalling.FillFields | object.go:221-248 | The attribute loop succeeds exactly when every filled field converts. It leaves every field as `ConvertStruct` specifies. |
| Unmarshalling.ObjUnmarshal | object.go:192-249 | Fails (`NotStruct`) unless the target is a struct. Otherwise the outcome is `ConvertStruct`. |
| Unmarshalling.Unmarshal | parse.go:164-185 | Fails unless given a non-nil pointer. A parse error is returned as is. Otherwise the outcome is the root converted to the pointed-to type, and a result has that type. |

## Left out

- Float parsing and formatting: `strconv.ParseFloat` is a parameter (`FloatParser`) that yields the 64-bit pattern or fails. Float values are opaque bit patterns.
- Unmarshalling.UnmarshalType: a `float32` target keeps the 64-bit pattern. `SetFloat`'s narrowing to 32 bits is not modelled.
- Conversion.ConvertScalar: for a `float32` target the result carries the decoded 64-bit pattern unchanged. Go's `SetFloat` (parse.go:251) rounds it to 32 bits.
- ConversionFacts.FloatConversion: keeps the bits for width 32 as for width 64. Go rounds to `float32` there.
- ConversionFacts.DictSize: float map keys are compared by bit pattern. Go compares them as numbers (+0 equals -0, and NaN never equals itself).
- GrammarFacts.StoredLastWins: dict keys are compared as decoded values, so float keys are compared by bit pattern. Go's `d.vals[key] = val` (object.go:115) merges +0.0 and -0.0 into one key and keeps every NaN key apart; the model does neither.
- GrammarFacts.PairsAtStores: stores pairs by the same bit-pattern key equality, with the same difference from Go for +0.0, -0.0 and NaN keys.
- Reflection: `reflect.New`, `Set`, `CanSet` and tag lookup are replaced by `Targets.Type` (with a settable flag per field). The unmarshal methods build the new value of `*v` and return it instead of writing through `v`. A composite attribute is converted into a zero value of the field's type, which is where Go's `p.unmarshal(rv.Field(idx))` starts.
- Nil and empty slices and maps are not told apart (`Targets.Zero`).
- Map key types are limited to non-composite kinds (`Targets.ValidType`). Go rejects slice and map keys. Struct keys are not covered.
- The package-level table and any concurrent use of it: each decode owns its table.
- Error text: errors are kinds (`Base.Error`), without Go's messages.
- Go map iteration order (object.go:132, 177 and 221). A composite conversion is specified only as succeeding or not (`Conversion.Convert` is an `Option`). When several entries could fail, which error is reported is not stated.
- Panics: `make` with a negative length (parse.go:77, parse.go:117, object.go:35) and a parse method called on a nil slot are modelled as errors (`NegativeLength`, `NilObject`).
- Running out of memory on a huge declared count or length.
- Phase 2 parses the slots `0 .. count-numTuples-1` by index, whatever their kind, as parse.go:151-156 does. It does not check for tuples, so a tuple declared before another object is parsed a second time and the last object's payload is never read. Skipping tuples and parsing by index agree when tuples are declared last (`GrammarFacts.TuplesLastPhase2Range`).
- A short string payload: `bytes.Buffer.Read` copies what remains and the string is padded with zeros (`Buffers.ReadAtCopies`). It is not reported as truncated input.
- `Conversion.Convert` of a reference to a nil slot yields no result. `GrammarFacts.DecodeWellFormed` shows that `parse` never returns such a table.
- `encoding.dfy` writes only elements and documents with no objects. It does not write whole archives with objects.
- Encoding.EncodeValue: the writer emits only the `i` and `s` tags. The `l` and `u` spellings, which `parseElem` reads the same way (parse.go:48 and parse.go:71), have no round-trip lemma.
- Target types are finite (`Targets.Type` is an inductive datatype), so a recursive Go type such as `type Node struct { Kids []Node }` cannot be written as a target. With such a type, Go's `list.unmarshal` and `obj.unmarshal` (object.go:51-68, object.go:192-249) recurse without end on an archive whose objects refer to themselves. `Conversion.Convert` terminates because its target shrinks at each step, so that non-termination is not modelled.
- cereal.go (documentation only), parse_test.go and the fixture generator are not part of this model.
