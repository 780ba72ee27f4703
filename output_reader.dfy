/** lib/libcall/output_reader.rb: after the call, turning each output
    reference into an entry `{index:, type:, value:}` by reading the buffer
    it names. */
module OutputReader {
  import opened Wrappers
  import opened TypeMap
  import opened Values
  import opened Native
  import opened Numerals

  /** An output entry: the position of the argument it belongs to, the type
      as text and the value read back. */
  datatype Entry = Entry(index: nat, typeName: string, value: Value)

  /** The `type` text of an `:out_array` entry, `"base[count]"`. */
  function ArrayTypeName(base: Sym, count: nat): string
  {
    Name(base) + "[" + DecimalString(count) + "]"
  }

  /** `read_single_output` / `read_array_output`, and the raise for any other
      kind. The entry keeps the reference's index; a scalar is typed by its
      symbol's name and holds the pointed-to value, an array is typed
      `"base[count]"` and holds the `count` elements asked for. */
  function ReadRef(f: Foreign, ref: OutRef): (r: Result<Entry, Error>)
    ensures r.Ok? <==> !ref.kind.OtherKind?
    ensures r.Ok? ==> r.value.index == ref.index
    ensures ref.kind.OutScalar? ==>
              r.value.typeName == Name(ref.kind.sym) &&
              r.value.value == f.readOutputPointer(ref.ptr, ref.kind.sym)
    ensures ref.kind.OutArr? ==>
              r.value.typeName == ArrayTypeName(ref.kind.base, ref.kind.count) &&
              r.value.value == ListV(f.readArray(ref.ptr, ref.kind.base, ref.kind.count))
    ensures ref.kind.OtherKind? ==> r == Err(UnknownOutKind(ref.kind.kind))
  {
    match ref.kind
    case OutScalar(sym) => Ok(Entry(ref.index, Name(sym), f.readOutputPointer(ref.ptr, sym)))
    case OutArr(base, count) =>
      Ok(Entry(ref.index, ArrayTypeName(base, count), ListV(f.readArray(ref.ptr, base, count))))
    case OtherKind(kind) => Err(UnknownOutKind(kind))
  }

  /** `OutputReader#read`: one entry per reference, in the same order and
      with the same index; a `:out` entry is typed by its symbol's name and
      holds the pointed-to value, an `:out_array` entry is typed
      `"base[count]"` and holds the elements read; the first reference of any
      other kind raises. */
  function Read(f: Foreign, refs: seq<OutRef>): (r: Result<seq<Entry>, Error>)
    ensures r.Ok? <==> forall i :: 0 <= i < |refs| ==> !refs[i].kind.OtherKind?
    ensures r.Ok? ==> |r.value| == |refs|
    ensures r.Ok? ==> forall i :: 0 <= i < |refs| ==> r.value[i].index == refs[i].index
    ensures r.Ok? ==> forall i :: 0 <= i < |refs| && refs[i].kind.OutScalar? ==>
                                  r.value[i].typeName == Name(refs[i].kind.sym) &&
                                  r.value[i].value == f.readOutputPointer(refs[i].ptr, refs[i].kind.sym)
    ensures r.Ok? ==> forall i :: 0 <= i < |refs| && refs[i].kind.OutArr? ==>
                                  r.value[i].typeName == ArrayTypeName(refs[i].kind.base, refs[i].kind.count) &&
                                  r.value[i].value ==
                                    ListV(f.readArray(refs[i].ptr, refs[i].kind.base, refs[i].kind.count))
    ensures r.Err? ==> exists i :: (0 <= i < |refs| && refs[i].kind.OtherKind? &&
                                    r.error == UnknownOutKind(refs[i].kind.kind) &&
                                    forall j :: 0 <= j < i ==> !refs[j].kind.OtherKind?)
  {
    if |refs| == 0 then Ok([])
    else
      var first :- ReadRef(f, refs[0]);
      assert forall i :: 1 <= i < |refs| ==> refs[i] == refs[1..][i - 1];
      var rest :- Read(f, refs[1..]);
      Ok([first] + rest)
  }

  /** `OutputReader#empty?`: true exactly when reading yields no entries,
      whatever the memory holds. */
  function Empty(refs: seq<OutRef>): (b: bool)
    ensures b ==> forall f: Foreign :: Read(f, refs) == Ok([])
    ensures !b ==> forall f: Foreign :: Read(f, refs) != Ok([])
  {
    |refs| == 0
  }

  /** `empty?` holds exactly when reading yields no entries at all. */
  lemma EmptyMeansNoEntries(f: Foreign, refs: seq<OutRef>)
    ensures Empty(refs) <==> Read(f, refs) == Ok([])
  {
  }

  /** When the memory reader returns as many elements as asked for, every
      `:out_array` entry holds exactly `count` elements. */
  lemma ArrayEntriesHaveCount(f: Foreign, refs: seq<OutRef>)
    requires forall p, b, n :: |f.readArray(p, b, n)| == n
    requires Read(f, refs).Ok?
    ensures forall i :: 0 <= i < |refs| && refs[i].kind.OutArr? ==>
                        Read(f, refs).value[i].value.ListV? &&
                        |Read(f, refs).value[i].value.items| == refs[i].kind.count
  {
  }

  /** The count in an array entry's type text reads back: the text is the
      base name, `[`, digits denoting the count, and `]`. */
  lemma ArrayTypeNameReadsBack(base: Sym, count: nat)
    ensures var t := ArrayTypeName(base, count);
            var digits := t[|Name(base)| + 1 .. |t| - 1];
            t[..|Name(base)|] == Name(base) && t[|Name(base)|] == '[' && t[|t| - 1] == ']' &&
            AllDigits(digits) && DigitsValue(digits) == count
  {
    var t := ArrayTypeName(base, count);
    assert t[|Name(base)| + 1 .. |t| - 1] == DecimalString(count);
    DecimalRoundTrip(count);
  }
}
