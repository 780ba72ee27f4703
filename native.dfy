/** The native side of a call as the marshaling layer sees it: Fiddle's ABI
    type tags, the platform's sizes, the shapes of the argument values, the
    output references and the buffers handed to the callee, and the
    collaborators whose code is not part of this model (TypeMap's memory
    helpers, dynamic loading, the native call, Ruby evaluation), each as an
    abstract function. */
module Native {
  import opened Wrappers
  import opened TypeMap
  import opened Values

  /** Fiddle's type constants (`Fiddle::TYPE_*`). */
  datatype Tag =
    | TVoid | TChar | TUChar | TShort | TUShort | TInt | TLong | TLongLong
    | TFloat | TDouble | TVoidP | TSizeT

  /** A size in bytes of a native type: never zero. */
  type Width = w: nat | w >= 1 witness 1

  /** Sizes and byte order of the host (`Fiddle::SIZEOF_*`). */
  datatype Platform = Platform(
    sizeofInt: Width,
    sizeofLong: Width,
    sizeofVoidp: Width,
    sizeofSizeT: Width,
    littleEndian: bool)

  /** A callback closure (`Fiddle::Closure::BlockCaller`): the ABI tags it
      was built with and the declared argument symbols and body it runs. */
  datatype Closure = Closure(retTag: Tag, argTags: seq<Tag>, args: seq<Sym>, block: string)

  /** A value in the native argument list: a Ruby value passed as it is, the
      address of a scratch buffer, or a closure. Buffers are identified by
      the position of the argument that allocated them. */
  datatype NativeArg =
    | Word(value: Value)
    | Address(buffer: nat)
    | ClosureArg(closure: Closure)

  /** What an output reference describes (`ref[:kind]` and its fields). */
  datatype RefKind =
    | OutScalar(sym: Sym)                 // kind: :out, type: T
    | OutArr(base: Sym, count: nat)       // kind: :out_array, base: B, count: n
    | OtherKind(kind: string)             // any other kind

  /** An output reference `{index:, kind:, ..., ptr:}`. */
  datatype OutRef = OutRef(index: nat, kind: RefKind, ptr: nat)

  /** A scratch buffer as allocated: its element type, its element count and
      the values written into it before the call (none when nothing was
      written). */
  datatype Buffer = Buffer(elem: Sym, count: nat, written: seq<Value>)

  /** Collaborators outside this model, as abstract functions:
      - toFiddleType: `TypeMap.to_fiddle_type` (None where it raises);
      - sizeOf: `TypeMap.sizeof`; packTemplate: `TypeMap.pack_template`;
      - allocationFailure: what `TypeMap.allocate_output_pointer` (one
        element) or `TypeMap.allocate_array` raises for `count` elements of a
        type, None where it succeeds;
      - writeFailure: what `TypeMap.write_array` raises when packing values
        of a type into a buffer, None where it succeeds;
      - readOutputPointer / readArray: `TypeMap.read_output_pointer` and
        `TypeMap.read_array`, reading buffer memory after the call;
      - readCString: reading a C string at an address (None where it fails);
      - blockCompiles: whether Ruby accepts a callback body;
      - invoke: `Fiddle.dlopen`, symbol lookup and the native call, giving
        the raw result word or None for `Fiddle::DLError`. */
  datatype Foreign = Foreign(
    toFiddleType: Desc -> Option<Tag>,
    sizeOf: Sym -> Option<nat>,
    packTemplate: Sym -> Option<string>,
    allocationFailure: (Sym, nat) -> Option<Error>,
    writeFailure: (Sym, seq<Value>) -> Option<Error>,
    readOutputPointer: (nat, Sym) -> Value,
    readArray: (nat, Sym, nat) -> seq<Value>,
    readCString: int -> Option<string>,
    blockCompiles: string -> bool,
    invoke: (string, string, seq<Tag>, seq<NativeArg>, Tag) -> Option<int>)

  /** A step that may raise: nothing to report, or the error it raised. */
  function Attempt(failure: Option<Error>): (r: Result<(), Error>)
    ensures r.Ok? <==> failure.None?
    ensures r.Err? ==> r.error == failure.value
  {
    match failure
    case None => Ok(())
    case Some(e) => Err(e)
  }

  /** What one argument pair contributes to a call: its ABI tag, its native
      value, and the output reference, closure and scratch buffer it adds,
      if any. */
  datatype Slot = Slot(
    tag: Tag,
    arg: NativeArg,
    outRef: Option<OutRef>,
    closure: Option<Closure>,
    buffer: Option<Buffer>)

  /** The output references of a run of slots, in slot order. */
  function RefsOf(slots: seq<Slot>): seq<OutRef>
  {
    if |slots| == 0 then []
    else
      var last := slots[|slots| - 1];
      RefsOf(slots[..|slots| - 1]) + (if last.outRef.Some? then [last.outRef.value] else [])
  }

  /** The closures of a run of slots, in slot order. */
  function ClosuresOf(slots: seq<Slot>): seq<Closure>
  {
    if |slots| == 0 then []
    else
      var last := slots[|slots| - 1];
      ClosuresOf(slots[..|slots| - 1]) + (if last.closure.Some? then [last.closure.value] else [])
  }

  /** The buffers of a run of slots, keyed by the position that allocated
      them. */
  function BuffersOf(slots: seq<Slot>): map<nat, Buffer>
  {
    map i | 0 <= i < |slots| && slots[i].buffer.Some? :: slots[i].buffer.value
  }

  /** Appending a slot appends its reference and closure, if any, and adds
      its buffer under its position. */
  lemma SlotsAppend(slots: seq<Slot>, s: Slot)
    ensures RefsOf(slots + [s]) == RefsOf(slots) + (if s.outRef.Some? then [s.outRef.value] else [])
    ensures ClosuresOf(slots + [s]) == ClosuresOf(slots) + (if s.closure.Some? then [s.closure.value] else [])
    ensures BuffersOf(slots + [s]) ==
            if s.buffer.Some? then BuffersOf(slots)[|slots| := s.buffer.value] else BuffersOf(slots)
  {
    var all := slots + [s];
    assert all[..|slots|] == slots;
    assert all[|slots|] == s;
    BuffersAppend(slots, s);
  }

  lemma BuffersAppend(slots: seq<Slot>, s: Slot)
    ensures BuffersOf(slots + [s]) ==
            if s.buffer.Some? then BuffersOf(slots)[|slots| := s.buffer.value] else BuffersOf(slots)
  {
    var all := slots + [s];
    var expected := if s.buffer.Some? then BuffersOf(slots)[|slots| := s.buffer.value] else BuffersOf(slots);
    assert forall i :: 0 <= i < |slots| ==> all[i] == slots[i];
    assert forall i :: i in BuffersOf(all) <==> i in expected;
    assert forall i | i in BuffersOf(all) :: BuffersOf(all)[i] == expected[i];
  }

  /** Each slot's output reference, if any, carries the slot's own position
      as its index and as its buffer. */
  predicate RefsAtOwnPosition(slots: seq<Slot>)
  {
    forall i :: 0 <= i < |slots| && slots[i].outRef.Some? ==>
      slots[i].outRef.value.index == i && slots[i].outRef.value.ptr == i
  }

  /** When every reference sits at its own position, the collected references
      have strictly increasing indices, all below the number of slots, and
      each is the reference of the slot it names. */
  lemma {:induction false} RefsOfIncreasing(slots: seq<Slot>)
    requires RefsAtOwnPosition(slots)
    ensures forall a, b :: 0 <= a < b < |RefsOf(slots)| ==> RefsOf(slots)[a].index < RefsOf(slots)[b].index
    ensures forall a :: 0 <= a < |RefsOf(slots)| ==>
              RefsOf(slots)[a].index < |slots| && slots[RefsOf(slots)[a].index].outRef == Some(RefsOf(slots)[a])
  {
    if |slots| > 0 {
      var init := slots[..|slots| - 1];
      assert RefsAtOwnPosition(init) by {
        forall i | 0 <= i < |init| && init[i].outRef.Some?
          ensures init[i].outRef.value.index == i && init[i].outRef.value.ptr == i
        {
          assert init[i] == slots[i];
        }
      }
      RefsOfIncreasing(init);
      forall a | 0 <= a < |RefsOf(init)|
        ensures slots[RefsOf(init)[a].index] == init[RefsOf(init)[a].index]
      {
      }
    }
  }

  /** A run of slots has no output references exactly when none of its
      slots has one. */
  lemma {:induction false} RefsOfEmpty(slots: seq<Slot>)
    ensures |RefsOf(slots)| == 0 <==> forall i :: 0 <= i < |slots| ==> slots[i].outRef.None?
  {
    if |slots| > 0 {
      var init := slots[..|slots| - 1];
      RefsOfEmpty(init);
      assert forall i :: 0 <= i < |init| ==> init[i] == slots[i];
    }
  }
}
