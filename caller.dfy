/** lib/libcall/caller.rb: building the argument lists of a call, making the
    foreign call, formatting its raw result and attaching the output
    values. */
module Caller {
  import opened Wrappers
  import opened TypeMap
  import opened Values
  import opened Native
  import opened Numerals
  import OutputReader
  import ArgumentProcessor

  /** What `Caller#call` returns: the formatted result alone, or
      `{result:, outputs:}` when the call had output arguments. */
  datatype CallResult =
    | Bare(result: Value)
    | WithOutputs(result: Value, outputs: seq<OutputReader.Entry>)

  /** One step of the argument loop of `Caller#call`. The tag is computed
      first, for every pair; then `[:out, T]` allocates one element and
      records a reference, `[:array, B]` allocates and fills the given
      values, `[:out_array, B, n]` allocates `n` elements and records a
      reference (the supplied value is ignored), any other array form raises,
      and a bare symbol, `:callback` included, passes its value through. */
  function CallerSlot(f: Foreign, p: Pair, idx: nat): (r: Result<Slot, Error>)
    ensures r.Ok? ==> f.toFiddleType(p.desc) == Some(r.value.tag) && r.value.closure.None?
    ensures r.Ok? ==> (r.value.outRef.Some? <==> p.desc.Out? || p.desc.OutArray?)
    // success, for each kind of descriptor
    ensures p.desc.Plain? ==> (r.Ok? <==> f.toFiddleType(p.desc).Some?)
    ensures p.desc.Out? ==>
              (r.Ok? <==> f.toFiddleType(p.desc).Some? && f.allocationFailure(p.desc.inner, 1).None?)
    ensures p.desc.ArrayIn? ==>
              (r.Ok? <==> f.toFiddleType(p.desc).Some? &&
                          f.allocationFailure(p.desc.base, |ToArray(p.value)|).None? &&
                          f.writeFailure(p.desc.base, ToArray(p.value)).None?)
    ensures p.desc.OutArray? ==>
              (r.Ok? <==> f.toFiddleType(p.desc).Some? && f.allocationFailure(p.desc.base, p.desc.count).None?)
    // what each kind contributes
    ensures r.Ok? && p.desc.Plain? ==> r.value.arg == Word(p.value) && r.value.buffer.None?
    ensures r.Ok? && !p.desc.Plain? ==> r.value.arg == Address(idx)
    ensures r.Ok? && p.desc.Out? ==>
              r.value.outRef == Some(OutRef(idx, OutScalar(p.desc.inner), idx)) &&
              r.value.buffer == Some(Buffer(p.desc.inner, 1, []))
    ensures r.Ok? && p.desc.ArrayIn? ==>
              r.value.buffer == Some(Buffer(p.desc.base, |ToArray(p.value)|, ToArray(p.value)))
    ensures r.Ok? && p.desc.OutArray? ==>
              r.value.outRef == Some(OutRef(idx, OutArr(p.desc.base, p.desc.count), idx)) &&
              r.value.buffer == Some(Buffer(p.desc.base, p.desc.count, []))
    // which error is raised, in the order the steps run
    ensures f.toFiddleType(p.desc).None? ==> r == Err(NoFiddleType(p.desc))
    ensures p.desc.OtherForm? && f.toFiddleType(p.desc).Some? ==> r == Err(UnknownArrayForm(p.desc))
    ensures p.desc.Out? && f.toFiddleType(p.desc).Some? && f.allocationFailure(p.desc.inner, 1).Some? ==>
              r == Err(f.allocationFailure(p.desc.inner, 1).value)
    ensures p.desc.ArrayIn? && f.toFiddleType(p.desc).Some? &&
            f.allocationFailure(p.desc.base, |ToArray(p.value)|).Some? ==>
              r == Err(f.allocationFailure(p.desc.base, |ToArray(p.value)|).value)
    ensures p.desc.ArrayIn? && f.toFiddleType(p.desc).Some? &&
            f.allocationFailure(p.desc.base, |ToArray(p.value)|).None? &&
            f.writeFailure(p.desc.base, ToArray(p.value)).Some? ==>
              r == Err(f.writeFailure(p.desc.base, ToArray(p.value)).value)
    ensures p.desc.OutArray? && f.toFiddleType(p.desc).Some? &&
            f.allocationFailure(p.desc.base, p.desc.count).Some? ==>
              r == Err(f.allocationFailure(p.desc.base, p.desc.count).value)
  {
    var tag :- ArgumentProcessor.TagOf(f, p.desc);
    match p.desc
    case Out(inner) =>
      var _ :- Attempt(f.allocationFailure(inner, 1));
      Ok(Slot(tag, Address(idx), Some(OutRef(idx, OutScalar(inner), idx)), None, Some(Buffer(inner, 1, []))))
    case ArrayIn(base) =>
      var values := ToArray(p.value);
      var _ :- Attempt(f.allocationFailure(base, |values|));
      var _ :- Attempt(f.writeFailure(base, values));
      Ok(Slot(tag, Address(idx), None, None, Some(Buffer(base, |values|, values))))
    case OutArray(base, count) =>
      var _ :- Attempt(f.allocationFailure(base, count));
      Ok(Slot(tag, Address(idx), Some(OutRef(idx, OutArr(base, count), idx)), None, Some(Buffer(base, count, []))))
    case OtherForm(_) => Err(UnknownArrayForm(p.desc))
    case Plain(_) => Ok(Slot(tag, Word(p.value), None, None, None))
  }

  /** `Caller` ignores the value supplied with an `[:out_array, B, n]`
      pair: no initializer is checked or written. */
  lemma OutArrayValueIgnored(f: Foreign, base: Sym, count: nat, v1: Value, v2: Value, idx: nat)
    ensures CallerSlot(f, Pair(OutArray(base, count), v1), idx) ==
            CallerSlot(f, Pair(OutArray(base, count), v2), idx)
  {
  }

  /** Where the argument processor accepts a pair that is not a callback,
      the caller's loop accepts it too and gives the same tag, native value
      and output reference; for every pair but an initialized
      `[:out_array, ...]`, it allocates the same buffer as well. */
  lemma CallerAgreesWithProcessor(f: Foreign, p: Pair, idx: nat)
    requires p.desc != Plain(Callback)
    requires ArgumentProcessor.ProcessPair(f, p, idx).Ok?
    ensures CallerSlot(f, p, idx).Ok?
    ensures CallerSlot(f, p, idx).value.tag == ArgumentProcessor.ProcessPair(f, p, idx).value.tag
    ensures CallerSlot(f, p, idx).value.arg == ArgumentProcessor.ProcessPair(f, p, idx).value.arg
    ensures CallerSlot(f, p, idx).value.outRef == ArgumentProcessor.ProcessPair(f, p, idx).value.outRef
    ensures !(p.desc.OutArray? && p.value != NilV) ==>
              CallerSlot(f, p, idx).value.buffer == ArgumentProcessor.ProcessPair(f, p, idx).value.buffer
  {
  }

  /** Every pair passes the caller's loop. */
  predicate AllSlotsOk(f: Foreign, pairs: seq<Pair>)
  {
    forall i :: 0 <= i < |pairs| ==> CallerSlot(f, pairs[i], i).Ok?
  }

  /** The caller's slots of a list whose pairs all pass. */
  function CallerSlots(f: Foreign, pairs: seq<Pair>): (slots: seq<Slot>)
    requires AllSlotsOk(f, pairs)
    ensures |slots| == |pairs|
  {
    seq(|pairs|, i requires 0 <= i < |pairs| && AllSlotsOk(f, pairs) => CallerSlot(f, pairs[i], i).value)
  }

  /** The error of the first pair that fails the caller's loop. */
  function FirstSlotError(f: Foreign, pairs: seq<Pair>): (e: Error)
    requires !AllSlotsOk(f, pairs)
    ensures exists i :: (0 <= i < |pairs| && CallerSlot(f, pairs[i], i) == Err(e) &&
                         forall j :: 0 <= j < i ==> CallerSlot(f, pairs[j], j).Ok?)
  {
    FirstSlotErrorFrom(f, pairs, 0)
  }

  function FirstSlotErrorFrom(f: Foreign, pairs: seq<Pair>, k: nat): (e: Error)
    requires k <= |pairs|
    requires forall j :: 0 <= j < k ==> CallerSlot(f, pairs[j], j).Ok?
    requires !AllSlotsOk(f, pairs)
    ensures exists i :: (k <= i < |pairs| && CallerSlot(f, pairs[i], i) == Err(e) &&
                         forall j :: 0 <= j < i ==> CallerSlot(f, pairs[j], j).Ok?)
    decreases |pairs| - k
  {
    if CallerSlot(f, pairs[k], k).Err? then CallerSlot(f, pairs[k], k).error
    else FirstSlotErrorFrom(f, pairs, k + 1)
  }

  /** `format_result`: void gives nil; a string result at address 0 is the
      marker "(null)", otherwise the C string there, or the address in hex
      when it cannot be read; a pointer result is its address in hex; any
      other type is the raw word. */
  function FormatResult(f: Foreign, raw: int, ty: Sym): (r: Value)
    ensures ty == Void <==> r == NilV
    ensures (ty == Str || ty == Cstr) ==> r.StrV?
    ensures (ty == Str || ty == Cstr) && raw == 0 ==> r == StrV("(null)")
    ensures (ty == Str || ty == Cstr) && raw != 0 ==>
              r.s == (if f.readCString(raw).Some? then f.readCString(raw).value else FormatHex(raw))
    ensures (ty == VoidP || ty == Ptr) ==> r == StrV(FormatHex(raw))
    ensures ty !in {Void, Str, Cstr, VoidP, Ptr} ==> r == IntV(raw)
  {
    match ty
    case Void => NilV
    case Str | Cstr =>
      if raw == 0 then StrV("(null)")
      else
        (match f.readCString(raw)
         case Some(s) => StrV(s)
         case None => StrV(FormatHex(raw)))
    case VoidP | Ptr => StrV(FormatHex(raw))
    case _ => IntV(raw)
  }

  /** A pointer result reads back: after "0x" come hex digits denoting the
      address (for a negative word, ".." and its two's complement). */
  lemma PointerResultReadsBack(f: Foreign, raw: int)
    ensures var s := FormatResult(f, raw, VoidP).s;
            var digits := if raw < 0 then s[4..] else s[2..];
            |s| > (if raw < 0 then 4 else 2) && s[..2] == "0x" && (raw < 0 ==> s[2..4] == "..") &&
            (forall k :: 0 <= k < |digits| ==> IsHexChar(digits[k])) &&
            HexNumber(digits) == (if raw >= 0 then raw else raw + Pow16(|digits|))
  {
    var s := FormatResult(f, raw, VoidP).s;
    HexDigitsMeaning(raw);
    if raw >= 0 {
      assert s[2..] == HexDigits(raw);
    } else {
      assert s[4..] == HexDigits(raw);
    }
  }

  /** `read_output_values`, the caller's own copy of the output reading. */
  function ReadOutputValues(f: Foreign, refs: seq<OutRef>): (r: Result<seq<OutputReader.Entry>, Error>)
    ensures r.Ok? ==> |r.value| == |refs|
  {
    if |refs| == 0 then Ok([])
    else
      var ref := refs[0];
      var first :- match ref.kind
        case OutScalar(sym) =>
          Ok(OutputReader.Entry(ref.index, Name(sym), f.readOutputPointer(ref.ptr, sym)))
        case OutArr(base, count) =>
          Ok(OutputReader.Entry(ref.index, Name(base) + "[" + DecimalString(count) + "]",
                                ListV(f.readArray(ref.ptr, base, count))))
        case OtherKind(kind) => Err(UnknownOutKind(kind));
      var rest :- ReadOutputValues(f, refs[1..]);
      Ok([first] + rest)
  }

  /** The caller's copy of the output reading is `OutputReader#read`: same
      entries in the same order, same error. */
  lemma {:induction false} ReadOutputValuesIsRead(f: Foreign, refs: seq<OutRef>)
    ensures ReadOutputValues(f, refs) == OutputReader.Read(f, refs)
    decreases |refs|
  {
    if |refs| > 0 {
      ReadOutputValuesIsRead(f, refs[1..]);
    }
  }

  /** The whole of `Caller#call`, as a function of its inputs: the argument
      loop, the return tag, the foreign call (a load or symbol failure
      raises), the formatting and the shaping of the result. */
  function CallSpec(f: Foreign, libPath: string, funcName: string, pairs: seq<Pair>, returnType: Sym)
    : (r: Result<CallResult, Error>)
    ensures !AllSlotsOk(f, pairs) ==> r == Err(FirstSlotError(f, pairs))
    ensures AllSlotsOk(f, pairs) && f.toFiddleType(Plain(returnType)).None? ==>
              r == Err(NoFiddleType(Plain(returnType)))
    ensures r.Ok? ==> AllSlotsOk(f, pairs) && f.toFiddleType(Plain(returnType)).Some?
    ensures r.Ok? && r.value.WithOutputs? ==> |r.value.outputs| == |RefsOf(CallerSlots(f, pairs))|
  {
    if !AllSlotsOk(f, pairs) then Err(FirstSlotError(f, pairs))
    else
      var slots := CallerSlots(f, pairs);
      var argTypes := seq(|slots|, i requires 0 <= i < |slots| => slots[i].tag);
      var argValues := seq(|slots|, i requires 0 <= i < |slots| => slots[i].arg);
      var retTag :- ArgumentProcessor.TagOf(f, Plain(returnType));
      match f.invoke(libPath, funcName, argTypes, argValues, retTag)
      case None => Err(LoadFailed)
      case Some(raw) =>
        var formatted := FormatResult(f, raw, returnType);
        var refs := RefsOf(slots);
        if |refs| == 0 then Ok(Bare(formatted))
        else
          var outputs :- ReadOutputValues(f, refs);
          Ok(WithOutputs(formatted, outputs))
  }

  /** The three lists the argument loop of `Caller#call` builds. */
  datatype Collected = Collected(argTypes: seq<Tag>, argValues: seq<NativeArg>, outRefs: seq<OutRef>)

  /** The argument loop of `Caller#call`: one tag and one value per pair,
      entry `i` coming from pair `i`, and the references of the output pairs
      in order; the first pair that cannot be handled raises. */
  method CollectArguments(f: Foreign, pairs: seq<Pair>) returns (r: Result<Collected, Error>)
    ensures r.Ok? <==> AllSlotsOk(f, pairs)
    ensures !AllSlotsOk(f, pairs) ==> r == Err(FirstSlotError(f, pairs))
    ensures AllSlotsOk(f, pairs) ==>
              var slots := CallerSlots(f, pairs);
              r == Ok(Collected(seq(|slots|, i requires 0 <= i < |slots| => slots[i].tag),
                                seq(|slots|, i requires 0 <= i < |slots| => slots[i].arg),
                                RefsOf(slots)))
  {
    var argTypes: seq<Tag> := [];
    var argValues: seq<NativeArg> := [];
    var outRefs: seq<OutRef> := [];
    ghost var done: seq<Slot> := [];
    var idx := 0;
    while idx < |pairs|
      invariant 0 <= idx <= |pairs|
      invariant |done| == idx
      invariant forall i :: 0 <= i < idx ==> CallerSlot(f, pairs[i], i) == Ok(done[i])
      invariant argTypes == seq(idx, i requires 0 <= i < idx => done[i].tag)
      invariant argValues == seq(idx, i requires 0 <= i < idx => done[i].arg)
      invariant outRefs == RefsOf(done)
    {
      var slot := CallerSlot(f, pairs[idx], idx);
      if slot.Err? {
        ghost var e := FirstSlotError(f, pairs);
        assert e == slot.error by {
          var i :| 0 <= i < |pairs| && CallerSlot(f, pairs[i], i) == Err(e) &&
                   forall j :: 0 <= j < i ==> CallerSlot(f, pairs[j], j).Ok?;
          assert i == idx;
        }
        return Err(slot.error);
      }
      var s := slot.value;
      argTypes := argTypes + [s.tag];
      argValues := argValues + [s.arg];
      if s.outRef.Some? {
        outRefs := outRefs + [s.outRef.value];
      }
      SlotsAppend(done, s);
      done := done + [s];
      idx := idx + 1;
    }
    assert done == CallerSlots(f, pairs);
    r := Ok(Collected(argTypes, argValues, outRefs));
  }

  /** `Caller#call`: the argument loop, then the return tag, the opening of
      the library and the call, the formatting of the result and the reading
      of the outputs. `invoked` tells whether the foreign call was reached: a
      pair the loop rejects raises before any library is opened. */
  method Call(f: Foreign, libPath: string, funcName: string, pairs: seq<Pair>, returnType: Sym)
    returns (r: Result<CallResult, Error>, invoked: bool)
    ensures r == CallSpec(f, libPath, funcName, pairs, returnType)
    ensures invoked <==> AllSlotsOk(f, pairs) && f.toFiddleType(Plain(returnType)).Some?
  {
    invoked := false;
    var collected := CollectArguments(f, pairs);
    if collected.Err? {
      return Err(collected.error), false;
    }
    var c := collected.value;
    var retTag := f.toFiddleType(Plain(returnType));
    if retTag.None? {
      return Err(NoFiddleType(Plain(returnType))), false;
    }
    invoked := true;
    var raw := f.invoke(libPath, funcName, c.argTypes, c.argValues, retTag.value);
    if raw.None? {
      return Err(LoadFailed), invoked;
    }
    var formatted := FormatResult(f, raw.value, returnType);
    if |c.outRefs| == 0 {
      r := Ok(Bare(formatted));
    } else {
      var outputs := ReadOutputValues(f, c.outRefs);
      if outputs.Err? {
        return Err(outputs.error), invoked;
      }
      r := Ok(WithOutputs(formatted, outputs.value));
    }
  }

  /** The references the argument loop records are all of a kind the
      output reading knows. */
  lemma {:induction false} RefsOfKnownKinds(slots: seq<Slot>)
    requires forall i :: 0 <= i < |slots| && slots[i].outRef.Some? ==> !slots[i].outRef.value.kind.OtherKind?
    ensures forall i :: 0 <= i < |RefsOf(slots)| ==> !RefsOf(slots)[i].kind.OtherKind?
    decreases |slots|
  {
    if |slots| > 0 {
      RefsOfKnownKinds(slots[..|slots| - 1]);
    }
  }

  /** Once the foreign function has been called, the unknown-kind error of
      the output reading never fires: every reference the loop records is an
      `:out` or `:out_array` one. With the memory readers total, only a
      failure to open the library or find the function is left to raise. */
  lemma CallRaisesOnlyOnLoad(f: Foreign, libPath: string, funcName: string, pairs: seq<Pair>, returnType: Sym)
    requires AllSlotsOk(f, pairs) && f.toFiddleType(Plain(returnType)).Some?
    ensures CallSpec(f, libPath, funcName, pairs, returnType).Ok? ||
            CallSpec(f, libPath, funcName, pairs, returnType) == Err(LoadFailed)
  {
    var slots := CallerSlots(f, pairs);
    forall i | 0 <= i < |slots| && slots[i].outRef.Some?
      ensures !slots[i].outRef.value.kind.OtherKind?
    {
      assert slots[i] == CallerSlot(f, pairs[i], i).value;
    }
    RefsOfKnownKinds(slots);
    ReadOutputValuesIsRead(f, RefsOf(slots));
  }

  /** A call returns the bare formatted result exactly when it had no output
      pairs, and otherwise one output entry per output pair. */
  lemma CallShape(f: Foreign, libPath: string, funcName: string, pairs: seq<Pair>, returnType: Sym)
    requires CallSpec(f, libPath, funcName, pairs, returnType).Ok?
    ensures var r := CallSpec(f, libPath, funcName, pairs, returnType).value;
            (r.Bare? <==> forall i :: 0 <= i < |pairs| ==> !pairs[i].desc.Out? && !pairs[i].desc.OutArray?) &&
            (r.WithOutputs? ==> |r.outputs| == |RefsOf(CallerSlots(f, pairs))|)
  {
    var slots := CallerSlots(f, pairs);
    RefsOfEmpty(slots);
    assert forall i :: 0 <= i < |pairs| ==> slots[i] == CallerSlot(f, pairs[i], i).value;
  }
}
