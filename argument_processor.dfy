/** lib/libcall/argument_processor.rb: turning `[type, value]` pairs into
    the positionally aligned ABI tags and native values of a call, while
    allocating and filling scratch buffers, recording output references and
    keeping callback closures. */
module ArgumentProcessor {
  import opened Wrappers
  import opened TypeMap
  import opened Values
  import opened Native
  import CallbackHandler

  /** `ProcessedArguments`, plus the scratch buffers the run allocated (keyed
      by the position of the pair that allocated each). */
  datatype Processed = Processed(
    argTypes: seq<Tag>,
    argValues: seq<NativeArg>,
    outRefs: seq<OutRef>,
    closures: seq<Closure>,
    buffers: map<nat, Buffer>)

  /** `TypeMap.to_fiddle_type(type_sym)`, raising where there is no tag. */
  function TagOf(f: Foreign, d: Desc): Result<Tag, Error>
  {
    match f.toFiddleType(d)
    case Some(t) => Ok(t)
    case None => Err(NoFiddleType(d))
  }

  /** What the pair at position `idx` contributes, as `process` and its
      helpers compute it. A scalar passes its value through; `[:out, T]`
      allocates one element and records a reference; `[:array, B]` allocates
      and fills exactly the given values; `[:out_array, B, n]` allocates `n`
      elements, checks a non-nil initializer's length before writing it and
      records a reference; a callback becomes a closure; any other array
      form raises. The ABI tag is asked for last, after allocation and
      writing, and each step that raises ends the pair. */
  function ProcessPair(f: Foreign, p: Pair, idx: nat): (r: Result<Slot, Error>)
    ensures r.Ok? ==> f.toFiddleType(p.desc) == Some(r.value.tag)
    // success, for each kind of descriptor
    ensures p.desc.Plain? && p.desc.sym != Callback ==> (r.Ok? <==> f.toFiddleType(p.desc).Some?)
    ensures p.desc.Out? ==>
              (r.Ok? <==> f.allocationFailure(p.desc.inner, 1).None? && f.toFiddleType(p.desc).Some?)
    ensures p.desc.ArrayIn? ==>
              (r.Ok? <==> f.allocationFailure(p.desc.base, |ToArray(p.value)|).None? &&
                          f.writeFailure(p.desc.base, ToArray(p.value)).None? &&
                          f.toFiddleType(p.desc).Some?)
    ensures p.desc.OutArray? ==>
              (r.Ok? <==> f.allocationFailure(p.desc.base, p.desc.count).None? &&
                          (p.value == NilV ||
                           (|ToArray(p.value)| == p.desc.count &&
                            f.writeFailure(p.desc.base, ToArray(p.value)).None?)) &&
                          f.toFiddleType(p.desc).Some?)
    ensures p.desc == Plain(Callback) ==>
              (r.Ok? <==> CallbackHandler.Create(f, p.value).Ok? && f.toFiddleType(p.desc).Some?)
    // what each kind contributes
    ensures r.Ok? && p.desc.Plain? && p.desc.sym != Callback ==>
              r.value.arg == Word(p.value) && r.value.outRef.None? && r.value.closure.None? &&
              r.value.buffer.None?
    ensures r.Ok? && !p.desc.Plain? ==> r.value.arg == Address(idx) && r.value.closure.None?
    ensures r.Ok? && p.desc.Out? ==>
              r.value.outRef == Some(OutRef(idx, OutScalar(p.desc.inner), idx)) &&
              r.value.buffer == Some(Buffer(p.desc.inner, 1, []))
    ensures r.Ok? && p.desc.ArrayIn? ==>
              r.value.outRef.None? &&
              r.value.buffer == Some(Buffer(p.desc.base, |ToArray(p.value)|, ToArray(p.value)))
    ensures r.Ok? && p.desc.OutArray? ==>
              r.value.outRef == Some(OutRef(idx, OutArr(p.desc.base, p.desc.count), idx)) &&
              r.value.buffer == Some(Buffer(p.desc.base, p.desc.count,
                                            if p.value == NilV then [] else ToArray(p.value)))
    ensures r.Ok? && p.desc == Plain(Callback) ==>
              r.value.closure == Some(CallbackHandler.Create(f, p.value).value) &&
              r.value.arg == ClosureArg(CallbackHandler.Create(f, p.value).value) &&
              r.value.outRef.None? && r.value.buffer.None?
    // which error is raised, in the order the steps run
    ensures p.desc.Out? && f.allocationFailure(p.desc.inner, 1).Some? ==>
              r == Err(f.allocationFailure(p.desc.inner, 1).value)
    ensures p.desc.ArrayIn? && f.allocationFailure(p.desc.base, |ToArray(p.value)|).Some? ==>
              r == Err(f.allocationFailure(p.desc.base, |ToArray(p.value)|).value)
    ensures p.desc.ArrayIn? && f.allocationFailure(p.desc.base, |ToArray(p.value)|).None? &&
            f.writeFailure(p.desc.base, ToArray(p.value)).Some? ==>
              r == Err(f.writeFailure(p.desc.base, ToArray(p.value)).value)
    ensures p.desc.OutArray? && f.allocationFailure(p.desc.base, p.desc.count).Some? ==>
              r == Err(f.allocationFailure(p.desc.base, p.desc.count).value)
    ensures p.desc.OutArray? && f.allocationFailure(p.desc.base, p.desc.count).None? &&
            p.value != NilV && |ToArray(p.value)| != p.desc.count ==>
              r == Err(InitializerLength(|ToArray(p.value)|, p.desc.count))
    ensures p.desc.OutArray? && f.allocationFailure(p.desc.base, p.desc.count).None? &&
            p.value != NilV && |ToArray(p.value)| == p.desc.count &&
            f.writeFailure(p.desc.base, ToArray(p.value)).Some? ==>
              r == Err(f.writeFailure(p.desc.base, ToArray(p.value)).value)
    ensures p.desc == Plain(Callback) && CallbackHandler.Create(f, p.value).Err? ==>
              r == Err(CallbackHandler.Create(f, p.value).error)
    ensures p.desc.OtherForm? ==> r == Err(UnknownArrayForm(p.desc))
    ensures p.desc.Plain? && p.desc.sym != Callback && f.toFiddleType(p.desc).None? ==>
              r == Err(NoFiddleType(p.desc))
    ensures p.desc.Out? && f.allocationFailure(p.desc.inner, 1).None? && f.toFiddleType(p.desc).None? ==>
              r == Err(NoFiddleType(p.desc))
    ensures p.desc.ArrayIn? && f.allocationFailure(p.desc.base, |ToArray(p.value)|).None? &&
            f.writeFailure(p.desc.base, ToArray(p.value)).None? && f.toFiddleType(p.desc).None? ==>
              r == Err(NoFiddleType(p.desc))
    ensures p.desc.OutArray? && f.allocationFailure(p.desc.base, p.desc.count).None? &&
            (p.value == NilV ||
             (|ToArray(p.value)| == p.desc.count && f.writeFailure(p.desc.base, ToArray(p.value)).None?)) &&
            f.toFiddleType(p.desc).None? ==>
              r == Err(NoFiddleType(p.desc))
    ensures p.desc == Plain(Callback) && CallbackHandler.Create(f, p.value).Ok? && f.toFiddleType(p.desc).None? ==>
              r == Err(NoFiddleType(p.desc))
  {
    var d := p.desc;
    match d
    case Out(inner) =>
      // process_output_pointer
      var _ :- Attempt(f.allocationFailure(inner, 1));
      var ref := OutRef(idx, OutScalar(inner), idx);
      var tag :- TagOf(f, d);
      Ok(Slot(tag, Address(idx), Some(ref), None, Some(Buffer(inner, 1, []))))
    case ArrayIn(base) =>
      // process_input_array
      var values := ToArray(p.value);
      var _ :- Attempt(f.allocationFailure(base, |values|));
      var _ :- Attempt(f.writeFailure(base, values));
      var tag :- TagOf(f, d);
      Ok(Slot(tag, Address(idx), None, None, Some(Buffer(base, |values|, values))))
    case OutArray(base, count) =>
      // process_output_array
      var _ :- Attempt(f.allocationFailure(base, count));
      var written := if p.value == NilV then [] else ToArray(p.value);
      if p.value != NilV && |written| != count then Err(InitializerLength(|written|, count))
      else
        var _ :- if p.value == NilV then Ok(()) else Attempt(f.writeFailure(base, written));
        var tag :- TagOf(f, d);
        Ok(Slot(tag, Address(idx), Some(OutRef(idx, OutArr(base, count), idx)), None,
                Some(Buffer(base, count, written))))
    case OtherForm(_) => Err(UnknownArrayForm(d))
    case Plain(s) =>
      if s == Callback then
        // process_callback
        var closure :- CallbackHandler.Create(f, p.value);
        var tag :- TagOf(f, d);
        Ok(Slot(tag, ClosureArg(closure), None, Some(closure), None))
      else
        var tag :- TagOf(f, d);
        Ok(Slot(tag, Word(p.value), None, None, None))
  }

  /** Every pair of the list is processed without raising. */
  predicate AllOk(f: Foreign, pairs: seq<Pair>)
  {
    forall i :: 0 <= i < |pairs| ==> ProcessPair(f, pairs[i], i).Ok?
  }

  /** The slots of a list whose pairs all process. */
  function OkSlots(f: Foreign, pairs: seq<Pair>): (slots: seq<Slot>)
    requires AllOk(f, pairs)
    ensures |slots| == |pairs|
  {
    seq(|pairs|, i requires 0 <= i < |pairs| && AllOk(f, pairs) => ProcessPair(f, pairs[i], i).value)
  }

  /** `error` is what the first failing pair raises. */
  predicate FirstError(f: Foreign, pairs: seq<Pair>, error: Error)
  {
    exists i :: 0 <= i < |pairs| && ProcessPair(f, pairs[i], i) == Err(error) &&
                forall j :: 0 <= j < i ==> ProcessPair(f, pairs[j], j).Ok?
  }

  /** `ArgumentProcessor#process`: one pass over the pairs appending to the
      four lists (and allocating buffers). On success both the tag list and
      the value list have one entry per pair, entry `i` coming from pair
      `i`, and the references, closures and buffers are those of the pairs,
      in order; otherwise the first failing pair's error is raised. */
  method Process(f: Foreign, pairs: seq<Pair>) returns (r: Result<Processed, Error>)
    ensures r.Ok? <==> AllOk(f, pairs)
    ensures r.Err? ==> FirstError(f, pairs, r.error)
    ensures r.Ok? ==> |r.value.argTypes| == |pairs| && |r.value.argValues| == |pairs|
    ensures r.Ok? ==> forall i :: 0 <= i < |pairs| ==>
                                  r.value.argTypes[i] == OkSlots(f, pairs)[i].tag &&
                                  r.value.argValues[i] == OkSlots(f, pairs)[i].arg
    ensures r.Ok? ==> r.value.outRefs == RefsOf(OkSlots(f, pairs))
    ensures r.Ok? ==> r.value.closures == ClosuresOf(OkSlots(f, pairs))
    ensures r.Ok? ==> r.value.buffers == BuffersOf(OkSlots(f, pairs))
  {
    var argTypes: seq<Tag> := [];
    var argValues: seq<NativeArg> := [];
    var outRefs: seq<OutRef> := [];
    var closures: seq<Closure> := [];
    var buffers: map<nat, Buffer> := map[];
    ghost var done: seq<Slot> := [];
    var idx := 0;
    while idx < |pairs|
      invariant 0 <= idx <= |pairs|
      invariant |done| == idx
      invariant forall i :: 0 <= i < idx ==> ProcessPair(f, pairs[i], i) == Ok(done[i])
      invariant |argTypes| == idx && |argValues| == idx
      invariant forall i :: 0 <= i < idx ==> argTypes[i] == done[i].tag && argValues[i] == done[i].arg
      invariant outRefs == RefsOf(done) && closures == ClosuresOf(done) && buffers == BuffersOf(done)
    {
      var slot := ProcessPair(f, pairs[idx], idx);
      if slot.Err? {
        assert FirstError(f, pairs, slot.error) by {
          assert forall j :: 0 <= j < idx ==> ProcessPair(f, pairs[j], j).Ok?;
        }
        return Err(slot.error);
      }
      var s := slot.value;
      argTypes := argTypes + [s.tag];
      argValues := argValues + [s.arg];
      if s.outRef.Some? {
        outRefs := outRefs + [s.outRef.value];
      }
      if s.closure.Some? {
        closures := closures + [s.closure.value];
      }
      if s.buffer.Some? {
        buffers := buffers[idx := s.buffer.value];
      }
      SlotsAppend(done, s);
      done := done + [s];
      idx := idx + 1;
    }
    assert done == OkSlots(f, pairs);
    r := Ok(Processed(argTypes, argValues, outRefs, closures, buffers));
  }

  /** The number of callback pairs in a list. */
  function CountCallbacks(pairs: seq<Pair>): nat
  {
    if |pairs| == 0 then 0
    else CountCallbacks(pairs[..|pairs| - 1]) + (if pairs[|pairs| - 1].desc == Plain(Callback) then 1 else 0)
  }

  /** The number of output pairs (`[:out, T]` or `[:out_array, B, n]`). */
  function CountOutputs(pairs: seq<Pair>): nat
  {
    if |pairs| == 0 then 0
    else
      CountOutputs(pairs[..|pairs| - 1]) +
      (if pairs[|pairs| - 1].desc.Out? || pairs[|pairs| - 1].desc.OutArray? then 1 else 0)
  }

  /** The output references of a processed list have strictly increasing
      indices; each names an output pair and is that pair's reference. */
  lemma OutRefsIncreasing(f: Foreign, pairs: seq<Pair>)
    requires AllOk(f, pairs)
    ensures forall a, b :: 0 <= a < b < |RefsOf(OkSlots(f, pairs))| ==>
                           RefsOf(OkSlots(f, pairs))[a].index < RefsOf(OkSlots(f, pairs))[b].index
    ensures forall a :: 0 <= a < |RefsOf(OkSlots(f, pairs))| ==>
                        RefsOf(OkSlots(f, pairs))[a].index < |pairs| &&
                        (pairs[RefsOf(OkSlots(f, pairs))[a].index].desc.Out? ||
                         pairs[RefsOf(OkSlots(f, pairs))[a].index].desc.OutArray?)
  {
    var slots := OkSlots(f, pairs);
    RefsOfIncreasing(slots);
    forall a | 0 <= a < |RefsOf(slots)|
      ensures pairs[RefsOf(slots)[a].index].desc.Out? || pairs[RefsOf(slots)[a].index].desc.OutArray?
    {
      var i := RefsOf(slots)[a].index;
      assert slots[i] == ProcessPair(f, pairs[i], i).value;
    }
  }

  /** One closure per callback pair and one reference per output pair. */
  lemma {:induction false} CountsMatch(f: Foreign, pairs: seq<Pair>)
    requires AllOk(f, pairs)
    ensures |ClosuresOf(OkSlots(f, pairs))| == CountCallbacks(pairs)
    ensures |RefsOf(OkSlots(f, pairs))| == CountOutputs(pairs)
    decreases |pairs|
  {
    if |pairs| > 0 {
      var n := |pairs| - 1;
      var init := pairs[..n];
      assert AllOk(f, init) by {
        forall i | 0 <= i < |init| ensures ProcessPair(f, init[i], i).Ok? {
          assert init[i] == pairs[i];
        }
      }
      CountsMatch(f, init);
      assert OkSlots(f, pairs)[..n] == OkSlots(f, init);
      assert init == pairs[..|pairs| - 1];
    }
  }

  /** `Array(hash)` is the hash's key/value pairs: a callback specification
      given as the initializer of a one-element output array has four pairs,
      so the length check raises. */
  lemma HashInitializerIsSplit(f: Foreign, block: string)
    requires f.allocationFailure(Int, 1).None?
    ensures ProcessPair(f, Pair(OutArray(Int, 1), HashV(Some(Callback), Int, [Int], block)), 0) ==
            Err(InitializerLength(4, 1))
  {
  }
}
