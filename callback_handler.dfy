/** lib/libcall/callback_handler.rb: checking a callback specification,
    building the closure's ABI signature from it, and wrapping the native
    arguments the closure receives before they reach the Ruby block. */
module CallbackHandler {
  import opened Wrappers
  import opened TypeMap
  import opened Values
  import opened Native

  /** `validate_spec!` accepts exactly a hash whose `:kind` is `:callback`. */
  predicate IsCallbackSpec(spec: Value)
    ensures !spec.HashV? ==> !IsCallbackSpec(spec)
    ensures spec.HashV? ==> (IsCallbackSpec(spec) <==> spec.kind == Some(Callback))
  {
    spec.HashV? && spec.kind == Some(Callback)
  }

  /** `TypeMap.to_fiddle_type` on a bare symbol, raising where it has no tag. */
  function SymTag(f: Foreign, s: Sym): Result<Tag, Error>
  {
    match f.toFiddleType(Plain(s))
    case Some(t) => Ok(t)
    case None => Err(NoFiddleType(Plain(s)))
  }

  /** `@spec[:args].map { |a| TypeMap.to_fiddle_type(a) }`: one tag per
      declared argument, in order; the first symbol without a tag raises. */
  function ArgTags(f: Foreign, args: seq<Sym>): (r: Result<seq<Tag>, Error>)
    ensures r.Ok? <==> forall i :: 0 <= i < |args| ==> f.toFiddleType(Plain(args[i])).Some?
    ensures r.Ok? ==> |r.value| == |args|
    ensures r.Ok? ==> forall i :: 0 <= i < |args| ==> f.toFiddleType(Plain(args[i])) == Some(r.value[i])
    ensures r.Err? ==> exists i :: (0 <= i < |args| && f.toFiddleType(Plain(args[i])).None? &&
                                    r.error == NoFiddleType(Plain(args[i])) &&
                                    forall j :: 0 <= j < i ==> f.toFiddleType(Plain(args[j])).Some?)
  {
    if |args| == 0 then Ok([])
    else
      match SymTag(f, args[0])
      case Err(e) => Err(e)
      case Ok(t) =>
        match ArgTags(f, args[1..])
        case Err(e) =>
          assert forall i :: 1 <= i < |args| ==> args[i] == args[1..][i - 1];
          Err(e)
        case Ok(ts) =>
          assert forall i :: 1 <= i < |args| ==> args[i] == args[1..][i - 1];
          Ok([t] + ts)
  }

  /** `CallbackHandler.create`: validate the specification, then compute the
      return tag, then the argument tags, then compile the block; the first
      failing step raises. A closure keeps the declared symbols and the
      block it runs. */
  function Create(f: Foreign, spec: Value): (r: Result<Closure, Error>)
    ensures !IsCallbackSpec(spec) ==> r == Err(InvalidCallbackSpec)
    ensures r.Ok? ==> IsCallbackSpec(spec) && f.blockCompiles(spec.block)
    ensures r.Ok? ==> f.toFiddleType(Plain(spec.ret)) == Some(r.value.retTag)
    ensures r.Ok? ==> |r.value.argTags| == |spec.args|
    ensures r.Ok? ==> forall i :: 0 <= i < |spec.args| ==>
                                    f.toFiddleType(Plain(spec.args[i])) == Some(r.value.argTags[i])
    ensures r.Ok? ==> r.value.args == spec.args && r.value.block == spec.block
    ensures (IsCallbackSpec(spec) && f.toFiddleType(Plain(spec.ret)).Some? &&
             (forall i :: 0 <= i < |spec.args| ==> f.toFiddleType(Plain(spec.args[i])).Some?) &&
             f.blockCompiles(spec.block)) ==> r.Ok?
  {
    if !IsCallbackSpec(spec) then Err(InvalidCallbackSpec)
    else
      match SymTag(f, spec.ret)
      case Err(e) => Err(e)
      case Ok(retTag) =>
        match ArgTags(f, spec.args)
        case Err(e) => Err(e)
        case Ok(argTags) =>
          if !f.blockCompiles(spec.block) then Err(InvalidCallbackBlock(spec.block))
          else Ok(Closure(retTag, argTags, spec.args, spec.block))
  }

  /** A native argument as the block receives it: as it came, or wrapped in
      a `Fiddle::Pointer` handle. */
  datatype Cooked = AsIs(v: Value) | PointerHandle(address: Value)

  /** What a cooked argument carries. */
  function Payload(c: Cooked): Value
  {
    match c
    case AsIs(v) => v
    case PointerHandle(a) => a
  }

  /** `cook_arguments`: one entry per native argument; exactly the positions
      declared `:voidp` are wrapped as pointer handles, and positions beyond
      the declared list pass through. */
  function CookArguments(args: seq<Sym>, cbArgs: seq<Value>): (r: seq<Cooked>)
    ensures |r| == |cbArgs|
    ensures forall i :: 0 <= i < |r| ==> (r[i].PointerHandle? <==> i < |args| && args[i] == VoidP)
  {
    seq(|cbArgs|, i requires 0 <= i < |cbArgs| =>
      if i < |args| && args[i] == VoidP then PointerHandle(cbArgs[i]) else AsIs(cbArgs[i]))
  }

  /** The payloads of a list of cooked arguments. */
  function Uncook(cooked: seq<Cooked>): (r: seq<Value>)
    ensures |r| == |cooked|
  {
    if |cooked| == 0 then [] else Uncook(cooked[..|cooked| - 1]) + [Payload(cooked[|cooked| - 1])]
  }

  /** Cooking only wraps: taking the payloads back gives the native
      arguments, in order, whatever was declared. */
  lemma {:induction false} UncookCook(args: seq<Sym>, cbArgs: seq<Value>)
    ensures Uncook(CookArguments(args, cbArgs)) == cbArgs
    decreases |cbArgs|
  {
    if |cbArgs| > 0 {
      var n := |cbArgs| - 1;
      UncookCook(args, cbArgs[..n]);
      assert CookArguments(args, cbArgs)[..n] == CookArguments(args, cbArgs[..n]);
    }
  }
}
