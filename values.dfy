/** The values the marshaling layer passes around: type descriptors (a type
    symbol or a small array such as `[:out, :int]`), the Ruby values paired
    with them, and the errors the layer raises. */
module Values {
  import opened Wrappers
  import opened TypeMap

  /** A type descriptor as the argument processor and the caller receive it. */
  datatype Desc =
    | Plain(sym: Sym)                       // a bare symbol, :int, :string, :callback, ...
    | Out(inner: Sym)                       // [:out, T]
    | ArrayIn(base: Sym)                    // [:array, B]
    | OutArray(base: Sym, count: nat)       // [:out_array, B, n]
    | OtherForm(head: ArrayHead)            // an array whose head is none of the three above

  /** The head of an array descriptor that is not `[:out, ...]`,
      `[:array, ...]` or `[:out_array, ...]`. */
  type ArrayHead = s: Sym | !(s.Other? && s.name in {"out", "array", "out_array"}) witness Int

  /** The Ruby values that travel with a descriptor. `FloatV` keeps the token
      text: floating-point values are not modelled. `SymV` is a symbol used
      as a value (a hash key, a type name inside a specification). `HashV`
      is a callback specification `{kind:, ret:, args:, block:}`, whose
      `:kind` key may be missing. */
  datatype Value =
    | NilV
    | IntV(i: int)
    | FloatV(text: string)
    | StrV(s: string)
    | ListV(items: seq<Value>)
    | SymV(name: string)
    | HashV(kind: Option<Sym>, ret: Sym, args: seq<Sym>, block: string)

  /** The conditions under which the layer raises. */
  datatype Error =
    | UnknownType(typeName: string)
    | UnknownOutType(inner: string)
    | UnknownReturnType(typeName: string)
    | VoidArgument
    | UnknownCoercionType(desc: Desc)
    | InvalidInteger(token: string)
    | UnknownFiddleType(desc: Desc)
    | NoFiddleType(desc: Desc)
    | UnknownArrayForm(desc: Desc)
    | InitializerLength(length: nat, count: nat)
    | UnknownOutKind(kind: string)
    | InvalidCallbackSpec
    | InvalidCallbackBlock(block: string)
    | LoadFailed
    | UnknownSizeof(sym: Sym)
    | UnknownToFiddleType(sym: Sym)
    | UnsupportedArrayBase(sym: Sym)
    | PackTypeError(value: Value)
    | UnknownDirective(template: string)
    | MissingOptionValue(flag: string)
    | MissingArgValue(typeToken: string)

  /** A `[type, value]` argument pair. */
  datatype Pair = Pair(desc: Desc, value: Value)

  /** `Hash#to_a` of a callback specification: one `[key, value]` pair per
      key present, in the order `kind`, `ret`, `args`, `block`. */
  function HashPairs(kind: Option<Sym>, ret: Sym, args: seq<Sym>, block: string): (r: seq<Value>)
    ensures |r| == (if kind.Some? then 4 else 3)
    ensures forall k :: 0 <= k < |r| ==> IsKeyValuePair(r[k])
    ensures r[|r| - 1] == ListV([SymV("block"), StrV(block)])
  {
    (if kind.Some? then [ListV([SymV("kind"), SymV(Name(kind.value))])] else []) +
    [ListV([SymV("ret"), SymV(Name(ret))]),
     ListV([SymV("args"), ListV(seq(|args|, i requires 0 <= i < |args| => SymV(Name(args[i]))))]),
     ListV([SymV("block"), StrV(block)])]
  }

  /** A `[key, value]` pair of `Hash#to_a`: a two-element array whose first
      element is a symbol. */
  predicate IsKeyValuePair(v: Value)
  {
    v.ListV? && |v.items| == 2 && v.items[0].SymV?
  }

  /** Ruby's `Array(value)`: nil is the empty array, an array is itself, a
      hash is its list of key/value pairs and any other value is wrapped in
      a one-element array. */
  function ToArray(v: Value): (r: seq<Value>)
    ensures v.ListV? ==> r == v.items
    ensures v.HashV? ==> |r| == (if v.kind.Some? then 4 else 3) &&
                         forall k :: 0 <= k < |r| ==> IsKeyValuePair(r[k])
    ensures v.IntV? || v.FloatV? || v.StrV? || v.SymV? ==> r == [v]
    ensures r == [] <==> v == NilV || v == ListV([])
  {
    match v
    case NilV => []
    case ListV(items) => items
    case HashV(kind, ret, args, block) => HashPairs(kind, ret, args, block)
    case _ => [v]
  }

  /** Is the descriptor array-shaped (Ruby `type_sym.is_a?(Array)`)? */
  predicate IsCompound(d: Desc)
  {
    !d.Plain?
  }
}
