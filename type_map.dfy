/** The type table of lib/libcall/type_map.rb: many spellings of a C type
    name collapse to one type symbol, and two frozen lists classify the
    symbols into integer and floating-point kinds. */
module TypeMap {
  import opened Wrappers

  /** The Ruby symbols the core passes around as type tags. Ruby symbols form
      an open set; `Other` stands for any symbol the core does not name, so
      its name is never one of the named symbols' names. */
  datatype Sym =
    | Char | UChar | Short | UShort | Int | UInt
    | Long | ULong | LongLong | ULongLong
    | Float | Double
    | Str      // :string
    | VoidP    // :voidp
    | Void     // :void
    | Callback // :callback
    | SizeT    // :size_t
    | Pointer  // :pointer
    | Cstr     // :cstr
    | Ptr      // :ptr
    | Other(name: OtherName)

  /** The names of the symbols the core names. */
  const NAMED: set<string> := {
    "char", "uchar", "short", "ushort", "int", "uint", "long", "ulong",
    "long_long", "ulong_long", "float", "double", "string", "voidp", "void",
    "callback", "size_t", "pointer", "cstr", "ptr"}

  /** A symbol name the core does not name. */
  type OtherName = s: string | s !in NAMED witness "other"

  /** `Symbol#to_s`: each symbol has its own name, and the named symbols
      spell exactly the names of NAMED. */
  function Name(s: Sym): (r: string)
    ensures r in NAMED <==> !s.Other?
  {
    match s
    case Char => "char"
    case UChar => "uchar"
    case Short => "short"
    case UShort => "ushort"
    case Int => "int"
    case UInt => "uint"
    case Long => "long"
    case ULong => "ulong"
    case LongLong => "long_long"
    case ULongLong => "ulong_long"
    case Float => "float"
    case Double => "double"
    case Str => "string"
    case VoidP => "voidp"
    case Void => "void"
    case Callback => "callback"
    case SizeT => "size_t"
    case Pointer => "pointer"
    case Cstr => "cstr"
    case Ptr => "ptr"
    case Other(n) => n
  }

  /** Distinct symbols have distinct names. */
  lemma NameInjective(a: Sym, b: Sym)
    ensures Name(a) == Name(b) ==> a == b
  {
  }

  /** `TypeMap::MAP`. */
  const MAP: map<string, Sym> := map[
    // Short type names (Rust-like)
    "i8" := Char, "u8" := UChar, "i16" := Short, "u16" := UShort,
    "i32" := Int, "u32" := UInt, "i64" := LongLong, "u64" := ULongLong,
    "isize" := Long, "usize" := ULong, "f32" := Float, "f64" := Double,
    // Pointer types
    "cstr" := Str, "ptr" := VoidP, "pointer" := VoidP, "void" := Void,
    // Common C type names
    "char" := Char, "short" := Short, "ushort" := UShort, "int" := Int,
    "uint" := UInt, "long" := Long, "ulong" := ULong, "float" := Float,
    "double" := Double,
    // Extended type names (stdint-like)
    "int8" := Char, "uint8" := UChar, "int16" := Short, "uint16" := UShort,
    "int32" := Int, "uint32" := UInt, "int64" := LongLong, "uint64" := ULongLong,
    "float32" := Float, "float64" := Double,
    // String aliases
    "str" := Str, "string" := Str
  ]

  /** `TypeMap::INTEGER_TYPES`. */
  const INTEGER_TYPES: set<Sym> :=
    {Int, UInt, Long, ULong, LongLong, ULongLong, Char, UChar, Short, UShort}

  /** `TypeMap::FLOAT_TYPES`. */
  const FLOAT_TYPES: set<Sym> := {Float, Double}

  /** `integer_type?`: membership in the integer list. No integer type is a
      floating-point type or a symbol the core does not name. */
  predicate IsIntegerType(s: Sym)
    ensures IsIntegerType(s) ==> s !in FLOAT_TYPES && !s.Other?
  {
    s in INTEGER_TYPES
  }

  /** `float_type?`: membership in the floating-point list. No
      floating-point type is an integer type or a symbol the core does not
      name. */
  predicate IsFloatType(s: Sym)
    ensures IsFloatType(s) ==> s !in INTEGER_TYPES && !s.Other?
  {
    s in FLOAT_TYPES
  }

  /** What every entry of MAP is: a number kind, a string, a pointer or void. */
  predicate IsTableKind(s: Sym)
  {
    IsIntegerType(s) || IsFloatType(s) || s == Str || s == VoidP || s == Void
  }

  /** `TypeMap.lookup`: exact, case-sensitive lookup; an unknown name is nil.
      Whatever it finds is one of the kinds of the table. */
  function Lookup(typeName: string): (r: Option<Sym>)
    ensures r.Some? <==> typeName in MAP
    ensures r.Some? ==> IsTableKind(r.value)
  {
    MapValuesAreTableKinds();
    if typeName in MAP then Some(MAP[typeName]) else None
  }

  /** Every value of MAP is an integer symbol, a float symbol, :string,
      :voidp or :void. */
  lemma MapValuesAreTableKinds()
    ensures forall k :: k in MAP ==> IsTableKind(MAP[k])
  {
  }

  /** Aliases collapse: the Rust-like, C and stdint spellings of one type
      give the same symbol. */
  lemma LookupAliases()
    ensures Lookup("i32") == Lookup("int") == Lookup("int32") == Some(Int)
    ensures Lookup("f32") == Lookup("float") == Lookup("float32") == Some(Float)
    ensures Lookup("f64") == Lookup("double") == Lookup("float64") == Some(Double)
  {
    assert MAP["i32"] == MAP["int"] == MAP["int32"] == Int;
    assert MAP["f32"] == MAP["float"] == MAP["float32"] == Float;
    assert MAP["f64"] == MAP["double"] == MAP["float64"] == Double;
  }

  /** 64-bit names are long long; isize/usize are the native long. */
  lemma LookupWidths()
    ensures Lookup("i64") == Lookup("int64") == Some(LongLong)
    ensures Lookup("u64") == Lookup("uint64") == Some(ULongLong)
    ensures Lookup("isize") == Some(Long) && Lookup("usize") == Some(ULong)
  {
    assert MAP["i64"] == MAP["int64"] == LongLong;
    assert MAP["u64"] == MAP["uint64"] == ULongLong;
    assert MAP["isize"] == Long && MAP["usize"] == ULong;
  }

  /** String and pointer spellings. */
  lemma LookupPointers()
    ensures Lookup("cstr") == Lookup("str") == Lookup("string") == Some(Str)
    ensures Lookup("ptr") == Lookup("pointer") == Some(VoidP)
    ensures Lookup("void") == Some(Void)
  {
    assert MAP["cstr"] == MAP["str"] == MAP["string"] == Str;
    assert MAP["ptr"] == MAP["pointer"] == VoidP;
  }

  /** Unknown names, the empty name and differently cased names are nil:
      there is no fuzzy or case-folded matching. */
  lemma LookupUnknown()
    ensures Lookup("") == None && Lookup("unknown") == None
  {
  }

  /** Lookup is case-sensitive: upper-case spellings are unknown. */
  lemma LookupCaseSensitive()
    ensures Lookup("INT") == None && Lookup("F64") == None
  {
  }

  /** `integer_type?` holds of exactly ten symbols, `float_type?` of two,
      the two lists are disjoint, and void, voidp and string are in neither. */
  lemma Classification()
    ensures |INTEGER_TYPES| == 10 && |FLOAT_TYPES| == 2
    ensures INTEGER_TYPES !! FLOAT_TYPES
    ensures forall s :: s in {Void, VoidP, Str} ==> !IsIntegerType(s) && !IsFloatType(s)
  {
  }
}
