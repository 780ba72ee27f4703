/** lib/libcall/parser.rb: type descriptors from command-line words, the
    return type, coercion of value tokens, quote stripping and the mapping
    from type symbols to Fiddle's ABI tags. */
module Parser {
  import opened Wrappers
  import opened TypeMap
  import opened Values
  import opened Native
  import opened Numerals

  /** `Parser::TYPE_MAP`: a smaller table than `TypeMap::MAP` (no "short",
      "ushort" or stdint spellings). */
  const TYPE_MAP: map<string, Sym> := map[
    "i8" := Char, "u8" := UChar, "i16" := Short, "u16" := UShort,
    "i32" := Int, "u32" := UInt, "i64" := LongLong, "u64" := ULongLong,
    "isize" := Long, "usize" := ULong, "f32" := Float, "f64" := Double,
    "cstr" := Str, "ptr" := VoidP, "pointer" := VoidP, "void" := Void,
    // Common aliases
    "int" := Int, "uint" := UInt, "long" := Long, "ulong" := ULong,
    "float" := Float, "double" := Double, "char" := Char,
    "str" := Str, "string" := Str
  ]

  /** `Parser::INTEGER_TYPES` and `Parser::FLOAT_TYPES`. */
  const PARSER_INTEGER_TYPES: set<Sym> :=
    {Int, UInt, Long, ULong, LongLong, ULongLong, Char, UChar, Short, UShort}
  const PARSER_FLOAT_TYPES: set<Sym> := {Float, Double}

  /** The tokens the pointer coercion reads as a null pointer. */
  const NULL_TOKENS: set<string> := {"null", "nil", "NULL", "0"}

  const OUT_PREFIX: string := "out:"

  predicate StartsWith(s: string, prefix: string)
  {
    |prefix| <= |s| && s[..|prefix|] == prefix
  }

  /** The name `k` is in both tables and means the same in both. */
  predicate SameEntry(k: string)
  {
    k in TYPE_MAP && k in MAP && MAP[k] == TYPE_MAP[k]
  }

  /** Every name of the parser's table means the same in `TypeMap::MAP`. */
  lemma ParserTableAgrees()
    ensures forall k :: k in TYPE_MAP ==> k in MAP && MAP[k] == TYPE_MAP[k]
  {
    SignedSmallAgree();
    FixedWidthAgree();
    NativeWidthAgree();
    FloatWidthAgree();
    PointerNamesAgree();
    CIntegersAgree();
    CFloatsAgree();
    StringAliasesAgree();
    forall k | k in TYPE_MAP
      ensures k in MAP && MAP[k] == TYPE_MAP[k]
    {
      assert k in {"i8", "u8", "i16"}
          || k in {"u16", "i32", "u32"}
          || k in {"i64", "u64", "isize"}
          || k in {"usize", "f32", "f64"}
          || k in {"cstr", "ptr", "pointer", "void"}
          || k in {"int", "uint", "long"}
          || k in {"ulong", "float", "double"}
          || k in {"char", "str", "string"};
      assert SameEntry(k);
    }
  }

  // The agreement, a few names at a time: each group names its keys.
  lemma SignedSmallAgree()
    ensures forall k :: k in {"i8", "u8", "i16"} ==> SameEntry(k)
  {
    assert SameEntry("i8");
    assert SameEntry("u8");
    assert SameEntry("i16");
  }

  lemma FixedWidthAgree()
    ensures forall k :: k in {"u16", "i32", "u32"} ==> SameEntry(k)
  {
    assert SameEntry("u16");
    assert SameEntry("i32");
    assert SameEntry("u32");
  }

  lemma NativeWidthAgree()
    ensures forall k :: k in {"i64", "u64", "isize"} ==> SameEntry(k)
  {
    assert SameEntry("i64");
    assert SameEntry("u64");
    assert SameEntry("isize");
  }

  lemma FloatWidthAgree()
    ensures forall k :: k in {"usize", "f32", "f64"} ==> SameEntry(k)
  {
    assert SameEntry("usize");
    assert SameEntry("f32");
    assert SameEntry("f64");
  }

  lemma PointerNamesAgree()
    ensures forall k :: k in {"cstr", "ptr", "pointer", "void"} ==> SameEntry(k)
  {
    assert SameEntry("cstr");
    assert SameEntry("ptr");
    assert SameEntry("pointer");
    assert SameEntry("void");
  }

  lemma CIntegersAgree()
    ensures forall k :: k in {"int", "uint", "long"} ==> SameEntry(k)
  {
    assert SameEntry("int");
    assert SameEntry("uint");
    assert SameEntry("long");
  }

  lemma CFloatsAgree()
    ensures forall k :: k in {"ulong", "float", "double"} ==> SameEntry(k)
  {
    assert SameEntry("ulong");
    assert SameEntry("float");
    assert SameEntry("double");
  }

  lemma StringAliasesAgree()
    ensures forall k :: k in {"char", "str", "string"} ==> SameEntry(k)
  {
    assert SameEntry("char");
    assert SameEntry("str");
    assert SameEntry("string");
  }

  /** `TypeMap::MAP` knows "short" but the parser's table does not. */
  lemma ParserTableLacksShort()
    ensures "short" in MAP && "short" !in TYPE_MAP
  {
  }

  /** The parser's classification lists are TypeMap's. */
  lemma ParserClassesAgree()
    ensures PARSER_INTEGER_TYPES == INTEGER_TYPES && PARSER_FLOAT_TYPES == FLOAT_TYPES
  {
  }

  /** `parse_type`: "out:X" is an output pointer to X, any other word is
      looked up as a plain type; unknown names raise. Whatever it returns
      agrees with `TypeMap.lookup`. */
  function ParseType(typeStr: string): (r: Result<Desc, Error>)
    ensures r.Ok? ==> r.value.Plain? || r.value.Out?
    ensures r.Ok? && r.value.Plain? ==> Lookup(typeStr) == Some(r.value.sym)
    ensures r.Ok? && r.value.Out? ==>
              StartsWith(typeStr, OUT_PREFIX) && Lookup(typeStr[4..]) == Some(r.value.inner)
    ensures r.Err? <==>
              if StartsWith(typeStr, OUT_PREFIX) then typeStr[4..] !in TYPE_MAP
              else typeStr !in TYPE_MAP
  {
    ParserTableAgrees();
    if StartsWith(typeStr, OUT_PREFIX) then
      var inner := typeStr[|OUT_PREFIX|..];
      if inner in TYPE_MAP then Ok(Out(TYPE_MAP[inner])) else Err(UnknownOutType(inner))
    else if typeStr in TYPE_MAP then Ok(Plain(TYPE_MAP[typeStr]))
    else Err(UnknownType(typeStr))
  }

  /** An "out:" word names an output pointer to the type after the prefix. */
  lemma ParseTypeOut(x: string)
    ensures ParseType(OUT_PREFIX + x) ==
              if x in TYPE_MAP then Ok(Out(TYPE_MAP[x])) else Err(UnknownOutType(x))
  {
    assert (OUT_PREFIX + x)[..4] == OUT_PREFIX;
    assert (OUT_PREFIX + x)[4..] == x;
  }

  /** `parse_return_type`: nil, "" and "void" give :void; other names are
      looked up and unknown ones raise. */
  function ParseReturnType(typeStr: Option<string>): (r: Result<Sym, Error>)
    ensures typeStr == None || typeStr == Some("") || typeStr == Some("void") ==> r == Ok(Void)
    ensures r.Ok? ==> IsTableKind(r.value)
    ensures r.Err? <==> typeStr.Some? && typeStr.value !in TYPE_MAP && typeStr.value != ""
    ensures r.Err? ==> r.error == UnknownReturnType(typeStr.value)
    ensures r.Ok? && typeStr.Some? && typeStr.value != "" && typeStr.value != "void" ==>
              Lookup(typeStr.value) == Some(r.value)
  {
    ParserTableAgrees();
    MapValuesAreTableKinds();
    if typeStr.None? || typeStr.value == "" || typeStr.value == "void" then Ok(Void)
    else if typeStr.value in TYPE_MAP then Ok(TYPE_MAP[typeStr.value])
    else Err(UnknownReturnType(typeStr.value))
  }

  /** `strip_quotes`: a token that starts and ends with the same quote
      character loses its first and last character (a lone quote becomes
      empty); any other token is returned as it is. */
  function StripQuotes(token: string): (r: string)
    ensures |token| >= 2 && token[0] == token[|token| - 1] && token[0] in "\"'" ==>
              r == token[1..|token| - 1]
    ensures |token| == 0 || token[0] !in "\"'" || token[|token| - 1] != token[0] ==> r == token
    ensures |token| == 1 && token[0] in "\"'" ==> r == ""
    ensures |r| <= |token|
  {
    if |token| >= 1 &&
       ((token[0] == '"' && token[|token| - 1] == '"') ||
        (token[0] == '\'' && token[|token| - 1] == '\''))
    then (if |token| == 1 then "" else token[1..|token| - 1])
    else token
  }

  /** Quoting a text with either quote character and stripping gives the
      text back. */
  lemma StripQuotesInverse(s: string, q: char)
    requires q == '"' || q == '\''
    ensures StripQuotes([q] + s + [q]) == s
  {
    var t := [q] + s + [q];
    assert t[1..|t| - 1] == s;
  }

  /** `coerce_value`: floats and integers are parsed, pointers accept the
      null tokens as address 0, strings lose their quotes; void and any
      other descriptor raise. A coerced value is never nil. */
  function CoerceValue(d: Desc, token: string): (r: Result<Value, Error>)
    ensures d == Plain(VoidP) && token in NULL_TOKENS ==> r == Ok(IntV(0))
    ensures d == Plain(Void) ==> r == Err(VoidArgument)
    ensures r.Ok? ==> d.Plain? && (IsTableKind(d.sym) && d.sym != Void)
    ensures r.Ok? ==> r.value != NilV
    ensures d.Plain? && IsIntegerType(d.sym) ==>
              r == (if ParseInteger(token).Some? then Ok(IntV(ParseInteger(token).value))
                    else Err(InvalidInteger(token)))
    ensures d == Plain(VoidP) && token !in NULL_TOKENS ==>
              r == (if ParseInteger(token).Some? then Ok(IntV(ParseInteger(token).value))
                    else Err(InvalidInteger(token)))
    ensures d.Plain? && IsFloatType(d.sym) ==> r == Ok(FloatV(token))
    ensures d == Plain(Str) ==> r == Ok(StrV(StripQuotes(token)))
  {
    match d
    case Plain(s) =>
      if s in PARSER_FLOAT_TYPES then Ok(FloatV(token))
      else if s in PARSER_INTEGER_TYPES then ParseIntegerValue(token)
      else if s == VoidP then
        if token in NULL_TOKENS then Ok(IntV(0)) else ParseIntegerValue(token)
      else if s == Str then Ok(StrV(StripQuotes(token)))
      else if s == Void then Err(VoidArgument)
      else Err(UnknownCoercionType(d))
    case _ => Err(UnknownCoercionType(d))
  }

  /** `Integer(token)` as a coercion result. */
  function ParseIntegerValue(token: string): Result<Value, Error>
  {
    match ParseInteger(token)
    case Some(i) => Ok(IntV(i))
    case None => Err(InvalidInteger(token))
  }

  /** Coercion reads back what printing an integer wrote, for every integer
      type and for pointers. */
  lemma CoerceIntegerRoundTrip(s: Sym, i: int)
    requires IsIntegerType(s) || (s == VoidP)
    ensures CoerceValue(Plain(s), IntegerString(i)) == Ok(IntV(i))
  {
    ParseIntegerRoundTrip(i);
  }

  /** `fiddle_type`: the ABI tag of a descriptor. Exactly the output
      pointers, :voidp and :string get the pointer tag; a plain symbol has a
      tag exactly when it is a kind of the type table; arrays other than
      [:out, T] raise. */
  function FiddleType(d: Desc): (r: Result<Tag, Error>)
    ensures r.Ok? ==> (r.value == TVoidP <==> d.Out? || d == Plain(VoidP) || d == Plain(Str))
    ensures d.Plain? ==> (r.Ok? <==> IsTableKind(d.sym))
    ensures d.Out? ==> r == Ok(TVoidP)
    ensures d.ArrayIn? || d.OutArray? || d.OtherForm? ==> r == Err(UnknownFiddleType(d))
  {
    match d
    case Out(_) => Ok(TVoidP)
    case Plain(s) =>
      (match s
       case Void => Ok(TVoid)
       case Char => Ok(TChar)
       case UChar => Ok(TUChar)
       case Short => Ok(TShort)
       case UShort => Ok(TUShort)
       case Int => Ok(TInt)
       case UInt => Ok(TInt)
       case Long => Ok(TLong)
       case ULong => Ok(TLong)
       case LongLong => Ok(TLongLong)
       case ULongLong => Ok(TLongLong)
       case Float => Ok(TFloat)
       case Double => Ok(TDouble)
       case VoidP => Ok(TVoidP)
       case Str => Ok(TVoidP)
       case _ => Err(UnknownFiddleType(d)))
    case _ => Err(UnknownFiddleType(d))
  }

  /** Signedness does not change the slot of int, long and long long, while
      char and short keep separate signed and unsigned tags. */
  lemma FiddleTypeSignedness()
    ensures FiddleType(Plain(Int)) == FiddleType(Plain(UInt)) == Ok(TInt)
    ensures FiddleType(Plain(Long)) == FiddleType(Plain(ULong)) == Ok(TLong)
    ensures FiddleType(Plain(LongLong)) == FiddleType(Plain(ULongLong)) == Ok(TLongLong)
    ensures FiddleType(Plain(Char)) != FiddleType(Plain(UChar))
    ensures FiddleType(Plain(Short)) != FiddleType(Plain(UShort))
  {
  }

  /** Every type a parsed word names has an ABI tag; only a pointer word
      ("out:X", "ptr", "str", ...) gets the pointer tag. */
  lemma ParsedTypesHaveTags(typeStr: string)
    requires ParseType(typeStr).Ok?
    ensures FiddleType(ParseType(typeStr).value).Ok?
  {
    var d := ParseType(typeStr).value;
    if d.Plain? {
      assert Lookup(typeStr) == Some(d.sym);
    }
  }
}
