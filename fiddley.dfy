/** lib/libcall/fiddley.rb: the size, tag and pack-template helpers of
    `Fiddley::Utils`, the array/byte-string conversions built on them, and
    `MemoryPointer`, a fixed-size byte buffer written and read in place. */
module Fiddley {
  import opened Wrappers
  import opened TypeMap
  import opened Values
  import opened Native
  import opened Pack

  /** `SIZET_PACK`: native `unsigned long` where a pointer is as wide as a
      long, else 64-bit unsigned. */
  function SizetPack(p: Platform): string
  {
    if p.sizeofVoidp == p.sizeofLong then "L!" else "Q"
  }

  /** `Utils.sizeof`: `size_t` and the two pointer spellings are answered
      from the platform; any other type is delegated and a failed delegation
      raises. */
  function Sizeof(f: Foreign, p: Platform, t: Sym): (r: Result<nat, Error>)
    ensures t == SizeT ==> r == Ok(p.sizeofSizeT)
    ensures t == Pointer || t == VoidP ==> r == Ok(p.sizeofVoidp)
    ensures t != SizeT && t != Pointer && t != VoidP ==>
              (r.Ok? <==> f.sizeOf(t).Some?) &&
              (r.Ok? ==> r.value == f.sizeOf(t).value) &&
              (r.Err? ==> r.error == UnknownSizeof(t))
  {
    if t == SizeT then Ok(p.sizeofSizeT)
    else if t == Pointer || t == VoidP then Ok(p.sizeofVoidp)
    else match f.sizeOf(t)
      case Some(n) => Ok(n)
      case None => Err(UnknownSizeof(t))
  }

  /** `Utils.to_fiddle_type`: the same pattern for ABI tags. */
  function ToFiddleType(f: Foreign, t: Sym): (r: Result<Tag, Error>)
    ensures t == SizeT ==> r == Ok(TSizeT)
    ensures t == Pointer || t == VoidP ==> r == Ok(TVoidP)
    ensures t != SizeT && t != Pointer && t != VoidP ==>
              (r.Ok? <==> f.toFiddleType(Plain(t)).Some?) &&
              (r.Ok? ==> r.value == f.toFiddleType(Plain(t)).value) &&
              (r.Err? ==> r.error == UnknownToFiddleType(t))
  {
    if t == SizeT then Ok(TSizeT)
    else if t == Pointer || t == VoidP then Ok(TVoidP)
    else match f.toFiddleType(Plain(t))
      case Some(tag) => Ok(tag)
      case None => Err(UnknownToFiddleType(t))
  }

  /** `Utils.array_pack_template`: `size_t` packs natively; otherwise the
      delegated template wins, the pointer spellings fall back to `J` and
      anything else raises. */
  function ArrayPackTemplate(f: Foreign, p: Platform, t: Sym): (r: Result<string, Error>)
    ensures t == SizeT ==> r == Ok(SizetPack(p))
    ensures t != SizeT && f.packTemplate(t).Some? ==> r == Ok(f.packTemplate(t).value)
    ensures t != SizeT && f.packTemplate(t).None? ==>
              r == (if t == Pointer || t == VoidP then Ok("J") else Err(UnsupportedArrayBase(t)))
  {
    if t == SizeT then Ok(SizetPack(p))
    else match f.packTemplate(t)
      case Some(s) => Ok(s)
      case None =>
        if t == Pointer || t == VoidP then Ok("J") else Err(UnsupportedArrayBase(t))
  }

  /** The integer directive an array base type packs with; a template that is
      not one of the integer directives is reported. */
  function ArrayDirective(f: Foreign, p: Platform, t: Sym): (r: Result<Directive, Error>)
    ensures ArrayPackTemplate(f, p, t).Err? ==> r == Err(ArrayPackTemplate(f, p, t).error)
    ensures r.Ok? ==> DirectiveOf(p, ArrayPackTemplate(f, p, t).value) == Some(r.value)
  {
    var template :- ArrayPackTemplate(f, p, t);
    match DirectiveOf(p, template)
    case Some(d) => Ok(d)
    case None => Err(UnknownDirective(template))
  }

  /** `Utils.array2str`: `array.pack("#{template}*")`. */
  function Array2Str(f: Foreign, p: Platform, t: Sym, values: seq<Value>): (r: Result<seq<byte>, Error>)
    ensures ArrayDirective(f, p, t).Err? ==> r == Err(ArrayDirective(f, p, t).error)
    ensures ArrayDirective(f, p, t).Ok? ==>
              (r.Ok? <==> forall i :: 0 <= i < |values| ==> values[i].IntV?)
  {
    var d :- ArrayDirective(f, p, t);
    PackAll(d, p.littleEndian, values)
  }

  /** `Utils.str2array`: `str.unpack("#{template}*")`. */
  function Str2Array(f: Foreign, p: Platform, t: Sym, bytes: seq<byte>): (r: Result<seq<Value>, Error>)
    ensures ArrayDirective(f, p, t).Err? ==> r == Err(ArrayDirective(f, p, t).error)
    ensures r.Ok? ==> forall i :: 0 <= i < |r.value| ==> r.value[i].IntV?
  {
    var d :- ArrayDirective(f, p, t);
    Ok(UnpackAll(d, p.littleEndian, bytes))
  }

  /** `size_t` arrays pack unsigned, as wide as a long when a pointer is,
      else eight bytes wide. */
  lemma SizetPackDirective(f: Foreign, p: Platform)
    ensures ArrayDirective(f, p, SizeT) ==
            Ok(Directive(if p.sizeofVoidp == p.sizeofLong then p.sizeofLong else 8, false))
  {
  }

  /** The two pointer spellings are interchangeable: same size, same tag, and
      when no template is delegated they pack unsigned with exactly the
      width `sizeof` reports. */
  lemma PointerSpellingsAgree(f: Foreign, p: Platform)
    ensures Sizeof(f, p, Pointer) == Sizeof(f, p, VoidP) == Ok(p.sizeofVoidp)
    ensures ToFiddleType(f, Pointer) == ToFiddleType(f, VoidP) == Ok(TVoidP)
    ensures f.packTemplate(Pointer).None? ==>
              ArrayDirective(f, p, Pointer) == Ok(Directive(p.sizeofVoidp, false)) &&
              ArrayDirective(f, p, Pointer).value.width == Sizeof(f, p, Pointer).value
    ensures f.packTemplate(VoidP).None? ==>
              ArrayDirective(f, p, VoidP) == Ok(Directive(p.sizeofVoidp, false)) &&
              ArrayDirective(f, p, VoidP).value.width == Sizeof(f, p, VoidP).value
  {
  }

  /** Packing then unpacking an array of integers the base type can hold
      gives the array back. */
  lemma Array2StrRoundTrip(f: Foreign, p: Platform, t: Sym, values: seq<Value>)
    requires ArrayDirective(f, p, t).Ok?
    requires forall i :: 0 <= i < |values| ==>
               values[i].IntV? && Representable(values[i].i, ArrayDirective(f, p, t).value)
    ensures Array2Str(f, p, t, values).Ok?
    ensures |Array2Str(f, p, t, values).value| == |values| * ArrayDirective(f, p, t).value.width
    ensures Str2Array(f, p, t, Array2Str(f, p, t, values).value) == Ok(values)
  {
    var d := ArrayDirective(f, p, t).value;
    UnpackPack(d, p.littleEndian, values, []);
    PackLength(d, p.littleEndian, values);
    assert PackAll(d, p.littleEndian, values).value + [] == PackAll(d, p.littleEndian, values).value;
    assert UnpackAll(d, p.littleEndian, []) == [];
    assert values + [] == values;
  }

  /** Bytes `b` with `s` copied over them from offset `off` (a `memcpy`). */
  function Spliced(b: seq<byte>, off: nat, s: seq<byte>): (r: seq<byte>)
    requires off + |s| <= |b|
    ensures |r| == |b|
    ensures r[off..off + |s|] == s
    ensures forall k :: 0 <= k < |b| && !(off <= k < off + |s|) ==> r[k] == b[k]
  {
    b[..off] + s + b[off + |s|..]
  }

  /** `MemoryPointer`: `size` bytes of native memory for `count` elements of
      `elemType`, fixed at construction and changed in place. */
  class MemoryPointer {
    const elemType: Sym
    const size: nat
    const ptr: array<byte>

    /** The buffer holds exactly `size` bytes. */
    predicate Valid()
    {
      ptr.Length == size
    }

    /** `MemoryPointer.new(type, count = 1)` where `sizeof(type)` succeeds: room
        for `count` elements. The bytes are whatever `malloc` returned. */
    constructor (f: Foreign, p: Platform, t: Sym, count: nat := 1)
      requires Sizeof(f, p, t).Ok?
      ensures Valid()
      ensures elemType == t && size == Sizeof(f, p, t).value * count
      ensures fresh(ptr)
    {
      elemType := t;
      size := Sizeof(f, p, t).value * count;
      ptr := new byte[Sizeof(f, p, t).value * count];
    }

    /** `MemoryPointer.new(type, count = 1)`, raising where `sizeof` does. */
    static method New(f: Foreign, p: Platform, t: Sym, count: nat := 1) returns (r: Result<MemoryPointer, Error>)
      ensures Sizeof(f, p, t).Err? ==> r == Err(UnknownSizeof(t))
      ensures Sizeof(f, p, t).Ok? ==>
                r.Ok? && fresh(r.value) && fresh(r.value.ptr) && r.value.Valid() &&
                r.value.elemType == t && r.value.size == Sizeof(f, p, t).value * count
    {
      var n := Sizeof(f, p, t);
      if n.Err? {
        return Err(n.error);
      }
      var m := new MemoryPointer(f, p, t, count);
      r := Ok(m);
    }

    /** `put_bytes(offset, str)`: the bytes of `str` overwrite
        `[offset, offset + |str|)`; every other byte is unchanged. Writing
        past the end is undefined behaviour in the native layer, so the range
        must lie inside the buffer. */
    method PutBytes(off: nat, s: seq<byte>)
      requires Valid()
      requires off + |s| <= size
      modifies ptr
      ensures ptr[..] == Spliced(old(ptr[..]), off, s)
    {
      forall k | off <= k < off + |s| {
        ptr[k] := s[k - off];
      }
      assert ptr[..] == Spliced(old(ptr[..]), off, s) by {
        forall k | 0 <= k < size
          ensures ptr[..][k] == Spliced(old(ptr[..]), off, s)[k]
        {
          if off <= k < off + |s| {
            assert Spliced(old(ptr[..]), off, s)[k] == Spliced(old(ptr[..]), off, s)[off..off + |s|][k - off];
          }
        }
      }
    }

    /** `write_bytes(str)`: `put_bytes(0, str)`. */
    method WriteBytes(s: seq<byte>)
      requires Valid()
      requires |s| <= size
      modifies ptr
      ensures ptr[..] == Spliced(old(ptr[..]), 0, s)
    {
      PutBytes(0, s);
    }

    /** `get_bytes(offset, len)`: a copy of `[offset, offset + len)`, the
        buffer unchanged. */
    method GetBytes(off: nat, len: nat) returns (r: seq<byte>)
      requires Valid()
      requires off + len <= size
      ensures |r| == len
      ensures forall k :: 0 <= k < len ==> r[k] == ptr[off + k]
    {
      r := ptr[off..off + len];
    }

    /** `read_bytes(len)`: `get_bytes(0, len)`. */
    method ReadBytes(len: nat) returns (r: seq<byte>)
      requires Valid()
      requires len <= size
      ensures r == ptr[..len]
    {
      r := GetBytes(0, len);
    }

    /** `write_array(type, values)`: the packed elements of `Array(values)`
        are written from offset 0 and the buffer itself is returned; where
        packing raises nothing is written. */
    method WriteArray(f: Foreign, p: Platform, t: Sym, values: Value) returns (r: Result<MemoryPointer, Error>)
      requires Valid()
      requires Array2Str(f, p, t, ToArray(values)).Ok? ==> |Array2Str(f, p, t, ToArray(values)).value| <= size
      modifies ptr
      ensures Array2Str(f, p, t, ToArray(values)).Err? ==>
                r == Err(Array2Str(f, p, t, ToArray(values)).error) && unchanged(ptr)
      ensures Array2Str(f, p, t, ToArray(values)).Ok? ==>
                r == Ok(this) && ptr[..] == Spliced(old(ptr[..]), 0, Array2Str(f, p, t, ToArray(values)).value)
    {
      var data := Array2Str(f, p, t, ToArray(values));
      if data.Err? {
        return Err(data.error);
      }
      PutBytes(0, data.value);
      r := Ok(this);
    }

    /** `read_array(type, count)`: `sizeof(type) * count` bytes from offset 0,
        unpacked with the type's template. */
    method ReadArray(f: Foreign, p: Platform, t: Sym, count: nat) returns (r: Result<seq<Value>, Error>)
      requires Valid()
      requires Sizeof(f, p, t).Ok? ==> Sizeof(f, p, t).value * count <= size
      ensures Sizeof(f, p, t).Err? ==> r == Err(UnknownSizeof(t))
      ensures Sizeof(f, p, t).Ok? ==> r == Str2Array(f, p, t, ptr[..Sizeof(f, p, t).value * count])
    {
      var n := Sizeof(f, p, t);
      if n.Err? {
        return Err(n.error);
      }
      var bytes := ReadBytes(n.value * count);
      r := Str2Array(f, p, t, bytes);
    }
  }

  /** `read_array(T, n)` after `write_array(T, vs)` with `n == |vs|` gives
      `vs` back, for integers `T` can hold and a `sizeof(T)` that is the
      template's width, whatever the buffer held before. */
  lemma WriteThenReadArray(f: Foreign, p: Platform, t: Sym, values: seq<Value>, before: seq<byte>)
    requires ArrayDirective(f, p, t).Ok?
    requires Sizeof(f, p, t) == Ok(ArrayDirective(f, p, t).value.width)
    requires forall i :: 0 <= i < |values| ==>
               values[i].IntV? && Representable(values[i].i, ArrayDirective(f, p, t).value)
    requires |values| * ArrayDirective(f, p, t).value.width <= |before|
    ensures Array2Str(f, p, t, values).Ok?
    ensures var data := Array2Str(f, p, t, values).value;
            |data| <= |before| &&
            Str2Array(f, p, t, Spliced(before, 0, data)[..Sizeof(f, p, t).value * |values|]) == Ok(values)
  {
    Array2StrRoundTrip(f, p, t, values);
    var data := Array2Str(f, p, t, values).value;
    assert Spliced(before, 0, data)[..|data|] == data;
  }
}
