/** Ruby's `Array#pack` and `String#unpack` for the integer directives the
    array helpers use, each followed by `*` (as many elements as given, or
    as many whole elements as the bytes hold): fixed width, the host's byte
    order, two's complement truncation on packing and optional sign
    extension on unpacking. */
module Pack {
  import opened Wrappers
  import opened Values
  import opened Native

  /** One byte of a binary string. */
  type byte = x: int | 0 <= x < 256

  /** An integer directive: its width in bytes and whether it is signed. */
  datatype Directive = Directive(width: Width, signed: bool)

  /** The directive a template letter (optionally followed by `!`, "native
      size") stands for on the given platform; None for templates outside
      the integer directives. Lower-case letters are signed. */
  function DirectiveOf(p: Platform, template: string): (r: Option<Directive>)
    ensures r.Some? ==> 1 <= |template| <= 2 && (r.value.signed <==> 'a' <= template[0] <= 'z')
  {
    if |template| == 0 || |template| > 2 || (|template| == 2 && template[1] != '!') then None
    else
      var c := template[0];
      var native := |template| == 2;
      if c == 'c' || c == 'C' then (if native then None else Some(Directive(1, c == 'c')))
      else if c == 's' || c == 'S' then Some(Directive(2, c == 's'))
      else if c == 'l' || c == 'L' then Some(Directive(if native then p.sizeofLong else 4, c == 'l'))
      else if c == 'q' || c == 'Q' then Some(Directive(8, c == 'q'))
      else if c == 'j' || c == 'J' then Some(Directive(p.sizeofVoidp, c == 'j'))
      else if c == 'i' || c == 'I' then Some(Directive(p.sizeofInt, c == 'i'))
      else None
  }

  function Pow256(k: nat): (r: nat)
    ensures r >= 1
  {
    if k == 0 then 1 else 256 * Pow256(k - 1)
  }

  /** The `w` low-order bytes of `v` in two's complement, least significant
      first. */
  function EncodeLE(v: int, w: nat): (r: seq<byte>)
    ensures |r| == w
    decreases w
  {
    if w == 0 then [] else [v % 256] + EncodeLE(v / 256, w - 1)
  }

  /** The unsigned number that little-endian bytes denote. */
  function DecodeLE(bs: seq<byte>): nat
  {
    if |bs| == 0 then 0 else bs[0] + 256 * DecodeLE(bs[1..])
  }

  function Reverse(s: seq<byte>): (r: seq<byte>)
    ensures |r| == |s|
  {
    if |s| == 0 then [] else Reverse(s[1..]) + [s[0]]
  }

  /** One element packed in the host's byte order. */
  function Encode(v: int, d: Directive, littleEndian: bool): (r: seq<byte>)
    ensures |r| == d.width
  {
    var le := EncodeLE(v, d.width);
    if littleEndian then le else Reverse(le)
  }

  /** Half of the range of a width: the bound of the signed values. */
  function Half(w: Width): nat
  {
    128 * Pow256(w - 1)
  }

  /** One element unpacked: the unsigned number of its bytes, sign-extended
      for a signed directive. */
  function Decode(bs: seq<byte>, d: Directive, littleEndian: bool): int
  {
    var u := DecodeLE(if littleEndian then bs else Reverse(bs));
    if d.signed && u >= Half(d.width) then u - Pow256(d.width) else u
  }

  /** The values a directive holds without truncation. */
  predicate Representable(v: int, d: Directive)
  {
    var h: int := Half(d.width);
    if d.signed then -h <= v < h else 0 <= v < Pow256(d.width)
  }

  /** `values.pack("X*")`: the elements one after another; a value that is
      not an integer raises (Ruby's TypeError). */
  function PackAll(d: Directive, littleEndian: bool, values: seq<Value>): (r: Result<seq<byte>, Error>)
    ensures r.Ok? <==> forall i :: 0 <= i < |values| ==> values[i].IntV?
  {
    if |values| == 0 then Ok([])
    else if !values[0].IntV? then Err(PackTypeError(values[0]))
    else
      assert forall i :: 1 <= i < |values| ==> values[i] == values[1..][i - 1];
      var rest :- PackAll(d, littleEndian, values[1..]);
      Ok(Encode(values[0].i, d, littleEndian) + rest)
  }

  /** Packing yields `width` bytes per element. */
  lemma {:induction false} PackLength(d: Directive, littleEndian: bool, values: seq<Value>)
    requires PackAll(d, littleEndian, values).Ok?
    ensures |PackAll(d, littleEndian, values).value| == |values| * d.width
  {
    if |values| > 0 {
      PackLength(d, littleEndian, values[1..]);
      assert |values| * d.width == d.width + (|values| - 1) * d.width;
    }
  }

  /** `bytes.unpack("X*")`: one element per whole group of `width` bytes;
      trailing bytes that do not fill an element are dropped. */
  function UnpackAll(d: Directive, littleEndian: bool, bytes: seq<byte>): (r: seq<Value>)
    ensures forall i :: 0 <= i < |r| ==> r[i].IntV?
    decreases |bytes|
  {
    if |bytes| < d.width then []
    else [IntV(Decode(bytes[..d.width], d, littleEndian))] + UnpackAll(d, littleEndian, bytes[d.width..])
  }

  /** Unpacking yields one element per whole group of `width` bytes. */
  lemma {:induction false} UnpackLength(d: Directive, littleEndian: bool, bytes: seq<byte>)
    ensures |UnpackAll(d, littleEndian, bytes)| == |bytes| / d.width
    decreases |bytes|
  {
    DivStep(|bytes|, d.width);
    if |bytes| >= d.width {
      UnpackLength(d, littleEndian, bytes[d.width..]);
    }
  }

  /** Euclidean remainder is determined by any decomposition with a
      remainder in range. */
  lemma ModUnique(v: int, m: int, q: int, c: int)
    requires m > 0 && v == m * q + c && 0 <= c < m
    ensures v % m == c && v / m == q
  {
    var q', c' := v / m, v % m;
    assert m * (q - q') == c' - c;
    if q > q' {
      MulAtLeast(m, q - q');
    } else if q < q' {
      assert m * (q' - q) == c - c';
      MulAtLeast(m, q' - q);
    }
  }

  lemma {:induction false} MulAtLeast(m: int, k: int)
    requires m > 0 && k >= 1
    ensures m * k >= m
    decreases k
  {
    if k > 1 {
      MulAtLeast(m, k - 1);
      assert m * k == m * (k - 1) + m;
    }
  }

  /** Whole groups of `w` in `n`: none below `w`, otherwise one more than in
      `n - w`. */
  lemma DivStep(n: nat, w: nat)
    requires w >= 1
    ensures n < w ==> n / w == 0
    ensures n >= w ==> n / w == 1 + (n - w) / w
  {
    if n < w {
      ModUnique(n, w, 0, n);
    } else {
      var q, c := (n - w) / w, (n - w) % w;
      ModUnique(n, w, q + 1, c);
    }
  }

  /** Little-endian bytes read back as the value modulo 256^w. */
  lemma {:induction false} DecodeEncodeLE(v: int, w: nat)
    ensures DecodeLE(EncodeLE(v, w)) == v % Pow256(w)
    decreases w
  {
    if w > 0 {
      var q, c := v / 256, v % 256;
      var m := Pow256(w - 1);
      DecodeEncodeLE(q, w - 1);
      var e := EncodeLE(v, w);
      assert e[1..] == EncodeLE(q, w - 1);
      var a, b := q / m, q % m;
      assert q == m * a + b;
      assert v == (256 * m) * a + (256 * b + c);
      ModUnique(v, 256 * m, a, 256 * b + c);
    }
  }

  lemma {:induction false} ReverseReverse(s: seq<byte>)
    ensures Reverse(Reverse(s)) == s
  {
    if |s| > 0 {
      ReverseReverse(s[1..]);
      ReverseLast(Reverse(s[1..]), s[0]);
    }
  }

  lemma {:induction false} ReverseLast(s: seq<byte>, x: byte)
    ensures Reverse(s + [x]) == [x] + Reverse(s)
  {
    if |s| > 0 {
      assert (s + [x])[1..] == s[1..] + [x];
      ReverseLast(s[1..], x);
    }
  }

  /** Unpacking one packed element gives it back exactly when it is
      representable in the directive. */
  lemma DecodeEncode(v: int, d: Directive, littleEndian: bool)
    requires Representable(v, d)
    ensures Decode(Encode(v, d, littleEndian), d, littleEndian) == v
  {
    var le := EncodeLE(v, d.width);
    if !littleEndian {
      ReverseReverse(le);
    }
    DecodeEncodeLE(v, d.width);
    var n := Pow256(d.width);
    assert n == 2 * Half(d.width);
    if v < 0 {
      ModUnique(v, n, -1, v + n);
    } else {
      ModUnique(v, n, 0, v);
    }
  }

  /** Unpacking a whole element followed by more bytes: that element's value,
      then what the rest unpacks to. */
  lemma UnpackCons(d: Directive, littleEndian: bool, e: seq<byte>, after: seq<byte>)
    requires |e| == d.width
    ensures UnpackAll(d, littleEndian, e + after) ==
            [IntV(Decode(e, d, littleEndian))] + UnpackAll(d, littleEndian, after)
  {
    var bytes := e + after;
    assert bytes[..d.width] == e;
    assert bytes[d.width..] == after;
  }

  /** Unpacking what was packed gives the elements back, followed by what
      the trailing bytes hold: packing then unpacking is the identity on
      representable integers. */
  lemma {:induction false} UnpackPack(d: Directive, littleEndian: bool, values: seq<Value>, tail: seq<byte>)
    requires forall i :: 0 <= i < |values| ==> values[i].IntV? && Representable(values[i].i, d)
    ensures PackAll(d, littleEndian, values).Ok?
    ensures UnpackAll(d, littleEndian, PackAll(d, littleEndian, values).value + tail) ==
            values + UnpackAll(d, littleEndian, tail)
  {
    if |values| > 0 {
      var rest := values[1..];
      UnpackPack(d, littleEndian, rest, tail);
      var e := Encode(values[0].i, d, littleEndian);
      var packedRest := PackAll(d, littleEndian, rest).value;
      var unpackedTail := UnpackAll(d, littleEndian, tail);
      assert PackAll(d, littleEndian, values).value + tail == e + (packedRest + tail);
      UnpackCons(d, littleEndian, e, packedRest + tail);
      DecodeEncode(values[0].i, d, littleEndian);
      assert UnpackAll(d, littleEndian, e + (packedRest + tail)) == [values[0]] + (rest + unpackedTail);
      assert [values[0]] + (rest + unpackedTail) == values + unpackedTail;
    } else {
      assert PackAll(d, littleEndian, values).value + tail == tail;
      assert values + UnpackAll(d, littleEndian, tail) == UnpackAll(d, littleEndian, tail);
    }
  }
}
