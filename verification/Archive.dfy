// What the marshaler writes and reads, as functions on bytes: integers, strings,
// fixed arrays, vectors, and packages nested in any way.
module Archive {
  type Byte = x: int | 0 <= x < 256

  datatype Option<+T> = None | Some(value: T)

  // ------------------------------------------------------------- little endian

  function Pow256(k: nat): (r: nat)
    ensures r > 0
  {
    if k == 0 then 1 else 256 * Pow256(k - 1)
  }

  // The object representation of an unsigned number of k bytes.
  function Bytes(n: nat, k: nat): (r: seq<Byte>)
    ensures |r| == k
  {
    if k == 0 then [] else [n % 256] + Bytes(n / 256, k - 1)
  }

  function Number(bytes: seq<Byte>): (n: nat) {
    if bytes == [] then 0 else bytes[0] + 256 * Number(bytes[1..])
  }

  lemma {:induction false} NumberOfBytes(n: nat, k: nat)
    requires n < Pow256(k)
    ensures Number(Bytes(n, k)) == n
  {
    if k != 0 {
      NumberOfBytes(n / 256, k - 1);
    }
  }

  // Byte i is digit i of the number to base 256, lowest first.
  lemma {:induction false} ByteAt(n: nat, k: nat, i: nat)
    requires i < k
    ensures Bytes(n, k)[i] == n / Pow256(i) % 256
  {
    if i > 0 {
      ByteAt(n / 256, k - 1, i - 1);
      DivTwice(n, Pow256(i - 1));
    }
  }

  lemma DivTwice(n: nat, b: nat)
    requires 0 < b
    ensures n / 256 / b == n / (256 * b)
  {
    var q, x := n / 256 / b, n / 256 % b;
    assert n / 256 == q * b + x;
    Grouped(q, b);
    QuotientIs(n, 256 * b, q, 256 * x + n % 256);
  }

  lemma Grouped(q: nat, b: nat)
    ensures q * (256 * b) == 256 * (q * b)
  {
  }

  lemma QuotientIs(n: nat, p: nat, q: nat, r: nat)
    requires n == q * p + r && r < p
    ensures n / p == q
  {
    var d := n / p;
    assert n == d * p + n % p;
    if d < q {
      NextMultiple(d, q, p);
    } else if q < d {
      NextMultiple(q, d, p);
    }
  }

  lemma NextMultiple(a: nat, b: nat, p: nat)
    requires a < b
    ensures a * p + p <= b * p
  {
    var c := b - a - 1;
    assert b * p == (a + 1 + c) * p == a * p + p + c * p;
    assert c * p >= 0;
  }

  lemma Pow256Values()
    ensures Pow256(4) == 0x1_0000_0000 && Pow256(8) == 0x1_0000_0000_0000_0000
  {
    assert Pow256(1) == 256 && Pow256(2) == 0x1_0000 && Pow256(3) == 0x100_0000;
    assert Pow256(5) == 0x100_0000_0000 && Pow256(6) == 0x1_0000_0000_0000 && Pow256(7) == 0x100_0000_0000_0000;
  }

  // --------------------------------------------------------------- shapes, values

  // The static type of a field.
  datatype Shape =
    | Scalar(size: nat)
    | Text
    | Fixed(elem: Shape, count: nat)
    | Vector(elem: Shape)
    | Package(fields: Shapes)

  datatype Shapes = NoShapes | Shapes(first: Shape, others: Shapes)

  datatype Value =
    | Num(n: nat)
    | Str(chars: seq<Byte>)
    | List(items: seq<Value>)
    | Pkg(id: nat, fields: Values)

  datatype Values = NoValues | Values(first: Value, others: Values)

  // size_t counts; a vector is read back by a loop with an int counter.
  const WORD: nat := 8
  const MAX_TEXT: nat := 0x1_0000_0000_0000_0000
  const MAX_ITEMS: nat := 0x8000_0000

  predicate Typed(shape: Shape, v: Value)
    decreases shape, 0
  {
    match shape
    case Scalar(size) => v.Num? && v.n < Pow256(size)
    case Text => v.Str? && |v.chars| < MAX_TEXT
    case Fixed(elem, count) => v.List? && |v.items| == count && AllTyped(elem, v.items)
    case Vector(elem) => v.List? && |v.items| < MAX_ITEMS && AllTyped(elem, v.items)
    case Package(fields) => v.Pkg? && v.id < 0x1_0000_0000 && FieldsTyped(fields, v.fields)
  }

  predicate AllTyped(elem: Shape, items: seq<Value>)
    decreases elem, |items| + 1
  {
    items == [] || (Typed(elem, items[0]) && AllTyped(elem, items[1..]))
  }

  predicate FieldsTyped(fields: Shapes, vs: Values)
    decreases fields, 0
  {
    match fields
    case NoShapes => vs.NoValues?
    case Shapes(first, others) => vs.Values? && Typed(first, vs.first) && FieldsTyped(others, vs.others)
  }

  // ---------------------------------------------------------------- the three modes

  // What serializer mode writes.
  function Encode(shape: Shape, v: Value): (r: seq<Byte>)
    requires Typed(shape, v)
    decreases shape, 0
  {
    match shape
    case Scalar(size) => Bytes(v.n, size)
    case Text => Bytes(|v.chars|, WORD) + v.chars
    case Fixed(elem, _) => EncodeAll(elem, v.items)
    case Vector(elem) => Bytes(|v.items|, WORD) + EncodeAll(elem, v.items)
    case Package(fields) => Bytes(v.id, 4) + EncodeFields(fields, v.fields)
  }

  function EncodeAll(elem: Shape, items: seq<Value>): (r: seq<Byte>)
    requires AllTyped(elem, items)
    decreases elem, |items| + 1
  {
    if items == [] then [] else Encode(elem, items[0]) + EncodeAll(elem, items[1..])
  }

  function EncodeFields(fields: Shapes, vs: Values): (r: seq<Byte>)
    requires FieldsTyped(fields, vs)
    decreases fields, 0
  {
    match fields
    case NoShapes => []
    case Shapes(first, others) => Encode(first, vs.first) + EncodeFields(others, vs.others)
  }

  // What length mode counts.
  function Length(shape: Shape, v: Value): (n: nat)
    requires Typed(shape, v)
    decreases shape, 0
  {
    match shape
    case Scalar(size) => size
    case Text => WORD + |v.chars|
    case Fixed(elem, _) => LengthAll(elem, v.items)
    case Vector(elem) => WORD + LengthAll(elem, v.items)
    case Package(fields) => 4 + LengthFields(fields, v.fields)
  }

  function LengthAll(elem: Shape, items: seq<Value>): (n: nat)
    requires AllTyped(elem, items)
    decreases elem, |items| + 1
  {
    if items == [] then 0 else Length(elem, items[0]) + LengthAll(elem, items[1..])
  }

  function LengthFields(fields: Shapes, vs: Values): (n: nat)
    requires FieldsTyped(fields, vs)
    decreases fields, 0
  {
    match fields
    case NoShapes => 0
    case Shapes(first, others) => Length(first, vs.first) + LengthFields(others, vs.others)
  }

  // What deserializer mode reads, and what it leaves; None if it would read past
  // the end of the buffer.
  function Decode(shape: Shape, bytes: seq<Byte>): (r: Option<(Value, seq<Byte>)>)
    decreases shape, 0
  {
    match shape
    case Scalar(size) =>
      if |bytes| < size then None else Some((Num(Number(bytes[..size])), bytes[size..]))
    case Text =>
      if |bytes| < WORD then None
      else
        var len, rest := Number(bytes[..WORD]), bytes[WORD..];
        if |rest| < len then None else Some((Str(rest[..len]), rest[len..]))
    case Fixed(elem, count) =>
      var items := DecodeAll(elem, bytes, count);
      if items.None? then None else Some((List(items.value.0), items.value.1))
    case Vector(elem) =>
      if |bytes| < WORD then None
      else
        var items := DecodeAll(elem, bytes[WORD..], Number(bytes[..WORD]));
        if items.None? then None else Some((List(items.value.0), items.value.1))
    case Package(fields) =>
      if |bytes| < 4 then None
      else
        var vs := DecodeFields(fields, bytes[4..]);
        if vs.None? then None else Some((Pkg(Number(bytes[..4]), vs.value.0), vs.value.1))
  }

  function DecodeAll(elem: Shape, bytes: seq<Byte>, count: nat): (r: Option<(seq<Value>, seq<Byte>)>)
    decreases elem, count + 1
  {
    if count == 0 then Some(([], bytes))
    else
      var first := Decode(elem, bytes);
      if first.None? then None
      else
        var others := DecodeAll(elem, first.value.1, count - 1);
        if others.None? then None else Some(([first.value.0] + others.value.0, others.value.1))
  }

  function DecodeFields(fields: Shapes, bytes: seq<Byte>): (r: Option<(Values, seq<Byte>)>)
    decreases fields, 0
  {
    match fields
    case NoShapes => Some((NoValues, bytes))
    case Shapes(first, others) =>
      var v := Decode(first, bytes);
      if v.None? then None
      else
        var vs := DecodeFields(others, v.value.1);
        if vs.None? then None else Some((Values(v.value.0, vs.value.0), vs.value.1))
  }

  // ------------------------------------------------------------------- round trip

  lemma SplitAt(a: seq<Byte>, b: seq<Byte>, c: seq<Byte>)
    ensures (a + b + c)[..|a|] == a && (a + b + c)[|a|..] == b + c
    ensures a + b + c == a + (b + c)
  {
  }

  // Reading what was written gives the same value back and leaves exactly the
  // bytes that follow it.
  lemma {:induction false} RoundTrip(shape: Shape, v: Value, tail: seq<Byte>)
    requires Typed(shape, v)
    ensures Decode(shape, Encode(shape, v) + tail) == Some((v, tail))
    decreases shape, 0
  {
    Pow256Values();
    match shape
    case Scalar(size) =>
      NumberOfBytes(v.n, size);
      SplitAt(Bytes(v.n, size), [], tail);
    case Text =>
      NumberOfBytes(|v.chars|, WORD);
      SplitAt(Bytes(|v.chars|, WORD), v.chars, tail);
    case Fixed(elem, count) =>
      RoundTripAll(elem, v.items, tail);
    case Vector(elem) =>
      NumberOfBytes(|v.items|, WORD);
      SplitAt(Bytes(|v.items|, WORD), EncodeAll(elem, v.items), tail);
      RoundTripAll(elem, v.items, tail);
    case Package(fields) =>
      NumberOfBytes(v.id, 4);
      SplitAt(Bytes(v.id, 4), EncodeFields(fields, v.fields), tail);
      RoundTripFields(fields, v.fields, tail);
  }

  lemma {:induction false} RoundTripAll(elem: Shape, items: seq<Value>, tail: seq<Byte>)
    requires AllTyped(elem, items)
    ensures DecodeAll(elem, EncodeAll(elem, items) + tail, |items|) == Some((items, tail))
    decreases elem, |items| + 1
  {
    if items == [] {
      assert [] + tail == tail;
    } else {
      var a, b := Encode(elem, items[0]), EncodeAll(elem, items[1..]);
      SplitAt(a, b, tail);
      RoundTrip(elem, items[0], b + tail);
      RoundTripAll(elem, items[1..], tail);
      assert items == [items[0]] + items[1..];
    }
  }

  lemma {:induction false} RoundTripFields(fields: Shapes, vs: Values, tail: seq<Byte>)
    requires FieldsTyped(fields, vs)
    ensures DecodeFields(fields, EncodeFields(fields, vs) + tail) == Some((vs, tail))
    decreases fields, 0
  {
    match fields
    case NoShapes => assert [] + tail == tail;
    case Shapes(first, others) =>
      var a, b := Encode(first, vs.first), EncodeFields(others, vs.others);
      SplitAt(a, b, tail);
      RoundTrip(first, vs.first, b + tail);
      RoundTripFields(others, vs.others, tail);
  }

  // Length mode counts the bytes that serializer mode writes.
  lemma {:induction false} LengthIsWritten(shape: Shape, v: Value)
    requires Typed(shape, v)
    ensures |Encode(shape, v)| == Length(shape, v)
    decreases shape, 0
  {
    match shape
    case Fixed(elem, _) => LengthAllIsWritten(elem, v.items);
    case Vector(elem) => LengthAllIsWritten(elem, v.items);
    case Package(fields) => LengthFieldsIsWritten(fields, v.fields);
    case _ =>
  }

  lemma {:induction false} LengthAllIsWritten(elem: Shape, items: seq<Value>)
    requires AllTyped(elem, items)
    ensures |EncodeAll(elem, items)| == LengthAll(elem, items)
    decreases elem, |items| + 1
  {
    if items != [] {
      LengthIsWritten(elem, items[0]);
      LengthAllIsWritten(elem, items[1..]);
    }
  }

  lemma {:induction false} LengthFieldsIsWritten(fields: Shapes, vs: Values)
    requires FieldsTyped(fields, vs)
    ensures |EncodeFields(fields, vs)| == LengthFields(fields, vs)
    decreases fields, 0
  {
    if fields.Shapes? {
      LengthIsWritten(fields.first, vs.first);
      LengthFieldsIsWritten(fields.others, vs.others);
    }
  }

  // The items of an array or a vector of numbers lie one after the other, each in its
  // object representation: one memcpy writes them all.
  lemma {:induction false} ItemsAreContiguous(size: nat, items: seq<Value>, i: nat)
    requires AllTyped(Scalar(size), items) && i < |items|
    ensures |EncodeAll(Scalar(size), items)| == |items| * size && i * size + size <= |items| * size && items[i].Num?
    ensures EncodeAll(Scalar(size), items)[i * size..i * size + size] == Bytes(items[i].n, size)
    decreases |items|
  {
    NumbersLength(size, items);
    NextMultiple(i, |items|, size);
    var first, others := Bytes(items[0].n, size), EncodeAll(Scalar(size), items[1..]);
    assert EncodeAll(Scalar(size), items) == first + others;
    if i == 0 {
      assert 0 * size == 0;
    } else {
      ItemsAreContiguous(size, items[1..], i - 1);
      ItemShift(i, size);
      Behind(first, others, (i - 1) * size, size);
    }
  }

  lemma Behind(first: seq<Byte>, others: seq<Byte>, at: nat, size: nat)
    requires |first| == size && at + size <= |others|
    ensures (first + others)[at + size..at + size + size] == others[at..at + size]
  {
  }

  lemma ItemShift(i: nat, size: nat)
    requires 0 < i
    ensures (i - 1) * size + size == i * size
  {
  }

  lemma {:induction false} NumbersLength(size: nat, items: seq<Value>)
    requires AllTyped(Scalar(size), items)
    ensures |EncodeAll(Scalar(size), items)| == |items| * size
    decreases |items|
  {
    if items != [] {
      NumbersLength(size, items[1..]);
    }
  }

  // Two values with the same bytes, whatever follows them, are the same value.
  lemma EncodingIsInjective(shape: Shape, v: Value, w: Value, a: seq<Byte>, b: seq<Byte>)
    requires Typed(shape, v) && Typed(shape, w) && Encode(shape, v) + a == Encode(shape, w) + b
    ensures v == w && a == b
  {
    RoundTrip(shape, v, a);
    RoundTrip(shape, w, b);
  }
}
