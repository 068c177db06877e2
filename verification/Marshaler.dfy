// The marshaler object: one traversal of a package's fields that counts, writes
// or reads, depending on its mode.
module Marshaler {
  import opened Archive

  datatype Mode = Serializer | Deserializer | LengthRetriever

  // A buffer after these bytes were copied to position at.
  function Written(buf: seq<Byte>, at: nat, bytes: seq<Byte>): (r: seq<Byte>)
    requires at + |bytes| <= |buf|
    ensures |r| == |buf|
  {
    buf[..at] + bytes + buf[at + |bytes|..]
  }

  lemma WrittenTwice(buf: seq<Byte>, at: nat, a: seq<Byte>, b: seq<Byte>)
    requires at + |a| + |b| <= |buf|
    ensures Written(Written(buf, at, a), at + |a|, b) == Written(buf, at, a + b)
  {
  }

  lemma WrittenNothing(buf: seq<Byte>, at: nat)
    requires at <= |buf|
    ensures Written(buf, at, []) == buf
  {
  }

  lemma FirstOf(elem: Shape, items: seq<Value>)
    requires items != [] && AllTyped(elem, items)
    ensures Typed(elem, items[0]) && AllTyped(elem, items[1..])
    ensures EncodeAll(elem, items) == Encode(elem, items[0]) + EncodeAll(elem, items[1..])
    ensures LengthAll(elem, items) == Length(elem, items[0]) + LengthAll(elem, items[1..])
  {
  }

  lemma NoItems(elem: Shape)
    ensures AllTyped(elem, []) && EncodeAll(elem, []) == []
  {
  }

  lemma Regroup(items: seq<Value>, d: Value, others: seq<Value>)
    ensures items + [d] + others == items + ([d] + others)
  {
  }

  class Marshaler {
    const mode: Mode
    var base: nat
    const writeBuf: array<Byte>
    const readBuf: seq<Byte>

    constructor (mode: Mode, writeBuf: array<Byte>, readBuf: seq<Byte>)
      ensures this.mode == mode && this.writeBuf == writeBuf && this.readBuf == readBuf && base == 0
    {
      this.mode := mode;
      this.writeBuf := writeBuf;
      this.readBuf := readBuf;
      base := 0;
    }

    // What is left to read.
    ghost function Unread(): (r: seq<Byte>)
      requires base <= |readBuf|
      reads this
    {
      readBuf[base..]
    }

    method Copy(bytes: seq<Byte>)
      requires mode == Serializer && base + |bytes| <= writeBuf.Length
      modifies this`base, writeBuf
      ensures base == old(base) + |bytes|
      ensures writeBuf[..] == Written(old(writeBuf[..]), old(base), bytes)
    {
      ghost var was := writeBuf[..];
      for i := 0 to |bytes|
        invariant base == old(base)
        invariant |was| == writeBuf.Length
        invariant forall k :: 0 <= k < writeBuf.Length ==>
          writeBuf[k] == if base <= k < base + i then bytes[k - base] else was[k]
      {
        writeBuf[base + i] := bytes[i];
      }
      base := base + |bytes|;
      assert forall k :: 0 <= k < |was| ==> writeBuf[..][k] == Written(was, old(base), bytes)[k];
    }

    // The number at the cursor.
    method Read(size: nat) returns (bytes: seq<Byte>)
      requires base + size <= |readBuf|
      modifies this`base
      ensures base == old(base) + size && bytes == old(Unread())[..size] && Unread() == old(Unread())[size..]
    {
      bytes := readBuf[base..base + size];
      base := base + size;
    }

    // May this call go ahead: a value of the right type that fits the buffer, or
    // bytes that hold one.
    ghost predicate Ready(shape: Shape, v: Value)
      reads this
    {
      match mode
      case Serializer => Typed(shape, v) && base + Length(shape, v) <= writeBuf.Length
      case LengthRetriever => Typed(shape, v)
      case Deserializer => base <= |readBuf| && Decode(shape, Unread()).Some?
    }

    // The effect of archiving a value with this encoding.
    twostate predicate Did(bytes: seq<Byte>)
      reads this, writeBuf
    {
      && base == old(base) + |bytes|
      && (mode == Serializer ==>
           base <= writeBuf.Length && writeBuf[..] == Written(old(writeBuf[..]), old(base), bytes))
      && (mode == LengthRetriever ==> writeBuf[..] == old(writeBuf[..]))
    }

    method ArchiveNumber(n: nat, size: nat) returns (n': nat)
      requires mode == Serializer ==> base + size <= writeBuf.Length
      requires mode == Deserializer ==> base + size <= |readBuf|
      modifies this`base, writeBuf
      ensures mode != Deserializer ==> n' == n && Did(Bytes(n, size))
      ensures mode == Deserializer ==>
        && base == old(base) + size && n' == Number(old(Unread())[..size])
        && Unread() == old(Unread())[size..]
    {
      n' := n;
      match mode {
        case Serializer =>
          Copy(Bytes(n, size));
        case Deserializer =>
          var bytes := Read(size);
          n' := Number(bytes);
        case LengthRetriever =>
          base := base + size;
      }
    }

    method ArchiveText(s: seq<Byte>) returns (s': seq<Byte>)
      requires |s| < MAX_TEXT
      requires mode == Serializer ==> base + WORD + |s| <= writeBuf.Length
      requires mode == Deserializer ==> base <= |readBuf| && Decode(Text, Unread()).Some?
      modifies this`base, writeBuf
      ensures mode != Deserializer ==> s' == s && Did(Bytes(|s|, WORD) + s)
      ensures mode == Deserializer ==>
        base <= |readBuf| && Decode(Text, old(Unread())) == Some((Str(s'), Unread()))
    {
      s' := s;
      match mode {
        case Serializer =>
          Copy(Bytes(|s|, WORD));
          Copy(s);
          WrittenTwice(old(writeBuf[..]), old(base), Bytes(|s|, WORD), s);
        case Deserializer =>
          var bytes := Read(WORD);
          s' := Read(Number(bytes));
        case LengthRetriever =>
          base := base + WORD + |s|;
      }
    }

    method ArchiveOne(shape: Shape, v: Value) returns (v': Value)
      requires Ready(shape, v)
      modifies this`base, writeBuf
      ensures mode != Deserializer ==> Typed(shape, v) && v' == v && Did(Encode(shape, v))
      ensures mode == Deserializer ==>
        base <= |readBuf| && Decode(shape, old(Unread())) == Some((v', Unread()))
      decreases shape, 0
    {
      hide Written, Pow256;
      v' := v;
      if mode != Deserializer {
        LengthIsWritten(shape, v);
      }
      match shape {
        case Scalar(size) =>
          var n := ArchiveNumber(if v.Num? then v.n else 0, size);
          v' := Num(n);
        case Text =>
          var s := ArchiveText(if mode != Deserializer then v.chars else []);
          v' := Str(s);
        case Fixed(elem, count) =>
          if mode == Deserializer {
            var items := ReadAll(elem, count);
            v' := List(items);
          } else {
            WriteAll(elem, v.items);
          }
        case Vector(elem) =>
          var count := ArchiveNumber(if mode != Deserializer then |v.items| else 0, WORD);
          if mode == Deserializer {
            var items := ReadAll(elem, count);
            v' := List(items);
          } else {
            WriteAll(elem, v.items);
            if mode == Serializer {
              WrittenTwice(old(writeBuf[..]), old(base), Bytes(count, WORD), EncodeAll(elem, v.items));
            }
          }
        case Package(fields) =>
          var id := ArchiveNumber(if mode != Deserializer then v.id else 0, 4);
          var vs := ArchiveFields(fields, if mode != Deserializer then v.fields else NoValues);
          if mode == Serializer {
            WrittenTwice(old(writeBuf[..]), old(base), Bytes(id, 4), EncodeFields(fields, vs));
          }
          v' := Pkg(id, vs);
      }
    }

    // The loops over arrays and vectors: over the items that are there, ...
    method WriteAll(elem: Shape, items: seq<Value>)
      requires mode != Deserializer && AllTyped(elem, items)
      requires mode == Serializer ==> base + LengthAll(elem, items) <= writeBuf.Length
      modifies this`base, writeBuf
      ensures Did(EncodeAll(elem, items))
      decreases elem, 1
    {
      hide Written, Encode, Length, Typed, EncodeAll, LengthAll, AllTyped;
      ghost var done: seq<Byte> := [];
      if mode == Serializer {
        WrittenNothing(writeBuf[..], base);
      }
      assert items[0..] == items && done + EncodeAll(elem, items) == EncodeAll(elem, items);
      for i := 0 to |items|
        invariant AllTyped(elem, items[i..]) && Did(done)
        invariant EncodeAll(elem, items) == done + EncodeAll(elem, items[i..])
        invariant mode == Serializer ==> base + LengthAll(elem, items[i..]) <= writeBuf.Length
      {
        FirstOf(elem, items[i..]);
        assert items[i..][1..] == items[i + 1..];
        LengthIsWritten(elem, items[i]);
        ghost var one := Encode(elem, items[i]);
        var _ := ArchiveOne(elem, items[i]);
        if mode == Serializer {
          WrittenTwice(old(writeBuf[..]), old(base), done, one);
        }
        SplitAt(done, one, EncodeAll(elem, items[i + 1..]));
        done := done + one;
      }
      NoItems(elem);
      assert items[|items|..] == [] && done + [] == done;
    }

    // ... or over a counter, pushing what is read.
    method ReadAll(elem: Shape, count: nat) returns (items: seq<Value>)
      requires mode == Deserializer && base <= |readBuf| && DecodeAll(elem, Unread(), count).Some?
      modifies this`base, writeBuf
      ensures base <= |readBuf| && DecodeAll(elem, old(Unread()), count) == Some((items, Unread()))
      decreases elem, 1
    {
      items := [];
      ghost var all := DecodeAll(elem, Unread(), count).value;
      assert [] + all.0 == all.0;
      for i := 0 to count
        invariant base <= |readBuf| && DecodeAll(elem, Unread(), count - i).Some?
        invariant items + DecodeAll(elem, Unread(), count - i).value.0 == all.0
        invariant DecodeAll(elem, Unread(), count - i).value.1 == all.1
      {
        ghost var more := DecodeAll(elem, Unread(), count - i).value.0;
        var d := ArchiveOne(elem, Num(0));
        ghost var others := DecodeAll(elem, Unread(), count - i - 1).value.0;
        assert more == [d] + others;
        Regroup(items, d, others);
        items := items + [d];
      }
      assert items + [] == items;
    }

    // The fields of a package, one after the other.
    method ArchiveFields(fields: Shapes, vs: Values) returns (vs': Values)
      requires mode != Deserializer ==> FieldsTyped(fields, vs)
      requires mode == Serializer ==> base + LengthFields(fields, vs) <= writeBuf.Length
      requires mode == Deserializer ==> base <= |readBuf| && DecodeFields(fields, Unread()).Some?
      modifies this`base, writeBuf
      ensures mode != Deserializer ==> vs' == vs && Did(EncodeFields(fields, vs))
      ensures mode == Deserializer ==>
        base <= |readBuf| && DecodeFields(fields, old(Unread())) == Some((vs', Unread()))
      decreases fields, 0
    {
      match fields {
        case NoShapes =>
          vs' := NoValues;
          if mode == Serializer {
            WrittenNothing(writeBuf[..], base);
          }
        case Shapes(first, others) =>
          if mode != Deserializer {
            LengthIsWritten(first, vs.first);
          }
          var v := ArchiveOne(first, if mode != Deserializer then vs.first else Num(0));
          var more := ArchiveFields(others, if mode != Deserializer then vs.others else NoValues);
          if mode == Serializer {
            WrittenTwice(old(writeBuf[..]), old(base), Encode(first, v), EncodeFields(others, more));
          }
          vs' := Values(v, more);
      }
    }
  }
}
