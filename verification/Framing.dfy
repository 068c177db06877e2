// Length framing: a packed package is its length in four bytes and then its bytes;
// split takes the complete frames off the front of a buffer.
module Framing {
  import opened Archive
  import M = Marshaler

  const MAX_FRAME: nat := 0x1_0000_0000

  ghost predicate Framable(ps: seq<seq<Byte>>) {
    forall i :: 0 <= i < |ps| ==> |ps[i]| < MAX_FRAME
  }

  function Frames(ps: seq<seq<Byte>>): (r: seq<Byte>) {
    if ps == [] then [] else Bytes(|ps[0]|, 4) + ps[0] + Frames(ps[1..])
  }

  // No complete frame is left.
  predicate Incomplete(bytes: seq<Byte>) {
    |bytes| < 4 || |bytes| - 4 < Number(bytes[..4])
  }

  // The complete frames at the front, and how many bytes they take.
  function Scan(bytes: seq<Byte>): (r: (seq<seq<Byte>>, nat))
    ensures r.1 <= |bytes|
  {
    if Incomplete(bytes) then ([], 0)
    else
      var len := Number(bytes[..4]);
      var others := Scan(bytes[4 + len..]);
      ([bytes[4..4 + len]] + others.0, 4 + len + others.1)
  }

  lemma FrontFrame(p: seq<Byte>, others: seq<Byte>)
    requires |p| < MAX_FRAME
    ensures
      var bytes := Bytes(|p|, 4) + p + others;
      Number(bytes[..4]) == |p| && bytes[4..4 + |p|] == p && bytes[4 + |p|..] == others
  {
    Pow256Values();
    NumberOfBytes(|p|, 4);
    assert (Bytes(|p|, 4) + p + others)[..4] == Bytes(|p|, 4);
  }

  lemma Reframe(ps: seq<seq<Byte>>, tail: seq<Byte>)
    requires ps != []
    ensures Frames(ps) + tail == Bytes(|ps[0]|, 4) + ps[0] + (Frames(ps[1..]) + tail)
    ensures |Frames(ps)| == 4 + |ps[0]| + |Frames(ps[1..])|
  {
  }

  lemma ScanStep(bytes: seq<Byte>)
    requires !Incomplete(bytes)
    ensures
      var len := Number(bytes[..4]);
      var others := Scan(bytes[4 + len..]);
      Scan(bytes) == ([bytes[4..4 + len]] + others.0, 4 + len + others.1)
  {
  }

  lemma NothingToScan(tail: seq<Byte>)
    requires Incomplete(tail)
    ensures Scan(tail) == ([], 0)
  {
  }

  lemma Regroup(a: seq<seq<Byte>>, f: seq<Byte>, b: seq<seq<Byte>>)
    ensures a + ([f] + b) == a + [f] + b
  {
  }

  // Scanning packed frames and an incomplete tail gives back the payloads in order
  // and stops at the tail.
  lemma {:induction false} ScanFrames(ps: seq<seq<Byte>>, tail: seq<Byte>)
    requires Framable(ps) && Incomplete(tail)
    ensures Scan(Frames(ps) + tail) == (ps, |Frames(ps)|)
  {
    hide Scan, Number, Bytes;
    if ps == [] {
      assert Frames(ps) + tail == tail;
      NothingToScan(tail);
    } else {
      var others := Frames(ps[1..]) + tail;
      FrontFrame(ps[0], others);
      ScanFrames(ps[1..], tail);
      Reframe(ps, tail);
      hide Frames;
      ScanStep(Frames(ps) + tail);
      assert ps == [ps[0]] + ps[1..];
    }
  }

  // Only a single frame without payload is too short to be looked at.
  lemma TooShort(ps: seq<seq<Byte>>, tail: seq<Byte>)
    requires Framable(ps) && ps != []
    ensures |Frames(ps) + tail| <= 4 <==> ps == [[]] && tail == []
  {
    if |ps| > 1 {
      assert |Frames(ps[1..])| >= 4;
    }
  }

  // ------------------------------------------------------------------- the buffer

  const BUFFER_INC_STEP: nat := 256

  class NetBuffer {
    var buffer: seq<Byte>
    var writeIndex: nat
    var readIndex: nat

    ghost predicate Valid()
      reads this
    {
      readIndex <= writeIndex <= |buffer|
    }

    ghost function Contents(): (r: seq<Byte>)
      requires Valid()
      reads this
    {
      buffer[readIndex..writeIndex]
    }

    constructor (size: nat)
      ensures Valid() && Contents() == [] && readIndex == 0
    {
      buffer := seq(size, _ => 0);
      writeIndex := 0;
      readIndex := 0;
    }

    method Resize(size: nat)
      requires Valid() && |buffer| <= size
      modifies this`buffer
      ensures Valid() && |buffer| == size && Contents() == old(Contents())
      ensures buffer[..writeIndex] == old(buffer[..writeIndex])
    {
      buffer := buffer + seq(size - |buffer|, _ => 0);
    }

    // memcpy to the write index, without moving it.
    method Put(bytes: seq<Byte>)
      requires Valid() && writeIndex + |bytes| <= |buffer|
      modifies this`buffer
      ensures Valid() && |buffer| == old(|buffer|) && Contents() == old(Contents())
      ensures buffer[writeIndex..writeIndex + |bytes|] == bytes
    {
      buffer := buffer[..writeIndex] + bytes + buffer[writeIndex + |bytes|..];
    }

    method Fill(n: nat)
      requires Valid() && writeIndex + n <= |buffer|
      modifies this`writeIndex
      ensures Valid() && Contents() == old(Contents()) + buffer[old(writeIndex)..old(writeIndex) + n]
      ensures writeIndex == old(writeIndex) + n
    {
      writeIndex := writeIndex + n;
    }

    method WriteBuffer(bytes: seq<Byte>)
      requires Valid()
      modifies this`buffer, this`writeIndex
      ensures Valid() && Contents() == old(Contents()) + bytes
    {
      if |bytes| >= |buffer| - writeIndex {
        Resize(writeIndex + |bytes| + 64);
      }
      Put(bytes);
      Fill(|bytes|);
    }

    method ReserveIdle(r: nat)
      requires Valid()
      modifies this`buffer
      ensures Valid() && Contents() == old(Contents()) && writeIndex + r <= |buffer|
    {
      if |buffer| - writeIndex < r {
        Resize(writeIndex + r);
      }
    }

    method Writeable()
      requires Valid()
      modifies this`buffer
      ensures Valid() && Contents() == old(Contents()) && old(|buffer|) <= |buffer|
      ensures writeIndex + BUFFER_INC_STEP <= |buffer|
    {
      if |buffer| - writeIndex < BUFFER_INC_STEP {
        Resize(|buffer| + BUFFER_INC_STEP);
      }
    }

    // pack() of raw bytes.
    method PackBytes(bytes: seq<Byte>)
      requires Valid() && |bytes| < MAX_FRAME
      modifies this`buffer, this`writeIndex
      ensures Valid() && Contents() == old(Contents()) + Frames([bytes])
    {
      WriteBuffer(Bytes(|bytes|, 4));
      WriteBuffer(bytes);
      OneFrame(old(Contents()), bytes);
    }

    // pack() of a package: its length is counted first, then it is serialized into
    // the space reserved.
    method PackPackage(shape: Shape, v: Value)
      requires Valid() && Typed(shape, v) && Length(shape, v) < MAX_FRAME
      modifies this`buffer, this`writeIndex
      ensures Valid() && Contents() == old(Contents()) + Frames([Encode(shape, v)])
    {
      hide Encode, Bytes, Frames, Length, Typed;
      LengthIsWritten(shape, v);
      var len := Measure(shape, v);
      ReserveIdle(len + 4);
      Writeable();
      Put(Bytes(len, 4));
      Fill(4);
      assert Contents() == old(Contents()) + Bytes(len, 4);
      Writeable();
      var bytes := SerializeInto(shape, v, buffer[writeIndex..]);
      Put(bytes);
      Fill(len);
      OneFrame(old(Contents()), Encode(shape, v));
    }

    // The counting traversal.
    static method Measure(shape: Shape, v: Value) returns (len: nat)
      requires Typed(shape, v)
      ensures len == Length(shape, v)
    {
      LengthIsWritten(shape, v);
      var none := new Byte[0];
      var lr := new M.Marshaler(M.LengthRetriever, none, []);
      var _ := lr.ArchiveOne(shape, v);
      len := lr.base;
    }

    // The serializing traversal over the writable part of the buffer.
    static method SerializeInto(shape: Shape, v: Value, idle: seq<Byte>) returns (bytes: seq<Byte>)
      requires Typed(shape, v) && Length(shape, v) <= |idle|
      ensures bytes == Encode(shape, v)
    {
      LengthIsWritten(shape, v);
      var n := |idle|;
      var space := new Byte[n](i requires 0 <= i < |idle| => idle[i]);
      var s := new M.Marshaler(M.Serializer, space, []);
      ghost var was := space[..];
      var _ := s.ArchiveOne(shape, v);
      assert space[..] == M.Written(was, 0, Encode(shape, v));
      bytes := space[..s.base];
    }

    // split(): the read index is set, not advanced, to the bytes scanned.
    method Split() returns (frames: seq<seq<Byte>>)
      requires Valid() && writeIndex - readIndex < MAX_FRAME
      modifies this`readIndex, this`writeIndex
      ensures |old(Contents())| <= 4 ==>
        frames == [] && readIndex == old(readIndex) && writeIndex == old(writeIndex)
      ensures |old(Contents())| > 4 ==> frames == Scan(old(Contents())).0
      ensures |old(Contents())| > 4 && Scan(old(Contents())).1 == old(writeIndex) ==>
        readIndex == 0 && writeIndex == 0
      ensures |old(Contents())| > 4 && Scan(old(Contents())).1 != old(writeIndex) ==>
        readIndex == Scan(old(Contents())).1 && writeIndex == old(writeIndex)
    {
      hide Scan, Number;
      frames := [];
      if writeIndex - readIndex <= 4 {
        return;
      }
      var bytes := buffer[readIndex..writeIndex];
      var bi: nat := 0;
      var len: nat := Number(bytes[..4]);
      assert bytes[..4] == bytes[0..4];
      ghost var all := Scan(bytes);
      assert bytes[0..] == bytes && [] + all.0 == all.0;
      while |bytes| - bi >= 4 && |bytes| - bi - 4 >= len
        invariant 0 <= bi <= |bytes|
        invariant readIndex == old(readIndex) && writeIndex == old(writeIndex)
        invariant |bytes| - bi >= 4 ==> len == Number(bytes[bi..bi + 4])
        invariant all.0 == frames + Scan(bytes[bi..]).0 && all.1 == bi + Scan(bytes[bi..]).1
        decreases |bytes| - bi
      {
        NextFrame(bytes, bi, len);
        Regroup(frames, bytes[bi + 4..bi + 4 + len], Scan(bytes[bi + 4 + len..]).0);
        bi := bi + 4;
        frames := frames + [bytes[bi..bi + len]];
        bi := bi + len;
        len := if |bytes| - bi >= 4 then Number(bytes[bi..bi + 4]) else 0;
      }
      NoMoreFrames(bytes, bi, len);
      assert frames + [] == frames;
      readIndex := bi;
      if readIndex == writeIndex {
        readIndex := 0;
        writeIndex := 0;
      }
    }
  }

  lemma NextFrame(bytes: seq<Byte>, bi: nat, len: nat)
    requires bi + 4 + len <= |bytes| && len == Number(bytes[bi..bi + 4])
    ensures Scan(bytes[bi..]) ==
      ([bytes[bi + 4..bi + 4 + len]] + Scan(bytes[bi + 4 + len..]).0, 4 + len + Scan(bytes[bi + 4 + len..]).1)
  {
    hide Scan, Number;
    var rest := bytes[bi..];
    assert rest[..4] == bytes[bi..bi + 4];
    assert rest[4 + len..] == bytes[bi + 4 + len..] && rest[4..4 + len] == bytes[bi + 4..bi + 4 + len];
    ScanStep(rest);
  }

  lemma NoMoreFrames(bytes: seq<Byte>, bi: nat, len: nat)
    requires bi <= |bytes| && (|bytes| - bi >= 4 ==> len == Number(bytes[bi..bi + 4]))
    requires |bytes| - bi < 4 || |bytes| - bi - 4 < len
    ensures Scan(bytes[bi..]) == ([], 0)
  {
    if |bytes| - bi >= 4 {
      assert bytes[bi..][..4] == bytes[bi..bi + 4];
    }
  }

  lemma OneFrame(before: seq<Byte>, p: seq<Byte>)
    ensures before + Bytes(|p|, 4) + p == before + Frames([p])
  {
    hide Bytes;
    var b := Bytes(|p|, 4);
    assert Frames([p]) == b + p + [] == b + p;
    assert before + b + p == before + (b + p);
  }

  // ------------------------------------------------------------------- end to end

  // split on a buffer that holds complete frames and a tail: it returns all payloads in
  // order unless there is one frame without payload only; and it leaves just the tail
  // unread exactly if also nothing had been read before, or it does nothing. Else as many
  // bytes too many stay unread as had been read.
  method SplitPacked(b: NetBuffer, ghost ps: seq<seq<Byte>>, ghost tail: seq<Byte>) returns (frames: seq<seq<Byte>>)
    requires b.Valid() && b.writeIndex - b.readIndex < MAX_FRAME
    requires Framable(ps) && Incomplete(tail) && b.Contents() == Frames(ps) + tail
    modifies b`readIndex, b`writeIndex
    ensures b.Valid() && (frames == ps <==> !(ps == [[]] && tail == []))
    ensures frames == ps && b.Contents() == tail <==>
      !(ps == [[]] && tail == []) && (old(b.readIndex) == 0 || |old(b.Contents())| <= 4)
    ensures old(b.readIndex) == 0 && frames == ps && tail == [] && ps != [] ==> b.readIndex == b.writeIndex == 0
    ensures |old(b.Contents())| > 4 && old(b.readIndex) > 0 ==> |b.Contents()| == old(b.readIndex) + |tail|
  {
    ghost var was := b.Contents();
    assert |was| == b.writeIndex - b.readIndex;
    ScanFrames(ps, tail);
    if ps != [] {
      TooShort(ps, tail);
    } else {
      assert was == tail;
    }
    hide Scan, Frames, Incomplete;
    frames := b.Split();
    if |was| > 4 && old(b.readIndex) == 0 {
      assert was[|Frames(ps)|..] == tail;
    }
  }

  // get_pkg: the creator is found by the type id in front.
  function GetPkg(creators: map<nat, Shape>, buf: seq<Byte>): (r: Option<Value>) {
    if |buf| < 4 || Number(buf[..4]) !in creators then None
    else
      var v := Decode(creators[Number(buf[..4])], buf);
      if v.None? then None else Some(v.value.0)
  }

  ghost predicate Registered(creators: map<nat, Shape>, v: Value) {
    && v.Pkg? && v.id in creators && creators[v.id].Package? && Typed(creators[v.id], v)
    && Length(creators[v.id], v) < MAX_FRAME
  }

  function Payload(creators: map<nat, Shape>, v: Value): (r: seq<Byte>)
    requires Registered(creators, v)
  {
    Encode(creators[v.id], v)
  }

  lemma GetPkgRestores(creators: map<nat, Shape>, v: Value)
    requires Registered(creators, v)
    ensures GetPkg(creators, Payload(creators, v)) == Some(v) && |Payload(creators, v)| < MAX_FRAME
  {
    var shape := creators[v.id];
    var bytes := Encode(shape, v);
    Pow256Values();
    NumberOfBytes(v.id, 4);
    assert bytes[..4] == Bytes(v.id, 4);
    RoundTrip(shape, v, []);
    LengthIsWritten(shape, v);
    assert bytes + [] == bytes;
  }

  function Payloads(creators: map<nat, Shape>, vs: seq<Value>): (r: seq<seq<Byte>>)
    requires forall i :: 0 <= i < |vs| ==> Registered(creators, vs[i])
    ensures |r| == |vs|
  {
    seq(|vs|, i requires 0 <= i < |vs| => Payload(creators, vs[i]))
  }

  // Packages packed one after the other, whatever incomplete bytes follow, are
  // restored by scanning and decoding.
  lemma SentIsReceived(creators: map<nat, Shape>, vs: seq<Value>, tail: seq<Byte>)
    requires Incomplete(tail) && forall i :: 0 <= i < |vs| ==> Registered(creators, vs[i])
    ensures
      var frames := Scan(Frames(Payloads(creators, vs)) + tail).0;
      |frames| == |vs| && forall i :: 0 <= i < |vs| ==> GetPkg(creators, frames[i]) == Some(vs[i])
  {
    var ps := Payloads(creators, vs);
    forall i | 0 <= i < |ps| ensures |ps[i]| < MAX_FRAME {
      GetPkgRestores(creators, vs[i]);
    }
    ScanFrames(ps, tail);
    forall i | 0 <= i < |vs| ensures GetPkg(creators, ps[i]) == Some(vs[i]) {
      GetPkgRestores(creators, vs[i]);
    }
  }

  lemma {:induction false} FramesAppend(ps: seq<seq<Byte>>, p: seq<Byte>)
    ensures Frames(ps + [p]) == Frames(ps) + Frames([p])
    decreases |ps|
  {
    hide Bytes;
    if ps == [] {
      assert ps + [p] == [p];
    } else {
      assert (ps + [p])[1..] == ps[1..] + [p];
      FramesAppend(ps[1..], p);
      var b := Bytes(|ps[0]|, 4) + ps[0];
      assert b + (Frames(ps[1..]) + Frames([p])) == b + Frames(ps[1..]) + Frames([p]);
    }
  }

  lemma FramableAll(creators: map<nat, Shape>, vs: seq<Value>)
    requires forall i :: 0 <= i < |vs| ==> Registered(creators, vs[i])
    ensures Framable(Payloads(creators, vs)) && (vs != [] ==> Payloads(creators, vs)[0] != [])
  {
    hide Encode, Length, Typed;
    forall i | 0 <= i < |vs| ensures |Payload(creators, vs[i])| < MAX_FRAME {
      GetPkgRestores(creators, vs[i]);
    }
    if vs != [] {
      GetPkgRestores(creators, vs[0]);
    }
  }

  // The sender packs package after package into one buffer, into which an incomplete
  // rest comes as well; one split and a lookup per frame give the packages back, and the
  // rest stays unread.
  method SendAndReceive(creators: map<nat, Shape>, vs: seq<Value>, tail: seq<Byte>) returns (b: NetBuffer, got: seq<Option<Value>>)
    requires Incomplete(tail) && forall i :: 0 <= i < |vs| ==> Registered(creators, vs[i])
    requires |Frames(Payloads(creators, vs)) + tail| < MAX_FRAME
    ensures fresh(b) && b.Valid() && b.Contents() == tail
    ensures |got| == |vs| && forall i :: 0 <= i < |vs| ==> got[i] == Some(vs[i])
  {
    hide Frames, Payload, GetPkg, Scan, Encode, Length, Typed;
    b := new NetBuffer(BUFFER_INC_STEP);
    ghost var ps := Payloads(creators, vs);
    assert ps[..0] == [];
    NoFrames();
    for i := 0 to |vs|
      invariant fresh(b) && b.Valid() && b.Contents() == Frames(ps[..i]) && b.readIndex == 0
    {
      RegisteredIs(creators, vs[i]);
      b.PackPackage(creators[vs[i].id], vs[i]);
      FramesAppend(ps[..i], ps[i]);
      assert ps[..i + 1] == ps[..i] + [ps[i]];
    }
    assert ps[..|vs|] == ps;
    b.WriteBuffer(tail);
    FramableAll(creators, vs);
    var frames := SplitPacked(b, ps, tail);
    got := [];
    for i := 0 to |frames|
      invariant |got| == i && fresh(b) && b.Valid() && b.Contents() == tail
      invariant forall k :: 0 <= k < i ==> got[k] == Some(vs[k])
    {
      GetPkgRestores(creators, vs[i]);
      got := got + [GetPkg(creators, frames[i])];
    }
  }

  lemma NoFrames()
    ensures Frames([]) == []
  {
  }

  lemma RegisteredIs(creators: map<nat, Shape>, v: Value)
    requires Registered(creators, v)
    ensures v.Pkg? && v.id in creators && Typed(creators[v.id], v) && Length(creators[v.id], v) < MAX_FRAME
    ensures Payload(creators, v) == Encode(creators[v.id], v)
  {
  }
}
