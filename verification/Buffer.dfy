/**
  Class Buffer of qingyi/net/buffer_.h: a growing array of bytes with a reader and a
  writer index.  Every method is proved against the function of the same operation in
  BufferModel, so that what is proved there of runs holds of buffers.

  An assertion at the start of a method of the source is the precondition of the method here.
*/
module Buffers {
  import opened Endian
  import opened BufferModel
  import opened BufferCodec

  /** std::copy within one array, to a place further down: the ranges may overlap. */
  method CopyDown(a: array<byte>, first: nat, last: nat, dest: nat)
    requires dest <= first <= last <= a.Length
    modifies a
    ensures a[dest..dest + (last - first)] == old(a[first..last])
    ensures a[..dest] == old(a[..dest])
    ensures a[dest + (last - first)..] == old(a[dest + (last - first)..])
  {
    ghost var was := a[..];
    var i := 0;
    while i < last - first
      invariant 0 <= i <= last - first
      invariant a[dest..dest + i] == was[first..first + i]
      invariant a[..dest] == was[..dest] && a[dest + i..] == was[dest + i..]
    {
      assert a[first + i] == a[dest + i..][first - dest] == was[first + i];
      a[dest + i] := a[first + i];
      i := i + 1;
    }
  }

  /** std::copy from outside the array. */
  method CopyIn(a: array<byte>, dest: nat, bytes: seq<byte>)
    requires dest + |bytes| <= a.Length
    modifies a
    ensures a[..] == old(a[..dest]) + bytes + old(a[dest + |bytes|..])
  {
    var i := 0;
    while i < |bytes|
      invariant 0 <= i <= |bytes|
      invariant a[dest..dest + i] == bytes[..i]
      invariant forall k :: 0 <= k < a.Length && !(dest <= k < dest + i) ==> a[k] == old(a[k])
    {
      a[dest + i] := bytes[i];
      i := i + 1;
    }
  }

  lemma FirstOfSlice(s: seq<byte>, from: nat, end: nat, n: nat)
    requires from + n <= end <= |s|
    ensures s[from..end][..n] == s[from..from + n]
  {
  }

  /** What a slice shows when bytes were copied to its beginning. */
  lemma InFront(was: seq<byte>, dest: nat, bytes: seq<byte>, end: nat)
    requires dest + |bytes| <= end <= |was|
    ensures (was[..dest] + bytes + was[dest + |bytes|..])[dest..end] == bytes + was[dest + |bytes|..end]
  {
  }

  /** std::vector::resize to a larger size: new storage with the old bytes in front and zeros behind. */
  method Resized(a: array<byte>, size: nat) returns (b: array<byte>)
    requires size >= a.Length
    ensures fresh(b) && b.Length == size && b[..a.Length] == a[..]
    ensures forall k :: a.Length <= k < size ==> b[k] == 0
  {
    b := new byte[size](_ => 0);
    ghost var zeros := b[a.Length..];
    CopyIn(b, 0, a[..]);
    assert forall k :: a.Length <= k < size ==> b[k] == zeros[k - a.Length];
  }

  /** The int length that StringPiece keeps of an unsigned length. */
  function PieceLength(n: nat): int {
    var u := n % 0x1_0000_0000;
    if u < 0x8000_0000 then u else u - 0x1_0000_0000
  }

  class Buffer {
    var data: array<byte>
    var readerIndex: nat
    var writerIndex: nat

    ghost predicate Valid()
      reads this
    {
      data.Length >= CHEAP_PREPEND && readerIndex <= writerIndex <= data.Length
    }

    /** The readable bytes. */
    ghost function Content(): seq<byte>
      requires Valid()
      reads this, data
    {
      data[readerIndex..writerIndex]
    }

    ghost function Shown(): View
      requires Valid()
      reads this, data
    {
      View(data.Length, readerIndex, Content())
    }

    constructor (initialSize: nat := INITIAL_SIZE)
      ensures Valid() && fresh(data) && Shown() == Fresh(initialSize)
      ensures PrependableBytes() == 8 && WriteableBytes() == initialSize && ReadableBytes() == 0
    {
      data := new byte[CHEAP_PREPEND + initialSize](_ => 0);
      readerIndex := CHEAP_PREPEND;
      writerIndex := CHEAP_PREPEND;
    }

    method Swap(rhs: Buffer)
      modifies this, rhs
      ensures data == old(rhs.data) && readerIndex == old(rhs.readerIndex) && writerIndex == old(rhs.writerIndex)
      ensures rhs.data == old(data) && rhs.readerIndex == old(readerIndex) && rhs.writerIndex == old(writerIndex)
    {
      data, rhs.data := rhs.data, data;
      readerIndex, rhs.readerIndex := rhs.readerIndex, readerIndex;
      writerIndex, rhs.writerIndex := rhs.writerIndex, writerIndex;
    }

    function ReadableBytes(): nat
      requires Valid()
      reads this
    {
      writerIndex - readerIndex
    }

    function WriteableBytes(): nat
      requires Valid()
      reads this
    {
      data.Length - writerIndex
    }

    function PrependableBytes(): nat
      reads this
    {
      readerIndex
    }

    // ---------- Taking bytes out ----------

    method Retrieve(len: nat)
      requires Valid() && len <= ReadableBytes()
      modifies this`readerIndex, this`writerIndex
      ensures Valid() && Shown() == Apply(old(Shown()), Op.Retrieve(len))
      ensures Content() == old(Content())[len..]
      ensures PrependableBytes() == if len < old(ReadableBytes()) then old(PrependableBytes()) + len else 8
    {
      if len < ReadableBytes() {
        readerIndex := readerIndex + len;
      } else {
        RetrieveAll();
      }
    }

    method RetrieveAll()
      requires Valid()
      modifies this`readerIndex, this`writerIndex
      ensures Valid() && Shown() == View(data.Length, CHEAP_PREPEND, []) && PrependableBytes() == 8
    {
      readerIndex := CHEAP_PREPEND;
      writerIndex := CHEAP_PREPEND;
    }

    method RetrieveAsString(len: nat) returns (result: seq<byte>)
      requires Valid() && len <= ReadableBytes()
      modifies this`readerIndex, this`writerIndex
      ensures Valid() && Shown() == Apply(old(Shown()), Op.Retrieve(len))
      ensures result == Output(old(Shown()), Op.Retrieve(len))
      ensures result + Content() == old(Content())
    {
      result := data[readerIndex..readerIndex + len];
      Retrieve(len);
    }

    method RetrieveAllAsString() returns (result: seq<byte>)
      requires Valid()
      modifies this`readerIndex, this`writerIndex
      ensures Valid() && result == old(Content())
      ensures Shown() == View(data.Length, CHEAP_PREPEND, []) && PrependableBytes() == 8
    {
      result := RetrieveAsString(ReadableBytes());
    }

    method UnWrite(len: nat)
      requires Valid() && len <= ReadableBytes()
      modifies this`writerIndex
      ensures Valid() && Shown() == Apply(old(Shown()), Op.UnWrite(len))
      ensures Content() == old(Content())[..old(ReadableBytes()) - len] && PrependableBytes() == old(PrependableBytes())
    {
      writerIndex := writerIndex - len;
    }

    // ---------- Putting bytes in ----------

    method MakeSpace(len: nat)
      requires Valid() && WriteableBytes() < len
      modifies this, data
      ensures Valid() && Shown() == Spaced(old(Shown()), len) && Content() == old(Content())
      ensures if old(ReadableBytes()) + len + 8 <= old(data.Length)
              then data == old(data) && PrependableBytes() == 8
              else fresh(data) && PrependableBytes() == old(PrependableBytes()) && WriteableBytes() == len
    {
      if WriteableBytes() + PrependableBytes() < len + CHEAP_PREPEND {
        data := Resized(data, writerIndex + len);
      } else {
        assert CHEAP_PREPEND < readerIndex;
        var readable := ReadableBytes();
        CopyDown(data, readerIndex, writerIndex, CHEAP_PREPEND);
        readerIndex := CHEAP_PREPEND;
        writerIndex := readerIndex + readable;
        assert readable == ReadableBytes();
      }
    }

    method EnsureWriteableBytes(len: nat)
      requires Valid()
      modifies this, data
      ensures Valid() && Shown() == Apply(old(Shown()), EnsureWritable(len))
      ensures WriteableBytes() >= len && Content() == old(Content())
      ensures PrependableBytes() == if old(WriteableBytes()) < len && old(ReadableBytes()) + len + 8 <= old(data.Length)
                                    then 8 else old(PrependableBytes())
      ensures data == old(data) || fresh(data)
      ensures data != old(data) ==>
                old(WriteableBytes()) < len == WriteableBytes() && old(ReadableBytes()) + len + 8 > old(data.Length)
    {
      if WriteableBytes() < len {
        MakeSpace(len);
      }
      assert WriteableBytes() >= len;
    }

    method HasWritten(len: nat)
      requires Valid() && len <= WriteableBytes()
      modifies this`writerIndex
      ensures Valid() && writerIndex == old(writerIndex) + len
    {
      writerIndex := writerIndex + len;
    }

    method Append(bytes: seq<byte>)
      requires Valid()
      modifies this, data
      ensures Valid() && Shown() == Apply(old(Shown()), Op.Append(bytes))
      ensures Content() == old(Content()) + bytes
      ensures PrependableBytes()
              == if old(WriteableBytes()) < |bytes| && old(ReadableBytes()) + |bytes| + 8 <= old(data.Length)
                 then 8 else old(PrependableBytes())
      ensures data == old(data) || fresh(data)
    {
      EnsureWriteableBytes(|bytes|);
      ghost var room := Shown();
      CopyIn(data, writerIndex, bytes);
      HasWritten(|bytes|);
      assert Content() == room.content + bytes;
    }

    method Prepend(bytes: seq<byte>)
      requires Valid() && |bytes| <= PrependableBytes()
      modifies this`readerIndex, data
      ensures Valid() && Shown() == Apply(old(Shown()), Op.Prepend(bytes))
      ensures Content() == bytes + old(Content())
    {
      ghost var was := data[..];
      assert Content() == was[readerIndex..writerIndex];
      readerIndex := readerIndex - |bytes|;
      CopyIn(data, readerIndex, bytes);
      InFront(was, readerIndex, bytes, writerIndex);
      assert Content() == data[..][readerIndex..writerIndex];
    }

    // ---------- Integers in network order ----------

    /** AppendInt8, AppendInt16, AppendInt32 and AppendInt64. */
    method AppendInt(x: int, width: Width, host: ByteOrder)
      requires Valid() && Representable(x, width)
      modifies this, data
      ensures Valid() && Shown() == AppendAll(old(Shown()), [Item(x, width)], host)
      ensures Content() == old(Content()) + Encode(x, width, host)
      ensures data == old(data) || fresh(data)
    {
      Append(Stored(HostToNetwork(ToUnsigned(x, width), width, host), width, host));
      assert [Item(x, width)][1..] == [];
    }

    /** PeekInt8, PeekInt16, PeekInt32 and PeekInt64. */
    method PeekInt(width: Width, host: ByteOrder) returns (x: int)
      requires Valid() && ReadableBytes() >= width
      ensures x == Decode(Content()[..width], host) && Representable(x, width)
    {
      var bytes := data[readerIndex..readerIndex + width];
      x := ToSigned(NetworkToHost(Loaded(bytes, host), width, host), width);
      FirstOfSlice(data[..], readerIndex, writerIndex, width);
      EncodeDecode(bytes, width, host);
    }

    /** ReadInt8, ReadInt16, ReadInt32 and ReadInt64. */
    method ReadInt(width: Width, host: ByteOrder) returns (x: int)
      requires Valid() && ReadableBytes() >= width
      modifies this`readerIndex, this`writerIndex
      ensures Valid() && Shown() == Apply(old(Shown()), Op.Retrieve(width))
      ensures x == Decode(Output(old(Shown()), Op.Retrieve(width)), host)
    {
      x := PeekInt(width, host);
      Retrieve(width);
    }

    /** PrepenInt8, PrependInt16, PrependInt32 and PrependInt64. */
    method PrependInt(x: int, width: Width, host: ByteOrder)
      requires Valid() && Representable(x, width) && width <= PrependableBytes()
      modifies this`readerIndex, data
      ensures Valid() && Shown() == Apply(old(Shown()), Op.Prepend(Encode(x, width, host)))
      ensures Content() == Encode(x, width, host) + old(Content())
    {
      DecodeEncode(x, width, host, host);
      Prepend(Stored(HostToNetwork(ToUnsigned(x, width), width, host), width, host));
    }

    // ---------- Shrinking ----------

    /** ToStringPiece: the first bytes of the content, as many as the int length counts, unless it is negative. */
    method ToStringPiece() returns (ok: bool, piece: seq<byte>)
      requires Valid()
      ensures ok == (PieceLength(ReadableBytes()) >= 0)
      ensures ok ==> PieceLength(ReadableBytes()) <= ReadableBytes()
                     && piece == Content()[..PieceLength(ReadableBytes())]
    {
      PieceLengthExactly(ReadableBytes());
      var length := PieceLength(ReadableBytes());
      ok, piece := length >= 0, [];
      if ok {
        piece := data[readerIndex..readerIndex + length];
        FirstOfSlice(data[..], readerIndex, writerIndex, length);
      }
    }

    /**
      The content passes through a StringPiece, whose length is an int.  When that
      length comes out negative the copy cannot be made: the call fails, and leaves this
      buffer alone.  Otherwise the buffer keeps as many bytes as the piece counts.
    */
    method Shrink(reserve: nat) returns (ok: bool)
      requires Valid()
      modifies this
      ensures Valid() && ok == (PieceLength(old(ReadableBytes())) >= 0)
      ensures if ok then fresh(data) && Shown() == Shrunk(old(Shown()), reserve)
              else data == old(data) && Shown() == old(Shown())
    {
      hide Apply, PieceLength, Shrunk;
      var other := new Buffer();
      other.EnsureWriteableBytes(ReadableBytes() + reserve);
      var piece;
      ok, piece := ToStringPiece();
      if ok {
        RoomForPiece(Shown(), reserve);
        other.Append(piece);
        Swap(other);
      }
    }
  }

  /** What a buffer shows after a successful Shrink. */
  function Shrunk(v: View, reserve: nat): View
    requires PieceLength(|v.content|) >= 0
  {
    View(CHEAP_PREPEND + Max(INITIAL_SIZE, |v.content| + reserve), CHEAP_PREPEND, v.content[..PieceLength(|v.content|)])
  }

  /** A new buffer with the room that Shrink reserves takes the piece without growing again. */
  lemma RoomForPiece(v: View, reserve: nat)
    requires PieceLength(|v.content|) >= 0
    ensures var roomy := Apply(Fresh(INITIAL_SIZE), EnsureWritable(|v.content| + reserve));
            Apply(roomy, Append(v.content[..PieceLength(|v.content|)])) == Shrunk(v, reserve)
  {
  }

  lemma PieceLengthExactly(n: nat)
    ensures -0x8000_0000 <= PieceLength(n) < 0x8000_0000 && (n - PieceLength(n)) % 0x1_0000_0000 == 0
    ensures PieceLength(n) <= n
    ensures PieceLength(n) == n <==> n < 0x8000_0000
  {
  }

  /**
    Shrink keeps the whole content exactly when it is shorter than 2^31 bytes; then it
    leaves the cheap prepend area in front and at least the reserve behind.
  */
  lemma ShrinkKeepsContent(v: View, reserve: nat)
    ensures PieceLength(|v.content|) >= 0 && Shrunk(v, reserve).content == v.content <==> |v.content| < 0x8000_0000
    ensures |v.content| < 0x8000_0000 ==>
              WellFormed(Shrunk(v, reserve)) && Shrunk(v, reserve).reader == 8
              && Writable(Shrunk(v, reserve)) >= reserve
              && Shrunk(v, reserve).size == 8 + if |v.content| + reserve < 1024 then 1024 else |v.content| + reserve
  {
    PieceLengthExactly(|v.content|);
  }
}
