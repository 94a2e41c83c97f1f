/**
  Integers of mixed widths through a buffer: AppendInt8/16/32/64, ReadInt8/16/32/64 and
  PrependInt8/16/32/64 of qingyi/net/buffer_.h over whole sequences of items.
*/
module BufferCodec {
  import opened Endian
  import opened BufferModel

  datatype Item = Item(value: int, width: Width)

  predicate Storable(items: seq<Item>) {
    forall i :: 0 <= i < |items| ==> Representable(items[i].value, items[i].width)
  }

  /** Append the items one after the other. */
  function AppendAll(v: View, items: seq<Item>, host: ByteOrder): View
    requires Storable(items)
    decreases |items|
  {
    if items == [] then v
    else AppendAll(Apply(v, Append(Encode(items[0].value, items[0].width, host))), items[1..], host)
  }

  /** Whether the assertions of a sequence of reads hold. */
  predicate CanReadAll(v: View, items: seq<Item>)
    decreases |items|
  {
    items == [] || (Allowed(v, Retrieve(items[0].width)) && CanReadAll(Apply(v, Retrieve(items[0].width)), items[1..]))
  }

  /** Read integers of the widths of the items, one after the other. */
  function ReadAll(v: View, items: seq<Item>, host: ByteOrder): (seq<int>, View)
    requires CanReadAll(v, items)
    decreases |items|
  {
    if items == [] then ([], v)
    else
      var (values, w) := ReadAll(Apply(v, Retrieve(items[0].width)), items[1..], host);
      ([Decode(Output(v, Retrieve(items[0].width)), host)] + values, w)
  }

  function Values(items: seq<Item>): seq<int> {
    if items == [] then [] else [items[0].value] + Values(items[1..])
  }

  function EncodeAll(items: seq<Item>, host: ByteOrder): seq<byte>
    requires Storable(items)
  {
    if items == [] then []
    else Encode(items[0].value, items[0].width, host) + EncodeAll(items[1..], host)
  }

  lemma {:induction false} AppendAllAppends(v: View, items: seq<Item>, host: ByteOrder)
    requires WellFormed(v) && Storable(items)
    ensures WellFormed(AppendAll(v, items, host))
    ensures AppendAll(v, items, host).content == v.content + EncodeAll(items, host)
    decreases |items|
  {
    if items != [] {
      var first := Encode(items[0].value, items[0].width, host);
      ApplyActsOnQueue(v, Append(first));
      assert QueueApply(v.content, Append(first)) == v.content + first;
      hide Apply, Encode, QueueApply, WellFormed;
      AppendAllAppends(Apply(v, Append(first)), items[1..], host);
      Joined(v.content, first, EncodeAll(items[1..], host));
    }
  }

  lemma Joined(a: seq<byte>, b: seq<byte>, c: seq<byte>)
    ensures a + (b + c) == (a + b) + c
  {
  }

  lemma RetrieveFirst(v: View, first: seq<byte>, rest: seq<byte>)
    requires WellFormed(v) && v.content == first + rest
    ensures Allowed(v, Retrieve(|first|)) && Output(v, Retrieve(|first|)) == first
    ensures var w := Apply(v, Retrieve(|first|));
            WellFormed(w) && w.content == rest && (rest == [] ==> w.reader == CHEAP_PREPEND)
  {
  }

  /** Reading what one host encoded gives back the values on any host, and then the rest is left. */
  lemma {:induction false} ReadAllReads(v: View, items: seq<Item>, rest: seq<byte>,
                                       writer: ByteOrder, reader: ByteOrder)
    requires WellFormed(v) && Storable(items) && v.content == EncodeAll(items, writer) + rest
    ensures CanReadAll(v, items)
    ensures ReadAll(v, items, reader).0 == Values(items)
    ensures ReadAll(v, items, reader).1.content == rest
    ensures rest == [] && items != [] ==> ReadAll(v, items, reader).1.reader == CHEAP_PREPEND
    decreases |items|
  {
    if items != [] {
      var first := Encode(items[0].value, items[0].width, writer);
      DecodeEncode(items[0].value, items[0].width, writer, reader);
      hide Encode, Decode, Apply, Output, Allowed;
      var later := EncodeAll(items[1..], writer) + rest;
      assert v.content == first + later;
      RetrieveFirst(v, first, later);
      ReadAllReads(Apply(v, Retrieve(items[0].width)), items[1..], rest, writer, reader);
    } else {
      assert v.content == rest;
    }
  }

  /**
    Append any integers of any widths to any buffer, then read what the buffer held
    before and integers of those widths: the same values come back, whatever growth or
    compaction the appends caused, and the buffer is drained.
  */
  lemma MixedWidthRoundTrip(v: View, items: seq<Item>, writer: ByteOrder, reader: ByteOrder)
    requires WellFormed(v) && Storable(items)
    ensures var w := AppendAll(v, items, writer);
            WellFormed(w) && Allowed(w, Retrieve(|v.content|)) && Output(w, Retrieve(|v.content|)) == v.content
    ensures var w := Apply(AppendAll(v, items, writer), Retrieve(|v.content|));
            CanReadAll(w, items)
            && ReadAll(w, items, reader).0 == Values(items)
            && ReadAll(w, items, reader).1.content == []
            && ReadAll(w, items, reader).1.reader == CHEAP_PREPEND
  {
    AppendAllAppends(v, items, writer);
    var w := AppendAll(v, items, writer);
    ApplyActsOnQueue(w, Retrieve(|v.content|));
    ReadAllReads(Apply(w, Retrieve(|v.content|)), items, [], writer, reader);
    EncodingIsNotEmpty(items, writer);
  }

  lemma EncodingIsNotEmpty(items: seq<Item>, host: ByteOrder)
    requires Storable(items)
    ensures EncodeAll(items, host) == [] <==> items == []
  {
    if items != [] {
      DecodeEncode(items[0].value, items[0].width, host, host);
    }
  }

  /** A prepended integer is read first, and what was there before is left. */
  lemma PrependedReadsFirst(v: View, x: int, n: Width, writer: ByteOrder, reader: ByteOrder)
    requires WellFormed(v) && Representable(x, n) && n <= v.reader
    ensures Allowed(v, Prepend(Encode(x, n, writer)))
    ensures var w := Apply(v, Prepend(Encode(x, n, writer)));
            Allowed(w, Retrieve(n))
            && Decode(Output(w, Retrieve(n)), reader) == x
            && Apply(w, Retrieve(n)).content == v.content
  {
    DecodeEncode(x, n, writer, reader);
    hide Encode, Decode;
    assert (Encode(x, n, writer) + v.content)[..n] == Encode(x, n, writer);
  }
}
