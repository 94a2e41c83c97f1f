/**
  The operations of qingyi/net/buffer_.h as functions on what a buffer shows: the
  size of its storage, its reader index and its readable bytes.  Class Buffer is
  proved against these functions; here they are compared with a plain byte queue,
  one operation at a time and over whole runs.
*/
module BufferModel {
  import opened Endian

  const CHEAP_PREPEND: nat := 8
  const INITIAL_SIZE: nat := 1024

  datatype View = View(size: nat, reader: nat, content: seq<byte>)

  predicate WellFormed(v: View) {
    v.size >= CHEAP_PREPEND && v.reader + |v.content| <= v.size
  }

  function Writer(v: View): nat {
    v.reader + |v.content|
  }

  function Writable(v: View): int {
    v.size - Writer(v)
  }

  function Fresh(initialSize: nat): View {
    View(CHEAP_PREPEND + initialSize, CHEAP_PREPEND, [])
  }

  datatype Op =
    | Append(bytes: seq<byte>)
    | Prepend(bytes: seq<byte>)
    | Retrieve(len: nat)
    | UnWrite(len: nat)
    | EnsureWritable(len: nat)

  /** The assertions with which the operations begin. */
  predicate Allowed(v: View, op: Op) {
    match op
    case Append(_) => true
    case Prepend(bytes) => |bytes| <= v.reader
    case Retrieve(len) => len <= |v.content|
    case UnWrite(len) => len <= |v.content|
    case EnsureWritable(_) => true
  }

  /** MakeSpace: grow the storage, or move the content down to the cheap prepend area. */
  function Spaced(v: View, len: nat): View {
    if Writable(v) + v.reader < len + CHEAP_PREPEND then v.(size := Writer(v) + len)
    else v.(reader := CHEAP_PREPEND)
  }

  function Ensured(v: View, len: nat): View {
    if Writable(v) < len then Spaced(v, len) else v
  }

  function Apply(v: View, op: Op): View
    requires Allowed(v, op)
  {
    match op
    case Append(bytes) => var w := Ensured(v, |bytes|); w.(content := w.content + bytes)
    case Prepend(bytes) => v.(reader := v.reader - |bytes|, content := bytes + v.content)
    case Retrieve(len) =>
      if len < |v.content| then v.(reader := v.reader + len, content := v.content[len..])
      else v.(reader := CHEAP_PREPEND, content := [])
    case UnWrite(len) => v.(content := v.content[..|v.content| - len])
    case EnsureWritable(len) => Ensured(v, len)
  }

  /** The bytes an operation hands to its caller. */
  function Output(v: View, op: Op): seq<byte>
    requires Allowed(v, op)
  {
    if op.Retrieve? then v.content[..op.len] else []
  }

  // ---------- A plain byte queue ----------

  /** The same operations on nothing but the content. */
  function QueueApply(content: seq<byte>, op: Op): seq<byte> {
    match op
    case Append(bytes) => content + bytes
    case Prepend(bytes) => bytes + content
    case Retrieve(len) => if len <= |content| then content[len..] else content
    case UnWrite(len) => if len <= |content| then content[..|content| - len] else content
    case EnsureWritable(_) => content
  }

  /** Every operation keeps the indices in order and acts on the content as on a queue. */
  lemma ApplyActsOnQueue(v: View, op: Op)
    requires WellFormed(v) && Allowed(v, op)
    ensures WellFormed(Apply(v, op))
    ensures Apply(v, op).content == QueueApply(v.content, op)
    ensures v.content == Output(v, op) + (if op.Retrieve? then Apply(v, op).content else v.content)
  {
  }

  /** EnsureWritable makes the room it is asked for, and MakeSpace compacts only content that can move down. */
  lemma EnsuredHasRoom(v: View, len: nat)
    requires WellFormed(v)
    ensures WellFormed(Ensured(v, len)) && Writable(Ensured(v, len)) >= len && Ensured(v, len).content == v.content
    ensures Writable(v) < len <= Writable(v) + v.reader - CHEAP_PREPEND ==> CHEAP_PREPEND < v.reader
  {
  }

  /**
    Where the content is after a reservation: nowhere else if there was room; at index 8 if
    it was moved down; where it was if the storage grew, to just the size that was needed.
  */
  lemma EnsuredExactly(v: View, len: nat)
    requires WellFormed(v)
    ensures Writable(v) >= len ==> Ensured(v, len) == v
    ensures Writable(v) < len && |v.content| + len + 8 <= v.size ==> Ensured(v, len) == View(v.size, 8, v.content)
    ensures Writable(v) < len && |v.content| + len + 8 > v.size ==>
              Ensured(v, len) == View(v.reader + |v.content| + len, v.reader, v.content)
  {
  }

  /** A new buffer of the default size has 8 bytes in front and 1024 behind. */
  lemma FreshHasRoom()
    ensures var v := Fresh(INITIAL_SIZE); v.reader == 8 && Writable(v) == 1024 && v.content == []
  {
  }

  /** The storage grows exactly when the room behind, even with the room in front, is too small. */
  lemma GrowsExactly(v: View, len: nat)
    requires WellFormed(v)
    ensures Ensured(v, len).size >= v.size
    ensures Ensured(v, len).size > v.size
            <==> Writable(v) < len && |v.content| + len + CHEAP_PREPEND > v.size
  {
  }

  // ---------- Runs ----------

  predicate AllowedRun(v: View, ops: seq<Op>)
    decreases |ops|
  {
    ops == [] || (Allowed(v, ops[0]) && AllowedRun(Apply(v, ops[0]), ops[1..]))
  }

  function Run(v: View, ops: seq<Op>): View
    requires AllowedRun(v, ops)
    decreases |ops|
  {
    if ops == [] then v else Run(Apply(v, ops[0]), ops[1..])
  }

  function QueueRun(content: seq<byte>, ops: seq<Op>): seq<byte>
    decreases |ops|
  {
    if ops == [] then content else QueueRun(QueueApply(content, ops[0]), ops[1..])
  }

  /** All the bytes that a run hands to its callers, in order. */
  function Outputs(v: View, ops: seq<Op>): seq<byte>
    requires AllowedRun(v, ops)
    decreases |ops|
  {
    if ops == [] then [] else Output(v, ops[0]) + Outputs(Apply(v, ops[0]), ops[1..])
  }

  /** All the bytes that a run appends, in order. */
  function Inputs(ops: seq<Op>): seq<byte> {
    if ops == [] then [] else Appended(ops[0]) + Inputs(ops[1..])
  }

  predicate IsStream(ops: seq<Op>) {
    forall i :: 0 <= i < |ops| ==> ops[i].Append? || ops[i].Retrieve? || ops[i].EnsureWritable?
  }

  /** Over every run the buffer is the byte queue. */
  lemma {:induction false} RunIsQueueRun(v: View, ops: seq<Op>)
    requires WellFormed(v) && AllowedRun(v, ops)
    ensures WellFormed(Run(v, ops)) && Run(v, ops).content == QueueRun(v.content, ops)
    decreases |ops|
  {
    if ops != [] {
      ApplyActsOnQueue(v, ops[0]);
      RunIsQueueRun(Apply(v, ops[0]), ops[1..]);
    }
  }

  function Appended(op: Op): seq<byte> {
    if op.Append? then op.bytes else []
  }

  lemma StepConserves(v: View, op: Op)
    requires Allowed(v, op) && (op.Append? || op.Retrieve? || op.EnsureWritable?)
    ensures v.content + Appended(op) == Output(v, op) + Apply(v, op).content
  {
  }

  lemma Associates(a: seq<byte>, b: seq<byte>, c: seq<byte>, d: seq<byte>, e: seq<byte>, f: seq<byte>)
    requires a + b == c + d && d + e == f
    ensures a + (b + e) == c + f
  {
    assert a + (b + e) == (a + b) + e == c + (d + e);
  }

  /** A run of appends and retrievals loses, repeats and reorders nothing. */
  lemma {:induction false} StreamConserved(v: View, ops: seq<Op>)
    requires AllowedRun(v, ops) && IsStream(ops)
    ensures v.content + Inputs(ops) == Outputs(v, ops) + Run(v, ops).content
    decreases |ops|
  {
    if ops != [] {
      var op, w := ops[0], Apply(v, ops[0]);
      StepConserves(v, op);
      StreamConserved(w, ops[1..]);
      hide Apply, Output, Appended;
      Associates(v.content, Appended(op), Output(v, op), w.content, Inputs(ops[1..]),
                 Outputs(w, ops[1..]) + Run(w, ops[1..]).content);
    }
  }

  // ---------- The space bound ----------

  /** The largest number of readable bytes in any state of a run. */
  function PeakReadable(v: View, ops: seq<Op>): nat
    requires AllowedRun(v, ops)
    decreases |ops|
  {
    if ops == [] then |v.content| else Max(|v.content|, PeakReadable(Apply(v, ops[0]), ops[1..]))
  }

  function Max(x: nat, y: nat): nat {
    if x < y then y else x
  }

  predicate NoReservations(ops: seq<Op>) {
    forall i :: 0 <= i < |ops| ==> !ops[i].EnsureWritable?
  }

  /** The reader index stays in front of the end of the storage once it has moved. */
  predicate Behind(v: View) {
    v.reader > CHEAP_PREPEND ==> v.reader < v.size
  }

  /**
    One operation grows the storage only when the content would not fit with the
    headroom, and no further than this.
  */
  lemma StepGrows(v: View, op: Op)
    requires WellFormed(v) && Behind(v) && Allowed(v, op) && !op.EnsureWritable?
    ensures var w := Apply(v, op);
            && Behind(w)
            && (w.size == v.size
                || (v.size < |w.content| + CHEAP_PREPEND
                    && w.size <= Max(|w.content| + CHEAP_PREPEND, 2 * |w.content| + CHEAP_PREPEND - 2)))
  {
  }

  lemma {:induction false} SpaceBound(v: View, ops: seq<Op>, bound: nat)
    requires WellFormed(v) && Behind(v) && AllowedRun(v, ops) && NoReservations(ops) && v.size <= bound
    requires var peak := PeakReadable(v, ops);
             peak + CHEAP_PREPEND <= v.size || Max(peak + CHEAP_PREPEND, 2 * peak + CHEAP_PREPEND - 2) <= bound
    ensures Run(v, ops).size <= bound
    decreases |ops|
  {
    if ops != [] {
      ApplyActsOnQueue(v, ops[0]);
      StepGrows(v, ops[0]);
      hide Apply, Allowed;
      PeakOfRest(v, ops);
      SpaceBound(Apply(v, ops[0]), ops[1..], bound);
    }
  }

  lemma PeakOfRest(v: View, ops: seq<Op>)
    requires AllowedRun(v, ops) && ops != []
    ensures |Apply(v, ops[0]).content| <= PeakReadable(Apply(v, ops[0]), ops[1..]) <= PeakReadable(v, ops)
  {
  }

  /** The largest storage that a run without reservations can need for its peak content. */
  function MostSpace(initialSize: nat, peak: nat): nat {
    if peak <= initialSize then CHEAP_PREPEND + initialSize
    else Max(peak + CHEAP_PREPEND, 2 * peak + CHEAP_PREPEND - 2)
  }

  /** Over every run that reserves nothing the storage is bounded by the peak of its content. */
  lemma SpaceBoundFromFresh(initialSize: nat, ops: seq<Op>)
    requires AllowedRun(Fresh(initialSize), ops) && NoReservations(ops)
    ensures Run(Fresh(initialSize), ops).size <= MostSpace(initialSize, PeakReadable(Fresh(initialSize), ops))
  {
    SpaceBound(Fresh(initialSize), ops, MostSpace(initialSize, PeakReadable(Fresh(initialSize), ops)));
  }

  function Zeros(n: nat): (r: seq<byte>)
    ensures |r| == n
  {
    seq(n, _ => 0)
  }

  /** The bound is exact: for every initial size and every peak some run reaches it. */
  lemma SpaceBoundIsReached(initialSize: nat, peak: nat) returns (ops: seq<Op>)
    ensures AllowedRun(Fresh(initialSize), ops) && NoReservations(ops)
    ensures PeakReadable(Fresh(initialSize), ops) == peak
    ensures Run(Fresh(initialSize), ops).size == MostSpace(initialSize, peak)
  {
    var v := Fresh(initialSize);
    if peak <= initialSize || peak == 1 {
      ops := [Append(Zeros(peak))];
      OneStep(v, ops);
    } else {
      ops := [Append(Zeros(peak - 1)), Retrieve(peak - 2), Append(Zeros(peak - 1))];
      var w := Apply(v, ops[0]);
      var x := Apply(w, ops[1]);
      assert ops[1..] == [ops[1], ops[2]] && ops[1..][1..] == [ops[2]];
      OneStep(x, [ops[2]]);
      assert AllowedRun(w, ops[1..]) && Run(w, ops[1..]) == Apply(x, ops[2]) && PeakReadable(w, ops[1..]) == peak;
    }
  }

  lemma OneStep(v: View, ops: seq<Op>)
    requires |ops| == 1 && Allowed(v, ops[0])
    ensures AllowedRun(v, ops) && Run(v, ops) == Apply(v, ops[0])
    ensures PeakReadable(v, ops) == Max(|v.content|, |Apply(v, ops[0]).content|)
  {
    assert ops[1..] == [];
    assert Run(Apply(v, ops[0]), []) == Apply(v, ops[0]);
  }

  // ---------- Room for a header ----------

  predicate Drains(v: View, op: Op) {
    op.Retrieve? && op.len == |v.content|
  }

  /** The number of bytes prepended since the last retrieval that emptied the buffer, after owed of them before. */
  function Prepended(v: View, ops: seq<Op>, owed: nat): nat
    requires AllowedRun(v, ops)
    decreases |ops|
  {
    if ops == [] then owed
    else Prepended(Apply(v, ops[0]), ops[1..],
                   if Drains(v, ops[0]) then 0 else if ops[0].Prepend? then owed + |ops[0].bytes| else owed)
  }

  /** Over every run, what prepending used of the eight bytes of headroom is all that is missing. */
  lemma {:induction false} Headroom(v: View, ops: seq<Op>, owed: nat)
    requires WellFormed(v) && AllowedRun(v, ops)
    requires v.reader + owed >= CHEAP_PREPEND
    ensures Run(v, ops).reader + Prepended(v, ops, owed) >= CHEAP_PREPEND
    decreases |ops|
  {
    if ops != [] {
      ApplyActsOnQueue(v, ops[0]);
      Headroom(Apply(v, ops[0]), ops[1..],
               if Drains(v, ops[0]) then 0 else if ops[0].Prepend? then owed + |ops[0].bytes| else owed);
    }
  }

  /** After any run without a Prepend, a header of eight bytes can be prepended. */
  lemma HeaderFits(initialSize: nat, ops: seq<Op>, header: seq<byte>)
    requires AllowedRun(Fresh(initialSize), ops)
    requires (forall i :: 0 <= i < |ops| ==> !ops[i].Prepend?) && |header| <= CHEAP_PREPEND
    ensures Allowed(Run(Fresh(initialSize), ops), Prepend(header))
  {
    Headroom(Fresh(initialSize), ops, 0);
    NothingPrepended(Fresh(initialSize), ops);
  }

  /** After any run without a Prepend, an integer of any width can be prepended. */
  lemma IntegerFits(initialSize: nat, ops: seq<Op>, x: int, n: Width, host: ByteOrder)
    requires AllowedRun(Fresh(initialSize), ops) && Representable(x, n)
    requires forall i :: 0 <= i < |ops| ==> !ops[i].Prepend?
    ensures Allowed(Run(Fresh(initialSize), ops), Prepend(Encode(x, n, host)))
  {
    DecodeEncode(x, n, host, host);
    HeaderFits(initialSize, ops, Encode(x, n, host));
  }

  lemma {:induction false} NothingPrepended(v: View, ops: seq<Op>)
    requires AllowedRun(v, ops) && forall i :: 0 <= i < |ops| ==> !ops[i].Prepend?
    ensures Prepended(v, ops, 0) == 0
    decreases |ops|
  {
    if ops != [] {
      NothingPrepended(Apply(v, ops[0]), ops[1..]);
    }
  }
}
