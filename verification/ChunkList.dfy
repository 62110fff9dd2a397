/** The chunk list BufferVector of netbridge/Buffer.h. */
module ChunkList {
  import opened Capacity
  import opened LogFraming
  import opened ByteBuffer

  const MINSIZE: nat := 1024

  // ---- what it means, on values ----

  type Chunks = seq<seq<Byte>>

  function Joined(cs: Chunks): seq<Byte> {
    if cs == [] then [] else cs[0] + Joined(cs[1..])
  }

  predicate ShouldMerge(cs: Chunks) {
    cs != [] && |cs[|cs| - 1]| < MINSIZE
  }

  function AfterPushing(cs: Chunks, bytes: seq<Byte>): Chunks {
    if ShouldMerge(cs) then cs[..|cs| - 1] + [cs[|cs| - 1] + bytes] else cs + [bytes]
  }

  /** Every chunk but the last is long enough. */
  predicate Packed(cs: Chunks) {
    forall i :: 0 <= i < |cs| - 1 ==> |cs[i]| >= MINSIZE
  }

  lemma JoinedFirst(c: seq<Byte>, cs: Chunks)
    ensures Joined([c] + cs) == c + Joined(cs)
  {
    assert ([c] + cs)[1..] == cs;
  }

  lemma {:induction false} JoinedConcat(a: Chunks, b: Chunks)
    ensures Joined(a + b) == Joined(a) + Joined(b)
  {
    if a == [] {
      assert a + b == b;
    } else {
      var c, rest := a[0], a[1..];
      JoinedConcat(rest, b);
      assert a == [c] + rest && a + b == [c] + (rest + b);
      JoinedFirst(c, rest);
      JoinedFirst(c, rest + b);
      Assoc(c, Joined(rest), Joined(b));
    }
  }

  lemma JoinedSnoc(cs: Chunks, c: seq<Byte>)
    ensures Joined(cs + [c]) == Joined(cs) + c
  {
    JoinedConcat(cs, [c]);
    assert Joined([c]) == c;
  }

  /** A push appends its bytes, and the list stays packed. */
  lemma {:induction false} PushAppends(cs: Chunks, bytes: seq<Byte>)
    ensures Joined(AfterPushing(cs, bytes)) == Joined(cs) + bytes
    ensures Packed(cs) ==> Packed(AfterPushing(cs, bytes))
  {
    if ShouldMerge(cs) {
      var init, last := cs[..|cs| - 1], cs[|cs| - 1];
      JoinedSnoc(init, last + bytes);
      JoinedSnoc(init, last);
      assert cs == init + [last];
    } else {
      JoinedSnoc(cs, bytes);
    }
  }

  /** The limit itself: a chunk of 1024 bytes is never written to again, and only a shorter last one is. */
  lemma PushChunks(cs: Chunks, bytes: seq<Byte>)
    ensures var cs' := AfterPushing(cs, bytes); FullKept(cs, cs') && |cs'| == |cs| + (if LastShort(cs) then 0 else 1)
    ensures !LastShort(cs) ==> AfterPushing(cs, bytes) == cs + [bytes]
  {
  }

  predicate LastShort(cs: Chunks) {
    cs != [] && |cs[|cs| - 1]| < 1024
  }

  /** The bytes of the last chunk, if it is short, with those to come; else those to come. */
  function TakerSize(cs: Chunks, size: nat): nat {
    if LastShort(cs) then |cs[|cs| - 1]| + size else size
  }

  predicate FullKept(cs: Chunks, cs': Chunks) {
    |cs| <= |cs'| && forall i :: 0 <= i < |cs| && |cs[i]| >= 1024 ==> cs'[i] == cs[i]
  }

  lemma PushLength(cs: Chunks, bytes: seq<Byte>)
    ensures |Joined(AfterPushing(cs, bytes))| == |Joined(cs)| + |bytes|
  {
    PushAppends(cs, bytes);
  }

  /** So there are few chunks. */
  lemma {:induction false} FewChunks(cs: Chunks)
    requires Packed(cs)
    ensures |cs| <= |Joined(cs)| / MINSIZE + 1
  {
    if |cs| > 1 {
      FewChunks(cs[1..]);
      assert Packed(cs[1..]) by { assert forall i :: 0 <= i < |cs| - 2 ==> cs[1..][i] == cs[i + 1]; }
      assert |cs[0]| >= MINSIZE;
    }
  }

  datatype Op = Push(bytes: seq<Byte>) | Pop | Clear

  function Do(cs: Chunks, op: Op): Chunks {
    match op
    case Push(bytes) => AfterPushing(cs, bytes)
    case Pop => if cs == [] then cs else cs[1..]
    case Clear => []
  }

  /** The chunks after these operations on an empty list, the last operation last. */
  function Run(ops: seq<Op>): Chunks {
    if ops == [] then [] else Do(Run(ops[..|ops| - 1]), ops[|ops| - 1])
  }

  function Pushed(ops: seq<Op>): seq<Byte> {
    if ops == [] then [] else Pushed(ops[..|ops| - 1]) + Came(ops[|ops| - 1])
  }

  /** The bytes of the chunks that were popped or cleared. */
  function Gone(ops: seq<Op>): seq<Byte> {
    if ops == [] then [] else Gone(ops[..|ops| - 1]) + Went(Run(ops[..|ops| - 1]), ops[|ops| - 1])
  }

  /** After any operations: what went out and what is still there are together what came in. */
  lemma {:induction false} RunConserves(ops: seq<Op>)
    ensures Gone(ops) + Joined(Run(ops)) == Pushed(ops)
    ensures Packed(Run(ops))
  {
    if ops != [] {
      var before, op := ops[..|ops| - 1], ops[|ops| - 1];
      var cs := Run(before);
      RunConserves(before);
      OpConserves(cs, op);
      calc {
        Gone(ops) + Joined(Run(ops));
        Gone(before) + Went(cs, op) + Joined(Do(cs, op));
        Gone(before) + (Went(cs, op) + Joined(Do(cs, op)));
        Gone(before) + (Joined(cs) + Came(op));
        Gone(before) + Joined(cs) + Came(op);
        Pushed(ops);
      }
    }
  }

  lemma RunPacked(ops: seq<Op>)
    ensures |Run(ops)| <= |Joined(Run(ops))| / MINSIZE + 1
  {
    RunConserves(ops);
    FewChunks(Run(ops));
  }

  function Came(op: Op): seq<Byte> {
    if op.Push? then op.bytes else []
  }

  function Went(cs: Chunks, op: Op): seq<Byte> {
    match op
    case Push(_) => []
    case Pop => if cs == [] then [] else cs[0]
    case Clear => Joined(cs)
  }

  lemma OpConserves(cs: Chunks, op: Op)
    requires Packed(cs)
    ensures Went(cs, op) + Joined(Do(cs, op)) == Joined(cs) + Came(op)
    ensures Packed(Do(cs, op))
  {
    if op.Push? { PushAppends(cs, op.bytes); }
  }

  lemma JoinedRest(cs: Chunks)
    requires cs != []
    ensures |Joined(cs)| == |cs[0]| + |Joined(cs[1..])|
  {
  }

  /** The chunk that takes the push stays below the limit of Buffer. */
  predicate Room(cs: Chunks, size: nat) {
    (if ShouldMerge(cs) then |cs[|cs| - 1]| + size else size) < MAXSIZE
  }

  predicate Grew(cs: Chunks, cs': Chunks, bytes: seq<Byte>) {
    cs' == AfterPushing(cs, bytes) && |Joined(cs')| == |Joined(cs)| + |bytes|
  }

  // ---- the class ----

  ghost function Datas(bs: seq<Buffer>): set<object>
    reads set b | b in bs
  {
    set b | b in bs && b.data != null :: b.data
  }

  /** Good buffers that share nothing. */
  ghost predicate Apart(bs: seq<Buffer>)
    reads set b | b in bs
  {
    (forall b :: b in bs ==> b.Valid()) &&
    forall i, j :: 0 <= i < j < |bs| ==> bs[i] != bs[j] && (bs[i].data != null ==> bs[i].data != bs[j].data)
  }

  ghost function ContentsOf(bs: seq<Buffer>): (cs: Chunks)
    reads set b | b in bs
    reads Datas(bs)
    requires Apart(bs)
    ensures |cs| == |bs| && forall i :: 0 <= i < |cs| ==> cs[i] == bs[i].Contents()
  {
    if bs == [] then []
    else
      assert forall b :: b in bs[..|bs| - 1] ==> b in bs;
      ContentsOf(bs[..|bs| - 1]) + [bs[|bs| - 1].Contents()]
  }

  lemma RestOf(bs: seq<Buffer>)
    requires Apart(bs) && bs != []
    ensures Apart(bs[1..]) && ContentsOf(bs[1..]) == ContentsOf(bs)[1..]
  {
    assert forall i :: 0 <= i < |bs| - 1 ==> bs[1..][i] == bs[i + 1];
  }

  /** All chunks but the last are left alone, and the last gets more bytes. */
  twostate predicate OnlyLast(bs: seq<Buffer>)
    requires bs != []
    reads set b | b in bs
    reads Datas(bs)
  {
    (forall i :: 0 <= i < |bs| - 1 ==> unchanged(bs[i]) && (bs[i].data != null ==> unchanged(bs[i].data))) &&
    var last := bs[|bs| - 1]; last.Valid() && (last.data == old(last.data) || fresh(last.data))
  }

  twostate lemma StillApart(bs: seq<Buffer>)
    requires bs != [] && old(Apart(bs)) && OnlyLast(bs)
    ensures Apart(bs)
  {
    var n := |bs| - 1;
    forall b | b in bs ensures b.Valid() {
      var i :| 0 <= i <= n && bs[i] == b;
    }
    forall i, j | 0 <= i < j <= n
      ensures bs[i] != bs[j] && (bs[i].data != null ==> bs[i].data != bs[j].data)
    {
      assert bs[i].data == old(bs[i].data);
    }
  }

  twostate lemma SameContents(b: Buffer)
    requires old(b.Valid()) && unchanged(b) && (b.data != null ==> unchanged(b.data))
    ensures b.Valid() && b.Contents() == old(b.Contents())
  {
  }

  /** Nothing that the chunks consist of has changed. */
  twostate predicate Untouched(bs: seq<Buffer>)
    reads set b | b in bs
    reads Datas(bs)
  {
    forall b :: b in bs ==> unchanged(b) && (b.data != null ==> unchanged(b.data))
  }

  twostate lemma AllKept(bs: seq<Buffer>)
    requires old(Apart(bs)) && Untouched(bs)
    ensures Apart(bs) && Datas(bs) == old(Datas(bs)) && ContentsOf(bs) == old(ContentsOf(bs))
  {
  }

  lemma AppendApart(bs: seq<Buffer>, b: Buffer)
    requires Apart(bs) && b.Valid() && b !in bs && (b.data != null ==> b.data !in Datas(bs))
    ensures Apart(bs + [b]) && ContentsOf(bs + [b]) == ContentsOf(bs) + [b.Contents()]
  {
    assert (bs + [b])[..|bs|] == bs;
    forall i | 0 <= i < |bs| ensures bs[i] != b && (bs[i].data != null ==> bs[i].data != b.data) {
      assert bs[i].data != null ==> bs[i].data in Datas(bs);
    }
  }

  predicate InRange(src: array?<Byte>, from: nat, size: nat) {
    if src == null then size == 0 else from + size <= src.Length
  }

  function Slice(src: array?<Byte>, from: nat, size: nat): seq<Byte>
    reads src
    requires InRange(src, from, size)
  {
    if src == null then [] else src[from..from + size]
  }

  /** The last buffer has this array. */
  predicate LastHas(bs: seq<Buffer>, data: array?<Byte>)
    reads set b | b in bs
  {
    bs != [] && bs[|bs| - 1].data == data
  }

  class BufferVector {
    var buffers: seq<Buffer>
    var totalBytes: Size

    ghost function Parts(): set<object>
      reads this, set b | b in buffers
    {
      (set b | b in buffers) + Datas(buffers)
    }

    ghost predicate Valid()
      reads this, set b | b in buffers
      reads Parts()
    {
      Apart(buffers) && totalBytes == |Joined(ContentsOf(buffers))|
    }

    ghost function Chunks(): Chunks
      reads this, set b | b in buffers
      reads Parts()
      requires Valid()
    {
      ContentsOf(buffers)
    }

    constructor ()
      ensures Valid() && Chunks() == []
    {
      buffers, totalBytes := [], 0;
    }

    /** _ShouldMerge */
    method Merges() returns (yes: bool)
      requires Apart(buffers)
      ensures yes == ShouldMerge(ContentsOf(buffers)) == LastShort(ContentsOf(buffers))
    {
      if buffers == [] {
        return false;
      }
      var last := buffers[|buffers| - 1];
      assert last in buffers;
      return last.writePos - last.readPos < MINSIZE;
    }

    /** Pushes onto the last chunk... */
    method PushLast(src: array?<Byte>, from: nat, size: Size)
      requires Apart(buffers) && buffers != []
      requires (src != null ==> src !in Datas(buffers)) && InRange(src, from, size)
      requires buffers[|buffers| - 1].Readable() + size < MAXSIZE
      modifies buffers[|buffers| - 1], buffers[|buffers| - 1].data
      ensures OnlyLast(buffers)
      ensures buffers[|buffers| - 1].Contents() == old(buffers[|buffers| - 1].Contents() + Slice(src, from, size))
    {
      var last := buffers[|buffers| - 1];
      assert last in buffers && (last.data != null ==> last.data in Datas(buffers));
      var bytes := last.PushData(src, from, size);
    }

    /** ... and the other chunks stay as they are. */
    method Merge(src: array?<Byte>, from: nat, size: Size)
      requires Apart(buffers) && buffers != []
      requires (src != null ==> src !in Datas(buffers)) && InRange(src, from, size)
      requires |ContentsOf(buffers)[|buffers| - 1]| + size < MAXSIZE
      modifies buffers[|buffers| - 1], buffers[|buffers| - 1].data
      ensures Apart(buffers)
      ensures var cs := old(ContentsOf(buffers)); var n := |buffers| - 1;
        ContentsOf(buffers) == cs[..n] + [cs[n] + old(Slice(src, from, size))]
    {
      ghost var cs, n, more := ContentsOf(buffers), |buffers| - 1, Slice(src, from, size);
      assert buffers[n] in buffers;
      PushLast(src, from, size);
      StillApart(buffers);
      forall i | 0 <= i < n ensures buffers[i].Contents() == cs[i] {
        SameContents(buffers[i]);
      }
    }

    /** buffers.push_back */
    method Append(b: Buffer)
      requires Apart(buffers) && !ShouldMerge(ContentsOf(buffers))
      requires b.Valid() && b !in buffers && (b.data != null ==> b.data !in Datas(buffers))
      modifies this`buffers
      ensures Apart(buffers) && Grew(old(ContentsOf(buffers)), ContentsOf(buffers), b.Contents())
      ensures LastHas(buffers, b.data)
    {
      AppendApart(buffers, b);
      PushLength(ContentsOf(buffers), b.Contents());
      buffers := buffers + [b];
      AllKept(buffers);
    }

    method AppendBytes(src: array?<Byte>, from: nat, size: Size)
      requires Apart(buffers) && !ShouldMerge(ContentsOf(buffers))
      requires (src != null ==> src !in Datas(buffers)) && InRange(src, from, size) && size < MAXSIZE
      modifies this`buffers
      ensures Apart(buffers) && Grew(old(ContentsOf(buffers)), ContentsOf(buffers), old(Slice(src, from, size)))
    {
      var b := new Buffer.Holding(src, from, size);
      AllKept(buffers);
      Append(b);
    }

    method MergeBytes(src: array?<Byte>, from: nat, size: Size)
      requires Apart(buffers) && ShouldMerge(ContentsOf(buffers))
      requires (src != null ==> src !in Datas(buffers)) && InRange(src, from, size)
      requires |ContentsOf(buffers)[|buffers| - 1]| + size < MAXSIZE
      modifies buffers[|buffers| - 1], buffers[|buffers| - 1].data
      ensures Apart(buffers) && Grew(old(ContentsOf(buffers)), ContentsOf(buffers), old(Slice(src, from, size)))
    {
      PushLength(ContentsOf(buffers), Slice(src, from, size));
      Merge(src, from, size);
    }

    method AppendMoved(buf: Buffer)
      requires Apart(buffers) && !ShouldMerge(ContentsOf(buffers))
      requires buf.Valid() && buf !in buffers && (buf.data != null ==> buf.data !in Datas(buffers))
      modifies this`buffers, buf
      ensures Apart(buffers) && Grew(old(ContentsOf(buffers)), ContentsOf(buffers), old(buf.Contents()))
      ensures LastHas(buffers, old(buf.data)) && buf.data == null
    {
      var b := new Buffer.Moved(buf);
      AllKept(buffers);
      Append(b);
    }

    method MergeBuffer(buf: Buffer)
      requires Apart(buffers) && ShouldMerge(ContentsOf(buffers))
      requires buf.Valid() && buf !in buffers && (buf.data != null ==> buf.data !in Datas(buffers))
      requires |ContentsOf(buffers)[|buffers| - 1]| + buf.Readable() < MAXSIZE
      modifies buffers[|buffers| - 1], buffers[|buffers| - 1].data
      ensures Apart(buffers) && Grew(old(ContentsOf(buffers)), ContentsOf(buffers), old(buf.Contents()))
    {
      var size := buf.writePos - buf.readPos;
      assert Slice(buf.data, buf.readPos, size) == buf.Contents();
      MergeBytes(buf.data, buf.readPos, size);
    }

    method PushChunk(src: array?<Byte>, from: nat, size: Size)
      requires Apart(buffers) && Room(ContentsOf(buffers), size)
      requires (src != null ==> src !in Datas(buffers)) && InRange(src, from, size)
      modifies this`buffers, Parts()
      ensures Apart(buffers) && Grew(old(ContentsOf(buffers)), ContentsOf(buffers), old(Slice(src, from, size)))
    {
      var merge := Merges();
      if merge {
        MergeBytes(src, from, size);
      } else {
        AppendBytes(src, from, size);
      }
    }

    method PushMoved(buf: Buffer)
      requires Apart(buffers) && buf.Valid()
      requires ShouldMerge(ContentsOf(buffers)) ==> Room(ContentsOf(buffers), buf.Readable())
      requires buf !in buffers && (buf.data != null ==> buf.data !in Datas(buffers))
      modifies this`buffers, buf, Parts()
      ensures Apart(buffers) && Grew(old(ContentsOf(buffers)), ContentsOf(buffers), old(buf.Contents()))
      ensures if ShouldMerge(old(ContentsOf(buffers))) then unchanged(buf)
        else LastHas(buffers, old(buf.data)) && buf.data == null
    {
      var merge := Merges();
      if merge {
        MergeBuffer(buf);
      } else {
        AppendMoved(buf);
      }
    }

    method AddTotal(size: Size)
      requires Apart(buffers) && totalBytes + size == |Joined(ContentsOf(buffers))| <= 2 * MAXSIZE + 1
      modifies this`totalBytes
      ensures Valid() && Chunks() == old(ContentsOf(buffers))
    {
      totalBytes := totalBytes + size;
      AllKept(buffers);
    }

    /** Whether the last chunk, if it is to take the bytes, or a new one stays below the limit of Buffer. */
    method HasRoom(size: Size) returns (yes: bool)
      requires Apart(buffers)
      ensures yes <==> Room(ContentsOf(buffers), size)
      ensures yes <==> TakerSize(ContentsOf(buffers), size) < MAXSIZE
    {
      var merge := Merges();
      if !merge {
        return size < MAXSIZE;
      }
      var last := buffers[|buffers| - 1];
      assert last in buffers && ContentsOf(buffers)[|buffers| - 1] == last.Contents();
      return last.writePos - last.readPos + size < MAXSIZE;
    }

    method Takes(buf: Buffer) returns (yes: bool)
      requires Apart(buffers) && buf.Valid()
      ensures yes <==> (ShouldMerge(ContentsOf(buffers)) ==> Room(ContentsOf(buffers), buf.Readable()))
      ensures yes <==> (LastShort(ContentsOf(buffers)) ==> TakerSize(ContentsOf(buffers), buf.Readable()) < MAXSIZE)
    {
      var merge := Merges();
      yes := HasRoom(buf.writePos - buf.readPos);
      yes := merge ==> yes;
    }

    method PushStored(src: array?<Byte>, from: nat, size: Size)
      requires Valid() && (src != null ==> src !in Datas(buffers)) && InRange(src, from, size)
      requires totalBytes + size <= 2 * MAXSIZE + 1 && Room(Chunks(), size)
      modifies this, Parts()
      ensures Valid() && Chunks() == AfterPushing(old(Chunks()), old(Slice(src, from, size)))
    {
      PushChunk(src, from, size);
      AddTotal(size);
    }

    method PushTaken(buf: Buffer)
      requires Valid() && buf.Valid() && buf !in buffers && (buf.data != null ==> buf.data !in Datas(buffers))
      requires totalBytes + buf.Readable() <= 2 * MAXSIZE + 1 && (ShouldMerge(Chunks()) ==> Room(Chunks(), buf.Readable()))
      modifies this, buf, Parts()
      ensures Valid() && Chunks() == AfterPushing(old(Chunks()), old(buf.Contents()))
      ensures if ShouldMerge(old(Chunks())) then unchanged(buf)
        else LastHas(buffers, old(buf.data)) && buf.data == null
    {
      var size := buf.writePos - buf.readPos;
      PushMoved(buf);
      AddTotal(size);
    }

    /**
     Push of bytes: onto the last chunk while that is short, else as a new one. `ok` is false where PushData stores
     nothing of a positive size, and so the assert of Buffer.cc, line 29, stops the program.
     */
    method Push(src: array?<Byte>, from: nat, size: Size) returns (ok: bool)
      requires Valid() && (src != null ==> src !in Datas(buffers) && from + size <= src.Length)
      requires totalBytes + size <= 2 * MAXSIZE + 1
      modifies this, Parts()
      ensures ok <==> size == 0 || (src != null && TakerSize(old(Chunks()), size) < MAXSIZE)
      ensures ok ==> Valid() && Chunks() == AfterPushing(old(Chunks()), old(Slice(src, from, size)))
      ensures ok ==> FullKept(old(Chunks()), Chunks())
      ensures ok ==> |Chunks()| == |old(Chunks())| + if LastShort(old(Chunks())) then 0 else 1
    {
      TopLarge();
      ok := HasRoom(size);
      ok := size == 0 || (src != null && ok);
      if ok {
        PushChunks(Chunks(), Slice(src, from, size));
        PushStored(src, from, size);
      }
    }

    /** Push of a Buffer: copied into the last chunk while that is short, else taken over whole. */
    method PushBuffer(buf: Buffer) returns (ok: bool)
      requires Valid() && buf.Valid() && buf !in buffers && (buf.data != null ==> buf.data !in Datas(buffers))
      requires totalBytes + buf.Readable() <= 2 * MAXSIZE + 1
      modifies this, buf, Parts()
      ensures ok <==> (LastShort(old(Chunks())) ==> TakerSize(old(Chunks()), old(buf.Readable())) < MAXSIZE)
      ensures ok ==> Valid() && Chunks() == AfterPushing(old(Chunks()), old(buf.Contents()))
      ensures ok ==> FullKept(old(Chunks()), Chunks())
      ensures ok ==> |Chunks()| == |old(Chunks())| + if LastShort(old(Chunks())) then 0 else 1
      ensures ok ==> if LastShort(old(Chunks())) then unchanged(buf) else LastHas(buffers, old(buf.data)) && buf.data == null
    {
      ok := Takes(buf);
      if ok {
        PushChunks(Chunks(), buf.Contents());
        PushTaken(buf);
      }
    }

    method Clear()
      modifies this
      ensures Valid() && Chunks() == []
    {
      buffers := [];
      totalBytes := 0;
    }

    method Pop()
      requires Valid() && Chunks() != []
      modifies this
      ensures Valid() && Chunks() == old(Chunks())[1..]
    {
      RestOf(buffers);
      JoinedRest(Chunks());
      var first := buffers[0];
      assert first in buffers && ContentsOf(buffers)[0] == first.Contents();
      totalBytes := totalBytes - (first.writePos - first.readPos);
      buffers := buffers[1..];
      AllKept(buffers);
    }
  }
}
