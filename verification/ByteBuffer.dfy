/** The class Buffer of netbridge/Buffer.cc: a window [readPos, writePos) of an array that moves and grows. */
module ByteBuffer {
  import opened Capacity
  import opened LogFraming

  /** RoundUp2Power; above 2^63 the original does not end. */
  method RoundUp2Power(size: Size) returns (roundUp: Size)
    requires size <= MAXSIZE + 1
    ensures roundUp == RoundUp(size) <= MAXSIZE + 1
  {
    if size == 0 {
      return 0;
    }
    roundUp := 1;
    One();
    while roundUp < size
      invariant 0 < roundUp <= MAXSIZE + 1 && IsPow2(roundUp)
      invariant Doubled(roundUp, size) == RoundUp(size)
      decreases size - roundUp
    {
      Pow2Top(roundUp);
      Twice(roundUp);
      roundUp := roundUp * 2;
    }
  }

  /** Lines 86-93. */
  method NextCapacity(capacity: Size) returns (next: Size)
    requires Grid(capacity) && capacity <= MAXSIZE
    ensures next == NextCap(capacity) && capacity < next <= MAXSIZE + 1 && Grid(next)
  {
    TopLarge();
    if capacity < DEFAULT {
      Default();
      return DEFAULT;
    }
    NextCapIs(capacity);
    RoundUpHalf(capacity);
    var newCapacity := RoundUp2Power(capacity);
    if capacity < newCapacity {
      return newCapacity;
    }
    RoundUpIs(capacity, newCapacity);
    Pow2Top(newCapacity);
    var tripled: Size := 3 * newCapacity;
    return tripled / 2;
  }

  /** memcpy between two arrays. */
  method Copy(src: array<Byte>, from: nat, dst: array<Byte>, at: nat, n: nat)
    requires src != dst && from + n <= src.Length && at + n <= dst.Length
    modifies dst
    ensures dst[at..at + n] == src[from..from + n]
    ensures forall i :: 0 <= i < at || at + n <= i < dst.Length ==> dst[i] == old(dst[i])
  {
    forall i | 0 <= i < n {
      dst[at + i] := src[from + i];
    }
  }

  lemma SliceOfSlice(s: seq<Byte>, a: nat, b: nat, c: nat, d: nat)
    requires a <= b <= |s| && c <= d <= b - a
    ensures s[a..b][c..d] == s[a + c..a + d]
  {
    var whole, part := s[a + c..a + d], s[a..b][c..d];
    assert |whole| == |part|;
    forall i | 0 <= i < d - c ensures part[i] == whole[i] {
      assert part[i] == s[a..b][c + i];
    }
  }

  /** The last `back` bytes of `c`, or all if there are fewer, are replaced by those of `more` that come to lie there. */
  function Replaced(c: seq<Byte>, more: seq<Byte>, back: int): seq<Byte>
    requires back <= |more|
  {
    if back <= 0 then c
    else if back <= |c| then c[..|c| - back] + more[..back]
    else more[back - |c|..back]
  }

  lemma ReplacedWindow(was: seq<Byte>, now: seq<Byte>, lo: nat, hi: nat, at: nat, more: seq<Byte>)
    requires lo <= hi <= at + |more| <= |was| == |now|
    requires now[at..at + |more|] == more
    requires forall i :: 0 <= i < at || at + |more| <= i < |was| ==> now[i] == was[i]
    ensures now[lo..hi] == Replaced(was[lo..hi], more, hi - at)
  {
    var r := Replaced(was[lo..hi], more, hi - at);
    assert |r| == hi - lo;
    forall i | lo <= i < hi ensures now[i] == r[i - lo] {
      if at <= i { assert now[i] == now[at..at + |more|][i - at]; }
    }
  }

  class Buffer {
    var readPos: Size
    var writePos: Size
    var capacity: Size
    var data: array?<Byte>
    /** history: the bytes ever copied inside the buffer */
    ghost var moved: nat

    ghost predicate Valid()
      reads this
    {
      readPos <= writePos <= capacity <= MAXSIZE + 1 && Grid(capacity) &&
      (data == null ==> capacity == 0) && (data != null ==> data.Length == capacity)
    }

    ghost function Contents(): seq<Byte>
      reads this, data
      requires Valid()
    {
      if data == null then [] else data[readPos..writePos]
    }

    ghost function Readable(): nat
      reads this
      requires Valid()
    {
      writePos - readPos
    }

    ghost function Shape(): Filled
      reads this
    {
      Filled(capacity, writePos, moved)
    }

    constructor ()
      ensures Valid() && Contents() == [] && data == null && readPos == 0 && Shape() == Filled(0, 0, 0)
    {
      readPos, writePos, capacity, data, moved := 0, 0, 0, null, 0;
    }

    /** The constructor that pushes at once. */
    constructor Holding(src: array?<Byte>, from: nat, size: Size)
      requires src != null ==> from + size <= src.Length
      ensures Valid() && (data != null ==> fresh(data))
      ensures Contents() == if src == null || size >= MAXSIZE then [] else src[from..from + size]
    {
      readPos, writePos, capacity, data, moved := 0, 0, 0, null, 0;
      new;
      var bytes := PushData(src, from, size);
    }

    /** The loop of lines 85-98; `ok` is false where the assert of line 96 stops it. */
    method Grow(needsize: Size) returns (ok: bool)
      requires Valid()
      modifies this`capacity
      ensures ok <==> writePos - readPos + needsize <= MAXSIZE + 1
      ensures ok ==> var required := writePos - readPos + needsize;
        capacity == if old(capacity) < required then Fit(required) else old(capacity)
      ensures ok ==>
        old(capacity) <= capacity <= MAXSIZE + 1 && Grid(capacity) && capacity - writePos + readPos >= needsize
    {
      ghost var required := writePos - readPos + needsize;
      while capacity - writePos + readPos < needsize
        invariant old(capacity) <= capacity <= MAXSIZE + 1 && Grid(capacity)
        invariant required <= MAXSIZE + 1 ==> GrowTo(capacity, required) == GrowTo(old(capacity), required)
        decreases MAXSIZE + 1 - capacity
      {
        if capacity > MAXSIZE {
          return false;
        }
        capacity := NextCapacity(capacity);
      }
      if old(capacity) < required { GrowIsFit(old(capacity), required); }
      return true;
    }

    /** Lines 100-110: the readable bytes go to the front, of a larger array if the capacity grew. */
    method Relocate(oldCap: Size, dataSize: Size)
      requires readPos + dataSize == writePos <= oldCap <= capacity
      requires if data == null then oldCap == 0 < capacity else data.Length == oldCap
      modifies this`data, data
      ensures data != null && data.Length == capacity && (data == old(data) || fresh(data))
      ensures oldCap == capacity ==> data == old(data)
      ensures data[..dataSize] == if old(data) == null then [] else old(data[readPos..writePos])
    {
      if oldCap < capacity {
        var tmp := new Byte[capacity];
        if dataSize != 0 {
          Copy(data, readPos, tmp, 0, dataSize);
        }
        data := tmp;
      } else {
        forall i | 0 <= i < dataSize {
          data[i] := data[readPos + i];
        }
      }
    }

    /**
     Makes room for `needsize` more bytes. The assert of line 96 is reached, and the program stopped, exactly when
     the readable bytes and those to come are more than 2^63; capacities never exceed that.
     */
    method AssureSpace(needsize: Size) returns (ok: bool)
      requires Valid()
      modifies this, data
      ensures ok <==> old(Readable()) + needsize <= MAXSIZE + 1
      ensures ok ==> Valid() && Contents() == old(Contents()) && needsize <= capacity - writePos
      ensures ok ==> data == old(data) || fresh(data)
      ensures ok && old(Readable()) + needsize <= old(capacity) ==> capacity == old(capacity) && data == old(data)
      ensures ok ==> Shape() == old(WithRoom(Shape(), Readable(), needsize)) && readPos == writePos - old(Readable())
    {
      if capacity - writePos >= needsize {
        return true;
      }
      var dataSize := writePos - readPos;
      var oldCap := capacity;
      ok := Grow(needsize);
      if !ok {
        return;
      }
      assert oldCap == capacity ==> readPos > 0;   // line 108
      Relocate(oldCap, dataSize);
      readPos := 0;
      writePos := dataSize;
      moved := moved + dataSize;
    }

    /** What a push of `size` bytes at `offset` takes: nothing from a null pointer or beyond the limit. */
    ghost function Accepted(src: array?<Byte>, size: Size, offset: Size): nat
      reads this
      requires Valid()
    {
      if src == null || Wrap(Readable() + size + offset) >= MAXSIZE then 0 else size
    }

    /** Line 46: the bytes go to position `at`, so that of the readable ones those from there on are replaced. */
    method Store(src: array<Byte>, from: nat, at: nat, n: nat)
      requires Valid() && data != null && src != data && from + n <= src.Length && writePos <= at + n <= capacity
      modifies data
      ensures data[at..at + n] == src[from..from + n]
      ensures Contents() == Replaced(old(Contents()), src[from..from + n], writePos - at)
    {
      Copy(src, from, data, at, n);
      ghost var whole := data[..];
      ReplacedWindow(old(data[..]), whole, readPos, writePos, at, src[from..from + n]);
    }

    /** The bytes stand at `at`, and those of the old contents that were there are replaced. */
    ghost predicate CopiedTo(src: array<Byte>, from: nat, n: nat, at: nat, c: seq<Byte>)
      reads this, data, src
      requires Valid() && data != null && from + n <= src.Length
    {
      writePos <= at + n <= capacity && data[at..at + n] == src[from..from + n] &&
      Contents() == Replaced(c, src[from..from + n], writePos - at)
    }

    /** Lines 42-44, and where line 46 copies to. */
    method Position(size: Size, offset: Size) returns (ok: bool, at: Size)
      requires Valid() && size > 0 && Wrap(Readable() + size + offset) < MAXSIZE
      modifies this, data
      ensures ok <==> old(Fits(Shape(), Readable(), size, offset))
      ensures ok ==> Valid() && Shape() == old(Roomy(Shape(), Readable(), size, offset)) && Contents() == old(Contents())
      ensures ok ==> readPos == writePos - old(Readable()) && data != null && (data == old(data) || fresh(data))
      ensures ok ==> at == old(Target(Shape(), Readable(), size, offset)) && writePos <= at + size <= capacity
    {
      ghost var f, readable := Shape(), Readable();
      at := 0;
      ok := AssureSpace(Wrap(size + offset));
      if ok {
        at := Wrap(writePos + offset);
        ok := at + size <= capacity;
        assert ok <==> Fits(f, readable, size, offset);
        if ok { TargetReaches(f, readable, size, offset); }
      }
    }

    /** Lines 42-46, with sums that wrap; `ok` is false where they stop in AssureSpace or copy outside the array. */
    method PutAt(src: array<Byte>, from: nat, size: Size, offset: Size) returns (ok: bool)
      requires Valid() && src != data && from + size <= src.Length && size > 0
      requires Wrap(Readable() + size + offset) < MAXSIZE
      modifies this, data
      ensures ok <==> old(Fits(Shape(), Readable(), size, offset))
      ensures ok ==> Valid() && data != null && (data == old(data) || fresh(data))
      ensures ok ==> CopiedTo(src, from, size, old(Target(Shape(), Readable(), size, offset)), old(Contents()))
      ensures ok ==> Shape() == old(Roomy(Shape(), Readable(), size, offset)) && readPos == writePos - old(Readable())
    {
      var at;
      ok, at := Position(size, offset);
      if ok {
        Store(src, from, at, size);
      }
    }

    /**
     Copies `size` bytes of `src` to the position `Target`, without making more bytes readable. That is `offset` behind
     the readable bytes (`PlainTarget`); or, when the sum of line 39 wraps, before their end, so that some of them are
     replaced (`WrappedTarget`). `ok` is false where it stops in AssureSpace or would copy outside the array.
     */
    method PushDataAt(src: array?<Byte>, from: nat, size: Size, offset: Size) returns (bytes: Size, ok: bool)
      requires Valid() && (src != null ==> src != data && from + size <= src.Length)
      modifies this, data
      ensures bytes == if src == null || Wrap(old(Readable()) + size + offset) >= MAXSIZE then 0 else size
      ensures bytes == old(Accepted(src, size, offset)) && (ok <==> bytes == 0 || old(Fits(Shape(), Readable(), size, offset)))
      ensures bytes == 0 ==> Valid() && readPos == old(readPos) && Shape() == old(Shape())
      ensures bytes == 0 ==> data == old(data) && Contents() == old(Contents())
      ensures bytes > 0 && ok ==> Valid() && data != null && (data == old(data) || fresh(data))
      ensures bytes > 0 && ok ==>
        CopiedTo(src, from, bytes, old(Target(Shape(), Readable(), size, offset)), old(Contents()))
      ensures bytes > 0 && ok ==>
        Shape() == old(Roomy(Shape(), Readable(), size, offset)) && readPos == writePos - old(Readable())
    {
      ghost var accepted := Accepted(src, size, offset);
      if src == null || size == 0 {
        return 0, true;
      }
      if Wrap(writePos - readPos + size + offset) >= MAXSIZE {
        return 0, true;
      }
      assert accepted == size;
      bytes := size;
      ok := PutAt(src, from, size, offset);
    }

    /** Produce: bytes already written behind the readable ones become readable. */
    method Produce(bytes: Size)
      requires Valid() && writePos + bytes <= capacity
      modifies this`writePos
      ensures Valid() && writePos == old(writePos) + bytes
      ensures data != null ==> Contents() == old(Contents()) + data[old(writePos)..writePos]
    {
      writePos := writePos + bytes;
      if data != null {
        assert data[readPos..writePos] == data[readPos..old(writePos)] + data[old(writePos)..writePos];
      }
    }

    /** PushDataAt with the offset left out. */
    method Stage(src: array?<Byte>, from: nat, size: Size) returns (bytes: Size)
      requires Valid()
      requires src != null ==> src != data && from + size <= src.Length && Readable() + size < 2 * TOP
      modifies this, data
      ensures Valid() && bytes == old(Accepted(src, size, 0)) && Contents() == old(Contents())
      ensures (data == old(data) || fresh(data)) && readPos == writePos - old(Readable())
      ensures bytes == 0 ==> Shape() == old(Shape())
      ensures bytes > 0 ==>
        data != null && writePos + bytes <= capacity && data[writePos..writePos + bytes] == src[from..from + bytes]
      ensures bytes > 0 ==> Shape() == old(WithRoom(Shape(), Readable(), size))
    {
      var ok;
      ghost var f, readable := Shape(), Readable();
      if readable + size < MAXSIZE { PlainTarget(f, readable, size, 0); }
      bytes, ok := PushDataAt(src, from, size, 0);
    }

    /** Produce, the bytes being known. */
    method Publish(bytes: Size, ghost more: seq<Byte>)
      requires Valid() && writePos + bytes <= capacity
      requires bytes > 0 ==> data != null && data[writePos..writePos + bytes] == more
      modifies this`writePos
      ensures Valid() && readPos == writePos - old(Readable()) - bytes && Shape() == old(Shape()).Plus(bytes)
      ensures Contents() == old(Contents()) + if bytes == 0 then [] else more
    {
      Produce(bytes);
    }

    /** Appends all or nothing; the assert of line 29 holds when `bytes == size`. */
    method PushData(src: array?<Byte>, from: nat, size: Size) returns (bytes: Size)
      requires Valid()
      requires src != null ==> src != data && from + size <= src.Length && Readable() + size < 2 * TOP
      modifies this, data
      ensures bytes == if src == null || old(Readable()) + size >= MAXSIZE then 0 else size
      ensures Valid() && bytes == old(Accepted(src, size, 0)) && (data == old(data) || fresh(data))
      ensures Contents() == old(Contents()) + if bytes == 0 then [] else old(src[from..from + bytes])
      ensures bytes == 0 ==> Shape() == old(Shape())
      ensures bytes > 0 ==> Shape() == old(WithRoom(Shape(), Readable(), size)).Plus(size)
      ensures readPos == writePos - old(Readable()) - bytes
    {
      ghost var more := if src == null then [] else src[from..from + size];
      bytes := Stage(src, from, size);
      Publish(bytes, more);
    }

    method Clear()
      modifies this`readPos, this`writePos
      ensures readPos == 0 && writePos == 0
    {
      readPos, writePos := 0, 0;
    }

    /** Drops bytes from the front; an empty window goes back to the start of the array. */
    method Consume(bytes: Size)
      requires Valid() && bytes <= Readable()
      modifies this`readPos, this`writePos
      ensures Valid() && Contents() == old(Contents())[bytes..] && (Contents() == [] ==> readPos == 0)
    {
      readPos := readPos + bytes;
      if writePos == readPos {
        Clear();
      }
    }

    /** Copies out up to `size` bytes from `offset` on and leaves the buffer as it is. */
    method PeekDataAt(dst: array?<Byte>, size: Size, offset: Size) returns (bytes: Size)
      requires Valid() && (dst != null ==> dst != data && size <= dst.Length && size + offset < 2 * TOP)
      modifies dst
      ensures bytes == if dst == null || |Contents()| <= offset then 0
        else if size + offset > |Contents()| then |Contents()| - offset else size
      ensures bytes > 0 ==> dst[..bytes] == Contents()[offset..offset + bytes]
      ensures dst != null ==> forall i :: bytes <= i < dst.Length ==> dst[i] == old(dst[i])
    {
      var dataSize := writePos - readPos;
      if dst == null || size == 0 || dataSize <= offset {
        return 0;
      }
      bytes := size;
      if size + offset > dataSize {
        bytes := dataSize - offset;
      }
      Copy(data, readPos + offset, dst, 0, bytes);
      SliceOfSlice(data[..], readPos, writePos, offset, offset + bytes);
    }

    method PopData(dst: array?<Byte>, size: Size) returns (bytes: Size)
      requires Valid() && (dst != null ==> dst != data && size <= dst.Length)
      modifies this`readPos, this`writePos, dst
      ensures Valid() && bytes == if dst == null then 0 else if size > old(|Contents()|) then old(|Contents()|) else size
      ensures dst != null ==> dst[..bytes] + Contents() == old(Contents())
      ensures dst != null ==> forall i :: bytes <= i < dst.Length ==> dst[i] == old(dst[i])
      ensures dst == null ==> Contents() == old(Contents())
    {
      ghost var c := Contents();
      bytes := PeekDataAt(dst, size, 0);
      Consume(bytes);
    }

    /** Gives memory back: all of a large array when empty, and otherwise when at most a quarter is in use. */
    method Shrink()
      requires Valid()
      modifies this
      ensures Valid() && Contents() == old(Contents()) && (data == old(data) || data == null || fresh(data))
      ensures capacity ==
        if old(Contents()) == [] then if old(capacity) > 8192 then 0 else old(capacity)
        else if |old(Contents())| > old(capacity) / 4 then old(capacity)
        else RoundUp(|old(Contents())|)
    {
      if writePos == readPos {
        if capacity > 8 * 1024 {
          Clear();
          capacity := 0;
          data := null;
        }
        return;
      }
      var oldCap := capacity;
      var dataSize := writePos - readPos;
      if dataSize > oldCap / 4 {
        return;
      }
      var newCap := RoundUp2Power(dataSize);
      RoundUpIs(dataSize, newCap);
      var tmp := new Byte[newCap];
      Copy(data, readPos, tmp, 0, dataSize);
      data := tmp;
      capacity := newCap;
      readPos := 0;
      writePos := dataSize;
      moved := moved + dataSize;
    }

    method Swap(buf: Buffer)
      requires Valid() && buf.Valid()
      modifies this, buf
      ensures Valid() && buf.Valid() && Contents() == old(buf.Contents()) && buf.Contents() == old(Contents())
      ensures data == old(buf.data) && buf.data == old(data)
    {
      readPos, buf.readPos := buf.readPos, readPos;
      writePos, buf.writePos := buf.writePos, writePos;
      capacity, buf.capacity := buf.capacity, capacity;
      data, buf.data := buf.data, data;
      moved, buf.moved := buf.moved, moved;
    }

    /** The move constructor. What it leaves behind is a usable buffer only if there was none or a large one. */
    constructor Moved(other: Buffer)
      requires other.Valid()
      modifies other
      ensures Valid() && Contents() == old(other.Contents()) && data == old(other.data) && capacity == old(other.capacity)
      ensures other.Valid() <==> old(other.capacity == 0 || other.capacity > 8192)
      ensures other.data == null && other.readPos == 0 && other.writePos == 0
    {
      readPos, writePos, capacity := other.readPos, other.writePos, other.capacity;
      data, moved := other.data, other.moved;
      new;
      other.data := null;
      other.Clear();
      if other.capacity > 8 * 1024 {   // other.Shrink()
        other.capacity := 0;
      }
    }
  }

  // ---- many pushes ----

  function Everything(parts: seq<seq<Byte>>): seq<Byte> {
    if parts == [] then [] else Everything(parts[..|parts| - 1]) + parts[|parts| - 1]
  }

  function Sizes(parts: seq<seq<Byte>>): (sizes: seq<nat>)
    ensures |sizes| == |parts|
  {
    if parts == [] then [] else Sizes(parts[..|parts| - 1]) + [|parts[|parts| - 1]|]
  }

  lemma {:induction false} SizesSum(parts: seq<seq<Byte>>)
    ensures Sum(Sizes(parts)) == |Everything(parts)|
  {
    if parts != [] {
      var sizes := Sizes(parts[..|parts| - 1]);
      SizesSum(parts[..|parts| - 1]);
      assert (sizes + [|parts[|parts| - 1]|])[..|sizes|] == sizes;
    }
  }

  lemma {:induction false} Part(parts: seq<seq<Byte>>, i: nat)
    requires i <= |parts|
    ensures |Everything(parts[..i])| <= |Everything(parts)|
  {
    if i == |parts| {
      assert parts[..i] == parts;
    } else {
      Part(parts[..|parts| - 1], i);
      assert parts[..|parts| - 1][..i] == parts[..i];
    }
  }

  lemma NextPart(parts: seq<seq<Byte>>, i: nat)
    requires i < |parts|
    ensures Everything(parts[..i + 1]) == Everything(parts[..i]) + parts[i]
    ensures Sizes(parts[..i + 1]) == Sizes(parts[..i]) + [|parts[i]|]
    ensures Sum(Sizes(parts[..i + 1])) == |Everything(parts[..i + 1])| <= |Everything(parts)|
  {
    Part(parts, i + 1);
    SizesSum(parts[..i + 1]);
    assert parts[..i + 1][..i] == parts[..i];
  }

  /** What one PushData does to the size of a Buffer whose window starts at the front. */
  lemma PushesOn(sizes: seq<nat>, size: nat, f: Filled)
    requires Sum(sizes) + size <= MAXSIZE && f == AfterPushes(sizes)
    ensures Sum(sizes + [size]) == Sum(sizes) + size
    ensures AfterPushes(sizes + [size]) == if size == 0 then f else WithRoom(f, f.used, size).Plus(size)
  {
    assert (sizes + [size])[..|sizes|] == sizes;
  }

  method PushPart(b: Buffer, part: seq<Byte>, ghost sizes: seq<nat>)
    requires b.Valid() && Sum(sizes) + |part| < MAXSIZE
    requires b.readPos == 0 && b.Shape() == AfterPushes(sizes)
    modifies b, b.data
    ensures b.Valid() && (b.data == old(b.data) || fresh(b.data)) && b.Contents() == old(b.Contents()) + part
    ensures b.readPos == 0 && b.Shape() == AfterPushes(sizes + [|part|])
  {
    PushesOn(sizes, |part|, b.Shape());
    var src := new Byte[|part|](i requires 0 <= i < |part| => part[i]);
    assert src[0..|part|] == part;
    var n := b.PushData(src, 0, src.Length);
  }

  /** Pushing any parts one after the other into a new Buffer copies less than 3.5 times the bytes pushed. */
  method PushAll(parts: seq<seq<Byte>>) returns (b: Buffer)
    requires |Everything(parts)| < MAXSIZE
    ensures b.Valid() && b.Contents() == Everything(parts)
    ensures Everything(parts) != [] ==> 2 * b.moved < 7 * |Everything(parts)|
  {
    b := new Buffer();
    var i := 0;
    while i < |parts|
      invariant 0 <= i <= |parts| && b.Valid() && fresh(b) && (b.data != null ==> fresh(b.data))
      invariant b.readPos == 0 && b.Contents() == Everything(parts[..i])
      invariant Sum(Sizes(parts[..i])) == |Everything(parts[..i])| <= MAXSIZE && b.Shape() == AfterPushes(Sizes(parts[..i]))
    {
      NextPart(parts, i);
      PushPart(b, parts[i], Sizes(parts[..i]));
      i := i + 1;
    }
    assert parts[..i] == parts;
    SizesSum(parts);
    if Everything(parts) != [] { Amortised(Sizes(parts)); }
  }
}
