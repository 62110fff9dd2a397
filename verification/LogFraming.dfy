/**
 The record format between Logger::Flush and Logger::_Log (netbridge/Logger.cc): a level in four
 bytes, a length in eight, then that many bytes of text.
 */
module LogFraming {
  type Byte = b: nat | b < 256
  type Word32 = w: nat | w < 0x1_0000_0000

  const WORD64: nat := 0x1_0000_0000_0000_0000
  /** Buffer::kMaxBufferSize: no Buffer holds this many bytes. */
  const MAXBYTES: nat := 0x7FFF_FFFF_FFFF_FFFF
  /** sizeof(int) + sizeof(size_t) */
  const HEADER: nat := 12

  datatype Record = Record(level: Word32, text: seq<Byte>)

  /** What a parse of some bytes did: the records written and the offset it stopped at. */
  datatype Outcome =
    | Parsed(records: seq<Record>, end: nat)
    | Fault(records: seq<Record>)   // a zero length (the assert of line 468) or a read outside the buffer

  function LE(n: nat, k: nat): (s: seq<Byte>)
    ensures |s| == k
  {
    if k == 0 then [] else [n % 256] + LE(n / 256, k - 1)
  }

  function Value(s: seq<Byte>): nat {
    if s == [] then 0 else s[0] + 256 * Value(s[1..])
  }

  function Pow256(k: nat): nat {
    if k == 0 then 1 else 256 * Pow256(k - 1)
  }

  lemma {:induction false} ValueOfLE(n: nat, k: nat)
    requires n < Pow256(k)
    ensures Value(LE(n, k)) == n
  {
    if k > 0 {
      ValueOfLE(n / 256, k - 1);
      assert LE(n, k)[1..] == LE(n / 256, k - 1);
    }
  }

  lemma Digits(b: Byte, v: nat)
    ensures (b + 256 * v) % 256 == b && (b + 256 * v) / 256 == v
  {
  }

  lemma {:induction false} LEOfValue(s: seq<Byte>)
    ensures Value(s) < Pow256(|s|) && LE(Value(s), |s|) == s
  {
    if s != [] {
      var b, rest := s[0], s[1..];
      LEOfValue(rest);
      Digits(b, Value(rest));
      assert Value(s) == b + 256 * Value(rest);
      assert LE(Value(s), |s|) == [b] + LE(Value(rest), |rest|);
      assert s == [b] + rest;
    }
  }

  lemma WordSizes()
    ensures Pow256(4) == 0x1_0000_0000 && Pow256(8) == WORD64
  {
    assert Pow256(2) == 0x1_0000;
    assert Pow256(4) == 0x1_0000_0000;
    assert Pow256(6) == 0x1_0000_0000_0000;
  }

  function Word(s: seq<Byte>): (w: Word32)
    requires |s| == 4
  {
    LEOfValue(s);
    WordSizes();
    Value(s)
  }

  /** Flush appends an end of line to every record, so none is empty; Buffer takes none above its limit. */
  predicate Good(r: Record) {
    0 < |r.text| < MAXBYTES
  }

  predicate AllGood(rs: seq<Record>) {
    forall i :: 0 <= i < |rs| ==> Good(rs[i])
  }

  /** Lines 207-209. */
  function Encode(r: Record): (s: seq<Byte>)
    ensures |s| == HEADER + |r.text|
  {
    LE(r.level, 4) + LE(|r.text|, 8) + r.text
  }

  function EncodeAll(rs: seq<Record>): seq<Byte> {
    if rs == [] then [] else Encode(rs[0]) + EncodeAll(rs[1..])
  }

  lemma Assoc(x: seq<Byte>, y: seq<Byte>, z: seq<Byte>)
    ensures (x + y) + z == x + (y + z)
  {
  }

  lemma EncodeFirst(r: Record, rs: seq<Record>)
    ensures EncodeAll([r] + rs) == Encode(r) + EncodeAll(rs)
  {
    assert ([r] + rs)[1..] == rs;
  }

  lemma {:induction false} EncodeConcat(a: seq<Record>, b: seq<Record>)
    ensures EncodeAll(a + b) == EncodeAll(a) + EncodeAll(b)
  {
    if a == [] {
      assert a + b == b;
    } else {
      var r, rest := a[0], a[1..];
      EncodeConcat(rest, b);
      assert a == [r] + rest && a + b == [r] + (rest + b);
      EncodeFirst(r, rest);
      EncodeFirst(r, rest + b);
      Assoc(Encode(r), EncodeAll(rest), EncodeAll(b));
    }
  }

  lemma EncodeSnoc(rs: seq<Record>, r: Record)
    ensures EncodeAll(rs + [r]) == EncodeAll(rs) + Encode(r)
  {
    EncodeConcat(rs, [r]);
    assert EncodeAll([r]) == Encode(r);
  }

  /** The loop of `_Log` from offset `at` on; sums wrap as size_t does. */
  function Parse(data: seq<Byte>, at: nat): Outcome
    requires at <= |data| < MAXBYTES
    decreases |data| - at
  {
    if |data| <= at + HEADER then Parsed([], at)
    else
      var len := Value(data[at + 4..at + HEADER]);
      if |data| < (at + HEADER + len) % WORD64 then Parsed([], at)
      else if len == 0 || |data| < at + HEADER + len then Fault([])
      else
        var r := Record(Word(data[at..at + 4]), data[at + HEADER..at + HEADER + len]);
        match Parse(data, at + HEADER + len)
        case Parsed(rs, e) => Parsed([r] + rs, e)
        case Fault(rs) => Fault([r] + rs)
  }

  /** `_Log` itself. `ok` is false where the original would stop or read outside the buffer. */
  method Log(data: seq<Byte>) returns (written: seq<Record>, nOffset: nat, ok: bool)
    requires |data| < MAXBYTES
    ensures ok ==> Parse(data, 0) == Parsed(written, nOffset)
    ensures !ok ==> Parse(data, 0) == Fault(written)
  {
    written, nOffset, ok := [], 0, true;
    while nOffset + HEADER < |data|
      invariant nOffset <= |data|
      invariant Parse(data, 0) == After(written, Parse(data, nOffset))
      decreases |data| - nOffset
    {
      var level := Word(data[nOffset..nOffset + 4]);
      var len := Value(data[nOffset + 4..nOffset + HEADER]);
      if |data| < (nOffset + HEADER + len) % WORD64 {
        break;
      }
      if len == 0 || |data| < nOffset + HEADER + len {
        ok := false;
        return;
      }
      ghost var rest := Parse(data, nOffset + HEADER + len);
      var r := Record(level, data[nOffset + HEADER..nOffset + HEADER + len]);
      AfterTwice(written, r, rest);
      written := written + [r];
      nOffset := nOffset + HEADER + len;
    }
  }

  function After(before: seq<Record>, o: Outcome): Outcome {
    match o
    case Parsed(rs, e) => Parsed(before + rs, e)
    case Fault(rs) => Fault(before + rs)
  }

  lemma AfterTwice(before: seq<Record>, r: Record, o: Outcome)
    ensures After(before, After([r], o)) == After(before + [r], o)
  {
    assert before + ([r] + o.records) == before + [r] + o.records;
  }

  /** One round of the loop, taken... */
  lemma ParseStep(data: seq<Byte>, at: nat, r: Record)
    requires at + HEADER + |r.text| <= |data| < MAXBYTES && r.text != []
    requires r.level == Value(data[at..at + 4]) && |r.text| == Value(data[at + 4..at + HEADER])
    requires r.text == data[at + HEADER..at + HEADER + |r.text|]
    ensures Parse(data, at) == After([r], Parse(data, at + HEADER + |r.text|))
  {
  }

  /** ... and left. */
  lemma ParseStops(data: seq<Byte>, at: nat)
    requires at <= |data| < MAXBYTES
    requires at + HEADER < |data| ==> |data| < at + HEADER + Value(data[at + 4..at + HEADER]) < WORD64
    ensures Parse(data, at) == Parsed([], at)
  {
  }

  /** How many of the records lie wholly inside the first `n` bytes of their encoding. */
  function Whole(rs: seq<Record>, n: nat): nat {
    if rs == [] || n < |Encode(rs[0])| then 0 else 1 + Whole(rs[1..], n - |Encode(rs[0])|)
  }

  /** ... which is the only number of records that fits when one more does not. */
  lemma {:induction false} WholeIs(rs: seq<Record>, n: nat)
    ensures var k := Whole(rs, n); k <= |rs| && |EncodeAll(rs[..k])| <= n
    ensures var k := Whole(rs, n); k < |rs| ==> n < |EncodeAll(rs[..k + 1])|
  {
    if rs == [] || n < |Encode(rs[0])| {
      if rs != [] {
        assert rs[..1] == [rs[0]];
        assert EncodeAll([rs[0]]) == Encode(rs[0]);
      }
    } else {
      var k := Whole(rs[1..], n - |Encode(rs[0])|);
      WholeIs(rs[1..], n - |Encode(rs[0])|);
      assert rs[..k + 1][1..] == rs[1..][..k];
      if k + 1 < |rs| {
        assert rs[..k + 2][1..] == rs[1..][..k + 1];
      }
    }
  }

  /** One record at `at`, complete: the parser reads its header back and takes its text. */
  lemma HeaderRead(data: seq<Byte>, at: nat, r: Record)
    requires Good(r) && at + HEADER <= |data|
    requires data[at..at + HEADER] == LE(r.level, 4) + LE(|r.text|, 8)
    ensures Value(data[at + 4..at + HEADER]) == |r.text| && Value(data[at..at + 4]) == r.level
  {
    WordSizes();
    assert |r.text| < WORD64;
    ValueOfLE(r.level, 4);
    ValueOfLE(|r.text|, 8);
    var h := data[at..at + HEADER];
    assert data[at + 4..at + HEADER] == h[4..] == LE(|r.text|, 8);
    assert data[at..at + 4] == h[..4] == LE(r.level, 4);
  }

  lemma CutHeader(data: seq<Byte>, at: nat, r: Record, tail: seq<Byte>, n: nat)
    requires n <= |Encode(r) + tail| && HEADER <= n
    requires at <= |data| && data[at..] == (Encode(r) + tail)[..n]
    ensures data[at..at + HEADER] == LE(r.level, 4) + LE(|r.text|, 8)
    ensures HEADER + |r.text| <= n ==> data[at + HEADER..at + HEADER + |r.text|] == r.text
    ensures HEADER + |r.text| <= n ==> data[at + HEADER + |r.text|..] == tail[..n - HEADER - |r.text|]
  {
    var s := (Encode(r) + tail)[..n];
    assert data[at..at + HEADER] == s[..HEADER];
    if HEADER + |r.text| <= n {
      assert data[at + HEADER..at + HEADER + |r.text|] == s[HEADER..HEADER + |r.text|];
      assert data[at + HEADER + |r.text|..] == s[HEADER + |r.text|..];
    }
  }

  predicate WholeRecords(data: seq<Byte>, at: nat, rs: seq<Record>, k: nat)
    requires at <= |data| < MAXBYTES
  {
    k <= |rs| && Parse(data, at) == Parsed(rs[..k], at + |EncodeAll(rs[..k])|)
  }

  /** From `at` on, the data are the first `n` bytes of the records' encoding. */
  predicate Cut(data: seq<Byte>, at: nat, rs: seq<Record>, n: nat) {
    at <= |data| < MAXBYTES && n <= |EncodeAll(rs)| && data[at..] == EncodeAll(rs)[..n]
  }

  /** Anywhere in a buffer, a cut stream yields exactly its whole records and stops behind the last. */
  lemma {:induction false} ParseCut(data: seq<Byte>, at: nat, rs: seq<Record>, n: nat)
    requires AllGood(rs) && Cut(data, at, rs, n)
    ensures WholeRecords(data, at, rs, Whole(rs, n))
    decreases |rs|
  {
    if rs == [] || n <= HEADER {
      NoneWhole(data, at, rs, n);
    } else if n < HEADER + |rs[0].text| {
      CutFirst(data, at, rs, n);
    } else {
      var size := HEADER + |rs[0].text|;
      CutRest(data, at, rs, n);
      ParseCut(data, at + size, rs[1..], n - size);
      CutWhole(data, at, rs, n);
    }
  }

  lemma CutRest(data: seq<Byte>, at: nat, rs: seq<Record>, n: nat)
    requires AllGood(rs) && Cut(data, at, rs, n) && rs != [] && HEADER + |rs[0].text| <= n
    ensures var size := HEADER + |rs[0].text|;
      at + size <= |data| && Cut(data, at + size, rs[1..], n - size) && AllGood(rs[1..])
  {
    CutFirst(data, at, rs, n);
  }

  lemma CutWhole(data: seq<Byte>, at: nat, rs: seq<Record>, n: nat)
    requires AllGood(rs) && Cut(data, at, rs, n) && rs != [] && HEADER + |rs[0].text| <= n
    requires var size := HEADER + |rs[0].text|;
      at + size <= |data| && WholeRecords(data, at + size, rs[1..], Whole(rs[1..], n - size))
    ensures WholeRecords(data, at, rs, Whole(rs, n))
  {
    CutFirst(data, at, rs, n);
    WholeMore(data, at, rs, n);
  }

  lemma CutFirst(data: seq<Byte>, at: nat, rs: seq<Record>, n: nat)
    requires AllGood(rs) && Cut(data, at, rs, n) && rs != [] && HEADER < n
    ensures n < HEADER + |rs[0].text| ==> WholeRecords(data, at, rs, Whole(rs, n))
    ensures var size := HEADER + |rs[0].text|; size <= n ==>
      at + size <= |data| && Cut(data, at + size, rs[1..], n - size) && AllGood(rs[1..]) &&
      Parse(data, at) == After([rs[0]], Parse(data, at + size))
  {
    CutRecord(data, at, rs[0], EncodeAll(rs[1..]), n);
  }

  lemma NoneWhole(data: seq<Byte>, at: nat, rs: seq<Record>, n: nat)
    requires at + n == |data| < MAXBYTES && (rs == [] || n <= HEADER) && n <= |EncodeAll(rs)| && AllGood(rs)
    ensures WholeRecords(data, at, rs, Whole(rs, n))
  {
    ParseStops(data, at);
  }

  lemma WholeCons(data: seq<Byte>, at: nat, rs: seq<Record>, k: nat)
    requires rs != [] && at + HEADER + |rs[0].text| <= |data| < MAXBYTES
    requires Parse(data, at) == After([rs[0]], Parse(data, at + HEADER + |rs[0].text|))
    requires WholeRecords(data, at + HEADER + |rs[0].text|, rs[1..], k)
    ensures WholeRecords(data, at, rs, k + 1)
  {
    EncodeCons(rs, k);
  }

  lemma WholeMore(data: seq<Byte>, at: nat, rs: seq<Record>, n: nat)
    requires rs != [] && HEADER + |rs[0].text| <= n && at + HEADER + |rs[0].text| <= |data| < MAXBYTES
    requires Parse(data, at) == After([rs[0]], Parse(data, at + HEADER + |rs[0].text|))
    requires var size := HEADER + |rs[0].text|; WholeRecords(data, at + size, rs[1..], Whole(rs[1..], n - size))
    ensures WholeRecords(data, at, rs, Whole(rs, n))
  {
    WholeCons(data, at, rs, Whole(rs[1..], n - HEADER - |rs[0].text|));
  }

  lemma CutRecord(data: seq<Byte>, at: nat, r: Record, tail: seq<Byte>, n: nat)
    requires Good(r) && HEADER < n <= HEADER + |r.text| + |tail|
    requires at <= |data| < MAXBYTES && data[at..] == (Encode(r) + tail)[..n]
    ensures n < HEADER + |r.text| ==> Parse(data, at) == Parsed([], at)
    ensures var size := HEADER + |r.text|; size <= n ==>
      at + size <= |data| && data[at + size..] == tail[..n - size] &&
      Parse(data, at) == After([r], Parse(data, at + size))
  {
    assert |data| == at + n;
    CutHeader(data, at, r, tail, n);
    HeaderRead(data, at, r);
    if n < HEADER + |r.text| {
      ParseStops(data, at);
    } else {
      ParseStep(data, at, r);
    }
  }

  lemma EncodeCons(rs: seq<Record>, k: nat)
    requires k < |rs|
    ensures rs[..k + 1] == [rs[0]] + rs[1..][..k]
    ensures |EncodeAll(rs[..k + 1])| == |Encode(rs[0])| + |EncodeAll(rs[1..][..k])|
  {
    assert rs[..k + 1] == [rs[0]] + rs[1..][..k];
    assert rs[..k + 1][1..] == rs[1..][..k];
  }

  /** The parser inverts the framing on whole streams... */
  lemma RoundTrip(rs: seq<Record>)
    requires AllGood(rs) && |EncodeAll(rs)| < MAXBYTES
    ensures Parse(EncodeAll(rs), 0) == Parsed(rs, |EncodeAll(rs)|)
  {
    assert rs[..|rs|] == rs;
    PrefixRecords(rs, |rs|, |EncodeAll(rs)|);
    assert EncodeAll(rs)[..|EncodeAll(rs)|] == EncodeAll(rs);
  }

  /** ... and on a prefix of one, any number of bytes long, it writes exactly the records wholly inside. */
  lemma PrefixRecords(rs: seq<Record>, k: nat, n: nat)
    requires AllGood(rs) && n <= |EncodeAll(rs)| && n < MAXBYTES
    requires k <= |rs| && |EncodeAll(rs[..k])| <= n && (k == |rs| || n < |EncodeAll(rs[..k + 1])|)
    ensures Parse(EncodeAll(rs)[..n], 0) == Parsed(rs[..k], |EncodeAll(rs[..k])|)
  {
    ParseCut(EncodeAll(rs)[..n], 0, rs, n);
    WholeIs(rs, n);
    var w := Whole(rs, n);
    if w < k {
      PrefixLonger(rs, w + 1, k);
    } else if k < w {
      PrefixLonger(rs, k + 1, w);
    }
  }

  lemma PrefixLonger(rs: seq<Record>, i: nat, j: nat)
    requires i <= j <= |rs|
    ensures |EncodeAll(rs[..i])| <= |EncodeAll(rs[..j])|
  {
    EncodeConcat(rs[..i], rs[i..j]);
    assert rs[..j] == rs[..i] + rs[i..j];
  }

  lemma JoinBytes(data: seq<Byte>, at: nat, next: nat, r: Record, rs: seq<Record>, e: nat)
    requires at <= next <= e <= |data| && Good(r) && AllGood(rs)
    requires data[at..next] == Encode(r) && data[next..e] == EncodeAll(rs)
    ensures data[at..e] == EncodeAll([r] + rs) && AllGood([r] + rs)
  {
    assert ([r] + rs)[1..] == rs;
    assert data[at..e] == data[at..next] + data[next..e];
  }

  lemma HeaderWritten(data: seq<Byte>, at: nat, r: Record)
    requires at + HEADER + |r.text| <= |data|
    requires r.level == Value(data[at..at + 4]) && |r.text| == Value(data[at + 4..at + HEADER])
    requires r.text == data[at + HEADER..at + HEADER + |r.text|]
    ensures data[at..at + HEADER + |r.text|] == Encode(r)
  {
    LEOfValue(data[at..at + 4]);
    LEOfValue(data[at + 4..at + HEADER]);
    assert data[at..at + HEADER + |r.text|] == data[at..at + 4] + data[at + 4..at + HEADER] + r.text;
  }

  /** The loop ends at `e`: no more than a header is left, or the length there, added in size_t, leads beyond the end. */
  predicate EndsAt(data: seq<Byte>, e: nat) {
    e <= |data| && (|data| <= e + 12 || |data| < (e + 12 + Value(data[e + 4..e + 12])) % 0x1_0000_0000_0000_0000)
  }

  /** At `e` stands an empty text, or one whose end, added in size_t, wraps and so passes for one inside the buffer. */
  predicate FaultsAt(data: seq<Byte>, e: nat) {
    e + 12 < |data| &&
    var len := Value(data[e + 4..e + 12]);
    len == 0 || (|data| < e + 12 + len && (e + 12 + len) % 0x1_0000_0000_0000_0000 <= |data|)
  }

  /** The records taken, and where and why it stops, for any bytes. */
  ghost predicate Told(data: seq<Byte>, at: nat, o: Outcome) {
    var e := at + |EncodeAll(o.records)|;
    e <= |data| && data[at..e] == EncodeAll(o.records) && AllGood(o.records) &&
    if o.Parsed? then o.end == e && EndsAt(data, e) else FaultsAt(data, e)
  }

  lemma {:induction false} ParseTells(data: seq<Byte>, at: nat)
    requires at <= |data| < MAXBYTES
    ensures Told(data, at, Parse(data, at))
    decreases |data| - at, 1
  {
    if at + HEADER < |data| {
      var len := Value(data[at + 4..at + HEADER]);
      if |data| >= (at + HEADER + len) % WORD64 && 0 < len && at + HEADER + len <= |data| {
        var r := OneRecord(data, at, len);
        TellStep(data, at, at + HEADER + len, r);
      }
    }
  }

  lemma {:induction false} TellStep(data: seq<Byte>, at: nat, next: nat, r: Record)
    requires at < next <= |data| < MAXBYTES && next == at + |Encode(r)| && data[at..next] == Encode(r) && Good(r)
    requires Parse(data, at) == After([r], Parse(data, next))
    ensures Told(data, at, Parse(data, at))
    decreases |data| - at, 0
  {
    ParseTells(data, next);
    TellJoin(data, at, next, r, Parse(data, next));
  }

  lemma OneRecord(data: seq<Byte>, at: nat, len: nat) returns (r: Record)
    requires 0 < len && at + HEADER + len <= |data| < MAXBYTES
    requires len == Value(data[at + 4..at + HEADER])
    ensures Good(r) && |Encode(r)| == HEADER + len && data[at..at + HEADER + len] == Encode(r)
    ensures Parse(data, at) == After([r], Parse(data, at + HEADER + len))
  {
    r := Record(Word(data[at..at + 4]), data[at + HEADER..at + HEADER + len]);
    ParseStep(data, at, r);
    HeaderWritten(data, at, r);
  }

  lemma TellJoin(data: seq<Byte>, at: nat, next: nat, r: Record, o: Outcome)
    requires at <= next <= |data| && next == at + |Encode(r)| && data[at..next] == Encode(r) && Good(r) && Told(data, next, o)
    ensures Told(data, at, After([r], o))
  {
    EncodeFirst(r, o.records);
    JoinBytes(data, at, next, r, o.records, next + |EncodeAll(o.records)|);
  }

  /** Whatever the parser takes for records is, byte for byte, the encoding of those records. */
  lemma ParseSound(data: seq<Byte>, at: nat)
    requires at <= |data| < MAXBYTES
    ensures var o := Parse(data, at);
      o.Parsed? ==> AllGood(o.records) && at <= o.end <= |data| && data[at..o.end] == EncodeAll(o.records)
  {
    ParseTells(data, at);
  }

  /** Four bytes, the lowest first. */
  function Little(s: seq<nat>): nat
    requires |s| == 4
  {
    s[0] + 0x100 * s[1] + 0x1_0000 * s[2] + 0x100_0000 * s[3]
  }

  /** The bytes of one record: little-endian, four for the level and eight for the length, then the text. */
  lemma EncodeLayout(r: Record)
    requires |r.text| < WORD64
    ensures var s := Encode(r);
      r.level == Little(s[..4]) && |r.text| == Little(s[4..8]) + 0x1_0000_0000 * Little(s[8..12]) && s[12..] == r.text
  {
    FourBytes(r.level);
    EightBytes(|r.text|);
    var s := Encode(r);
    assert s[..4] == LE(r.level, 4);
    assert s[4..8] == LE(|r.text|, 8)[..4] && s[8..12] == LE(|r.text|, 8)[4..];
  }

  lemma FourBytes(n: nat)
    requires n < 0x1_0000_0000
    ensures Little(LE(n, 4)) == n
  {
    var n1 := n / 256;
    var n2 := n1 / 256;
    var n3 := n2 / 256;
    assert LE(n3, 1) == [n3 % 256] + LE(n3 / 256, 0);
    assert LE(n2, 2) == [n2 % 256] + LE(n3, 1);
    assert LE(n1, 3) == [n1 % 256] + LE(n2, 2);
    assert LE(n, 4) == [n % 256] + LE(n1, 3);
    assert 256 * n1 <= n && 256 * n2 <= n1 && 256 * n3 <= n2;
    assert n3 % 256 == n3;
  }

  lemma EightBytes(n: nat)
    requires n < WORD64
    ensures Little(LE(n, 8)[..4]) + 0x1_0000_0000 * Little(LE(n, 8)[4..]) == n
  {
    var n1 := n / 256;
    var n2 := n1 / 256;
    var n3 := n2 / 256;
    var n4 := n3 / 256;
    assert LE(n3, 5) == [n3 % 256] + LE(n4, 4);
    assert LE(n2, 6) == [n2 % 256] + LE(n3, 5);
    assert LE(n1, 7) == [n1 % 256] + LE(n2, 6);
    assert LE(n, 8) == [n % 256] + LE(n1, 7);
    FourBytes(n4);
    assert LE(n, 8)[..4] == [n % 256, n1 % 256, n2 % 256, n3 % 256] && LE(n, 8)[4..] == LE(n4, 4);
  }

  /** So the assert of line 435 holds exactly on whole streams, and no two streams share their bytes. */
  lemma ConsumesAllIff(data: seq<Byte>, rs: seq<Record>)
    requires |data| < MAXBYTES
    ensures Parse(data, 0) == Parsed(rs, |data|) <==> AllGood(rs) && data == EncodeAll(rs)
  {
    ParseSound(data, 0);
    if Parse(data, 0) == Parsed(rs, |data|) {
      assert data[0..|data|] == data;
    }
    if AllGood(rs) && data == EncodeAll(rs) {
      RoundTrip(rs);
    }
  }
}
