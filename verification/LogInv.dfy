/** What every step keeps in one Logger: whose its buffers are, what they hold, and that no record is lost. */
module LogInv {
  import opened Common
  import opened LogFraming
  import opened LogMachine

  // ---- the records of one thread ----

  lemma {:induction false} OfConcat(p: Tid, a: seq<Entry>, b: seq<Entry>)
    ensures Of(p, a + b) == Of(p, a) + Of(p, b)
  {
    if b == [] {
      assert a + b == a;
    } else {
      OfConcat(p, a, b[..|b| - 1]);
      assert (a + b)[..|a + b| - 1] == a + b[..|b| - 1];
    }
  }

  lemma {:induction false} OfTagged(p: Tid, q: Tid, rs: seq<Record>)
    ensures Of(p, Tagged(q, rs)) == if p == q then rs else []
  {
    if rs != [] {
      var m := |rs| - 1;
      OfTagged(p, q, rs[..m]);
      assert Tagged(q, rs)[..m] == Tagged(q, rs[..m]);
      assert rs == rs[..m] + [rs[m]];
    }
  }

  // ---- the buffers ----

  ghost predicate BufOk(buf: Buf) {
    |buf.bytes| < MAXBYTES && AllGood(buf.recs) && (!buf.inuse ==> buf.bytes == EncodeAll(buf.recs))
  }

  ghost predicate Bufs(lg: Log) {
    (forall p :: p in lg.buffers ==> lg.buffers[p] in lg.heap && lg.heap[lg.buffers[p]].owner == p) &&
    (forall p :: p in lg.taken ==>
       lg.taken[p] in lg.heap && lg.heap[lg.taken[p]].owner == p && !lg.heap[lg.taken[p]].inuse) &&
    (forall p :: p in lg.taken && p in lg.buffers ==> lg.taken[p] != lg.buffers[p]) &&
    (forall b :: b in lg.heap ==> b < lg.made && BufOk(lg.heap[b]))
  }

  function RecsAt(lg: Log, m: map<Tid, Bid>, p: Tid): seq<Record> {
    if p in m && m[p] in lg.heap then lg.heap[m[p]].recs else []
  }

  /** Conservation: given = written ++ held by Update ++ in the thread's buffer, in order. */
  ghost predicate Conserved(lg: Log) {
    forall p: Tid :: Of(p, lg.enq) == Of(p, lg.sink) + RecsAt(lg, lg.taken, p) + RecsAt(lg, lg.buffers, p)
  }

  ghost predicate Marks(lg: Log) {
    |lg.mark| <= |lg.enq| && lg.mark == lg.enq[..|lg.mark|]
  }

  ghost predicate LogOk(lg: Log) {
    Bufs(lg) && Conserved(lg) && Marks(lg)
  }

  /** The thread in Flush that `pc` describes has buffer `b` of `lg`, with the pieces it has pushed so far. */
  ghost predicate Holds(lg: Log, t: Tid, pc: Pc) {
    (pc.Push? || pc.Release?) ==>
    t in lg.buffers && lg.buffers[t] == pc.b && InUse(lg, pc.b) &&
    lg.heap[pc.b].bytes == EncodeAll(lg.heap[pc.b].recs) + Partial(pc) &&
    (pc.Push? ==> pc.piece < 3 && Good(pc.rec))
  }

  function Partial(pc: Pc): seq<Byte> {
    if !pc.Push? || pc.piece == 0 then []
    else if pc.piece == 1 then Piece(pc.rec, 0)
    else Piece(pc.rec, 0) + Piece(pc.rec, 1)
  }

  lemma SetUseKeeps(lg: Log, b: Bid, use: bool)
    requires LogOk(lg) && b in lg.heap
    requires use || lg.heap[b].bytes == EncodeAll(lg.heap[b].recs)
    requires forall p :: p in lg.taken ==> lg.taken[p] != b
    ensures LogOk(SetUse(lg, b, use))
  {
    SetUseBufs(lg, b, use);
    var lg' := SetUse(lg, b, use);
    forall p: Tid ensures RecsAt(lg', lg'.taken, p) == RecsAt(lg, lg.taken, p)
      ensures RecsAt(lg', lg'.buffers, p) == RecsAt(lg, lg.buffers, p) {
    }
  }

  lemma SetUseBufs(lg: Log, b: Bid, use: bool)
    requires Bufs(lg) && b in lg.heap
    requires use || lg.heap[b].bytes == EncodeAll(lg.heap[b].recs)
    requires forall p :: p in lg.taken ==> lg.taken[p] != b
    ensures Bufs(SetUse(lg, b, use))
  {
    assert BufOk(lg.heap[b]) && BufOk(SetUse(lg, b, use).heap[b]);
  }

  lemma NewBufferKeeps(lg: Log, t: Tid)
    requires LogOk(lg) && t !in lg.buffers
    ensures LogOk(NewBuffer(lg, t))
  {
    NewBufferBufs(lg, t);
    var lg' := NewBuffer(lg, t);
    forall p: Tid ensures RecsAt(lg', lg'.taken, p) == RecsAt(lg, lg.taken, p)
      ensures RecsAt(lg', lg'.buffers, p) == RecsAt(lg, lg.buffers, p) {
    }
  }

  lemma NewBufferBufs(lg: Log, t: Tid)
    requires Bufs(lg) && t !in lg.buffers
    ensures Bufs(NewBuffer(lg, t))
  {
    assert BufOk(Buf(true, [], t, []));
  }

  lemma OwnNotTaken(lg: Log, t: Tid)
    requires Bufs(lg) && t in lg.buffers
    ensures forall p :: p in lg.taken ==> lg.taken[p] != lg.buffers[t]
  {
    forall p | p in lg.taken ensures lg.taken[p] != lg.buffers[t] {
      assert p != t ==> lg.heap[lg.taken[p]].owner != lg.heap[lg.buffers[t]].owner;
    }
  }

  lemma EnteredKeeps(lg: Log, t: Tid)
    requires LogOk(lg)
    ensures LogOk(Entered(lg, t).0)
  {
    if t in lg.buffers {
      OwnNotTaken(lg, t);
      SetUseKeeps(lg, lg.buffers[t], true);
    } else {
      NewBufferKeeps(lg, t);
    }
  }

  lemma EnteredHolds(lg: Log, t: Tid, l: Lid, rec: Record)
    requires Bufs(lg) && Good(rec) && (t in lg.buffers ==> !InUse(lg, lg.buffers[t]))
    ensures Holds(Entered(lg, t).0, t, Push(l, Entered(lg, t).1, rec, 0))
  {
    if t in lg.buffers { assert BufOk(lg.heap[lg.buffers[t]]); }
  }

  lemma PushedHeap(lg: Log, t: Tid, pc: Pc)
    requires Bufs(lg) && pc.Push? && Holds(lg, t, pc) && |Bytes(lg, pc.b)| + |Piece(pc.rec, pc.piece)| < MAXBYTES
    ensures var lg' := Pushed(lg, t, pc.b, pc.rec, pc.piece);
      lg'.heap.Keys == lg.heap.Keys && BufOk(lg'.heap[pc.b]) &&
      forall b :: b in lg'.heap ==>
        lg'.heap[b].inuse == lg.heap[b].inuse && lg'.heap[b].owner == lg.heap[b].owner && (b != pc.b ==> lg'.heap[b] == lg.heap[b])
  {
    assert BufOk(lg.heap[pc.b]);
  }

  lemma PushedBufs(lg: Log, t: Tid, pc: Pc)
    requires Bufs(lg) && pc.Push? && Holds(lg, t, pc) && |Bytes(lg, pc.b)| + |Piece(pc.rec, pc.piece)| < MAXBYTES
    ensures Bufs(Pushed(lg, t, pc.b, pc.rec, pc.piece))
  {
    PushedHeap(lg, t, pc);
  }

  lemma PushedHolds(lg: Log, t: Tid, pc: Pc)
    requires Bufs(lg) && pc.Push? && Holds(lg, t, pc) && |Bytes(lg, pc.b)| + |Piece(pc.rec, pc.piece)| < MAXBYTES
    ensures var lg' := Pushed(lg, t, pc.b, pc.rec, pc.piece);
      Holds(lg', t, if pc.piece < 2 then Push(pc.l, pc.b, pc.rec, pc.piece + 1) else Release(pc.l, pc.b))
  {
    PushedBytes(lg.heap[pc.b], pc);
  }

  lemma PushedBytes(buf: Buf, pc: Pc)
    requires pc.Push? && pc.piece < 3 && buf.bytes == EncodeAll(buf.recs) + Partial(pc)
    ensures buf.bytes + Piece(pc.rec, pc.piece) ==
      if pc.piece < 2 then EncodeAll(buf.recs) + Partial(pc.(piece := pc.piece + 1))
      else EncodeAll(buf.recs + [pc.rec])
  {
    Assoc(EncodeAll(buf.recs), Partial(pc), Piece(pc.rec, pc.piece));
    EncodeSnoc(buf.recs, pc.rec);
    PiecesJoin(pc);
  }

  lemma PiecesJoin(pc: Pc)
    requires pc.Push? && pc.piece < 3
    ensures Partial(pc) + Piece(pc.rec, pc.piece) ==
      if pc.piece < 2 then Partial(pc.(piece := pc.piece + 1)) else Encode(pc.rec)
  {
  }

  lemma PushedOf(lg: Log, t: Tid, pc: Pc, p: Tid)
    requires Bufs(lg) && Conserved(lg) && pc.Push? && Holds(lg, t, pc)
    ensures var lg' := Pushed(lg, t, pc.b, pc.rec, pc.piece);
      Of(p, lg'.enq) == Of(p, lg'.sink) + RecsAt(lg', lg'.taken, p) + RecsAt(lg', lg'.buffers, p)
  {
    PushedRecs(lg, t, pc, p);
    PushedEnq(lg, t, pc, p);
    var more := if p == t && pc.piece == 2 then [pc.rec] else [];
    assert Of(p, lg.enq) == Of(p, lg.sink) + RecsAt(lg, lg.taken, p) + RecsAt(lg, lg.buffers, p);
    assert Of(p, lg.sink) + RecsAt(lg, lg.taken, p) + (RecsAt(lg, lg.buffers, p) + more) == Of(p, lg.enq) + more;
  }

  lemma PushedConserves(lg: Log, t: Tid, pc: Pc)
    requires Bufs(lg) && Conserved(lg) && Marks(lg) && pc.Push? && Holds(lg, t, pc)
    ensures var lg' := Pushed(lg, t, pc.b, pc.rec, pc.piece); Conserved(lg') && Marks(lg')
  {
    forall p: Tid { PushedOf(lg, t, pc, p); }
  }

  lemma PushedEnq(lg: Log, t: Tid, pc: Pc, p: Tid)
    requires pc.Push? && Holds(lg, t, pc)
    ensures Of(p, Pushed(lg, t, pc.b, pc.rec, pc.piece).enq) ==
      Of(p, lg.enq) + if p == t && pc.piece == 2 then [pc.rec] else []
  {
    OfConcat(p, lg.enq, [Entry(t, pc.rec)]);
    assert Of(p, [Entry(t, pc.rec)]) == if p == t then [pc.rec] else [];
  }

  lemma PushedRecs(lg: Log, t: Tid, pc: Pc, p: Tid)
    requires Bufs(lg) && pc.Push? && Holds(lg, t, pc)
    ensures var lg' := Pushed(lg, t, pc.b, pc.rec, pc.piece);
      RecsAt(lg', lg'.taken, p) == RecsAt(lg, lg.taken, p) &&
      RecsAt(lg', lg'.buffers, p) == RecsAt(lg, lg.buffers, p) + if p == t && pc.piece == 2 then [pc.rec] else []
  {
  }

  lemma ReleasedKeeps(lg: Log, t: Tid, pc: Pc)
    requires LogOk(lg) && pc.Release? && Holds(lg, t, pc)
    ensures LogOk(SetUse(lg, pc.b, false))
  {
    OwnNotTaken(lg, t);
    SetUseKeeps(lg, pc.b, false);
  }

  lemma TakenBufs(lg: Log, k: Tid)
    requires Bufs(lg) && k in lg.buffers && k !in lg.taken && !InUse(lg, lg.buffers[k])
    ensures Bufs(Taken(lg, k))
  {
  }

  lemma TakenKeeps(lg: Log, k: Tid)
    requires LogOk(lg) && k in lg.buffers && k !in lg.taken && !InUse(lg, lg.buffers[k])
    ensures LogOk(Taken(lg, k))
  {
    TakenBufs(lg, k);
    var lg' := Taken(lg, k);
    forall p: Tid ensures Of(p, lg'.enq) == Of(p, lg'.sink) + RecsAt(lg', lg'.taken, p) + RecsAt(lg', lg'.buffers, p) {
      TakenRecs(lg, k, p);
    }
  }

  /** The records of a taken buffer move from one place to the other. */
  lemma TakenRecs(lg: Log, k: Tid, p: Tid)
    requires k in lg.buffers && k !in lg.taken
    ensures var lg' := Taken(lg, k);
      Of(p, lg.sink) + RecsAt(lg', lg'.taken, p) + RecsAt(lg', lg'.buffers, p) ==
      Of(p, lg.sink) + RecsAt(lg, lg.taken, p) + RecsAt(lg, lg.buffers, p)
  {
  }

  /** The bytes of a buffer taken by Update parse back to the very records that were put in. */
  lemma TakenParses(lg: Log, k: Tid)
    requires Bufs(lg) && k in lg.taken
    ensures |Bytes(lg, lg.taken[k])| < MAXBYTES && WritesAll(Bytes(lg, lg.taken[k]))
    ensures Parse(Bytes(lg, lg.taken[k]), 0).records == lg.heap[lg.taken[k]].recs
  {
    var buf := lg.heap[lg.taken[k]];
    assert BufOk(buf);
    RoundTrip(buf.recs);
  }

  lemma WrittenKeeps(lg: Log, k: Tid)
    requires LogOk(lg) && k in lg.taken && |Bytes(lg, lg.taken[k])| < MAXBYTES
    ensures LogOk(Written(lg, k))
  {
    WrittenBufs(lg, k);
    var lg' := Written(lg, k);
    forall p: Tid ensures Of(p, lg'.enq) == Of(p, lg'.sink) + RecsAt(lg', lg'.taken, p) + RecsAt(lg', lg'.buffers, p) {
      WrittenOf(lg, k, p);
    }
  }

  lemma WrittenOf(lg: Log, k: Tid, p: Tid)
    requires Bufs(lg) && k in lg.taken && |Bytes(lg, lg.taken[k])| < MAXBYTES
    ensures var lg' := Written(lg, k);
      Of(p, lg'.sink) + RecsAt(lg', lg'.taken, p) + RecsAt(lg', lg'.buffers, p) ==
      Of(p, lg.sink) + RecsAt(lg, lg.taken, p) + RecsAt(lg, lg.buffers, p)
  {
    TakenRecords(lg, k);
    var recs := lg.heap[lg.taken[k]].recs;
    WrittenSink(lg, k, p, recs);
    WrittenRecs(lg, k, p);
  }

  lemma TakenRecords(lg: Log, k: Tid)
    requires Bufs(lg) && k in lg.taken && |Bytes(lg, lg.taken[k])| < MAXBYTES
    ensures Written(lg, k).sink == lg.sink + Tagged(k, lg.heap[lg.taken[k]].recs)
  {
    TakenParses(lg, k);
  }

  lemma WrittenSink(lg: Log, k: Tid, p: Tid, recs: seq<Record>)
    ensures Of(p, lg.sink + Tagged(k, recs)) == Of(p, lg.sink) + if p == k then recs else []
  {
    OfConcat(p, lg.sink, Tagged(k, recs));
    OfTagged(p, k, recs);
  }

  lemma WrittenBufs(lg: Log, k: Tid)
    requires Bufs(lg) && k in lg.taken && |Bytes(lg, lg.taken[k])| < MAXBYTES
    ensures Bufs(Written(lg, k))
  {
  }

  lemma WrittenRecs(lg: Log, k: Tid, p: Tid)
    requires Bufs(lg) && k in lg.taken && |Bytes(lg, lg.taken[k])| < MAXBYTES
    ensures var lg' := Written(lg, k);
      RecsAt(lg', lg'.buffers, p) == RecsAt(lg, lg.buffers, p) &&
      RecsAt(lg', lg'.taken, p) == if p == k then [] else RecsAt(lg, lg.taken, p)
  {
  }

  // ---- the other threads' buffers ----

  /** A step may not touch a buffer that another thread is writing. */
  ghost predicate Leaves(lg: Log, lg': Log, t: Tid) {
    t in lg.buffers && InUse(lg, lg.buffers[t]) ==>
    t in lg'.buffers && lg'.buffers[t] == lg.buffers[t] && lg.buffers[t] in lg'.heap &&
    lg'.heap[lg.buffers[t]] == lg.heap[lg.buffers[t]]
  }

  lemma HoldsStable(lg: Log, lg': Log, t: Tid, pc: Pc)
    requires Holds(lg, t, pc) && Leaves(lg, lg', t)
    ensures Holds(lg', t, pc)
  {
  }

  /** Which buffers are in use may change for the acting thread's own only. */
  ghost predicate SameUse(lg: Log, lg': Log, t: Tid) {
    forall b :: InUse(lg', b) && lg'.heap[b].owner != t ==> InUse(lg, b) && lg.heap[b].owner == lg'.heap[b].owner
  }

  lemma EnteredLeaves(lg: Log, t: Tid, u: Tid)
    requires Bufs(lg) && t != u
    ensures var lg' := Entered(lg, t).0; Leaves(lg, lg', u) && SameUse(lg, lg', t)
  {
  }

  lemma PushedLeaves(lg: Log, t: Tid, pc: Pc, u: Tid)
    requires Bufs(lg) && t != u && pc.Push? && Holds(lg, t, pc)
    ensures var lg' := Pushed(lg, t, pc.b, pc.rec, pc.piece); Leaves(lg, lg', u) && SameUse(lg, lg', t)
  {
  }

  lemma ReleasedLeaves(lg: Log, t: Tid, pc: Pc, u: Tid)
    requires Bufs(lg) && t != u && pc.Release? && Holds(lg, t, pc)
    ensures var lg' := SetUse(lg, pc.b, false); Leaves(lg, lg', u) && SameUse(lg, lg', t)
  {
  }

  lemma TakenLeaves(lg: Log, k: Tid, u: Tid)
    requires Bufs(lg) && k in lg.buffers && !InUse(lg, lg.buffers[k])
    ensures Leaves(lg, Taken(lg, k), u)
  {
  }

  lemma WrittenLeaves(lg: Log, k: Tid, u: Tid)
    requires Bufs(lg) && k in lg.taken && |Bytes(lg, lg.taken[k])| < MAXBYTES
    ensures Leaves(lg, Written(lg, k), u)
  {
  }
}
