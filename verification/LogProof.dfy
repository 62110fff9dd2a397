/** The buffers of all Loggers through every step: who writes which, and what Update may take. */
module LogProof {
  import opened Common
  import opened LogFraming
  import opened LogMachine
  import opened LogInv

  ghost predicate Logs(sh: Shared) {
    forall l :: l in sh.logs ==> LogOk(sh.logs[l])
  }

  ghost predicate Writes(pc: Pc, l: Lid, b: Bid) {
    (pc.Push? || pc.Release?) && pc.l == l && pc.b == b
  }

  /** What thread `t` knows: the Logger it is in exists, and the buffer it writes is its own. */
  ghost predicate Local(sh: Shared, t: Tid, pc: Pc) {
    (pc.Enter? ==> pc.l in sh.logs && Good(pc.rec)) &&
    (pc.Busy? ==> pc.l in sh.logs) &&
    (pc.Push? || pc.Release? ==> pc.l in sh.logs && Holds(sh.logs[pc.l], t, pc))
  }

  ghost predicate Locals(s: State) {
    forall t :: t in s.pcs ==> Local(s.sh, t, s.pcs[t])
  }

  /** A buffer in use is being written by its owner. */
  ghost predicate Users(s: State) {
    forall l, b :: l in s.sh.logs && InUse(s.sh.logs[l], b) ==>
      var u := s.sh.logs[l].heap[b].owner; u in s.pcs && Writes(s.pcs[u], l, b)
  }

  ghost predicate Core(s: State) {
    Logs(s.sh) && Locals(s) && Users(s)
  }

  // ---- one Logger changes ----

  lemma LogsOne(sh: Shared, l: Lid, lg: Log)
    requires Logs(sh) && LogOk(lg)
    ensures Logs(WithLog(sh, l, lg))
  {
  }

  /** A step of thread `t` in Flush. */
  lemma LocalsFlush(s: State, s': State, t: Tid, l: Lid, lg': Log)
    requires Locals(s) && l in s.sh.logs && s'.sh.logs == s.sh.logs[l := lg']
    requires t in s.pcs && t in s'.pcs && s'.pcs == s.pcs[t := s'.pcs[t]]
    requires forall u :: u != t ==> Leaves(s.sh.logs[l], lg', u)
    requires Local(s'.sh, t, s'.pcs[t])
    ensures Locals(s')
  {
    forall u | u in s'.pcs && u != t ensures Local(s'.sh, u, s'.pcs[u]) {
      LocalStable(s, s'.sh, u, l, lg');
    }
  }

  lemma LocalStable(s: State, sh': Shared, u: Tid, l: Lid, lg': Log)
    requires Locals(s) && u in s.pcs && l in s.sh.logs && sh'.logs == s.sh.logs[l := lg']
    requires Leaves(s.sh.logs[l], lg', u)
    ensures Local(sh', u, s.pcs[u])
  {
    var pc := s.pcs[u];
    assert Local(s.sh, u, pc);
    if (pc.Push? || pc.Release?) && pc.l == l { HoldsStable(s.sh.logs[l], lg', u, pc); }
  }

  lemma UsersFlush(s: State, s': State, t: Tid, l: Lid, lg': Log)
    requires Users(s) && l in s.sh.logs && s'.sh.logs == s.sh.logs[l := lg']
    requires t in s.pcs && t in s'.pcs && s'.pcs == s.pcs[t := s'.pcs[t]]
    requires SameUse(s.sh.logs[l], lg', t)
    requires forall b :: InUse(lg', b) && lg'.heap[b].owner == t ==> Writes(s'.pcs[t], l, b)
    requires forall m, b :: m != l ==> !Writes(s.pcs[t], m, b)
    ensures Users(s')
  {
    forall m, b | m in s'.sh.logs && InUse(s'.sh.logs[m], b)
      ensures var u := s'.sh.logs[m].heap[b].owner; u in s'.pcs && Writes(s'.pcs[u], m, b)
    {
      if m != l {
        assert InUse(s.sh.logs[m], b);
      } else if lg'.heap[b].owner != t {
        assert InUse(s.sh.logs[l], b);
      }
    }
  }

  /** A step of the Run thread or of Stop, which puts no buffer into use. */
  lemma OthersKept(s: State, s': State, l: Lid, lg': Log)
    requires Locals(s) && Users(s) && l in s.sh.logs && s'.sh.logs == s.sh.logs[l := lg'] && s'.pcs == s.pcs
    requires forall u :: Leaves(s.sh.logs[l], lg', u)
    requires forall b :: InUse(lg', b) ==> InUse(s.sh.logs[l], b) && s.sh.logs[l].heap[b] == lg'.heap[b]
    ensures Locals(s') && Users(s')
  {
    forall u | u in s'.pcs ensures Local(s'.sh, u, s'.pcs[u]) {
      LocalStable(s, s'.sh, u, l, lg');
    }
    forall m, b | m in s'.sh.logs && InUse(s'.sh.logs[m], b)
      ensures var u := s'.sh.logs[m].heap[b].owner; u in s'.pcs && Writes(s'.pcs[u], m, b)
    {
      assert InUse(s.sh.logs[m], b);
    }
  }

  /** No buffer but the one a thread writes is in use by it. */
  lemma OwnUse(s: State, t: Tid, l: Lid, b: Bid)
    requires Users(s) && t in s.pcs && l in s.sh.logs && InUse(s.sh.logs[l], b) && s.sh.logs[l].heap[b].owner == t
    ensures Writes(s.pcs[t], l, b)
  {
  }

  // ---- Flush ----

  lemma EnterFresh(s: State, t: Tid, l: Lid)
    requires Core(s) && t in s.pcs && s.pcs[t].Enter? && l in s.sh.logs
    ensures var lg := s.sh.logs[l]; forall b :: InUse(lg, b) ==> lg.heap[b].owner != t
    ensures var lg := s.sh.logs[l]; t in lg.buffers ==> !InUse(lg, lg.buffers[t])
  {
    var lg := s.sh.logs[l];
    assert LogOk(lg);
    forall b | InUse(lg, b) ensures lg.heap[b].owner != t {
      if lg.heap[b].owner == t { OwnUse(s, t, l, b); }
    }
  }

  /** The Flush of `t` is refused by a Logger that is shut down, and else has a buffer for its record. */
  ghost predicate Begun(s: State, t: Tid, s': State)
    requires t in s.pcs && s.pcs[t].Enter? && s.pcs[t].l in s.sh.logs
  {
    var l, rec := s.pcs[t].l, s.pcs[t].rec;
    if s.sh.logs[l].shutdown then s' == s.(pcs := s.pcs[t := Idle])
    else
      t in s'.pcs && s'.pcs[t].Push? && s'.pcs[t].l == l && s'.pcs[t].rec == rec && s'.pcs[t].piece == 0 &&
      l in s'.sh.logs && t in s'.sh.logs[l].buffers && s'.sh.logs[l].buffers[t] == s'.pcs[t].b && InUse(s'.sh.logs[l], s'.pcs[t].b)
  }

  lemma EnterKeeps(s: State, t: Tid)
    requires Core(s) && t in s.pcs && s.pcs[t].Enter? && Ready(s, t, s.pcs[t])
    ensures Core(Apply(s, Step(t))) && (!s.sh.failed ==> !Apply(s, Step(t)).sh.failed)
    ensures Begun(s, t, Apply(s, Step(t)))
  {
    var s' := Apply(s, Step(t));
    var pc := s.pcs[t];
    var l, lg := pc.l, s.sh.logs[pc.l];
    assert Local(s.sh, t, pc) && LogOk(lg);
    EnterFresh(s, t, l);
    if lg.shutdown {
      assert s.sh.logs[l := lg] == s.sh.logs;
      LocalsFlush(s, s', t, l, lg);
      UsersFlush(s, s', t, l, lg);
    } else {
      var (lg', b) := Entered(lg, t);
      EnteredKeeps(lg, t);
      LogsOne(s.sh, l, lg');
      EnteredHolds(lg, t, l, pc.rec);
      EnteredUse(lg, t);
      forall u | u != t ensures Leaves(lg, lg', u) && SameUse(lg, lg', t) { EnteredLeaves(lg, t, u); }
      EnteredLeaves(lg, t, t + 1);
      LocalsFlush(s, s', t, l, lg');
      UsersFlush(s, s', t, l, lg');
    }
  }

  lemma EnteredUse(lg: Log, t: Tid)
    requires Bufs(lg) && forall b :: InUse(lg, b) ==> lg.heap[b].owner != t
    ensures var (lg', b) := Entered(lg, t); forall c :: InUse(lg', c) && lg'.heap[c].owner == t ==> c == b
  {
  }

  lemma PushKeeps(s: State, t: Tid)
    requires Core(s) && t in s.pcs && s.pcs[t].Push? && Ready(s, t, s.pcs[t])
    ensures Core(Apply(s, Step(t)))
  {
    var s' := Apply(s, Step(t));
    var pc := s.pcs[t];
    assert Local(s.sh, t, pc);
    var l, lg := pc.l, s.sh.logs[pc.l];
    var lg' := Pushed(lg, t, pc.b, pc.rec, pc.piece);
    PushedOk(lg, t, pc);
    LogsOne(s.sh, l, lg');
    PushedHolds(lg, t, pc);
    forall u | u != t ensures Leaves(lg, lg', u) { PushedLeaves(lg, t, pc, u); }
    PushedLeaves(lg, t, pc, t + 1);
    LocalsFlush(s, s', t, l, lg');
    PushedUse(s, t);
    UsersFlush(s, s', t, l, lg');
  }

  lemma PushedOk(lg: Log, t: Tid, pc: Pc)
    requires LogOk(lg) && pc.Push? && Holds(lg, t, pc) && |Bytes(lg, pc.b)| + |Piece(pc.rec, pc.piece)| < MAXBYTES
    ensures LogOk(Pushed(lg, t, pc.b, pc.rec, pc.piece))
  {
    PushedBufs(lg, t, pc);
    PushedConserves(lg, t, pc);
  }

  lemma PushedUse(s: State, t: Tid)
    requires Users(s) && t in s.pcs && s.pcs[t].Push? && s.pcs[t].l in s.sh.logs
    requires Holds(s.sh.logs[s.pcs[t].l], t, s.pcs[t])
    ensures var pc := s.pcs[t];
      var lg' := Pushed(s.sh.logs[pc.l], t, pc.b, pc.rec, pc.piece);
      forall b :: InUse(lg', b) && lg'.heap[b].owner == t ==> b == pc.b
  {
    var pc := s.pcs[t];
    var lg := s.sh.logs[pc.l];
    var lg' := Pushed(lg, t, pc.b, pc.rec, pc.piece);
    forall b | InUse(lg', b) && lg'.heap[b].owner == t ensures b == pc.b {
      assert InUse(lg, b) && lg.heap[b].owner == t;
    }
  }

  lemma ReleaseKeeps(s: State, t: Tid)
    requires Core(s) && t in s.pcs && s.pcs[t].Release? && Ready(s, t, s.pcs[t])
    ensures Core(Apply(s, Step(t)))
  {
    var s' := Apply(s, Step(t));
    var pc := s.pcs[t];
    assert Local(s.sh, t, pc);
    var l, lg := pc.l, s.sh.logs[pc.l];
    var lg' := SetUse(lg, pc.b, false);
    assert LogOk(lg);
    ReleasedKeeps(lg, t, pc);
    LogsOne(s.sh, l, lg');
    forall u | u != t ensures Leaves(lg, lg', u) { ReleasedLeaves(lg, t, pc, u); }
    ReleasedLeaves(lg, t, pc, t + 1);
    LocalsFlush(s, s', t, l, lg');
    assert forall b :: InUse(lg', b) ==> InUse(lg, b) && lg.heap[b].owner == lg'.heap[b].owner && b != pc.b;
    UsersFlush(s, s', t, l, lg');
  }

  // ---- Stop, CreateLog and the start of a call ----

  lemma FlagKeeps(s: State, s': State, l: Lid, lg': Log)
    requires Core(s) && l in s.sh.logs && s'.sh.logs == s.sh.logs[l := lg'] && s'.pcs == s.pcs
    requires lg' == s.sh.logs[l].(locked := lg'.locked, shutdown := lg'.shutdown)
    ensures Core(s')
  {
    FlagOk(s.sh.logs[l], lg');
    LogsOne(s.sh, l, lg');
    OthersKept(s, s', l, lg');
  }

  lemma FlagOk(lg: Log, lg': Log)
    requires LogOk(lg) && lg' == lg.(locked := lg'.locked, shutdown := lg'.shutdown)
    ensures LogOk(lg')
  {
    forall p: Tid ensures Of(p, lg'.enq) == Of(p, lg'.sink) + RecsAt(lg', lg'.taken, p) + RecsAt(lg', lg'.buffers, p) {
      assert RecsAt(lg', lg'.taken, p) == RecsAt(lg, lg.taken, p);
      assert RecsAt(lg', lg'.buffers, p) == RecsAt(lg, lg.buffers, p);
    }
  }

  lemma MarkOk(lg: Log)
    requires LogOk(lg)
    ensures LogOk(lg.(mark := lg.enq))
  {
    var lg' := lg.(mark := lg.enq);
    forall p: Tid ensures Of(p, lg'.enq) == Of(p, lg'.sink) + RecsAt(lg', lg'.taken, p) + RecsAt(lg', lg'.buffers, p) {
      assert RecsAt(lg', lg'.taken, p) == RecsAt(lg, lg.taken, p);
      assert RecsAt(lg', lg'.buffers, p) == RecsAt(lg, lg.buffers, p);
    }
  }

  lemma MarkedKeeps(s: State, s': State)
    requires Core(s) && s'.sh.logs == Marked(s.sh.logs) && s'.pcs == s.pcs
    ensures Core(s')
  {
    forall l | l in s'.sh.logs ensures LogOk(s'.sh.logs[l]) { MarkOk(s.sh.logs[l]); }
    forall u | u in s'.pcs ensures Local(s'.sh, u, s'.pcs[u]) { assert Local(s.sh, u, s.pcs[u]); }
    forall m, b | m in s'.sh.logs && InUse(s'.sh.logs[m], b)
      ensures var u := s'.sh.logs[m].heap[b].owner; u in s'.pcs && Writes(s'.pcs[u], m, b)
    {
      assert InUse(s.sh.logs[m], b);
    }
  }

  /** A thread that is not in the middle of a Flush, before and after, owns nothing. */
  lemma PcKeeps(s: State, t: Tid, pc: Pc)
    requires Core(s) && (t in s.pcs ==> !s.pcs[t].Push? && !s.pcs[t].Release?)
    requires Local(s.sh, t, pc) && !pc.Push? && !pc.Release?
    ensures Core(s.(pcs := s.pcs[t := pc]))
  {
    var s' := s.(pcs := s.pcs[t := pc]);
    forall m, b | m in s'.sh.logs && InUse(s'.sh.logs[m], b)
      ensures var u := s'.sh.logs[m].heap[b].owner; u in s'.pcs && Writes(s'.pcs[u], m, b)
    {
      assert InUse(s.sh.logs[m], b);
    }
  }

  lemma CreateKeeps(s: State, l: Lid)
    requires Core(s) && Enabled(s, Create(l))
    ensures Core(Apply(s, Create(l)))
  {
    var s' := Apply(s, Create(l));
    if !s.sh.shutdown {
      assert LogOk(NewLog());
      forall u | u in s'.pcs ensures Local(s'.sh, u, s'.pcs[u]) { assert Local(s.sh, u, s.pcs[u]); }
      forall m, b | m in s'.sh.logs && InUse(s'.sh.logs[m], b)
        ensures var u := s'.sh.logs[m].heap[b].owner; u in s'.pcs && Writes(s'.pcs[u], m, b)
      {
        assert InUse(s.sh.logs[m], b);
      }
    }
  }

  lemma StopStepKeeps(s: State, t: Tid)
    requires Core(s) && t in s.pcs && Ready(s, t, s.pcs[t])
    requires var pc := s.pcs[t]; pc.Busy? || pc.Begin? || pc.LockLogs? || pc.Shutting? || pc.Join?
    ensures Core(Apply(s, Step(t))) && Apply(s, Step(t)).sh.failed == s.sh.failed
  {
    var s' := Apply(s, Step(t));
    var pc := s.pcs[t];
    var mid := s.(sh := s'.sh);
    if pc.Begin? && !s.sh.shutdown {
      MarkedKeeps(s, mid);
    } else if pc.Shutting? && pc.i < |s.sh.list| && s.sh.list[pc.i] in s.sh.logs {
      FlagKeeps(s, mid, s.sh.list[pc.i], s'.sh.logs[s.sh.list[pc.i]]);
    } else {
      assert s'.sh.logs == s.sh.logs;
      SameLogs(s, mid);
    }
    PcKeeps(mid, t, s'.pcs[t]);
  }

  lemma SameLogs(s: State, s': State)
    requires Core(s) && s'.sh.logs == s.sh.logs && s'.pcs == s.pcs
    ensures Core(s')
  {
    forall u | u in s'.pcs ensures Local(s'.sh, u, s'.pcs[u]) { assert Local(s.sh, u, s.pcs[u]); }
  }

  // ---- Update ----

  lemma TakeKeeps(s: State, s': State, l: Lid, k: Tid)
    requires Core(s) && l in s.sh.logs && k in s.sh.logs[l].buffers && k !in s.sh.logs[l].taken
    requires !InUse(s.sh.logs[l], s.sh.logs[l].buffers[k])
    requires s'.sh.logs == s.sh.logs[l := Taken(s.sh.logs[l], k)] && s'.pcs == s.pcs
    ensures Core(s')
  {
    var lg := s.sh.logs[l];
    TakenKeeps(lg, k);
    LogsOne(s.sh, l, Taken(lg, k));
    forall u ensures Leaves(lg, Taken(lg, k), u) { TakenLeaves(lg, k, u); }
    OthersKept(s, s', l, Taken(lg, k));
  }

  lemma WriteKeeps(s: State, s': State, l: Lid, k: Tid)
    requires Core(s) && l in s.sh.logs && k in s.sh.logs[l].taken
    requires |Bytes(s.sh.logs[l], s.sh.logs[l].taken[k])| < MAXBYTES
    requires s'.sh.logs == s.sh.logs[l := Written(s.sh.logs[l], k)] && s'.pcs == s.pcs
    ensures Core(s')
    ensures WritesAll(Bytes(s.sh.logs[l], s.sh.logs[l].taken[k]))
  {
    var lg := s.sh.logs[l];
    TakenParses(lg, k);
    WrittenKeeps(lg, k);
    LogsOne(s.sh, l, Written(lg, k));
    forall u ensures Leaves(lg, Written(lg, k), u) { WrittenLeaves(lg, k, u); }
    OthersKept(s, s', l, Written(lg, k));
  }
}
