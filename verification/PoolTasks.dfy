/**
 Task conservation: at any time each task scheduled so far is in exactly one place - waiting in the
 queue, just fetched by one thread, started, or handed to `pending`.
 */
module PoolTasks {
  import opened Common
  import opened PoolMachine
  import opened PoolInv
  import opened PoolProof
  import Q = QueueMachine
  import QI = QueueInv

  /** The task a thread has taken from the queue and neither started nor handed over yet. */
  function Holding(f: Frame, pc: Q.Pc): Option<Task> {
    if f.Begin? then Some(f.m) else Taken(pc)
  }

  function Taken(pc: Q.Pc): Option<Task> {
    if pc.Get? && (pc.g.GUnlock? || pc.g.GRet?) then pc.g.res else None
  }

  ghost predicate Held(s: State, m: Task)
    requires s.fr.Keys == s.qp.Keys
  {
    exists t :: t in s.fr && Holding(s.fr[t], s.qp[t]) == Some(m)
  }

  /** Every task popped so far is started, handed over or held, and nothing else is. */
  ghost predicate Ledger(s: State)
    requires s.fr.Keys == s.qp.Keys
  {
    forall m :: m in s.sh.q.deq <==> m in s.sh.started || m in s.sh.drained || Held(s, m)
  }

  /** The places exclude each other, and no place has a task twice. */
  ghost predicate Apart(s: State)
    requires s.fr.Keys == s.qp.Keys
  {
    NoDup(s.sh.q.enq) && NoDup(s.sh.started) && NoDup(s.sh.drained) &&
    (forall m :: m in s.sh.started ==> m !in s.sh.drained) &&
    (forall t :: t in s.fr && Holding(s.fr[t], s.qp[t]).Some? ==>
       Holding(s.fr[t], s.qp[t]).value !in s.sh.started && Holding(s.fr[t], s.qp[t]).value !in s.sh.drained) &&
    (forall t, u :: t in s.fr && u in s.fr && t != u && Holding(s.fr[t], s.qp[t]).Some? ==>
       Holding(s.fr[t], s.qp[t]) != Holding(s.fr[u], s.qp[u])) &&
    (forall t :: t in s.qp && Q.Flying(s.qp[t]) ==> s.qp[t].m !in s.sh.q.enq)
  }

  ghost predicate Tasks(s: State)
    requires s.fr.Keys == s.qp.Keys
  {
    Ledger(s) && Apart(s)
  }

  // ---- pool instructions ----

  /** A pool instruction starts the task its thread holds, hands it over, or leaves tasks alone. */
  predicate TaskEffect(sh: Shared, f: Frame, pc: Q.Pc, o: Out<Frame>) {
    var h := Holding(f, pc);
    if o.sh.started != sh.started then
      h.Some? && o.sh.started == sh.started + [h.value] && o.sh.drained == sh.drained && Holding(o.f, o.pc) == None
    else if o.sh.drained != sh.drained then
      h.Some? && o.sh.drained == sh.drained + [h.value] && Holding(o.f, o.pc) == None
    else Holding(o.f, o.pc) == h
  }

  lemma WorkEffect(sh: Shared, fr: map<Tid, Frame>, t: Tid, f: Frame, pc: Q.Pc)
    requires !f.User? && WorkReady(sh, fr, f, pc) && QueueMatch(f, pc)
    ensures TaskEffect(sh, f, pc, WorkStep(sh, t, f, pc))
  {
  }

  lemma UserEffect(sh: Shared, fr: map<Tid, Frame>, t: Tid, f: Frame, pc: Q.Pc, made: Option<Tid>)
    requires f.User? && ActReady(sh, fr, t, f.a, pc) && QueueMatch(f, pc)
    ensures var o := ActStep(sh, t, f.task.Some?, f.a, pc, made); TaskEffect(sh, f, pc, Out(o.sh, f.(a := o.f), o.pc, o.spawn))
  {
    if f.a.Ds? {
      match f.a.d
      case DrainGet =>
      case _ =>
    }
  }

  lemma HeldBefore(s: State, t: Tid, o: Out<Frame>, m: Task)
    requires Keys(s) && t in s.fr && TaskEffect(s.sh, s.fr[t], s.qp[t], o)
    requires o.spawn.Some? ==> o.spawn.value !in s.fr
    requires Held(Merge(s, t, o), m)
    ensures Held(s, m)
  {
    var s' := Merge(s, t, o);
    var u :| u in s'.fr && Holding(s'.fr[u], s'.qp[u]) == Some(m);
    assert u in s.fr && Holding(s.fr[u], s.qp[u]) == Some(m);
  }

  lemma HeldAfter(s: State, t: Tid, o: Out<Frame>, m: Task)
    requires Keys(s) && t in s.fr && TaskEffect(s.sh, s.fr[t], s.qp[t], o)
    requires o.spawn.Some? ==> o.spawn.value !in s.fr
    requires Held(s, m)
    ensures Held(Merge(s, t, o), m) || m in o.sh.started || m in o.sh.drained
  {
    var s' := Merge(s, t, o);
    var u :| u in s.fr && Holding(s.fr[u], s.qp[u]) == Some(m);
    assert u != t ==> u in s'.fr && Holding(s'.fr[u], s'.qp[u]) == Some(m);
    assert t in s'.fr && s'.fr[t] == o.f && s'.qp[t] == o.pc;
  }

  lemma LedgerAfter(s: State, t: Tid, o: Out<Frame>)
    requires Keys(s) && Ledger(s) && t in s.fr && TaskEffect(s.sh, s.fr[t], s.qp[t], o) && o.sh.q == s.sh.q
    requires o.spawn.Some? ==> o.spawn.value !in s.fr
    ensures Ledger(Merge(s, t, o))
  {
    var s' := Merge(s, t, o);
    var h := Holding(s.fr[t], s.qp[t]);
    assert h.Some? ==> Held(s, h.value);
    forall m
      ensures m in s'.sh.q.deq <==> m in s'.sh.started || m in s'.sh.drained || Held(s', m)
    {
      if Held(s, m) { HeldAfter(s, t, o, m); }
      if Held(s', m) { HeldBefore(s, t, o, m); }
    }
  }

  lemma ApartAfter(s: State, t: Tid, o: Out<Frame>)
    requires Keys(s) && Apart(s) && t in s.fr && TaskEffect(s.sh, s.fr[t], s.qp[t], o) && o.sh.q == s.sh.q
    requires o.spawn.Some? ==> o.spawn.value !in s.fr
    requires Q.Flying(o.pc) ==> o.pc == s.qp[t]
    ensures Apart(Merge(s, t, o))
  {
    var s' := Merge(s, t, o);
    forall u | u in s'.fr && u != t
      ensures Holding(s'.fr[u], s'.qp[u]) == if u in s.fr then Holding(s.fr[u], s.qp[u]) else None
    {
    }
    assert Holding(s'.fr[t], s'.qp[t]) == Holding(o.f, o.pc);
    ApartCore(s, s', t);
  }

  /** The threads other than `t` hold what they held, and nobody puts anything new. */
  ghost predicate OthersHold(s: State, s': State, t: Tid)
    requires s.fr.Keys == s.qp.Keys && s'.fr.Keys == s'.qp.Keys
  {
    (forall u :: u in s'.fr && u != t ==>
       Holding(s'.fr[u], s'.qp[u]) == if u in s.fr then Holding(s.fr[u], s.qp[u]) else None) &&
    forall u :: u in s'.qp && Q.Flying(s'.qp[u]) ==> u in s.qp && s'.qp[u] == s.qp[u]
  }

  lemma ApartHolders(s: State, s': State, t: Tid)
    requires Keys(s) && Apart(s) && t in s.fr && s'.fr.Keys == s'.qp.Keys && t in s'.fr
    requires OthersHold(s, s', t) && Holding(s'.fr[t], s'.qp[t]) == Holding(s.fr[t], s.qp[t])
    ensures forall u, v :: u in s'.fr && v in s'.fr && u != v && Holding(s'.fr[u], s'.qp[u]).Some? ==>
      Holding(s'.fr[u], s'.qp[u]) != Holding(s'.fr[v], s'.qp[v])
  {
    forall u, v | u in s'.fr && v in s'.fr && u != v && Holding(s'.fr[u], s'.qp[u]).Some?
      ensures Holding(s'.fr[u], s'.qp[u]) != Holding(s'.fr[v], s'.qp[v])
    {
      assert u in s.fr && Holding(s.fr[u], s.qp[u]) == Holding(s'.fr[u], s'.qp[u]);
    }
  }

  lemma ApartSame(s: State, s': State, t: Tid)
    requires Keys(s) && Apart(s) && t in s.fr && s'.fr.Keys == s'.qp.Keys && s'.sh.q == s.sh.q && t in s'.fr
    requires OthersHold(s, s', t) && Holding(s'.fr[t], s'.qp[t]) == Holding(s.fr[t], s.qp[t])
    requires s'.sh.started == s.sh.started && s'.sh.drained == s.sh.drained
    ensures Apart(s')
  {
    ApartHolders(s, s', t);
    forall u | u in s'.fr && Holding(s'.fr[u], s'.qp[u]).Some?
      ensures u in s.fr && Holding(s.fr[u], s.qp[u]) == Holding(s'.fr[u], s'.qp[u]) {
    }
  }

  lemma ApartStarted(s: State, s': State, t: Tid)
    requires Keys(s) && Apart(s) && t in s.fr && s'.fr.Keys == s'.qp.Keys && s'.sh.q == s.sh.q && t in s'.fr
    requires OthersHold(s, s', t) && Holding(s.fr[t], s.qp[t]).Some? && Holding(s'.fr[t], s'.qp[t]) == None
    requires s'.sh.started == s.sh.started + [Holding(s.fr[t], s.qp[t]).value] && s'.sh.drained == s.sh.drained
    ensures Apart(s')
  {
  }

  lemma ApartDrained(s: State, s': State, t: Tid)
    requires Keys(s) && Apart(s) && t in s.fr && s'.fr.Keys == s'.qp.Keys && s'.sh.q == s.sh.q && t in s'.fr
    requires OthersHold(s, s', t) && Holding(s.fr[t], s.qp[t]).Some? && Holding(s'.fr[t], s'.qp[t]) == None
    requires s'.sh.drained == s.sh.drained + [Holding(s.fr[t], s.qp[t]).value] && s'.sh.started == s.sh.started
    ensures Apart(s')
  {
  }

  lemma ApartCore(s: State, s': State, t: Tid)
    requires Keys(s) && Apart(s) && t in s.fr && s'.fr.Keys == s'.qp.Keys && s'.sh.q == s.sh.q && t in s'.fr
    requires forall u :: u in s'.fr && u != t ==>
               Holding(s'.fr[u], s'.qp[u]) == if u in s.fr then Holding(s.fr[u], s.qp[u]) else None
    requires var h, h' := Holding(s.fr[t], s.qp[t]), Holding(s'.fr[t], s'.qp[t]);
      (h' == h && s'.sh.started == s.sh.started && s'.sh.drained == s.sh.drained) ||
      (h.Some? && h' == None &&
       ((s'.sh.started == s.sh.started + [h.value] && s'.sh.drained == s.sh.drained) ||
        (s'.sh.drained == s.sh.drained + [h.value] && s'.sh.started == s.sh.started)))
    requires forall u :: u in s'.qp && Q.Flying(s'.qp[u]) ==> u in s.qp && s'.qp[u] == s.qp[u]
    ensures Apart(s')
  {
    if s'.sh.started != s.sh.started {
      ApartStarted(s, s', t);
    } else if s'.sh.drained != s.sh.drained {
      ApartDrained(s, s', t);
    } else {
      ApartSame(s, s', t);
    }
  }

  lemma PoolTasksKept(s: State, t: Tid, made: Option<Tid>)
    requires Keys(s) && Threads(s) && Tasks(s) && Enabled(s, Pool(t, made))
    ensures Tasks(Apply(s, Pool(t, made)))
  {
    var f, pc := s.fr[t], s.qp[t];
    assert Hold(s.sh, t, f, pc);
    QueueSide(s, t, made);
    if f.User? { UserEffect(s.sh, s.fr, t, f, pc, made); } else { WorkEffect(s.sh, s.fr, t, f, pc); }
    LedgerAfter(s, t, PoolStep(s, t, made));
    ApartAfter(s, t, PoolStep(s, t, made));
  }

  // ---- queue instructions ----

  /** A queue instruction appends the message of its put, pops the first message, or does neither. */
  predicate QueueEffect(q: Q.Shared, pc: Q.Pc, q': Q.Shared, pc': Q.Pc) {
    (Q.Flying(pc') ==> Q.Flying(pc) && pc'.m == pc.m) &&
    if q'.enq != q.enq then
      Q.Flying(pc) && !Q.Flying(pc') && q'.enq == q.enq + [pc.m] && q'.deq == q.deq && pc.Put? && pc'.Put?
    else if q'.deq != q.deq then
      q.getq != [] && q'.deq == q.deq + [q.getq[0]] && pc == Q.Get(Q.GPop) && pc' == Q.Get(Q.GUnlock(Some(q.getq[0])))
    else Taken(pc') == Taken(pc)
  }

  lemma PutEffect(q: Q.Shared, t: Tid, m: Q.Msg, p: Q.PutPc, w: Tid)
    ensures var (q', p') := Q.PutStep(q, t, m, p, w); QueueEffect(q, Q.Put(m, p), q', Q.Put(m, p'))
  {
  }

  lemma GetEffect(q: Q.Shared, t: Tid, g: Q.GetPc)
    requires QI.Lists(q) && QI.Local(q, t, Q.Get(g)) && Q.Ready(q, t, Q.Get(g))
    ensures var (q', g') := Q.GetStep(q, t, g); QueueEffect(q, Q.Get(g), q', Q.Get(g'))
  {
    QI.FirstCell(q);
  }

  lemma ExecEffect(q: Q.Shared, t: Tid, pc: Q.Pc, w: Tid)
    requires QI.Lists(q) && QI.Local(q, t, pc) && Q.Ready(q, t, pc)
    ensures var (q', pc') := Q.Exec(q, t, pc, w); QueueEffect(q, pc, q', pc')
  {
    match pc
    case Idle =>
    case Put(m, p) => PutEffect(q, t, m, p, w);
    case Get(g) => GetEffect(q, t, g);
    case Mode(k) =>
  }

  /** The first message of the queue has not been popped before, and no task is in the queue twice. */
  lemma FirstIsNew(q: Q.Shared)
    requires QI.Book(q) && NoDup(q.enq) && q.getq != []
    ensures q.getq[0] !in q.deq
  {
    assert q.enq[|q.deq|] == q.getq[0];
    forall i | 0 <= i < |q.deq| ensures q.deq[i] != q.getq[0] {
      assert q.enq[i] == q.deq[i];
    }
  }

  lemma QueueTasksCore(s: State, s': State, t: Tid)
    requires Keys(s) && Tasks(s) && t in s.fr && Hold(s.sh, t, s.fr[t], s.qp[t]) && QI.Book(s.sh.q) && QI.Flights(QueueOf(s))
    requires t in s'.qp && s'.fr == s.fr && s'.qp == s.qp[t := s'.qp[t]] && s'.sh == s.sh.(q := s'.sh.q)
    requires QueueEffect(s.sh.q, s.qp[t], s'.sh.q, s'.qp[t])
    ensures Tasks(s')
  {
    if s'.sh.q.enq == s.sh.q.enq && s'.sh.q.deq != s.sh.q.deq {
      FirstIsNew(s.sh.q);
      PopTasks(s, s', t, s.sh.q.getq[0]);
    } else {
      SameTasks(s, s', t);
    }
  }

  lemma QueueAfter(s: State, t: Tid, w: Tid)
    requires t in s.qp && Enabled(s, Queue(t, w))
    ensures var s' := Apply(s, Queue(t, w));
      t in s'.qp && s'.fr == s.fr && s'.qp == s.qp[t := s'.qp[t]] && s'.sh == s.sh.(q := s'.sh.q) &&
      (s'.sh.q, s'.qp[t]) == Q.Exec(s.sh.q, t, s.qp[t], w)
  {
  }

  lemma QueueTasksKept(s: State, t: Tid, w: Tid)
    requires Keys(s) && Threads(s) && Tasks(s) && Enabled(s, Queue(t, w))
    requires QI.Book(s.sh.q) && QI.Lists(s.sh.q) && QI.Locals(QueueOf(s)) && QI.Flights(QueueOf(s))
    ensures Tasks(Apply(s, Queue(t, w)))
  {
    var s' := Apply(s, Queue(t, w));
    QueueAfter(s, t, w);
    assert QI.Local(s.sh.q, t, s.qp[t]) && Hold(s.sh, t, s.fr[t], s.qp[t]);
    ExecEffect(s.sh.q, t, s.qp[t], w);
    QueueTasksCore(s, s', t);
  }

  lemma PopTasks(s: State, s': State, t: Tid, m: Task)
    requires Keys(s) && Tasks(s) && t in s.fr && m !in s.sh.q.deq
    requires s'.fr == s.fr && t in s'.qp && s'.qp == s.qp[t := s'.qp[t]]
    requires s'.sh == s.sh.(q := s'.sh.q) && s'.sh.q.enq == s.sh.q.enq && s'.sh.q.deq == s.sh.q.deq + [m]
    requires Holding(s.fr[t], s.qp[t]) == None && Holding(s.fr[t], s'.qp[t]) == Some(m) && !Q.Flying(s'.qp[t])
    ensures Tasks(s')
  {
    assert Held(s', m);
    forall x: Task ensures x in s'.sh.q.deq <==> x in s'.sh.started || x in s'.sh.drained || Held(s', x) {
      if Held(s, x) {
        var u :| u in s.fr && Holding(s.fr[u], s.qp[u]) == Some(x);
        assert u in s'.fr && Holding(s'.fr[u], s'.qp[u]) == Some(x);
      }
      if Held(s', x) && x != m {
        var u :| u in s'.fr && Holding(s'.fr[u], s'.qp[u]) == Some(x);
        assert u in s.fr && Holding(s.fr[u], s.qp[u]) == Some(x);
      }
    }
    forall u | u in s.fr && u != t && Holding(s.fr[u], s.qp[u]).Some?
      ensures Holding(s.fr[u], s.qp[u]) != Some(m)
    {
      assert Held(s, Holding(s.fr[u], s.qp[u]).value);
    }
  }

  lemma SameLedger(s: State, s': State)
    requires Keys(s) && Ledger(s) && s'.fr.Keys == s'.qp.Keys == s.fr.Keys
    requires forall u :: u in s.fr ==> Holding(s'.fr[u], s'.qp[u]) == Holding(s.fr[u], s.qp[u])
    requires s'.sh.started == s.sh.started && s'.sh.drained == s.sh.drained && s'.sh.q.deq == s.sh.q.deq
    ensures Ledger(s')
  {
    forall x: Task ensures Held(s', x) <==> Held(s, x) {
      if Held(s, x) {
        var u :| u in s.fr && Holding(s.fr[u], s.qp[u]) == Some(x);
        assert u in s'.fr && Holding(s'.fr[u], s'.qp[u]) == Some(x);
      }
    }
  }

  lemma SameApart(s: State, s': State, t: Tid)
    requires Keys(s) && Apart(s) && t in s.fr && t in s'.qp && s'.qp == s.qp[t := s'.qp[t]]
    requires s'.fr.Keys == s.fr.Keys && (forall u :: u in s.fr ==> Holding(s'.fr[u], s'.qp[u]) == Holding(s.fr[u], s.qp[u]))
    requires s'.sh.started == s.sh.started && s'.sh.drained == s.sh.drained
    requires s'.sh.q.enq == s.sh.q.enq || (Q.Flying(s.qp[t]) && s'.sh.q.enq == s.sh.q.enq + [s.qp[t].m] && !Q.Flying(s'.qp[t]))
    requires s'.sh.q.enq != s.sh.q.enq ==> QI.Flights(QueueOf(s))
    requires Q.Flying(s'.qp[t]) ==> s'.qp[t].m !in s'.sh.q.enq
    ensures Apart(s')
  {
  }

  lemma SameTasks(s: State, s': State, t: Tid)
    requires Keys(s) && Tasks(s) && t in s.fr && t in s'.qp && s'.qp == s.qp[t := s'.qp[t]]
    requires s'.fr.Keys == s.fr.Keys && (forall u :: u in s.fr ==> Holding(s'.fr[u], s'.qp[u]) == Holding(s.fr[u], s.qp[u]))
    requires s'.sh.started == s.sh.started && s'.sh.drained == s.sh.drained && s'.sh.q.deq == s.sh.q.deq
    requires s'.sh.q.enq == s.sh.q.enq || (Q.Flying(s.qp[t]) && s'.sh.q.enq == s.sh.q.enq + [s.qp[t].m] && !Q.Flying(s'.qp[t]))
    requires s'.sh.q.enq != s.sh.q.enq ==> QI.Flights(QueueOf(s))
    requires Q.Flying(s'.qp[t]) ==> s'.qp[t].m !in s'.sh.q.enq
    ensures Tasks(s')
  {
    SameLedger(s, s');
    SameApart(s, s', t);
  }
}
