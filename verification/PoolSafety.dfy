/** The whole invariant of the pool, and its preservation by every action. */
module PoolSafety {
  import opened Common
  import opened PoolMachine
  import opened PoolInv
  import opened PoolProof
  import opened PoolCount
  import opened PoolJoin
  import opened PoolTasks
  import Q = QueueMachine
  import QI = QueueInv

  /** A terminator asleep and not notified has workers to wait for, or is about to be signalled. */
  ghost predicate TermWake(s: State) {
    s.sh.termCond == {} || s.sh.nthreads > 0 ||
    (s.sh.owner.Some? && s.sh.owner.value in s.fr && s.fr[s.sh.owner.value].ExSignal?)
  }

  /** What single threads know. */
  ghost predicate Known(s: State) {
    Keys(s) && Book(s.sh) && Threads(s)
  }

  /** What spans threads: counts, joins and the wakeup of the terminator. */
  ghost predicate Linked(s: State) {
    Uncounted(s) && Count(s) && JoinChain(s.sh, s.fr) && TermWake(s)
  }

  ghost predicate Inv(s: State) {
    Known(s) && Linked(s) && Tasks(s) && QI.Inv(QueueOf(s))
  }

  // ---- the terminator's condition variable ----

  predicate TermEffect(sh: Shared, t: Tid, o: Out<Frame>) {
    o.sh.termCond == {} || o.sh.nthreads > 0 || (o.f.ExSignal? && o.sh.owner == Some(t)) ||
    (sh.termCond != {} && sh.nthreads == 0 && o.sh.owner == sh.owner && sh.owner != Some(t))
  }

  lemma OneTerminator(s: State)
    requires Keys(s) && Threads(s)
    ensures forall u :: u in s.sh.termCond ==> s.sh.destroyer == Some(u)
  {
  }

  lemma WorkTerm(sh: Shared, fr: map<Tid, Frame>, t: Tid, f: Frame, pc: Q.Pc)
    requires !f.User? && WorkReady(sh, fr, f, pc) && Hold(sh, t, f, pc)
    requires sh.termCond == {} || sh.nthreads > 0 || (sh.owner == Some(t) ==> f.ExSignal?)
    requires sh.termCond != {} && sh.nthreads == 0 ==> sh.owner.Some?
    ensures TermEffect(sh, t, WorkStep(sh, t, f, pc))
  {
  }

  lemma UserTerm(sh: Shared, fr: map<Tid, Frame>, t: Tid, f: Frame, pc: Q.Pc, made: Option<Tid>)
    requires f.User? && ActReady(sh, fr, t, f.a, pc) && Place(sh, t, f) && Hold(sh, t, f, pc)
    requires forall u :: u in sh.termCond ==> sh.destroyer == Some(u)
    requires sh.termCond != {} && sh.nthreads == 0 ==> sh.owner.Some? && sh.owner != Some(t)
    ensures var o := ActStep(sh, t, f.task.Some?, f.a, pc, made); TermEffect(sh, t, Out(o.sh, f.(a := o.f), o.pc, o.spawn))
  {
    assert f.a.Ds? && f.a.d != DsWait ==> sh.termCond == {};
    if f.a.Ds? {
      match f.a.d
      case DsDetach =>
      case DsTest =>
      case _ =>
    }
  }

  lemma TermWakeKept(s: State, t: Tid, made: Option<Tid>)
    requires Keys(s) && Threads(s) && TermWake(s) && Enabled(s, Pool(t, made))
    requires PoolStep(s, t, made).spawn.Some? ==> PoolStep(s, t, made).spawn.value !in s.fr
    ensures TermWake(Apply(s, Pool(t, made)))
  {
    OneTerminator(s);
    assert Place(s.sh, t, s.fr[t]) && Hold(s.sh, t, s.fr[t], s.qp[t]);
    if s.fr[t].User? { UserTerm(s.sh, s.fr, t, s.fr[t], s.qp[t], made); } else { WorkTerm(s.sh, s.fr, t, s.fr[t], s.qp[t]); }
  }

  lemma PoolKeeps(s: State, t: Tid, made: Option<Tid>)
    requires Inv(s) && Enabled(s, Pool(t, made))
    ensures Inv(Apply(s, Pool(t, made)))
  {
    var o := PoolStep(s, t, made);
    StepKept(s, t, made);
    QueueSide(s, t, made);
    StepTally(s, t, made);
    CreationOwned(s, t, made);
    MergeThreads(s, t, o);
    UncountedKept(s, t, o);
    CountKept(s, t, o);
    ChainKept(s, t, made);
    PoolTasksKept(s, t, made);
    TermWakeKept(s, t, made);
    QueueSideKept(s, t, made);
  }

  // ---- queue instructions ----

  /** A queue instruction keeps its thread in the same operation and answers NULL only in nonblocking mode. */
  predicate SameOperation(q: Q.Shared, pc: Q.Pc, q': Q.Shared, pc': Q.Pc) {
    match pc
    case Idle => false
    case Put(m, _) => pc'.Put? && pc'.m == m && q'.nonblock == q.nonblock
    case Get(_) =>
      pc'.Get? && q'.nonblock == q.nonblock && q'.enq == q.enq &&
      (GetsNull(pc') ==> GetsNull(pc) || q.nonblock) && (GetsSome(pc') ==> GetsSome(pc) || q.enq != [])
    case Mode(k) =>
      pc'.Mode? && q'.enq == q.enq &&
      (k != Q.BSet && k != Q.BRet ==>
         pc'.k != Q.NSet && pc'.k != Q.BSet && pc'.k != Q.BRet && q'.nonblock == (q.nonblock || k == Q.NSet))
  }

  lemma ExecSame(q: Q.Shared, t: Tid, pc: Q.Pc, w: Tid)
    requires QI.Lists(q) && QI.Book(q) && QI.Local(q, t, pc) && Q.Ready(q, t, pc)
    ensures var (q', pc') := Q.Exec(q, t, pc, w); SameOperation(q, pc, q', pc')
  {
    QI.FirstCell(q);
    match pc
    case Idle =>
    case Put(m, p) =>
    case Get(g) =>
    case Mode(k) =>
  }

  lemma ExecKind(sh: Shared, t: Tid, f: Frame, pc: Q.Pc, q': Q.Shared, pc': Q.Pc)
    requires SameOperation(sh.q, pc, q', pc') && Book(sh) && Place(sh, t, f) && Hold(sh, t, f, pc)
    ensures var sh' := sh.(q := q'); Book(sh') && Hold(sh', t, f, pc') && Guarantee(sh, sh', t)
  {
  }

  /** The counts and the chain do not depend on the queue or on who sleeps. */
  lemma SameCounts(s: State, s': State)
    requires Uncounted(s) && Count(s) && JoinChain(s.sh, s.fr) && TermWake(s) && s'.fr == s.fr
    requires s'.sh == s.sh.(q := s'.sh.q, termCond := s'.sh.termCond) && s'.sh.termCond <= s.sh.termCond
    ensures Uncounted(s') && Count(s') && JoinChain(s'.sh, s'.fr) && TermWake(s')
  {
    assert Active(s') == Active(s);
    forall k | 0 <= k < |s.sh.exits| ensures Link(s'.sh, s'.fr, k) {
      assert Link(s.sh, s.fr, k);
    }
  }

  lemma QueueShape(s: State, t: Tid, w: Tid)
    requires Enabled(s, Queue(t, w))
    ensures var s' := Apply(s, Queue(t, w)); var (q', pc') := Q.Exec(s.sh.q, t, s.qp[t], w);
            s' == State(s.sh.(q := q'), s.fr, s.qp[t := pc']) && Q.Ready(s.sh.q, t, s.qp[t])
  {
  }

  lemma QueueKnown(s: State, s': State, t: Tid, q': Q.Shared, pc': Q.Pc)
    requires Known(s) && t in s.fr && SameOperation(s.sh.q, s.qp[t], q', pc')
    requires s' == State(s.sh.(q := q'), s.fr, s.qp[t := pc'])
    ensures Known(s')
  {
    ExecKind(s.sh, t, s.fr[t], s.qp[t], q', pc');
    OtherThreads(s, s'.sh, t);
  }

  lemma QueueLocal(s: State, t: Tid, w: Tid)
    requires Keys(s) && QI.Inv(QueueOf(s)) && t in s.fr && Q.Ready(s.sh.q, t, s.qp[t])
    ensures var (q', pc') := Q.Exec(s.sh.q, t, s.qp[t], w); SameOperation(s.sh.q, s.qp[t], q', pc')
  {
    assert QI.Local(s.sh.q, t, s.qp[t]);
    ExecSame(s.sh.q, t, s.qp[t], w);
  }

  lemma QueueKeepsPool(s: State, t: Tid, w: Tid)
    requires Known(s) && Linked(s) && QI.Inv(QueueOf(s)) && Enabled(s, Queue(t, w))
    ensures Known(Apply(s, Queue(t, w))) && Linked(Apply(s, Queue(t, w)))
  {
    var s' := Apply(s, Queue(t, w));
    QueueShape(s, t, w);
    QueueLocal(s, t, w);
    QueueKnown(s, s', t, s'.sh.q, s'.qp[t]);
    SameCounts(s, s');
  }

  lemma QueueKeeps(s: State, t: Tid, w: Tid)
    requires Inv(s) && Enabled(s, Queue(t, w))
    ensures Inv(Apply(s, Queue(t, w)))
  {
    QueueKeepsPool(s, t, w);
    QueueTasksKept(s, t, w);
    QI.RunKeeps(QueueOf(s), t, w);
    assert QueueOf(Apply(s, Queue(t, w))) == Q.Apply(QueueOf(s), Q.Run(t, w));
  }

  /** Waking a sleeper changes nothing the threads know. */
  lemma SameKnown(s: State, s': State)
    requires Known(s) && s'.fr == s.fr && s'.qp == s.qp && s'.sh.q.nonblock == s.sh.q.nonblock && s'.sh.q.enq == s.sh.q.enq
    requires s'.sh == s.sh.(q := s'.sh.q, termCond := s'.sh.termCond) && s'.sh.termCond <= s.sh.termCond
    ensures Known(s')
  {
    forall u | u in s.fr ensures Place(s'.sh, u, s.fr[u]) && Hold(s'.sh, u, s.fr[u], s.qp[u]) {
      assert Place(s.sh, u, s.fr[u]) && Hold(s.sh, u, s.fr[u], s.qp[u]);
    }
  }

  lemma QueueWakeKeeps(s: State, t: Tid)
    requires Inv(s) && Enabled(s, QueueWake(t))
    ensures Inv(Apply(s, QueueWake(t)))
  {
    var s' := Apply(s, QueueWake(t));
    QI.SpuriousKeeps(QueueOf(s), t);
    assert s' == State(s.sh.(q := s'.sh.q), s.fr, s.qp) && QueueOf(s') == Q.Apply(QueueOf(s), Q.Spurious(t));
    SameCounts(s, s');
    SameKnown(s, s');
    SameAll(s, s');
  }

  lemma SameAll(s: State, s': State)
    requires Keys(s) && Tasks(s) && s'.fr == s.fr && s'.qp == s.qp && s'.sh.started == s.sh.started
    requires s'.sh.drained == s.sh.drained && s'.sh.q.deq == s.sh.q.deq && s'.sh.q.enq == s.sh.q.enq
    ensures Tasks(s')
  {
    SameLedger(s, s');
  }

  lemma PoolWakeKnown(s: State)
    requires Known(s) && Linked(s)
    ensures Known(Apply(s, PoolWake)) && Linked(Apply(s, PoolWake))
  {
    SameCounts(s, Apply(s, PoolWake));
    SameKnown(s, Apply(s, PoolWake));
  }

  lemma PoolWakeTasks(s: State)
    requires Keys(s) && Tasks(s)
    ensures Tasks(Apply(s, PoolWake)) && QueueOf(Apply(s, PoolWake)) == QueueOf(s)
  {
    SameAll(s, Apply(s, PoolWake));
  }

  lemma PoolWakeKeeps(s: State)
    requires Inv(s)
    ensures Inv(Apply(s, PoolWake))
  {
    PoolWakeKnown(s);
    PoolWakeTasks(s);
  }

  // ---- calls of user code ----

  lemma ArriveKnown(s: State, t: Tid)
    requires Known(s) && t !in s.fr
    ensures Known(State(s.sh, s.fr[t := User(None, Rest)], s.qp[t := Q.Idle]))
  {
    NewThread(s.sh, t, User(None, Rest));
  }

  lemma ArriveLinked(s: State, t: Tid, qp': map<Tid, Q.Pc>)
    requires Keys(s) && Linked(s) && t !in s.fr
    ensures Linked(State(s.sh, s.fr[t := User(None, Rest)], qp'))
  {
    var s' := State(s.sh, s.fr[t := User(None, Rest)], qp');
    assert Active(s') == Active(s);
    SpawnKeeps(s.sh, s.fr, t, User(None, Rest));
  }

  lemma ArriveApart(s: State, t: Tid)
    requires Keys(s) && Apart(s) && t !in s.fr
    ensures Apart(State(s.sh, s.fr[t := User(None, Rest)], s.qp[t := Q.Idle]))
  {
  }

  lemma ArriveLedger(s: State, t: Tid)
    requires Keys(s) && Ledger(s) && t !in s.fr
    ensures Ledger(State(s.sh, s.fr[t := User(None, Rest)], s.qp[t := Q.Idle]))
  {
    var s' := State(s.sh, s.fr[t := User(None, Rest)], s.qp[t := Q.Idle]);
    forall x: Task ensures Held(s', x) <==> Held(s, x) {
      if Held(s, x) {
        var u :| u in s.fr && Holding(s.fr[u], s.qp[u]) == Some(x);
        assert u in s'.fr && Holding(s'.fr[u], s'.qp[u]) == Some(x);
      }
    }
  }

  lemma ArriveTasks(s: State, t: Tid)
    requires Keys(s) && Tasks(s) && t !in s.fr
    ensures Tasks(State(s.sh, s.fr[t := User(None, Rest)], s.qp[t := Q.Idle]))
  {
    ArriveApart(s, t);
    ArriveLedger(s, t);
  }

  lemma ArriveKeeps(s: State, t: Tid)
    requires Inv(s) && Enabled(s, Arrive(t))
    ensures Inv(Apply(s, Arrive(t)))
  {
    ArriveKnown(s, t);
    ArriveLinked(s, t, s.qp[t := Q.Idle]);
    ArriveTasks(s, t);
    QI.ArriveKeeps(QueueOf(s), t);
    assert QueueOf(Apply(s, Arrive(t))) == Q.Apply(QueueOf(s), Q.Arrive(t));
  }

  /**
   User code of `t` starts a call or returns from its task. Only its own frame, its queue counter and,
   when it starts to destroy the pool, the record of that change.
   */
  predicate UserChange(s: State, s': State, t: Tid) {
    t in s.fr && t in s.qp && t in s'.fr && t in s'.qp &&
    s'.fr == s.fr[t := s'.fr[t]] && s'.qp == s.qp[t := s'.qp[t]] &&
    s'.sh == s.sh.(q := s'.sh.q, destroyer := s'.sh.destroyer, stage := s'.sh.stage) &&
    s'.sh.q == s.sh.q.(mem := s'.sh.q.mem) &&
    s.fr[t].User? && (s.fr[t].a == Rest || s.fr[t].a == Ds(DsDone)) && Alive(s'.fr[t]) == Alive(s.fr[t]) &&
    ((s'.sh.destroyer == s.sh.destroyer && s'.sh.stage == s.sh.stage) ||
     (s.sh.destroyer == None && s'.sh.destroyer == Some(t) && s.sh.stage == 0 && s'.sh.stage == 1))
  }

  lemma UserLinked(s: State, s': State, t: Tid)
    requires Known(s) && Linked(s) && UserChange(s, s', t)
    ensures Linked(s')
  {
    assert Hold(s.sh, t, s.fr[t], s.qp[t]) && Place(s.sh, t, s.fr[t]);
    UserActive(s, s', t);
    OtherKeeps(s.sh, s.fr, t, s'.sh, s'.fr[t]);
  }

  lemma UserActive(s: State, s': State, t: Tid)
    requires UserChange(s, s', t)
    ensures Active(s') == Active(s)
  {
    forall u | u in s.fr ensures u in Active(s') <==> u in Active(s) {
    }
  }

  lemma UserTasks(s: State, s': State, t: Tid)
    requires Keys(s) && Tasks(s) && UserChange(s, s', t) && QueueMatch(s.fr[t], s.qp[t])
    requires !s'.fr[t].Begin? && !s'.qp[t].Get? && (s'.qp[t].Put? ==> s'.qp[t].m !in s.sh.q.enq)
    ensures Tasks(s')
  {
    forall u | u in s.fr ensures Holding(s'.fr[u], s'.qp[u]) == Holding(s.fr[u], s.qp[u]) {
    }
    SameTasks(s, s', t);
  }

  lemma SameBook(sh: Shared, sh': Shared, t: Tid)
    requires Book(sh) && sh' == sh.(q := sh'.q) && sh'.q.nonblock == sh.q.nonblock && sh'.q.enq == sh.q.enq
    ensures Book(sh') && Guarantee(sh, sh', t)
  {
  }

  lemma SameLocal(sh: Shared, sh': Shared, u: Tid, f: Frame, pc: Q.Pc)
    requires Place(sh, u, f) && Hold(sh, u, f, pc)
    requires sh' == sh.(q := sh'.q) && sh'.q.nonblock == sh.q.nonblock
    ensures Place(sh', u, f) && Hold(sh', u, f, pc)
  {
  }

  lemma UserThreads(s: State, s': State, t: Tid)
    requires Known(s) && UserChange(s, s', t) && s'.sh == s.sh.(q := s'.sh.q)
    requires Place(s.sh, t, s'.fr[t]) && Hold(s.sh, t, s'.fr[t], s'.qp[t])
    ensures Threads(s')
  {
    SameLocal(s.sh, s'.sh, t, s'.fr[t], s'.qp[t]);
    forall u | u in s'.fr && u != t ensures Place(s'.sh, u, s'.fr[u]) && Hold(s'.sh, u, s'.fr[u], s'.qp[u]) {
      assert Place(s.sh, u, s.fr[u]) && Hold(s.sh, u, s.fr[u], s.qp[u]);
      SameLocal(s.sh, s'.sh, u, s.fr[u], s.qp[u]);
    }
  }

  lemma UserKeys(s: State, s': State, t: Tid)
    requires Keys(s) && UserChange(s, s', t)
    ensures Keys(s')
  {
  }

  lemma UserBook(s: State, s': State, t: Tid)
    requires Book(s.sh) && UserChange(s, s', t) && s'.sh == s.sh.(q := s'.sh.q)
    ensures Book(s'.sh)
  {
    SameBook(s.sh, s'.sh, t);
  }

  /** An ordinary call, or the return from a task. */
  lemma UserKnown(s: State, s': State, t: Tid)
    requires Known(s) && UserChange(s, s', t) && s'.sh.stage == s.sh.stage && s'.sh.destroyer == s.sh.destroyer
    requires Place(s.sh, t, s'.fr[t]) && Hold(s.sh, t, s'.fr[t], s'.qp[t])
    ensures Known(s')
  {
    assert s'.sh == s.sh.(q := s'.sh.q);
    UserKeys(s, s', t);
    UserBook(s, s', t);
    UserThreads(s, s', t);
  }

  lemma FinishLocal(sh: Shared, t: Tid, f: Frame, pc: Q.Pc)
    requires Place(sh, t, f) && Hold(sh, t, f, pc) && f.User? && f.task.Some? && (f.a == Rest || f.a == Ds(DsDone))
    ensures Place(sh, t, After) && Hold(sh, t, After, pc)
  {
  }

  lemma UserReady(s: State, t: Tid)
    requires Known(s) && t in s.fr && s.fr[t].User? && (s.fr[t].a == Rest || s.fr[t].a == Ds(DsDone))
    ensures s.qp[t] == Q.Idle && Place(s.sh, t, s.fr[t]) && Hold(s.sh, t, s.fr[t], s.qp[t])
  {
  }

  /** The call itself changes nothing but the thread's own place. */
  lemma ScheduleShape(s: State, t: Tid, m: Task)
    requires Enabled(s, Schedule(t, m)) && s.qp[t] == Q.Idle
    ensures var s' := Apply(s, Schedule(t, m));
      UserChange(s, s', t) && s'.sh.stage == s.sh.stage && s'.sh.destroyer == s.sh.destroyer &&
      s'.fr[t] == s.fr[t].(a := Sched(m)) && s'.qp[t] == Q.Put(m, Q.PLock) && m !in s.sh.q.enq &&
      QueueOf(s') == Q.Apply(QueueOf(s), Q.Invoke(t, Q.DoPut(m)))
  {
  }

  lemma ScheduleLocal(sh: Shared, t: Tid, f: Frame, m: Task)
    requires Place(sh, t, f) && Hold(sh, t, f, Q.Idle) && f.User? && f.a == Rest && sh.published && Book(sh)
    requires f.task == None ==> sh.destroyer == None
    ensures Place(sh, t, f.(a := Sched(m))) && Hold(sh, t, f.(a := Sched(m)), Q.Put(m, Q.PLock))
  {
  }

  lemma ScheduleChange(s: State, t: Tid, m: Task)
    requires Known(s) && Enabled(s, Schedule(t, m))
    ensures var s' := Apply(s, Schedule(t, m));
            UserChange(s, s', t) && Known(s') && QueueMatch(s.fr[t], s.qp[t]) && s'.fr[t].User? &&
            s'.qp[t] == Q.Put(m, Q.PLock) && m !in s.sh.q.enq &&
            QueueOf(s') == Q.Apply(QueueOf(s), Q.Invoke(t, Q.DoPut(m)))
  {
    UserReady(s, t);
    ScheduleShape(s, t, m);
    ScheduleLocal(s.sh, t, s.fr[t], m);
    UserKnown(s, Apply(s, Schedule(t, m)), t);
  }

  lemma ScheduleKeeps(s: State, t: Tid, m: Task)
    requires Inv(s) && Enabled(s, Schedule(t, m))
    ensures Inv(Apply(s, Schedule(t, m)))
  {
    var s' := Apply(s, Schedule(t, m));
    ScheduleChange(s, t, m);
    UserLinked(s, s', t);
    UserTasks(s, s', t);
    QI.InvokeKeeps(QueueOf(s), t, Q.DoPut(m));
  }

  lemma LocalCallKeeps(s: State, s': State, t: Tid)
    requires Inv(s) && UserChange(s, s', t) && s'.sh.q == s.sh.q && s'.qp == s.qp && !s'.fr[t].Begin? && Known(s')
    ensures Inv(s')
  {
    UserReady(s, t);
    UserLinked(s, s', t);
    UserTasks(s, s', t);
    assert QueueOf(s') == QueueOf(s);
  }

  lemma IncreaseShape(s: State, t: Tid)
    requires Enabled(s, Increase(t))
    ensures var s' := Apply(s, Increase(t));
      UserChange(s, s', t) && s'.sh == s.sh && s'.qp == s.qp && s'.fr[t] == s.fr[t].(a := IncLock)
  {
    assert s.qp == s.qp[t := s.qp[t]];
  }

  lemma IncreaseLocal(sh: Shared, t: Tid, f: Frame)
    requires Place(sh, t, f) && Hold(sh, t, f, Q.Idle) && f.User? && f.a == Rest && sh.published && Book(sh)
    requires f.task == None ==> sh.destroyer == None
    ensures Place(sh, t, f.(a := IncLock)) && Hold(sh, t, f.(a := IncLock), Q.Idle)
  {
  }

  lemma IncreaseChange(s: State, t: Tid)
    requires Known(s) && Enabled(s, Increase(t))
    ensures UserChange(s, Apply(s, Increase(t)), t) && Known(Apply(s, Increase(t)))
  {
    UserReady(s, t);
    IncreaseShape(s, t);
    IncreaseLocal(s.sh, t, s.fr[t]);
    UserKnown(s, Apply(s, Increase(t)), t);
  }

  lemma IncreaseKeeps(s: State, t: Tid)
    requires Inv(s) && Enabled(s, Increase(t))
    ensures Inv(Apply(s, Increase(t)))
  {
    IncreaseChange(s, t);
    LocalCallKeeps(s, Apply(s, Increase(t)), t);
  }

  lemma FinishChange(s: State, t: Tid)
    requires Known(s) && Enabled(s, Finish(t))
    ensures UserChange(s, Apply(s, Finish(t)), t) && Known(Apply(s, Finish(t)))
  {
    var s' := Apply(s, Finish(t));
    UserReady(s, t);
    FinishLocal(s.sh, t, s.fr[t], s.qp[t]);
    assert s'.qp == s.qp[t := s'.qp[t]];
    UserKnown(s, s', t);
  }

  lemma FinishKeeps(s: State, t: Tid)
    requires Inv(s) && Enabled(s, Finish(t))
    ensures Inv(Apply(s, Finish(t)))
  {
    FinishChange(s, t);
    LocalCallKeeps(s, Apply(s, Finish(t)), t);
  }

  lemma DestroyKnown(s: State, t: Tid)
    requires Known(s) && Enabled(s, Destroy(t))
    ensures Known(Apply(s, Destroy(t)))
  {
    var s' := Apply(s, Destroy(t));
    forall u | u in s'.fr ensures Place(s'.sh, u, s'.fr[u]) && Hold(s'.sh, u, s'.fr[u], s'.qp[u]) {
      assert Place(s.sh, u, s.fr[u]) && Hold(s.sh, u, s.fr[u], s.qp[u]);
    }
  }

  lemma DestroyChange(s: State, t: Tid)
    requires Known(s) && Enabled(s, Destroy(t))
    ensures UserChange(s, Apply(s, Destroy(t)), t)
  {
    var s' := Apply(s, Destroy(t));
    UserReady(s, t);
    assert s'.qp == s.qp[t := s'.qp[t]];
  }

  lemma DestroyKeeps(s: State, t: Tid)
    requires Inv(s) && Enabled(s, Destroy(t))
    ensures Inv(Apply(s, Destroy(t)))
  {
    DestroyKnown(s, t);
    DestroyChange(s, t);
    LocalCallKeeps(s, Apply(s, Destroy(t)), t);
  }

  lemma InitInv(want: nat)
    requires want > 0
    ensures Inv(Init(want))
  {
    var s := Init(want);
    assert Active(s) == {};
    QI.InitInv(Q.SIZE_MAX);
    QI.ArriveKeeps(Q.Init(Q.SIZE_MAX), CREATOR);
    assert QueueOf(s) == Q.Apply(Q.Init(Q.SIZE_MAX), Q.Arrive(CREATOR));
  }

  lemma AnyKeeps(s: State, a: Action)
    requires Inv(s) && Enabled(s, a)
    ensures Inv(Apply(s, a))
  {
    match a
    case Pool(t, made) => PoolKeeps(s, t, made);
    case Queue(t, w) => QueueKeeps(s, t, w);
    case QueueWake(t) => QueueWakeKeeps(s, t);
    case PoolWake => PoolWakeKeeps(s);
    case Arrive(t) => ArriveKeeps(s, t);
    case Schedule(t, m) => ScheduleKeeps(s, t, m);
    case Increase(t) => IncreaseKeeps(s, t);
    case Destroy(t) => DestroyKeeps(s, t);
    case Finish(t) => FinishKeeps(s, t);
  }

  /** The invariant holds in every reachable state of the pool. */
  lemma {:induction false} Reachable(want: nat, ss: seq<State>, acts: seq<Action>, i: nat)
    requires IsRun(want, ss, acts) && i < |ss|
    ensures Inv(ss[i])
  {
    if i == 0 {
      InitInv(want);
    } else {
      Reachable(want, ss, acts, i - 1);
      AnyKeeps(ss[i - 1], acts[i - 1]);
    }
  }
}
