/** The invariant of the whole pool, kept by every step of every thread. */
module PoolProof {
  import opened Common
  import opened PoolMachine
  import opened PoolInv
  import Q = QueueMachine
  import QI = QueueInv

  ghost predicate Keys(s: State) {
    s.fr.Keys == s.qp.Keys && CREATOR in s.fr &&
    (s.sh.owner.Some? ==> s.sh.owner.value in s.fr) &&
    (s.sh.destroyer.Some? ==> s.sh.destroyer.value in s.fr) &&
    s.sh.termCond <= s.fr.Keys &&
    forall x :: x in s.sh.exits ==> x in s.fr
  }

  ghost predicate Threads(s: State)
    requires s.fr.Keys == s.qp.Keys
  {
    forall t :: t in s.fr ==> Place(s.sh, t, s.fr[t]) && Hold(s.sh, t, s.fr[t], s.qp[t])
  }

  /** The thread that is about to count the worker it has created. */
  function Counter(sh: Shared): Tid {
    if sh.published && sh.owner.Some? then sh.owner.value else CREATOR
  }

  ghost predicate Uncounted(s: State) {
    s.sh.uncounted.Some? ==>
      var w, c := s.sh.uncounted.value, Counter(s.sh);
      w in s.fr && Alive(s.fr[w]) && !Withdrawn(s.sh, w) && w != CREATOR && w != c && c in s.fr && (s.sh.published ==> s.sh.owner.Some?) &&
      s.fr[c].User? && s.fr[c].a == (if s.sh.published then IncCount(w) else CrCount(w))
  }

  function Active(s: State): set<Tid> {
    set t | t in s.fr && Counted(s.sh, t, s.fr[t])
  }

  /** `nthreads` is the number of workers counted, not left and not withdrawn. */
  ghost predicate Count(s: State) {
    s.sh.nthreads == |Active(s)|
  }

  lemma CountedMany(s: State, t: Tid)
    requires Count(s) && t in s.fr && Counted(s.sh, t, s.fr[t])
    ensures s.sh.nthreads > 0
  {
    assert t in Active(s);
  }

  lemma CensusHolds(s: State, t: Tid)
    requires Keys(s) && Book(s.sh) && Threads(s) && Uncounted(s) && Count(s) && t in s.fr
    ensures Census(s.sh, t, s.fr[t])
  {
    assert Place(s.sh, t, s.fr[t]) && Hold(s.sh, t, s.fr[t], s.qp[t]);
    if s.sh.uncounted.Some? {
      var c := Counter(s.sh);
      assert Place(s.sh, c, s.fr[c]) && Hold(s.sh, c, s.fr[c], s.qp[c]);
      if s.sh.published && s.fr[c].task.Some? { CountedMany(s, c); }
    }
    if Counted(s.sh, t, s.fr[t]) { CountedMany(s, t); }
  }

  lemma StepKept(s: State, t: Tid, made: Option<Tid>)
    requires Keys(s) && Book(s.sh) && Threads(s) && Uncounted(s) && Count(s) && Enabled(s, Pool(t, made))
    ensures Kept(s.sh, t, PoolStep(s, t, made))
  {
    CensusHolds(s, t);
    var f := s.fr[t];
    if f.User? {
      if f.a.Ds? { DestroyKeeps(s.sh, s.fr, t, f, s.qp[t]); } else { CreateKeeps(s.sh, s.fr, t, f, s.qp[t], made); }
    } else {
      WorkKeeps(s.sh, s.fr, t, f, s.qp[t]);
    }
  }

  /** An instruction of the pool leaves the queue alone, except that it calls it or takes its answer. */
  predicate Sides(sh: Shared, pc: Q.Pc, sh': Shared, pc': Q.Pc, spawn: Option<Tid>, made: Option<Tid>) {
    sh'.q == sh.q && (spawn.Some? ==> spawn == made && pc' == pc) &&
    (pc' == pc || (Q.IsRet(pc) && pc' == Q.Idle) ||
     (pc == Q.Idle && (pc' == Q.Entry(Q.DoGet) || pc' == Q.Entry(Q.DoNonblock))))
  }

  lemma UserSides(sh: Shared, fr: map<Tid, Frame>, t: Tid, f: Frame, pc: Q.Pc, made: Option<Tid>)
    requires f.User? && ActReady(sh, fr, t, f.a, pc) && QueueMatch(f, pc)
    ensures var o := ActStep(sh, t, f.task.Some?, f.a, pc, made); Sides(sh, pc, o.sh, o.pc, o.spawn, made)
  {
    if f.a.Ds? {
      match f.a.d
      case DsLock => 
      case _ =>
    }
  }

  lemma QueueSide(s: State, t: Tid, made: Option<Tid>)
    requires t in s.fr && t in s.qp && PoolReady(s, t) && QueueMatch(s.fr[t], s.qp[t])
    ensures var o := PoolStep(s, t, made); Sides(s.sh, s.qp[t], o.sh, o.pc, o.spawn, made)
  {
    if s.fr[t].User? { UserSides(s.sh, s.fr, t, s.fr[t], s.qp[t], made); }
  }

  /** What an instruction of the pool looks like to the queue. */
  lemma QueueSees(s: State, t: Tid, made: Option<Tid>)
    requires Keys(s) && Threads(s) && Enabled(s, Pool(t, made))
    ensures var o, q, q' := PoolStep(s, t, made), QueueOf(s), QueueOf(Apply(s, Pool(t, made)));
      if o.pc == s.qp[t] then
        if o.spawn.Some? then q' == WithPcs(q, q.pcs[o.spawn.value := Q.Idle]) && o.spawn.value !in q.pcs else q' == q
      else q' == WithPcs(q, q.pcs[t := o.pc])
  {
    assert Hold(s.sh, t, s.fr[t], s.qp[t]);
    QueueSide(s, t, made);
    assert s.qp[t := s.qp[t]] == s.qp;
  }

  function WithPcs(q: Q.State, pcs: map<Tid, Q.Pc>): Q.State {
    q.(pcs := pcs)
  }

  lemma QueueSideKept(s: State, t: Tid, made: Option<Tid>)
    requires Keys(s) && Threads(s) && QI.Inv(QueueOf(s)) && Enabled(s, Pool(t, made))
    ensures QI.Inv(QueueOf(Apply(s, Pool(t, made))))
  {
    QueueSees(s, t, made);
    assert Hold(s.sh, t, s.fr[t], s.qp[t]);
    QueueSide(s, t, made);
    var o := PoolStep(s, t, made);
    if o.pc == s.qp[t] {
      if o.spawn.Some? { QI.ArriveKeeps(QueueOf(s), o.spawn.value); }
    } else {
      CallKept(QueueOf(s), t, o.pc);
    }
  }

  lemma CallKept(q: Q.State, t: Tid, pc: Q.Pc)
    requires QI.Inv(q) && t in q.pcs
    requires (Q.IsRet(q.pcs[t]) && pc == Q.Idle) || (q.pcs[t] == Q.Idle && (pc == Q.Entry(Q.DoGet) || pc == Q.Entry(Q.DoNonblock)))
    ensures QI.Inv(WithPcs(q, q.pcs[t := pc]))
  {
    if pc == Q.Idle {
      QI.ReturnKeeps(q, t);
    } else {
      QI.InvokeKeeps(q, t, if pc == Q.Entry(Q.DoGet) then Q.DoGet else Q.DoNonblock);
    }
  }

  /** A thread just created starts at line 51 and knows nothing yet. */
  lemma NewThread(sh: Shared, w: Tid, f: Frame)
    requires sh.owner != Some(w) && sh.destroyer != Some(w) && w !in sh.termCond && w !in sh.exits
    requires f == Loop || f == User(None, Rest)
    ensures Place(sh, w, f) && Hold(sh, w, f, Q.Idle)
  {
  }

  lemma OtherThreads(s: State, sh': Shared, t: Tid)
    requires s.fr.Keys == s.qp.Keys && Book(s.sh) && Threads(s) && Guarantee(s.sh, sh', t)
    ensures forall u :: u in s.fr && u != t ==> Place(sh', u, s.fr[u]) && Hold(sh', u, s.fr[u], s.qp[u])
  {
    forall u | u in s.fr && u != t ensures Place(sh', u, s.fr[u]) && Hold(sh', u, s.fr[u], s.qp[u]) {
      StablePlace(s.sh, sh', t, u, s.fr[u]);
      StableHold(s.sh, sh', t, u, s.fr[u], s.qp[u]);
    }
  }

  lemma MergeKeys(s: State, t: Tid, o: Out<Frame>)
    requires Keys(s) && t in s.fr && Guarantee(s.sh, o.sh, t)
    ensures Keys(Merge(s, t, o))
  {
  }

  lemma MergeThreads(s: State, t: Tid, o: Out<Frame>)
    requires Keys(s) && t in s.fr && Book(s.sh) && Threads(s) && Kept(s.sh, t, o)
    requires o.spawn.Some? ==> o.spawn.value !in s.fr
    ensures Keys(Merge(s, t, o)) && Threads(Merge(s, t, o))
  {
    MergeKeys(s, t, o);
    OtherThreads(s, o.sh, t);
    if o.spawn.Some? { NewThread(o.sh, o.spawn.value, Loop); }
  }
}
