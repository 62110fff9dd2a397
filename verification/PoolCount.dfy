/** `nthreads` always is the number of counted workers that have neither left nor withdrawn. */
module PoolCount {
  import opened Common
  import opened PoolMachine
  import opened PoolInv
  import opened PoolProof
  import Q = QueueMachine

  /** What one instruction of `t` does to the count: it counts the new worker, takes `t` out, or neither. */
  predicate Tally(sh: Shared, t: Tid, f: Frame, o: Out<Frame>) {
    var was, now := Counted(sh, t, f), Counted(o.sh, t, o.f);
    (o.spawn.Some? ==> sh.uncounted == None && o.sh.uncounted == o.spawn) &&
    if sh.uncounted.Some? && o.sh.uncounted != sh.uncounted then
      o.sh.uncounted == None && o.sh.nthreads == sh.nthreads + 1 && was == now && sh.uncounted != Some(t)
    else if was && !now then
      o.sh.uncounted == sh.uncounted && o.sh.nthreads == Dec(sh.nthreads) && o.spawn == None
    else
      was == now && o.sh.nthreads == sh.nthreads && (o.sh.uncounted != sh.uncounted ==> o.spawn.Some?)
  }

  lemma DestroyTally(sh: Shared, fr: map<Tid, Frame>, t: Tid, f: Frame, pc: Q.Pc)
    requires f.User? && f.a.Ds? && ActReady(sh, fr, t, f.a, pc)
    requires Book(sh) && Place(sh, t, f) && Hold(sh, t, f, pc) && Census(sh, t, f)
    ensures var o := ActStep(sh, t, f.task.Some?, f.a, pc, None); Tally(sh, t, f, Out(o.sh, f.(a := o.f), o.pc, o.spawn))
  {
    match f.a.d
    case DsDetach =>
    case _ =>
  }

  lemma CreateTally(sh: Shared, fr: map<Tid, Frame>, t: Tid, f: Frame, pc: Q.Pc, made: Option<Tid>)
    requires f.User? && !f.a.Ds? && ActReady(sh, fr, t, f.a, pc) && made != Some(t)
    requires Book(sh) && Place(sh, t, f) && Hold(sh, t, f, pc) && Census(sh, t, f)
    ensures var o := CreateStep(sh, t, f.a, pc, made); Tally(sh, t, f, Out(o.sh, f.(a := o.f), o.pc, o.spawn))
  {
    match f.a
    case Sched(_) =>
    case IncLock =>
    case IncCreate =>
    case IncCount(_) =>
    case IncUnlock =>
    case CrLoop =>
    case CrCount(_) =>
  }

  lemma WorkTally(sh: Shared, fr: map<Tid, Frame>, t: Tid, f: Frame, pc: Q.Pc)
    requires !f.User? && WorkReady(sh, fr, f, pc)
    requires Book(sh) && Place(sh, t, f) && Hold(sh, t, f, pc) && Census(sh, t, f)
    ensures Tally(sh, t, f, WorkStep(sh, t, f, pc))
  {
    match f
    case ExLeave =>
    case After =>
    case _ =>
  }

  lemma StepTally(s: State, t: Tid, made: Option<Tid>)
    requires Keys(s) && Book(s.sh) && Threads(s) && Uncounted(s) && Count(s) && Enabled(s, Pool(t, made))
    ensures Tally(s.sh, t, s.fr[t], PoolStep(s, t, made))
  {
    CensusHolds(s, t);
    var f := s.fr[t];
    if !f.User? { WorkTally(s.sh, s.fr, t, f, s.qp[t]); }
    else if f.a.Ds? { DestroyTally(s.sh, s.fr, t, f, s.qp[t]); }
    else { CreateTally(s.sh, s.fr, t, f, s.qp[t], made); }
  }

  /** The other threads stay in the count, or out of it; the uncounted worker enters it. */
  lemma OthersCounted(s: State, t: Tid, o: Out<Frame>, u: Tid)
    requires t in s.fr && u in s.fr && u != t && Guarantee(s.sh, o.sh, t) && Tally(s.sh, t, s.fr[t], o)
    requires Uncounted(s) && (o.spawn.Some? ==> o.spawn.value !in s.fr)
    ensures Counted(o.sh, u, s.fr[u]) <==>
              Counted(s.sh, u, s.fr[u]) || (s.sh.uncounted == Some(u) && o.sh.uncounted == None)
  {
  }

  lemma ActiveAfter(s: State, t: Tid, o: Out<Frame>)
    requires Keys(s) && Uncounted(s) && t in s.fr
    requires Guarantee(s.sh, o.sh, t) && Tally(s.sh, t, s.fr[t], o)
    requires o.spawn.Some? ==> o.spawn.value !in s.fr
    ensures Active(Merge(s, t, o)) ==
      if s.sh.uncounted.Some? && o.sh.uncounted == None then Active(s) + {s.sh.uncounted.value}
      else if Counted(s.sh, t, s.fr[t]) && !Counted(o.sh, t, o.f) then Active(s) - {t}
      else Active(s)
  {
    var s' := Merge(s, t, o);
    forall u | u in s'.fr && u != t
      ensures u in Active(s') <==> u in Active(s) || (s.sh.uncounted == Some(u) && o.sh.uncounted == None)
    {
      if u in s.fr { OthersCounted(s, t, o, u); }
    }
    assert t in Active(s') <==> Counted(o.sh, t, o.f);
    assert t in Active(s) <==> Counted(s.sh, t, s.fr[t]);
  }

  lemma CountKept(s: State, t: Tid, o: Out<Frame>)
    requires Keys(s) && Uncounted(s) && Count(s) && t in s.fr
    requires Guarantee(s.sh, o.sh, t) && Tally(s.sh, t, s.fr[t], o)
    requires o.spawn.Some? ==> o.spawn.value !in s.fr
    ensures Count(Merge(s, t, o))
  {
    ActiveAfter(s, t, o);
    if Counted(s.sh, t, s.fr[t]) { assert t in Active(s); }
    if s.sh.uncounted.Some? { assert s.sh.uncounted.value !in Active(s); }
  }

  // ---- the worker not counted yet ----

  /** A worker is created by the holder of the mutex, or by the creator, who then goes on to count it. */
  predicate OwnCreation(sh: Shared, f: Frame, o: Out<Frame>) {
    (o.spawn.Some? ==>
       o.f.User? && o.f.a == (if o.sh.published then IncCount(o.spawn.value) else CrCount(o.spawn.value))) &&
    (o.sh.published != sh.published ==> o.spawn == None && f.User? && f.a == CrLoop) &&
    (f.User? && (f.a.IncCount? || f.a.CrCount?) ==> o.sh.uncounted == None)
  }

  lemma JustCreated(s: State, t: Tid, o: Out<Frame>)
    requires Keys(s) && t in s.fr && o.spawn.Some? && o.spawn.value !in s.fr && o.sh.uncounted == o.spawn
    requires Place(o.sh, t, o.f) && Hold(o.sh, t, o.f, o.pc) && OwnCreation(s.sh, s.fr[t], o)
    requires Guarantee(s.sh, o.sh, t)
    ensures Uncounted(Merge(s, t, o))
  {
  }

  /** Whoever is about to count the new worker stays the same while others act. */
  lemma CounterSame(s: State, t: Tid, o: Out<Frame>)
    requires t in s.fr && Uncounted(s) && s.sh.uncounted.Some? && o.sh.uncounted == s.sh.uncounted
    requires Guarantee(s.sh, o.sh, t) && OwnCreation(s.sh, s.fr[t], o)
    ensures t != Counter(s.sh) && Counter(o.sh) == Counter(s.sh) && o.sh.published == s.sh.published &&
            (s.sh.published ==> o.sh.owner == s.sh.owner)
  {
  }

  lemma NotWithdrawn(s: State, t: Tid, o: Out<Frame>, w: Tid)
    requires Book(s.sh) && Kept(s.sh, t, o) && s.sh.uncounted == Some(w) == o.sh.uncounted && !Withdrawn(s.sh, w)
    requires s.sh.published ==> s.sh.owner.Some? && s.sh.owner == o.sh.owner != Some(w)
    requires !s.sh.published ==> w != CREATOR && s.sh.stage == 0
    ensures !Withdrawn(o.sh, w)
  {
  }

  lemma UncountedKept(s: State, t: Tid, o: Out<Frame>)
    requires Keys(s) && Book(s.sh) && Threads(s) && Uncounted(s) && t in s.fr
    requires Kept(s.sh, t, o) && Tally(s.sh, t, s.fr[t], o)
    requires o.spawn.Some? ==> o.spawn.value !in s.fr
    requires OwnCreation(s.sh, s.fr[t], o) && (Alive(s.fr[t]) && s.sh.uncounted == Some(t) ==> Alive(o.f))
    ensures Uncounted(Merge(s, t, o))
  {
    if o.spawn.Some? {
      JustCreated(s, t, o);
    } else if o.sh.uncounted.Some? {
      CounterSame(s, t, o);
      var c := Counter(s.sh);
      assert Place(s.sh, c, s.fr[c]);
      NotWithdrawn(s, t, o, s.sh.uncounted.value);
    }
  }

  lemma UserCreation(sh: Shared, fr: map<Tid, Frame>, t: Tid, f: Frame, pc: Q.Pc, made: Option<Tid>)
    requires f.User? && !f.a.Ds? && ActReady(sh, fr, t, f.a, pc) && Place(sh, t, f)
    ensures var o := CreateStep(sh, t, f.a, pc, made); OwnCreation(sh, f, Out(o.sh, f.(a := o.f), o.pc, o.spawn))
  {
  }

  lemma DestroyCreation(sh: Shared, t: Tid, f: Frame, pc: Q.Pc)
    requires f.User? && f.a.Ds?
    ensures var o := ActStep(sh, t, f.task.Some?, f.a, pc, None); OwnCreation(sh, f, Out(o.sh, f.(a := o.f), o.pc, o.spawn))
  {
  }

  lemma WorkCreation(sh: Shared, fr: map<Tid, Frame>, t: Tid, f: Frame, pc: Q.Pc)
    requires !f.User? && WorkReady(sh, fr, f, pc) && Book(sh) && Place(sh, t, f) && Hold(sh, t, f, pc) && Census(sh, t, f)
    ensures OwnCreation(sh, f, WorkStep(sh, t, f, pc))
    ensures Alive(f) && sh.uncounted == Some(t) ==> Alive(WorkStep(sh, t, f, pc).f)
  {
  }

  lemma CreationOwned(s: State, t: Tid, made: Option<Tid>)
    requires Keys(s) && Book(s.sh) && Threads(s) && Uncounted(s) && Count(s) && Enabled(s, Pool(t, made))
    ensures OwnCreation(s.sh, s.fr[t], PoolStep(s, t, made))
    ensures Alive(s.fr[t]) && s.sh.uncounted == Some(t) ==> Alive(PoolStep(s, t, made).f)
  {
    CensusHolds(s, t);
    var f := s.fr[t];
    if !f.User? { WorkCreation(s.sh, s.fr, t, f, s.qp[t]); }
    else if f.a.Ds? { DestroyCreation(s.sh, t, f, s.qp[t]); }
    else { UserCreation(s.sh, s.fr, t, f, s.qp[t], made); }
  }
}
