/**
 What every step of the pool keeps, thread by thread. As for the queue the proof is by rely and
 guarantee: an instruction re-establishes what its own thread knows and respects what others know.
 */
module PoolInv {
  import opened Common
  import opened PoolMachine
  import Q = QueueMachine
  import QI = QueueInv

  predicate HoldsMutex(f: Frame) {
    var a := ActOf(f);
    a == IncCreate || a.IncCount? || a == IncUnlock ||
    (a.Ds? && (a.d == DsMode || a.d == DsTerm || a.d == DsDetach || a.d == DsTest || a.d == DsUnlock)) ||
    f == ExLeave || f.ExSignal? || f.ExUnlock?
  }

  /** The queue operation a thread is in matches what it does in the pool. */
  predicate QueueMatch(f: Frame, pc: Q.Pc) {
    var a := ActOf(f);
    if a.Sched? then pc.Put? && pc.m == a.m
    else if a == Ds(DsMode) then pc.Mode? && pc.k != Q.BSet && pc.k != Q.BRet
    else if f == Fetch || a == Ds(DrainGet) then pc.Get?
    else pc == Q.Idle
  }

  /** The get of this thread is going to answer NULL. */
  predicate GetsNull(pc: Q.Pc) {
    pc.Get? &&
    match pc.g
    case Swap(_, n, p) => n == 0 && (p == Q.STake || p == Q.SExchange)
    case GLeave(n) => n == 0
    case GUnlock(r) => r == None
    case GRet(r) => r == None
    case _ => false
  }

  predicate GetsSome(pc: Q.Pc) {
    pc.Get? && (pc.g.GUnlock? || pc.g.GRet?) && pc.g.res.Some?
  }

  /** A worker that has left the pool for good (the destroyer's own frame aside). */
  predicate Exited(f: Frame) {
    f.ExSignal? || f.ExUnlock? || f.ExJoin? || f == Gone
  }

  /** What holds of the pool object at any time. */
  predicate Book(sh: Shared) {
    (sh.stage == 0 <==> sh.destroyer == None) &&
    sh.terminate == (if sh.stage >= 4 then sh.destroyer else None) &&
    (sh.stage >= 3 ==> sh.q.nonblock) &&
    (sh.q.nonblock ==> sh.stage >= 2) &&
    (2 <= sh.stage <= 4 || sh.stage == 6 ==> sh.owner == sh.destroyer) &&
    (!sh.published ==> sh.q.enq == []) &&
    (sh.exits != [] ==> sh.stage >= 5) &&
    sh.tid == (if sh.exits == [] then None else Some(sh.exits[|sh.exits| - 1])) &&
    (sh.stage >= 6 ==> sh.nthreads == 0 && sh.uncounted == None) &&
    (sh.published && sh.stage <= 4 ==> sh.nthreads > 0) &&
    sh.want > 0 &&
    (sh.freed ==> sh.stage == 10)
  }

  /** What thread `t` knows: its place in the destruction and in the life of the pool. */
  predicate Place(sh: Shared, t: Tid, f: Frame) {
    var a := ActOf(f);
    (a.Ds? ==> sh.destroyer == Some(t) && sh.stage == Nr(a.d)) &&
    (sh.destroyer == Some(t) && !a.Ds? ==> sh.stage == 10 && (f == After || f == FreePool || f == Gone)) &&
    (sh.destroyer == Some(t) && sh.freed ==> f == Gone || f == User(None, Ds(DsDone))) &&
    (sh.destroyer == Some(t) && f == Gone ==> sh.freed) &&
    (f == FreePool ==> sh.destroyer == Some(t)) &&
    (a == CrLoop || a.CrCount? ==> t == CREATOR && Outside(f) && !sh.published && sh.stage == 0) &&
    (Outside(f) && a != Rest && !a.Ds? && a != CrLoop && !a.CrCount? ==> sh.published && sh.stage == 0) &&
    (f.User? && f.task.Some? ==> sh.published) &&
    (f.Begin? || f == After || a == IncCreate || a.IncCount? ==> sh.published) &&
    (a.IncCount? || a.CrCount? ==> sh.uncounted == Some(a.w))
  }

  /** What thread `t` knows of mutexes and of leaving. */
  predicate Hold(sh: Shared, t: Tid, f: Frame, pc: Q.Pc) {
    (HoldsMutex(f) <==> sh.owner == Some(t)) &&
    (t in sh.termCond ==> ActOf(f) == Ds(DsWait)) &&
    QueueMatch(f, pc) &&
    (GetsNull(pc) || (pc.Mode? && pc.k != Q.NSet) ==> sh.q.nonblock) &&
    (GetsSome(pc) ==> sh.published) &&
    (f == ExLock || f == ExLeave ==> sh.q.nonblock) &&
    (f == ExLeave || f.ExSignal? || f.ExUnlock? ==> sh.stage == 5) &&
    (t in sh.exits <==> Exited(f) && sh.destroyer != Some(t))
  }

  /** How an instruction of `t` may change the pool. */
  predicate Guarantee(sh: Shared, sh': Shared, t: Tid) {
    QI.Handover(sh.owner, sh'.owner, t) &&
    sh.stage <= sh'.stage && (sh'.stage <= sh.stage + 1 || sh.stage == 7) &&
    (sh'.stage != sh.stage ==>
       sh'.destroyer == Some(t) && (sh.stage > 0 || (!sh.published && t == CREATOR)) &&
       (sh.stage == 5 ==> sh.owner == Some(t))) &&
    (sh'.destroyer != sh.destroyer ==> sh.destroyer == None && sh'.destroyer == Some(t) && sh'.stage != sh.stage) &&
    (sh.published ==> sh'.published) &&
    (sh'.published != sh.published ==> t == CREATOR) &&
    (sh.q.nonblock ==> sh'.q.nonblock) &&
    (sh'.freed != sh.freed ==> sh'.destroyer == Some(t) && sh'.freed) &&
    (forall u :: u in sh'.termCond && u != t ==> u in sh.termCond) &&
    (sh'.exits == sh.exits || sh'.exits == sh.exits + [t]) &&
    (sh'.uncounted != sh.uncounted ==> if sh.published then sh.owner == Some(t) else t == CREATOR)
  }

  lemma StablePlace(sh: Shared, sh': Shared, t: Tid, u: Tid, f: Frame)
    requires u != t && Place(sh, u, f) && Guarantee(sh, sh', t) && (HoldsMutex(f) ==> sh.owner == Some(u))
    ensures Place(sh', u, f)
  {
  }

  lemma StableHold(sh: Shared, sh': Shared, t: Tid, u: Tid, f: Frame, pc: Q.Pc)
    requires u != t && Hold(sh, u, f, pc) && Guarantee(sh, sh', t) && Book(sh) && Place(sh, u, f)
    ensures Hold(sh', u, f, pc)
  {
  }

  /** A thread that counts in `nthreads`: a worker that has been counted and has neither left nor withdrawn. */
  predicate Alive(f: Frame) {
    f == Loop || f == Fetch || f.Begin? || (f.User? && f.task.Some?) || f == After || f == ExLock || f == ExLeave
  }

  /** The destroyer has taken itself out of the count (lines 89-93). */
  predicate Withdrawn(sh: Shared, t: Tid) {
    sh.destroyer == Some(t) && sh.stage >= 5
  }

  predicate Counted(sh: Shared, t: Tid, f: Frame) {
    Alive(f) && sh.uncounted != Some(t) && !Withdrawn(sh, t)
  }

  /** What thread `t` needs to know about the counts: it is counted, or its creator is about to count it. */
  predicate Census(sh: Shared, t: Tid, f: Frame) {
    (Alive(f) && !Withdrawn(sh, t) && (sh.uncounted == Some(t) ==> sh.published) ==> sh.nthreads > 0) &&
    (sh.uncounted.Some? ==>
       if sh.published then
         sh.owner.Some? && sh.owner != sh.uncounted && (sh.owner == Some(t) ==> ActOf(f) == IncCount(sh.uncounted.value))
       else sh.stage == 0 && sh.uncounted != Some(CREATOR) && (t == CREATOR ==> f == User(None, CrCount(sh.uncounted.value))))
  }

  /** The thread's own instruction re-establishes what it knows, and what holds of the pool. */
  predicate Kept(sh: Shared, t: Tid, o: Out<Frame>) {
    Book(o.sh) && Place(o.sh, t, o.f) && Hold(o.sh, t, o.f, o.pc) && Guarantee(sh, o.sh, t)
  }

  lemma CreateBook(sh: Shared, fr: map<Tid, Frame>, t: Tid, f: Frame, pc: Q.Pc, w: Option<Tid>)
    requires f.User? && !f.a.Ds? && ActReady(sh, fr, t, f.a, pc)
    requires Book(sh) && Place(sh, t, f) && Hold(sh, t, f, pc) && Census(sh, t, f)
    ensures var o := CreateStep(sh, t, f.a, pc, w); Book(o.sh)
  {
    match f.a
    case Sched(_) =>
    case IncLock =>
    case IncCreate =>
    case IncCount(_) =>
    case IncUnlock =>
    case CrLoop =>
    case CrCount(_) =>
  }

  lemma CreatePlace(sh: Shared, fr: map<Tid, Frame>, t: Tid, f: Frame, pc: Q.Pc, w: Option<Tid>)
    requires f.User? && !f.a.Ds? && ActReady(sh, fr, t, f.a, pc)
    requires Book(sh) && Place(sh, t, f) && Hold(sh, t, f, pc) && Census(sh, t, f)
    ensures var o := CreateStep(sh, t, f.a, pc, w); Place(o.sh, t, f.(a := o.f)) && Hold(o.sh, t, f.(a := o.f), o.pc)
  {
    match f.a
    case Sched(_) =>
    case IncLock =>
    case IncCreate =>
    case IncCount(_) =>
    case IncUnlock =>
    case CrLoop =>
    case CrCount(_) =>
  }

  lemma CreateGuarantee(sh: Shared, fr: map<Tid, Frame>, t: Tid, f: Frame, pc: Q.Pc, w: Option<Tid>)
    requires f.User? && !f.a.Ds? && ActReady(sh, fr, t, f.a, pc)
    requires Book(sh) && Place(sh, t, f) && Hold(sh, t, f, pc) && Census(sh, t, f)
    ensures var o := CreateStep(sh, t, f.a, pc, w); Guarantee(sh, o.sh, t)
  {
    match f.a
    case Sched(_) =>
    case IncLock =>
    case IncCreate =>
    case IncCount(_) =>
    case IncUnlock =>
    case CrLoop =>
    case CrCount(_) =>
  }

  lemma CreateKeeps(sh: Shared, fr: map<Tid, Frame>, t: Tid, f: Frame, pc: Q.Pc, w: Option<Tid>)
    requires f.User? && !f.a.Ds? && ActReady(sh, fr, t, f.a, pc)
    requires Book(sh) && Place(sh, t, f) && Hold(sh, t, f, pc) && Census(sh, t, f)
    ensures var o := CreateStep(sh, t, f.a, pc, w); Kept(sh, t, Out(o.sh, f.(a := o.f), o.pc, o.spawn))
  {
    CreateBook(sh, fr, t, f, pc, w);
    CreatePlace(sh, fr, t, f, pc, w);
    CreateGuarantee(sh, fr, t, f, pc, w);
  }

  predicate Early(d: Stage) {
    d == DsLock || d == DsMode || d == DsTerm || d == DsDetach || d == DsTest || d == DsWait
  }

  predicate Final(d: Stage) {
    d == DrainGet || d == DsFree || d == DsDone
  }

  lemma DestroyBookEarly(sh: Shared, fr: map<Tid, Frame>, t: Tid, f: Frame, pc: Q.Pc)
    requires f.User? && f.a.Ds? && ActReady(sh, fr, t, f.a, pc) && Early(f.a.d)
    requires Book(sh) && Place(sh, t, f) && Hold(sh, t, f, pc) && Census(sh, t, f)
    ensures var o := ActStep(sh, t, f.task.Some?, f.a, pc, None); Book(o.sh)
  {
    match f.a.d
    case DsLock =>
    case DsMode =>
    case DsTerm =>
    case DsDetach =>
    case DsTest =>
    case DsWait =>
  }

  lemma DestroyBookLate(sh: Shared, fr: map<Tid, Frame>, t: Tid, f: Frame, pc: Q.Pc)
    requires f.User? && f.a.Ds? && ActReady(sh, fr, t, f.a, pc) && !Early(f.a.d) && !Final(f.a.d)
    requires Book(sh) && Place(sh, t, f) && Hold(sh, t, f, pc) && Census(sh, t, f)
    ensures var o := ActStep(sh, t, f.task.Some?, f.a, pc, None); Book(o.sh)
  {
    match f.a.d
    case DsUnlock =>
    case DsJoin =>
    case DrainCall =>
  }

  lemma DestroyBookFinal(sh: Shared, fr: map<Tid, Frame>, t: Tid, f: Frame, pc: Q.Pc)
    requires f.User? && f.a.Ds? && ActReady(sh, fr, t, f.a, pc) && Final(f.a.d)
    requires Book(sh) && Place(sh, t, f) && Hold(sh, t, f, pc) && Census(sh, t, f)
    ensures var o := ActStep(sh, t, f.task.Some?, f.a, pc, None); Book(o.sh)
  {
    match f.a.d
    case DrainGet =>
    case DsFree =>
  }

  lemma DestroyHoldEarly(sh: Shared, fr: map<Tid, Frame>, t: Tid, f: Frame, pc: Q.Pc)
    requires f.User? && f.a.Ds? && ActReady(sh, fr, t, f.a, pc) && Early(f.a.d)
    requires Book(sh) && Place(sh, t, f) && Hold(sh, t, f, pc) && Census(sh, t, f)
    ensures var o := ActStep(sh, t, f.task.Some?, f.a, pc, None); Hold(o.sh, t, f.(a := o.f), o.pc)
  {
    match f.a.d
    case DsLock =>
    case DsMode =>
    case DsTerm =>
    case DsDetach =>
    case DsTest =>
    case DsWait =>
  }

  lemma DestroyHoldLate(sh: Shared, fr: map<Tid, Frame>, t: Tid, f: Frame, pc: Q.Pc)
    requires f.User? && f.a.Ds? && ActReady(sh, fr, t, f.a, pc) && !Early(f.a.d)
    requires Book(sh) && Place(sh, t, f) && Hold(sh, t, f, pc) && Census(sh, t, f)
    ensures var o := ActStep(sh, t, f.task.Some?, f.a, pc, None); Hold(o.sh, t, f.(a := o.f), o.pc)
  {
    match f.a.d
    case DsUnlock =>
    case DsJoin =>
    case DrainCall =>
    case DrainGet =>
    case DsFree =>
  }

  lemma DestroyPlace(sh: Shared, fr: map<Tid, Frame>, t: Tid, f: Frame, pc: Q.Pc)
    requires f.User? && f.a.Ds? && ActReady(sh, fr, t, f.a, pc)
    requires Book(sh) && Place(sh, t, f) && Hold(sh, t, f, pc) && Census(sh, t, f)
    ensures var o := ActStep(sh, t, f.task.Some?, f.a, pc, None); Place(o.sh, t, f.(a := o.f))
  {
    match f.a.d
    case DsLock =>
    case DsMode =>
    case DsTerm =>
    case DsDetach =>
    case DsTest =>
    case DsWait =>
    case DsUnlock =>
    case DsJoin =>
    case DrainCall =>
    case DrainGet =>
    case DsFree =>
  }

  lemma DestroyGuaranteeEarly(sh: Shared, fr: map<Tid, Frame>, t: Tid, f: Frame, pc: Q.Pc)
    requires f.User? && f.a.Ds? && ActReady(sh, fr, t, f.a, pc) && Early(f.a.d)
    requires Book(sh) && Place(sh, t, f) && Hold(sh, t, f, pc) && Census(sh, t, f)
    ensures var o := ActStep(sh, t, f.task.Some?, f.a, pc, None); Guarantee(sh, o.sh, t)
  {
    match f.a.d
    case DsLock =>
    case DsMode =>
    case DsTerm =>
    case DsDetach =>
    case DsTest =>
    case DsWait =>
  }

  lemma DestroyGuaranteeLate(sh: Shared, fr: map<Tid, Frame>, t: Tid, f: Frame, pc: Q.Pc)
    requires f.User? && f.a.Ds? && ActReady(sh, fr, t, f.a, pc) && !Early(f.a.d) && !Final(f.a.d)
    requires Book(sh) && Place(sh, t, f) && Hold(sh, t, f, pc) && Census(sh, t, f)
    ensures var o := ActStep(sh, t, f.task.Some?, f.a, pc, None); Guarantee(sh, o.sh, t)
  {
    match f.a.d
    case DsUnlock =>
    case DsJoin =>
    case DrainCall =>
  }

  lemma DestroyGuaranteeFinal(sh: Shared, fr: map<Tid, Frame>, t: Tid, f: Frame, pc: Q.Pc)
    requires f.User? && f.a.Ds? && ActReady(sh, fr, t, f.a, pc) && Final(f.a.d)
    requires Book(sh) && Place(sh, t, f) && Hold(sh, t, f, pc) && Census(sh, t, f)
    ensures var o := ActStep(sh, t, f.task.Some?, f.a, pc, None); Guarantee(sh, o.sh, t)
  {
    match f.a.d
    case DrainGet =>
    case DsFree =>
  }

  lemma DestroyKeeps(sh: Shared, fr: map<Tid, Frame>, t: Tid, f: Frame, pc: Q.Pc)
    requires f.User? && f.a.Ds? && ActReady(sh, fr, t, f.a, pc)
    requires Book(sh) && Place(sh, t, f) && Hold(sh, t, f, pc) && Census(sh, t, f)
    ensures var o := ActStep(sh, t, f.task.Some?, f.a, pc, None); Kept(sh, t, Out(o.sh, f.(a := o.f), o.pc, o.spawn))
    ensures f.a == Ds(DsFree) && f.task == None ==> ActStep(sh, t, false, f.a, pc, None).sh.freed
  {
    if Early(f.a.d) {
      DestroyBookEarly(sh, fr, t, f, pc);
      DestroyHoldEarly(sh, fr, t, f, pc);
      DestroyGuaranteeEarly(sh, fr, t, f, pc);
    } else {
      if Final(f.a.d) { DestroyBookFinal(sh, fr, t, f, pc); } else { DestroyBookLate(sh, fr, t, f, pc); }
      if Final(f.a.d) { DestroyGuaranteeFinal(sh, fr, t, f, pc); } else { DestroyGuaranteeLate(sh, fr, t, f, pc); }
      DestroyHoldLate(sh, fr, t, f, pc);
    }
    DestroyPlace(sh, fr, t, f, pc);
  }

  predicate Leaving(f: Frame) {
    f == ExLock || f == ExLeave || f.ExSignal? || f.ExUnlock? || f.ExJoin?
  }

  lemma WorkBook(sh: Shared, fr: map<Tid, Frame>, t: Tid, f: Frame, pc: Q.Pc)
    requires !f.User? && WorkReady(sh, fr, f, pc)
    requires Book(sh) && Place(sh, t, f) && Hold(sh, t, f, pc) && Census(sh, t, f)
    ensures var o := WorkStep(sh, t, f, pc); Book(o.sh)
  {
    match f
    case Loop =>
    case Fetch =>
    case Begin(_) =>
    case After =>
    case FreePool =>
    case ExLock =>
    case ExLeave =>
    case ExSignal(_) =>
    case ExUnlock(_) =>
    case ExJoin(_) =>
  }

  lemma WorkHoldServe(sh: Shared, fr: map<Tid, Frame>, t: Tid, f: Frame, pc: Q.Pc)
    requires !f.User? && WorkReady(sh, fr, f, pc) && !Leaving(f)
    requires Book(sh) && Place(sh, t, f) && Hold(sh, t, f, pc) && Census(sh, t, f)
    ensures var o := WorkStep(sh, t, f, pc); Hold(o.sh, t, o.f, o.pc)
  {
    match f
    case Loop =>
    case Fetch =>
    case Begin(_) =>
    case After =>
    case FreePool =>
  }

  lemma WorkHoldLeave(sh: Shared, fr: map<Tid, Frame>, t: Tid, f: Frame, pc: Q.Pc)
    requires !f.User? && WorkReady(sh, fr, f, pc) && Leaving(f)
    requires Book(sh) && Place(sh, t, f) && Hold(sh, t, f, pc) && Census(sh, t, f)
    ensures var o := WorkStep(sh, t, f, pc); Hold(o.sh, t, o.f, o.pc)
  {
    match f
    case ExLock =>
    case ExLeave =>
    case ExSignal(_) =>
    case ExUnlock(_) =>
    case ExJoin(_) =>
  }

  lemma WorkPlace(sh: Shared, fr: map<Tid, Frame>, t: Tid, f: Frame, pc: Q.Pc)
    requires !f.User? && WorkReady(sh, fr, f, pc)
    requires Book(sh) && Place(sh, t, f) && Hold(sh, t, f, pc) && Census(sh, t, f)
    ensures var o := WorkStep(sh, t, f, pc); Place(o.sh, t, o.f)
  {
    match f
    case Loop =>
    case Fetch =>
    case Begin(_) =>
    case After =>
    case FreePool =>
    case ExLock =>
    case ExLeave =>
    case ExSignal(_) =>
    case ExUnlock(_) =>
    case ExJoin(_) =>
  }

  lemma WorkGuarantee(sh: Shared, fr: map<Tid, Frame>, t: Tid, f: Frame, pc: Q.Pc)
    requires !f.User? && WorkReady(sh, fr, f, pc)
    requires Book(sh) && Place(sh, t, f) && Hold(sh, t, f, pc) && Census(sh, t, f)
    ensures var o := WorkStep(sh, t, f, pc); Guarantee(sh, o.sh, t)
  {
    match f
    case Loop =>
    case Fetch =>
    case Begin(_) =>
    case After =>
    case FreePool =>
    case ExLock =>
    case ExLeave =>
    case ExSignal(_) =>
    case ExUnlock(_) =>
    case ExJoin(_) =>
  }

  lemma WorkKeeps(sh: Shared, fr: map<Tid, Frame>, t: Tid, f: Frame, pc: Q.Pc)
    requires !f.User? && WorkReady(sh, fr, f, pc)
    requires Book(sh) && Place(sh, t, f) && Hold(sh, t, f, pc) && Census(sh, t, f)
    ensures Kept(sh, t, WorkStep(sh, t, f, pc))
    ensures f.Begin? ==> WorkStep(sh, t, f, pc).f == User(Some(f.m), Rest)
    ensures f == FreePool ==> WorkStep(sh, t, f, pc).sh.freed
  {
    WorkBook(sh, fr, t, f, pc);
    if Leaving(f) { WorkHoldLeave(sh, fr, t, f, pc); } else { WorkHoldServe(sh, fr, t, f, pc); }
    WorkPlace(sh, fr, t, f, pc);
    WorkGuarantee(sh, fr, t, f, pc);
  }
}
