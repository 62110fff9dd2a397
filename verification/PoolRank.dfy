/**
 Destroying a pool comes to an end: from the instant at which it has made the queue nonblocking, every instruction
 of the pool or the queue, and every return of a task, uses up part of a rank. Calls by tasks that still run and
 spurious wakeups of the terminator add to it, each a fixed amount.
 */
module PoolRank {
  import opened Common
  import opened PoolMachine
  import opened PoolInv
  import opened PoolProof
  import opened PoolSafety
  import opened PoolProgress
  import Q = QueueMachine
  import QI = QueueInv
  import QR = QueueRank

  // ---- what is left for one thread ----

  /** A task in the queue is good for one more round of a worker or of the drain loop. */
  const TASK: nat := 20

  /** The user code of a task returns, and its worker goes on to line 61. */
  function Base(task: Option<Task>): nat {
    if task.Some? then 26 else 0
  }

  function ActLeft(a: Act, pc: Q.Pc): nat {
    match a
    case Rest => 0
    case Sched(_) => 1 + QR.Left(pc) + (if Q.Flying(pc) then TASK else 0)
    case IncLock => 28
    case IncCreate => 27
    case IncCount(_) => 2
    case IncUnlock => 1
    case CrLoop => 0
    case CrCount(_) => 0
    case Ds(d) =>
      (match d
       case DsLock => 30
       case DsMode => 23 + QR.Left(pc)
       case DsTerm => 22
       case DsDetach => 21
       case DsTest => 20
       case DsWait => 21
       case DsUnlock => 19
       case DsJoin => 18
       case DrainCall => 17
       case DrainGet => QR.Left(pc) + (if GetsSome(pc) then 18 else 2)
       case DsFree => 1
       case DsDone => 0)
  }

  function Weight(f: Frame, pc: Q.Pc): nat {
    match f
    case User(task, a) => Base(task) + ActLeft(a, pc)
    case Loop => 24
    case Fetch => QR.Left(pc) + (if GetsSome(pc) then 28 else 9)
    case Begin(_) => 27
    case After => 25
    case FreePool => 1
    case ExLock => 8
    case ExLeave => 7
    case ExSignal(_) => 6
    case ExUnlock(_) => 2
    case ExJoin(_) => 1
    case Gone => 0
  }

  /** The tasks in the queue, and a wakeup the terminator has yet to take. */
  function Owed(sh: Shared): nat {
    TASK * (|sh.q.getq| + |sh.q.putq|) + (if sh.termCond == {} then 2 else 0)
  }

  ghost function Weights(s: State): map<Tid, nat> {
    map t | t in s.fr && t in s.qp :: Weight(s.fr[t], s.qp[t])
  }

  ghost function Rank(s: State): nat {
    Total(Weights(s)) + Owed(s.sh)
  }

  // ---- instructions of the pool ----

  lemma WorkLowers(sh: Shared, fr: map<Tid, Frame>, t: Tid, f: Frame, pc: Q.Pc)
    requires !f.User? && WorkReady(sh, fr, f, pc) && QueueMatch(f, pc)
    ensures var o := WorkStep(sh, t, f, pc); o.spawn == None && Weight(o.f, o.pc) + Owed(o.sh) < Weight(f, pc) + Owed(sh)
  {
    match f
    case Fetch =>
    case _ =>
  }

  lemma DestroyLowers(sh: Shared, fr: map<Tid, Frame>, t: Tid, inPool: bool, d: Stage, pc: Q.Pc)
    requires ActReady(sh, fr, t, Ds(d), pc) && QueueMatch(User(None, Ds(d)), pc)
    requires d == DsWait ==> t !in sh.termCond && sh.termCond <= {t}
    requires d == DsTest ==> sh.termCond == {}
    ensures var o := DestroyStep(sh, t, inPool, d, pc);
      ActLeft(Ds(o.f), o.pc) + Owed(o.sh) < ActLeft(Ds(d), pc) + Owed(sh)
  {
  }

  lemma CreateLowers(sh: Shared, fr: map<Tid, Frame>, t: Tid, a: Act, pc: Q.Pc, w: Option<Tid>)
    requires !a.Ds? && a != CrLoop && !a.CrCount? && ActReady(sh, fr, t, a, pc) && QueueMatch(User(None, a), pc)
    ensures var o := CreateStep(sh, t, a, pc, w);
      ActLeft(o.f, o.pc) + (if o.spawn.Some? then Weight(Loop, Q.Idle) else 0) + Owed(o.sh) < ActLeft(a, pc) + Owed(sh)
  {
  }

  // ---- instructions of the queue ----

  function Pending(q: Q.Shared): nat {
    |q.getq| + |q.putq|
  }

  lemma PutPays(q: Q.Shared, t: Tid, m: Q.Msg, p: Q.PutPc, w: Tid)
    requires Q.Ready(q, t, Q.Put(m, p)) && q.nonblock && QI.Lists(q) && QI.Local(q, t, Q.Put(m, p))
    ensures var (q', p') := Q.PutStep(q, t, m, p, w);
      ActLeft(Sched(m), Q.Put(m, p')) + TASK * Pending(q') < ActLeft(Sched(m), Q.Put(m, p)) + TASK * Pending(q)
  {
  }

  lemma GetPays(q: Q.Shared, t: Tid, g: Q.GetPc)
    requires Q.Ready(q, t, Q.Get(g)) && q.nonblock && QI.Lists(q) && QI.Local(q, t, Q.Get(g))
    ensures var (q', g') := Q.GetStep(q, t, g);
      (GetsSome(Q.Get(g)) ==> GetsSome(Q.Get(g'))) &&
      QR.Left(Q.Get(g')) + (if GetsSome(Q.Get(g')) then 19 else 0) + TASK * Pending(q') <
      QR.Left(Q.Get(g)) + (if GetsSome(Q.Get(g)) then 19 else 0) + TASK * Pending(q)
  {
    QR.GetLowers(q, t, g);
    QI.FirstCell(q);
  }

  lemma ModePays(q: Q.Shared, t: Tid, k: Q.ModePc, w: Tid)
    requires Q.Ready(q, t, Q.Mode(k)) && q.nonblock && QI.Lists(q) && QI.Local(q, t, Q.Mode(k))
    ensures var (q', k') := Q.ModeStep(q, t, k, w);
      QR.Left(Q.Mode(k')) < QR.Left(Q.Mode(k)) && Pending(q') == Pending(q)
  {
    QR.ExecLowers(q, t, Q.Mode(k), w);
  }

  lemma QueuePays(q: Q.Shared, t: Tid, f: Frame, pc: Q.Pc, w: Tid)
    requires Q.Ready(q, t, pc) && q.nonblock && QI.Lists(q) && QI.Local(q, t, pc) && QueueMatch(f, pc)
    ensures var (q', pc') := Q.Exec(q, t, pc, w); Weight(f, pc') + TASK * Pending(q') < Weight(f, pc) + TASK * Pending(q)
  {
    match pc
    case Put(m, p) => PutPays(q, t, m, p, w);
    case Get(g) => GetPays(q, t, g);
    case Mode(k) => ModePays(q, t, k, w);
  }

  // ---- the steps of the whole system ----

  /** The instructions of the pool and the queue, and the returns of tasks. */
  function Cost(a: Action): nat {
    if a.Pool? || a.Queue? || a.Finish? then 1 else 0
  }

  /** What a call by a task, or a spurious wakeup of the terminator, may add. */
  function Credit(a: Action): nat {
    match a
    case PoolWake => 2
    case Schedule(_, _) => 27
    case Increase(_) => 28
    case _ => 0
  }

  /** The action is paid for by the rank and what it adds. */
  ghost predicate Paid(s: State, a: Action, s': State) {
    Cost(a) + Rank(s') <= Rank(s) + Credit(a)
  }

  lemma OneWeight(s: State, s': State, t: Tid)
    requires s.fr.Keys == s.qp.Keys && t in s'.fr && t in s'.qp
    requires s'.fr == s.fr[t := s'.fr[t]] && s'.qp == s.qp[t := s'.qp[t]]
    ensures Total(Weights(s')) + (if t in s.fr then Weight(s.fr[t], s.qp[t]) else 0) ==
      Total(Weights(s)) + Weight(s'.fr[t], s'.qp[t])
  {
    var n := Weight(s'.fr[t], s'.qp[t]);
    assert Weights(s') == Weights(s)[t := n];
    TotalUpdate(Weights(s), t, n);
  }

  lemma UserPays(sh: Shared, fr: map<Tid, Frame>, t: Tid, f: Frame, pc: Q.Pc, made: Option<Tid>)
    requires f.User? && ActReady(sh, fr, t, f.a, pc) && QueueMatch(f, pc) && f.a != CrLoop && !f.a.CrCount?
    requires f.a.Ds? ==> sh.termCond <= {t} && (f.a.d != DsWait ==> sh.termCond == {})
    ensures var o := ActStep(sh, t, f.task.Some?, f.a, pc, made);
      ActLeft(o.f, o.pc) + (if o.spawn.Some? then Weight(Loop, Q.Idle) else 0) + Owed(o.sh) < ActLeft(f.a, pc) + Owed(sh)
  {
    if f.a.Ds? { DestroyLowers(sh, fr, t, f.task.Some?, f.a.d, pc); } else { CreateLowers(sh, fr, t, f.a, pc, made); }
  }

  lemma OwnPays(s: State, t: Tid, made: Option<Tid>)
    requires t in s.fr && t in s.qp && PoolReady(s, t) && QueueMatch(s.fr[t], s.qp[t])
    requires ActOf(s.fr[t]) != CrLoop && !ActOf(s.fr[t]).CrCount?
    requires ActOf(s.fr[t]).Ds? ==> s.sh.termCond <= {t} && (ActOf(s.fr[t]) != Ds(DsWait) ==> s.sh.termCond == {})
    ensures var o := PoolStep(s, t, made);
      Weight(o.f, o.pc) + (if o.spawn.Some? then Weight(Loop, Q.Idle) else 0) + Owed(o.sh) <
      Weight(s.fr[t], s.qp[t]) + Owed(s.sh)
  {
    if s.fr[t].User? {
      UserPays(s.sh, s.fr, t, s.fr[t], s.qp[t], made);
    } else {
      WorkLowers(s.sh, s.fr, t, s.fr[t], s.qp[t]);
    }
  }

  /** Only the destroyer sleeps on its condition variable, and only in its wait. */
  lemma TerminatorAwake(s: State, t: Tid)
    requires Known(s) && t in s.fr && ActOf(s.fr[t]).Ds?
    ensures s.sh.termCond <= {t} && (ActOf(s.fr[t]) != Ds(DsWait) ==> s.sh.termCond == {})
  {
    OneTerminator(s);
    assert Place(s.sh, t, s.fr[t]);
    forall u | u in s.sh.termCond ensures u == t && ActOf(s.fr[t]) == Ds(DsWait) {
      assert Hold(s.sh, u, s.fr[u], s.qp[u]);
    }
  }

  /** The creation is over, and a thread that is started is new. */
  lemma Standing(s: State, t: Tid, made: Option<Tid>)
    requires Known(s) && s.sh.q.nonblock && Enabled(s, Pool(t, made))
    ensures QueueMatch(s.fr[t], s.qp[t]) && ActOf(s.fr[t]) != CrLoop && !ActOf(s.fr[t]).CrCount?
    ensures var o := PoolStep(s, t, made); o.spawn.Some? ==> o.spawn.value !in s.fr && o.spawn.value != t
  {
    assert Place(s.sh, t, s.fr[t]) && Hold(s.sh, t, s.fr[t], s.qp[t]);
    QueueSide(s, t, made);
  }

  lemma PoolPays(s: State, t: Tid, made: Option<Tid>)
    requires Known(s) && s.sh.q.nonblock && Enabled(s, Pool(t, made))
    ensures Paid(s, Pool(t, made), Apply(s, Pool(t, made)))
  {
    Standing(s, t, made);
    if ActOf(s.fr[t]).Ds? { TerminatorAwake(s, t); }
    OwnPays(s, t, made);
    MergePays(s, t, PoolStep(s, t, made));
  }

  lemma MergePays(s: State, t: Tid, o: Out<Frame>)
    requires s.fr.Keys == s.qp.Keys && t in s.fr && (o.spawn.Some? ==> o.spawn.value !in s.fr && o.spawn.value != t)
    requires Weight(o.f, o.pc) + (if o.spawn.Some? then Weight(Loop, Q.Idle) else 0) + Owed(o.sh) <
      Weight(s.fr[t], s.qp[t]) + Owed(s.sh)
    ensures Rank(Merge(s, t, o)) < Rank(s)
  {
    var mid := State(o.sh, s.fr[t := o.f], s.qp[t := o.pc]);
    OneWeight(s, mid, t);
    if o.spawn.Some? { OneWeight(mid, Merge(s, t, o), o.spawn.value); }
  }

  lemma QueueRuns(s: State, t: Tid, w: Tid)
    requires Known(s) && QI.Inv(QueueOf(s)) && Enabled(s, Queue(t, w))
    ensures Q.Ready(s.sh.q, t, s.qp[t]) && QI.Lists(s.sh.q) && QI.Local(s.sh.q, t, s.qp[t]) && QueueMatch(s.fr[t], s.qp[t])
  {
    QueueShape(s, t, w);
    assert QI.Local(s.sh.q, t, s.qp[t]) && Hold(s.sh, t, s.fr[t], s.qp[t]);
  }

  lemma QueuePaysAll(s: State, t: Tid, w: Tid)
    requires Known(s) && QI.Inv(QueueOf(s)) && s.sh.q.nonblock && Enabled(s, Queue(t, w))
    ensures Paid(s, Queue(t, w), Apply(s, Queue(t, w)))
  {
    QueueRuns(s, t, w);
    QueuePays(s.sh.q, t, s.fr[t], s.qp[t], w);
    QueueShape(s, t, w);
    var (q', pc') := Q.Exec(s.sh.q, t, s.qp[t], w);
    RunPays(s, t, q', pc');
  }

  lemma RunPays(s: State, t: Tid, q': Q.Shared, pc': Q.Pc)
    requires s.fr.Keys == s.qp.Keys && t in s.fr
    requires Weight(s.fr[t], pc') + TASK * Pending(q') < Weight(s.fr[t], s.qp[t]) + TASK * Pending(s.sh.q)
    ensures Rank(State(s.sh.(q := q'), s.fr, s.qp[t := pc'])) < Rank(s)
  {
    var s' := State(s.sh.(q := q'), s.fr, s.qp[t := pc']);
    assert s.fr == s.fr[t := s.fr[t]];
    OneWeight(s, s', t);
  }

  lemma FinishPays(s: State, t: Tid)
    requires Keys(s) && Enabled(s, Finish(t))
    ensures Paid(s, Finish(t), Apply(s, Finish(t)))
  {
    assert s.qp == s.qp[t := s.qp[t]];
    OneWeight(s, Apply(s, Finish(t)), t);
  }

  lemma ScheduleAdds(s: State, t: Tid, m: Task)
    requires Known(s) && Enabled(s, Schedule(t, m))
    ensures Paid(s, Schedule(t, m), Apply(s, Schedule(t, m)))
  {
    UserReady(s, t);
    ScheduleShape(s, t, m);
    OneWeight(s, Apply(s, Schedule(t, m)), t);
  }

  lemma IncreaseAdds(s: State, t: Tid)
    requires Known(s) && Enabled(s, Increase(t))
    ensures Paid(s, Increase(t), Apply(s, Increase(t)))
  {
    UserReady(s, t);
    IncreaseShape(s, t);
    assert s.qp == s.qp[t := s.qp[t]];
    OneWeight(s, Apply(s, Increase(t)), t);
  }

  lemma ArriveAdds(s: State, t: Tid)
    requires Keys(s) && Enabled(s, Arrive(t))
    ensures Paid(s, Arrive(t), Apply(s, Arrive(t)))
  {
    OneWeight(s, Apply(s, Arrive(t)), t);
  }

  lemma QueueWakeAdds(s: State, t: Tid)
    requires Enabled(s, QueueWake(t))
    ensures Paid(s, QueueWake(t), Apply(s, QueueWake(t)))
  {
    assert Weights(Apply(s, QueueWake(t))) == Weights(s);
  }

  lemma PoolWakeAdds(s: State)
    ensures Paid(s, PoolWake, Apply(s, PoolWake))
  {
    assert Weights(Apply(s, PoolWake)) == Weights(s);
  }

  /** Destroy is called once. */
  lemma NotAgain(s: State, t: Tid)
    requires Known(s) && s.sh.q.nonblock
    ensures !Enabled(s, Destroy(t))
  {
  }

  lemma RankLowers(s: State, a: Action)
    requires Known(s) && QI.Inv(QueueOf(s)) && s.sh.q.nonblock && Enabled(s, a)
    ensures Paid(s, a, Apply(s, a))
  {
    match a
    case Pool(t, made) => PoolPays(s, t, made);
    case Queue(t, w) => QueuePaysAll(s, t, w);
    case Finish(t) => FinishPays(s, t);
    case QueueWake(t) => QueueWakeAdds(s, t);
    case PoolWake => PoolWakeAdds(s);
    case Schedule(t, m) => ScheduleAdds(s, t, m);
    case Increase(t) => IncreaseAdds(s, t);
    case Arrive(t) => ArriveAdds(s, t);
    case Destroy(t) => NotAgain(s, t);
  }

  // ---- runs ----

  /** From state `i` to state `j`. */
  function Costs(acts: seq<Action>, i: nat, j: nat): nat
    requires i <= j <= |acts|
  {
    if i == j then 0 else Costs(acts, i, j - 1) + Cost(acts[j - 1])
  }

  function Credits(acts: seq<Action>, i: nat, j: nat): nat
    requires i <= j <= |acts|
  {
    if i == j then 0 else Credits(acts, i, j - 1) + Credit(acts[j - 1])
  }

  ghost predicate Closing(s: State) {
    Inv(s) && s.sh.q.nonblock
  }

  lemma PoolModeStays(s: State, t: Tid, made: Option<Tid>)
    requires Known(s) && s.sh.q.nonblock && Enabled(s, Pool(t, made))
    ensures Apply(s, Pool(t, made)).sh.q.nonblock
  {
    assert Hold(s.sh, t, s.fr[t], s.qp[t]);
    QueueSide(s, t, made);
  }

  lemma QueueModeStays(s: State, t: Tid, w: Tid)
    requires Known(s) && s.sh.q.nonblock && Enabled(s, Queue(t, w))
    ensures Apply(s, Queue(t, w)).sh.q.nonblock
  {
    QueueShape(s, t, w);
    assert Hold(s.sh, t, s.fr[t], s.qp[t]);
    QueueStays(s.sh.q, t, s.fr[t], s.qp[t], w);
  }

  /** The mode is never set back. */
  lemma NonblockStays(s: State, a: Action)
    requires Known(s) && s.sh.q.nonblock && Enabled(s, a)
    ensures Apply(s, a).sh.q.nonblock
  {
    match a
    case Pool(t, made) => PoolModeStays(s, t, made);
    case Queue(t, w) => QueueModeStays(s, t, w);
    case _ =>
  }

  lemma StepBound(s: State, a: Action)
    requires Closing(s) && Enabled(s, a)
    ensures Closing(Apply(s, a)) && Paid(s, a, Apply(s, a))
  {
    AnyKeeps(s, a);
    NonblockStays(s, a);
    RankLowers(s, a);
  }

  /** No thread of the pool calls msgqueue_set_block. */
  lemma QueueStays(q: Q.Shared, t: Tid, f: Frame, pc: Q.Pc, w: Tid)
    requires QueueMatch(f, pc) && q.nonblock
    ensures Q.Exec(q, t, pc, w).0.nonblock
  {
    match pc
    case Get(g) => GetModeSame(q, t, g);
    case _ =>
  }

  lemma GetModeSame(q: Q.Shared, t: Tid, g: Q.GetPc)
    ensures Q.GetStep(q, t, g).0.nonblock == q.nonblock
  {
  }

  lemma NonblockNext(want: nat, ss: seq<State>, acts: seq<Action>, j: nat)
    requires IsRun(want, ss, acts) && j < |acts| && ss[j].sh.q.nonblock
    ensures Paid(ss[j], acts[j], ss[j + 1]) && ss[j + 1].sh.q.nonblock
  {
    Reachable(want, ss, acts, j);
    StepBound(ss[j], acts[j]);
  }

  lemma {:induction false} NonblockFor(want: nat, ss: seq<State>, acts: seq<Action>, i: nat, j: nat)
    requires IsRun(want, ss, acts) && i <= j < |ss| && ss[i].sh.q.nonblock
    ensures ss[j].sh.q.nonblock
  {
    if i < j {
      NonblockFor(want, ss, acts, i, j - 1);
      NonblockNext(want, ss, acts, j - 1);
    }
  }

  ghost predicate PaidAt(ss: seq<State>, acts: seq<Action>, k: int) {
    0 <= k < |acts| && k + 1 < |ss| && Paid(ss[k], acts[k], ss[k + 1])
  }

  lemma {:induction false} SumPaid(ss: seq<State>, acts: seq<Action>, i: nat, j: nat)
    requires |ss| == |acts| + 1 && i <= j < |ss| && forall k :: i <= k < j ==> PaidAt(ss, acts, k)
    ensures Costs(acts, i, j) + Rank(ss[j]) <= Rank(ss[i]) + Credits(acts, i, j)
  {
    if i < j {
      SumPaid(ss, acts, i, j - 1);
      assert PaidAt(ss, acts, j - 1);
    }
  }

  lemma RankBound(want: nat, ss: seq<State>, acts: seq<Action>, i: nat, j: nat)
    requires IsRun(want, ss, acts) && i <= j < |ss| && ss[i].sh.q.nonblock
    ensures Costs(acts, i, j) + Rank(ss[j]) <= Rank(ss[i]) + Credits(acts, i, j)
  {
    forall k | i <= k < j ensures PaidAt(ss, acts, k) {
      NonblockFor(want, ss, acts, i, k);
      NonblockNext(want, ss, acts, k);
    }
    SumPaid(ss, acts, i, j);
  }

  lemma StagesOpen(want: nat, ss: seq<State>, acts: seq<Action>, i: nat, j: nat)
    requires IsRun(want, ss, acts) && i <= j < |ss| && ss[i].sh.q.nonblock
    ensures ss[j].sh.stage >= 2
  {
    NonblockFor(want, ss, acts, i, j);
    Reachable(want, ss, acts, j);
  }

  /**
   From a state on in which destroy has executed line 53, no more instructions are executed than the rank says
   plus a fixed amount for each call by a running task and each spurious wakeup of the terminator; and until
   destroy returns some thread can always execute one. So destroy returns, whatever the scheduling.
   */
  lemma DestroyEnds(want: nat, ss: seq<State>, acts: seq<Action>, i: nat, j: nat)
    requires IsRun(want, ss, acts) && i <= j < |ss| && ss[i].sh.q.nonblock
    ensures Costs(acts, i, j) + Rank(ss[j]) <= Rank(ss[i]) + Credits(acts, i, j)
    ensures ss[j].sh.stage < 10 ==> SomeoneMoves(ss[j])
  {
    RankBound(want, ss, acts, i, j);
    StagesOpen(want, ss, acts, i, j);
    if ss[j].sh.stage < 10 { NoDeadlock(want, ss, acts, j); }
  }
}
