/**
 The thread pool of thrdpool/thrdpool.c on top of the message queue, as a step machine.

 Any number of threads take part: the creator, other threads outside the pool, and the workers. A
 step is one instruction of the pool or of the queue inside it. Tasks are opaque: while one runs it
 may schedule tasks, add threads, destroy the pool (once) and finally return.

 What is required of the callers: the pool is created with at least one thread; `thrdpool_destroy`
 is called once; calls of `thrdpool_schedule` and `thrdpool_increase` from outside the pool have
 returned before destroy is called and none is made afterwards; the task that destroys the pool makes
 no further calls. Other running tasks may call both at any time.
 */
module PoolMachine {
  import opened Common
  import Q = QueueMachine

  type Task = Q.Msg

  /** What user code, in a task or in a thread outside the pool, is doing to the pool. */
  datatype Act =
    | Rest               // nothing: it runs its own code
    | Sched(m: Task)     // 172, in msgqueue_put
    | IncLock            // 196
    | IncCreate          // 197
    | IncCount(w: Tid)   // 199
    | IncUnlock          // 201
    | CrLoop             // 113-119, 122
    | CrCount(w: Tid)    // 116
    | Ds(d: Stage)       // in thrdpool_destroy or, after a failed creation, in __thrdpool_terminate

  datatype Stage =
    | DsLock             // 85
    | DsMode             // 86, in msgqueue_set_nonblock
    | DsTerm             // 87
    | DsDetach           // 89-93
    | DsTest             // 95-96
    | DsWait             // 96, in the wait
    | DsUnlock           // 98
    | DsJoin             // 99-100
    | DrainCall          // 222
    | DrainGet           // 223-230, in msgqueue_get
    | DsFree             // 233-237
    | DsDone             // 238

  datatype Frame =
    | User(task: Option<Task>, a: Act)   // 59, inside a task; or, with no task, a thread outside the pool
    | Loop                        // 51
    | Fetch                       // 52, in msgqueue_get
    | Begin(m: Task)              // 56-58
    | After                       // 61
    | FreePool                    // 63
    | ExLock                      // 69
    | ExLeave                     // 70-72
    | ExSignal(prev: Option<Tid>) // 73
    | ExUnlock(prev: Option<Tid>) // 75
    | ExJoin(prev: Option<Tid>)   // 76-77
    | Gone                        // 64, 79: returned from __thrdpool_routine

  /**
   The pool object, with the queue inside it. The fields from `want` on are not in the C structure:
   the argument of `thrdpool_create`, whether it has returned, who destroys the pool, and history,
   which no instruction reads. `stage` is the progress of the destroyer, `uncounted` a worker created
   and not counted yet, `workers` all threads created to run `__thrdpool_routine`, `exits` the workers
   in the order in which they left, `joined` the threads joined so far, `started` and `drained` the tasks
   started by workers and handed to `pending`.
   */
  datatype Shared = Shared(
    q: Q.Shared,
    nthreads: nat,
    tid: Option<Tid>,        // None is the zero thread id
    owner: Option<Tid>,      // of pool->mutex
    terminate: Option<Tid>,  // the thread whose frame holds the condition variable pointed to
    termCond: set<Tid>,      // asleep on that condition variable and not notified
    freed: bool,
    want: nat,
    published: bool,
    destroyer: Option<Tid>,
    stage: nat,
    uncounted: Option<Tid>,
    workers: set<Tid>,
    exits: seq<Tid>,
    joined: seq<Tid>,
    started: seq<Task>,
    drained: seq<Task>)

  datatype State = State(sh: Shared, fr: map<Tid, Frame>, qp: map<Tid, Q.Pc>)

  /** `--nthreads` on a size_t. */
  function Dec(n: nat): nat {
    if n == 0 then Q.SIZE_MAX else n - 1
  }

  const CREATOR: Tid := 0

  /** The pool at the start of `__thrdpool_create_threads` (lines 140-150). */
  function Init(want: nat): State {
    State(Shared(Q.Init(Q.SIZE_MAX).sh, 0, None, None, None, {}, false, want, false, None, 0, None, {}, [], [], [], []),
          map[CREATOR := User(None, CrLoop)], map[CREATOR := Q.Idle])
  }

  /** The outcome of an instruction: the pool, the thread's own frame and queue counter, a new worker. */
  datatype Out<F> = Out(sh: Shared, f: F, pc: Q.Pc, spawn: Option<Tid>)

  /** Destruction in numbers: 0 before it starts, then counting up along `__thrdpool_terminate`. */
  function Nr(d: Stage): nat {
    match d
    case DsLock => 1
    case DsMode => 2
    case DsTerm => 3
    case DsDetach => 4
    case DsTest => 5
    case DsWait => 5
    case DsUnlock => 6
    case DsJoin => 7
    case DrainCall => 8
    case DrainGet => 8
    case DsFree => 9
    case DsDone => 10
  }

  /** A thread outside the pool. */
  predicate Outside(f: Frame) {
    f.User? && f.task == None
  }

  function ActOf(f: Frame): Act {
    if f.User? then f.a else Rest
  }

  /** `x` has returned and can be joined; the zero id needs no join. */
  predicate Joinable(fr: map<Tid, Frame>, x: Option<Tid>) {
    x.Some? ==> x.value in fr && fr[x.value] == Gone
  }

  // ---- instructions of user code inside pool functions ----

  predicate ActReady(sh: Shared, fr: map<Tid, Frame>, t: Tid, a: Act, pc: Q.Pc) {
    match a
    case Rest => false
    case Sched(_) => Q.IsRet(pc)
    case IncLock => sh.owner == None
    case Ds(d) =>
      (match d
       case DsLock => sh.owner == None
       case DsMode => Q.IsRet(pc)
       case DsWait => sh.owner == None && t !in sh.termCond
       case DsJoin => Joinable(fr, sh.tid)
       case DrainGet => Q.IsRet(pc)
       case DsDone => false
       case _ => true)
    case _ => true
  }

  function Made(sh: Shared, w: Tid): Shared {
    sh.(uncounted := Some(w), workers := sh.workers + {w})
  }

  /** `w` is the id of the thread that `pthread_create` makes; None if it fails. */
  function CreateStep(sh: Shared, t: Tid, a: Act, pc: Q.Pc, w: Option<Tid>): Out<Act> {
    match a
    case Sched(_) => Out(sh, Rest, Q.Idle, None)
    case IncLock => Out(sh.(owner := Some(t)), IncCreate, pc, None)
    case IncCreate => if w.Some? then Out(Made(sh, w.value), IncCount(w.value), pc, w) else Out(sh, IncUnlock, pc, None)
    case IncCount(_) => Out(sh.(nthreads := sh.nthreads + 1, uncounted := None), IncUnlock, pc, None)
    case IncUnlock => Out(sh.(owner := None), Rest, pc, None)
    case CrLoop =>
      if sh.nthreads < sh.want then
        if w.Some? then Out(Made(sh, w.value), CrCount(w.value), pc, w)
        else Out(sh.(destroyer := Some(t), stage := 1), Ds(DsLock), pc, None)     // line 125
      else Out(sh.(published := true), Rest, pc, None)
    case CrCount(_) => Out(sh.(nthreads := sh.nthreads + 1, uncounted := None), CrLoop, pc, None)
    case _ => Out(sh, a, pc, None)
  }

  function DestroyStep(sh: Shared, t: Tid, inPool: bool, d: Stage, pc: Q.Pc): Out<Stage> {
    match d
    case DsLock => Out(sh.(owner := Some(t)), DsMode, Q.Entry(Q.DoNonblock), None)
    case DsMode => Out(sh, DsTerm, Q.Idle, None)
    case DsTerm => Out(sh.(terminate := Some(t)), DsDetach, pc, None)
    case DsDetach => Out(sh.(nthreads := if inPool then Dec(sh.nthreads) else sh.nthreads), DsTest, pc, None)
    case DsTest =>
      if sh.nthreads > 0 then Out(sh.(owner := None, termCond := sh.termCond + {t}), DsWait, pc, None)
      else Out(sh, DsUnlock, pc, None)
    case DsWait => Out(sh.(owner := Some(t)), DsTest, pc, None)
    case DsUnlock => Out(sh.(owner := None), DsJoin, pc, None)
    case DsJoin =>
      Out(sh.(joined := if sh.tid.Some? then sh.joined + [sh.tid.value] else sh.joined),
          if sh.published then DrainCall else DsFree, pc, None)
    case DrainCall => Out(sh, DrainGet, Q.Entry(Q.DoGet), None)
    case DrainGet =>
      if pc.Get? && pc.g.GRet? && pc.g.res.Some? then
        Out(sh.(drained := sh.drained + [pc.g.res.value]), DrainCall, Q.Idle, None)
      else Out(sh, DsFree, Q.Idle, None)
    case DsFree => Out(sh.(freed := sh.freed || !inPool), DsDone, pc, None)
    case DsDone => Out(sh, d, pc, None)
  }

  function ActStep(sh: Shared, t: Tid, inPool: bool, a: Act, pc: Q.Pc, w: Option<Tid>): Out<Act> {
    if a.Ds? then var o := DestroyStep(sh, t, inPool, a.d, pc); Out(o.sh.(stage := Nr(o.f)), Ds(o.f), o.pc, None)
    else CreateStep(sh, t, a, pc, w)
  }

  // ---- instructions of __thrdpool_routine ----

  predicate WorkReady(sh: Shared, fr: map<Tid, Frame>, f: Frame, pc: Q.Pc) {
    match f
    case Fetch => Q.IsRet(pc)
    case ExLock => sh.owner == None
    case ExJoin(prev) => Joinable(fr, prev)
    case Gone => false
    case _ => true
  }

  function WorkStep(sh: Shared, t: Tid, f: Frame, pc: Q.Pc): Out<Frame> {
    match f
    case Loop => if sh.terminate == None then Out(sh, Fetch, Q.Entry(Q.DoGet), None) else Out(sh, ExLock, pc, None)
    case Fetch =>
      if pc.Get? && pc.g.GRet? && pc.g.res.Some? then Out(sh, Begin(pc.g.res.value), Q.Idle, None)
      else Out(sh, ExLock, Q.Idle, None)
    case Begin(m) => Out(sh.(started := sh.started + [m]), User(Some(m), Rest), pc, None)
    case After => Out(sh, if sh.nthreads == 0 then FreePool else Loop, pc, None)
    case FreePool => Out(sh.(freed := true), Gone, pc, None)
    case ExLock => Out(sh.(owner := Some(t)), ExLeave, pc, None)
    case ExLeave =>
      Out(sh.(tid := Some(t), nthreads := Dec(sh.nthreads), exits := sh.exits + [t]),
          if Dec(sh.nthreads) == 0 then ExSignal(sh.tid) else ExUnlock(sh.tid), pc, None)
    case ExSignal(prev) => Out(sh.(termCond := {}), ExUnlock(prev), pc, None)
    case ExUnlock(prev) => Out(sh.(owner := None), ExJoin(prev), pc, None)
    case ExJoin(prev) => Out(sh.(joined := if prev.Some? then sh.joined + [prev.value] else sh.joined), Gone, pc, None)
    case _ => Out(sh, f, pc, None)
  }

  // ---- the steps of the whole system ----

  predicate PoolReady(s: State, t: Tid)
    requires t in s.fr && t in s.qp
  {
    if s.fr[t].User? then ActReady(s.sh, s.fr, t, s.fr[t].a, s.qp[t])
    else WorkReady(s.sh, s.fr, s.fr[t], s.qp[t])
  }

  function PoolStep(s: State, t: Tid, w: Option<Tid>): Out<Frame>
    requires t in s.fr && t in s.qp
  {
    var f, pc := s.fr[t], s.qp[t];
    if f.User? then
      var o := ActStep(s.sh, t, f.task.Some?, f.a, pc, w); Out(o.sh, f.(a := o.f), o.pc, o.spawn)
    else WorkStep(s.sh, t, f, pc)
  }

  datatype Action =
    | Pool(t: Tid, made: Option<Tid>) // the next pool instruction of `t`; `made` is a thread it creates
    | Queue(t: Tid, w: Tid)           // the next queue instruction of `t`
    | QueueWake(t: Tid)               // a spurious wakeup inside the queue
    | PoolWake                        // a spurious wakeup of the terminator
    | Arrive(t: Tid)                  // a thread outside the pool appears
    | Schedule(t: Tid, m: Task)       // user code calls thrdpool_schedule
    | Increase(t: Tid)
    | Destroy(t: Tid)
    | Finish(t: Tid)                  // the task of `t` returns

  function QueueOf(s: State): Q.State {
    Q.State(s.sh.q, s.qp)
  }

  /** User code of `t` may call the pool: a task, or an outside thread before destroy is called. */
  predicate MayCall(s: State, t: Tid) {
    t in s.fr && s.fr[t].User? && s.fr[t].a == Rest && s.sh.published &&
    (s.fr[t].task == None ==> s.sh.destroyer == None)
  }

  ghost predicate Enabled(s: State, a: Action) {
    match a
    case Pool(t, w) => t in s.fr && t in s.qp && PoolReady(s, t) && (w.Some? ==> w.value !in s.fr && w.value !in s.qp)
    case Queue(t, w) => Q.Enabled(QueueOf(s), Q.Run(t, w))
    case QueueWake(t) => Q.Enabled(QueueOf(s), Q.Spurious(t))
    case PoolWake => true
    case Arrive(t) => t !in s.fr && t !in s.qp
    case Schedule(t, m) =>
      MayCall(s, t) && t in s.qp && m !in s.sh.q.enq && Q.Enabled(QueueOf(s), Q.Invoke(t, Q.DoPut(m)))
    case Increase(t) => MayCall(s, t) && t in s.qp
    case Destroy(t) =>
      MayCall(s, t) && t in s.qp && s.sh.destroyer == None &&
      forall u :: u in s.fr && Outside(s.fr[u]) ==> s.fr[u].a == Rest
    case Finish(t) => t in s.fr && t in s.qp && s.fr[t].User? && s.fr[t].task.Some? && (s.fr[t].a == Rest || s.fr[t].a == Ds(DsDone))
  }

  function Merge(s: State, t: Tid, o: Out<Frame>): State {
    var fr, qp := s.fr[t := o.f], s.qp[t := o.pc];
    if o.spawn.Some? then State(o.sh, fr[o.spawn.value := Loop], qp[o.spawn.value := Q.Idle])
    else State(o.sh, fr, qp)
  }

  function WithQueue(s: State, q: Q.State): State {
    State(s.sh.(q := q.sh), s.fr, q.pcs)
  }

  ghost function Apply(s: State, a: Action): State
    requires Enabled(s, a)
  {
    match a
    case Pool(t, w) => Merge(s, t, PoolStep(s, t, w))
    case Queue(t, w) => WithQueue(s, Q.Apply(QueueOf(s), Q.Run(t, w)))
    case QueueWake(t) => WithQueue(s, Q.Apply(QueueOf(s), Q.Spurious(t)))
    case PoolWake => s.(sh := s.sh.(termCond := {}))
    case Arrive(t) => State(s.sh, s.fr[t := User(None, Rest)], s.qp[t := Q.Idle])
    case Schedule(t, m) =>
      var q := Q.Apply(QueueOf(s), Q.Invoke(t, Q.DoPut(m)));
      State(s.sh.(q := q.sh), s.fr[t := s.fr[t].(a := Sched(m))], q.pcs)
    case Increase(t) => s.(fr := s.fr[t := s.fr[t].(a := IncLock)])
    case Destroy(t) => s.(sh := s.sh.(destroyer := Some(t), stage := 1), fr := s.fr[t := s.fr[t].(a := Ds(DsLock))])
    case Finish(t) => s.(fr := s.fr[t := After])
  }

  /** A run of a pool asked for `want` threads. */
  ghost predicate IsRun(want: nat, ss: seq<State>, acts: seq<Action>) {
    |ss| == |acts| + 1 && want > 0 && ss[0] == Init(want) &&
    forall i :: 0 <= i < |acts| ==> Enabled(ss[i], acts[i]) && ss[i + 1] == Apply(ss[i], acts[i])
  }
}
