/**
 The two-list message queue of thrdpool/msgqueue.c as a step machine.

 Any number of threads run `msgqueue_put`, `msgqueue_get`, `msgqueue_set_nonblock` and
 `msgqueue_set_block` at the same time. A step is one lock, unlock, wait, signal or broadcast, or
 one access to shared memory. `pthread_cond_wait` releases its mutex atomically, returns only after
 taking it again, and may wake up spuriously. The lists are real chains of link cells: the two head
 cells and the link inside each message.
 */
module QueueMachine {
  import opened Common

  /** A message is named by the address of its link. */
  type Msg = nat

  datatype Side = Head1 | Head2

  function Other(b: Side): Side {
    if b == Head1 then Head2 else Head1
  }

  datatype Cell = Head(b: Side) | Link(m: Msg)

  // What a thread does next; the comments give the lines of msgqueue.c.

  datatype PutPc =
    | PLock          // 91
    | PCheck         // 92
    | PSleep         // 93, before the wait
    | PWait          // 93, in the wait on put_cond
    | PAppend        // 95-97
    | PUnlock        // 98
    | PSignal        // 99
    | PRet           // 100

  datatype SwapPc =
    | SLock          // 71
    | SCheck         // 72
    | SSleep         // 73, before the wait
    | SWait          // 73, in the wait on get_cond
    | STake          // 76-77
    | SExchange      // 79-81

  datatype GetPc =
    | GLock          // 106
    | GTest          // 107
    | GAlias         // 67-70
    | Swap(saved: Side, n: nat, at: SwapPc)   // `n` is `cnt`, meaningful from line 75 on
    | GLeave(n: nat) // 82-83
    | GPop           // 109-110
    | GUnlock(res: Option<Msg>) // 118
    | GRet(res: Option<Msg>)    // 119

  datatype ModePc =
    | NSet           // 53
    | NLock          // 54
    | NSignal        // 55
    | NBroadcast     // 56
    | NUnlock        // 57
    | NRet           // 58
    | BSet           // 62
    | BRet           // 63

  datatype Pc = Idle | Put(m: Msg, p: PutPc) | Get(g: GetPc) | Mode(k: ModePc)

  /**
   The queue object. A condition variable is the set of the threads asleep on it and not yet
   notified. `getq`, `putq`, `enq` and `deq` are history, which no step reads: the messages on the
   two lists, and every message appended and popped so far.
   */
  datatype Shared = Shared(
    max: nat,
    nonblock: bool,
    cnt: nat,
    getHead: Side,
    putHead: Side,
    putTail: Cell,
    mem: map<Cell, Option<Msg>>,
    getOwner: Option<Tid>,
    putOwner: Option<Tid>,
    getCond: set<Tid>,
    putCond: set<Tid>,
    getq: seq<Msg>,
    putq: seq<Msg>,
    enq: seq<Msg>,
    deq: seq<Msg>)

  datatype State = State(sh: Shared, pcs: map<Tid, Pc>)

  const SIZE_MAX: nat := 0xFFFF_FFFF_FFFF_FFFF

  /** `msg_max - 1` in size_t arithmetic: a queue created with 0 has no limit in practice. */
  function Limit(sh: Shared): nat {
    if sh.max == 0 then SIZE_MAX else sh.max - 1
  }

  function Read(mem: map<Cell, Option<Msg>>, c: Cell): Option<Msg> {
    if c in mem then mem[c] else None
  }

  function Rest(q: seq<Msg>): seq<Msg> {
    if q == [] then [] else q[1..]
  }

  /** The queue as `msgqueue_create` leaves it (lines 142-150). */
  function Init(max: nat): State {
    State(Shared(max, false, 0, Head1, Head2, Head(Head2), map[], None, None, {}, {}, [], [], [], []), map[])
  }

  // ---- the next instruction of one thread ----

  /** The instruction does not block. */
  predicate Ready(sh: Shared, t: Tid, pc: Pc) {
    match pc
    case Idle => false
    case Put(_, p) =>
      p != PRet && (p == PLock ==> sh.putOwner == None) &&
      (p == PWait ==> sh.putOwner == None && t !in sh.putCond)
    case Get(g) =>
      !g.GRet? && (g == GLock ==> sh.getOwner == None) &&
      (g.Swap? ==>
         (g.at == SLock ==> sh.putOwner == None) &&
         (g.at == SWait ==> sh.putOwner == None && t !in sh.getCond))
    case Mode(k) => k != NRet && k != BRet && (k == NLock ==> sh.putOwner == None)
  }

  function PutStep(sh: Shared, t: Tid, m: Msg, p: PutPc, w: Tid): (Shared, PutPc) {
    match p
    case PLock => (sh.(putOwner := Some(t)), PCheck)
    case PCheck => (sh, if sh.cnt > Limit(sh) && !sh.nonblock then PSleep else PAppend)
    case PSleep => (sh.(putOwner := None, putCond := sh.putCond + {t}), PWait)
    case PWait => (sh.(putOwner := Some(t)), PCheck)
    case PAppend =>
      (sh.(mem := sh.mem[sh.putTail := Some(m)], putTail := Link(m), cnt := sh.cnt + 1,
           putq := sh.putq + [m], enq := sh.enq + [m]), PUnlock)
    case PUnlock => (sh.(putOwner := None), PSignal)
    case PSignal => (sh.(getCond := sh.getCond - {w}), PRet)
    case PRet => (sh, p)
  }

  function SwapStep(sh: Shared, t: Tid, b: Side, n: nat, p: SwapPc): (Shared, GetPc) {
    match p
    case SLock => (sh.(putOwner := Some(t)), Swap(b, n, SCheck))
    case SCheck => (sh, if sh.cnt == 0 && !sh.nonblock then Swap(b, n, SSleep) else Swap(b, sh.cnt, STake))
    case SSleep => (sh.(putOwner := None, getCond := sh.getCond + {t}), Swap(b, n, SWait))
    case SWait => (sh.(putOwner := Some(t)), Swap(b, n, SCheck))
    case STake => (sh.(putCond := if n > Limit(sh) then {} else sh.putCond), Swap(b, n, SExchange))
    case SExchange =>
      (sh.(putHead := b, putTail := Head(b), cnt := 0, getq := sh.getq + sh.putq, putq := []), GLeave(n))
  }

  function GetStep(sh: Shared, t: Tid, g: GetPc): (Shared, GetPc) {
    match g
    case GLock => (sh.(getOwner := Some(t)), GTest)
    case GTest => (sh, if Read(sh.mem, Head(sh.getHead)).Some? then GPop else GAlias)
    case GAlias => (sh.(getHead := sh.putHead), Swap(sh.getHead, 0, SLock))
    case Swap(b, n, p) => SwapStep(sh, t, b, n, p)
    case GLeave(n) => (sh.(putOwner := None), if n > 0 then GPop else GUnlock(None))
    case GPop =>
      (match Read(sh.mem, Head(sh.getHead))
       case None => (sh, g)   // a null pointer: excluded by the invariant
       case Some(m) =>
         (sh.(mem := sh.mem[Head(sh.getHead) := Read(sh.mem, Link(m))],
              getq := Rest(sh.getq), deq := sh.deq + [m]), GUnlock(Some(m))))
    case GUnlock(r) => (sh.(getOwner := None), GRet(r))
    case GRet(_) => (sh, g)
  }

  function ModeStep(sh: Shared, t: Tid, k: ModePc, w: Tid): (Shared, ModePc) {
    match k
    case NSet => (sh.(nonblock := true), NLock)
    case NLock => (sh.(putOwner := Some(t)), NSignal)
    case NSignal => (sh.(getCond := sh.getCond - {w}), NBroadcast)
    case NBroadcast => (sh.(putCond := {}), NUnlock)
    case NUnlock => (sh.(putOwner := None), NRet)
    case NRet => (sh, k)
    case BSet => (sh.(nonblock := false), BRet)
    case BRet => (sh, k)
  }

  /** One instruction of thread `t`; a signal wakes `w`. */
  function Exec(sh: Shared, t: Tid, pc: Pc, w: Tid): (Shared, Pc) {
    match pc
    case Idle => (sh, pc)
    case Put(m, p) => var (sh', p') := PutStep(sh, t, m, p, w); (sh', Put(m, p'))
    case Get(g) => var (sh', g') := GetStep(sh, t, g); (sh', Get(g'))
    case Mode(k) => var (sh', k') := ModeStep(sh, t, k, w); (sh', Mode(k'))
  }

  // ---- the steps of the whole system ----

  datatype Call = DoPut(m: Msg) | DoGet | DoNonblock | DoBlock

  datatype Action =
    | Arrive(t: Tid)
    | Invoke(t: Tid, c: Call)
    | Run(t: Tid, w: Tid)
    | Spurious(t: Tid)
    | Return(t: Tid)

  /** Between its call and its append a put owns message `m`. */
  predicate Flying(pc: Pc) {
    pc.Put? && (pc.p == PLock || pc.p == PCheck || pc.p == PSleep || pc.p == PWait || pc.p == PAppend)
  }

  /** The caller of a put owns the message: it is on no list and in no other put. */
  ghost predicate MayPut(s: State, m: Msg) {
    m !in s.sh.getq && m !in s.sh.putq &&
    forall t :: t in s.pcs && Flying(s.pcs[t]) ==> s.pcs[t].m != m
  }

  predicate IsRet(pc: Pc) {
    match pc
    case Idle => false
    case Put(_, p) => p == PRet
    case Get(g) => g.GRet?
    case Mode(k) => k == NRet || k == BRet
  }

  /** `pthread_cond_signal(get_cond)` wakes `w`, which must sleep there if anybody does. */
  predicate SignalChoice(sh: Shared, w: Tid) {
    sh.getCond != {} ==> w in sh.getCond
  }

  ghost predicate Enabled(s: State, a: Action) {
    match a
    case Arrive(t) => t !in s.pcs
    case Invoke(t, c) => t in s.pcs && s.pcs[t] == Idle && (c.DoPut? ==> MayPut(s, c.m))
    case Run(t, w) => t in s.pcs && Ready(s.sh, t, s.pcs[t]) && SignalChoice(s.sh, w)
    case Spurious(t) => t in s.sh.getCond || t in s.sh.putCond
    case Return(t) => t in s.pcs && IsRet(s.pcs[t])
  }

  function Entry(c: Call): Pc {
    match c
    case DoPut(m) => Put(m, PLock)
    case DoGet => Get(GLock)
    case DoNonblock => Mode(NSet)
    case DoBlock => Mode(BSet)
  }

  ghost function Apply(s: State, a: Action): State
    requires Enabled(s, a)
  {
    match a
    case Arrive(t) => State(s.sh, s.pcs[t := Idle])
    case Invoke(t, c) =>
      State(if c.DoPut? then s.sh.(mem := s.sh.mem[Link(c.m) := None]) else s.sh,   // lines 88-90
            s.pcs[t := Entry(c)])
    case Run(t, w) => var (sh', pc') := Exec(s.sh, t, s.pcs[t], w); State(sh', s.pcs[t := pc'])
    case Spurious(t) => State(s.sh.(getCond := s.sh.getCond - {t}, putCond := s.sh.putCond - {t}), s.pcs)
    case Return(t) => State(s.sh, s.pcs[t := Idle])
  }

  ghost predicate Moves(s: State, a: Action, s': State) {
    Enabled(s, a) && s' == Apply(s, a)
  }

  /** Action `i` leads from state `i` to the next. */
  ghost predicate StepAt(ss: seq<State>, acts: seq<Action>, i: int) {
    0 <= i < |acts| && i + 1 < |ss| && Moves(ss[i], acts[i], ss[i + 1])
  }

  /** A run: states `ss`, each obtained from the one before by the action in between. */
  ghost predicate IsRun(max: nat, ss: seq<State>, acts: seq<Action>) {
    |ss| == |acts| + 1 && ss[0] == Init(max) &&
    forall i :: 0 <= i < |acts| ==> StepAt(ss, acts, i)
  }
}
