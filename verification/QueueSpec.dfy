/**
 What the queue promises, in every run: it is a linearizable FIFO, it never gets stuck except where
 it should wait, no two threads touch one link cell at the same time, and without nonblocking mode
 it never holds more than twice `maxlen` messages.
 */
module QueueSpec {
  import opened Common
  import opened QueueMachine
  import opened QueueInv

  // ---- linearizability ----

  /** A thread's operation on the atomic queue: not called, called, or done with its answer. */
  datatype Op = Free | Called(c: Call) | Done(res: Option<Msg>)

  /** The queue seen from outside, where every operation takes effect at one instant. */
  datatype Atomic = Atomic(q: seq<Msg>, nonblock: bool, ops: map<Tid, Op>)

  datatype Event = Starts(t: Tid) | Calls(t: Tid, c: Call) | Answers(t: Tid, res: Option<Msg>) | Silent

  /** The instant at which the pending operation of `t` takes effect. */
  ghost predicate TakesEffect(a: Atomic, t: Tid, a': Atomic) {
    t in a.ops && a.ops[t].Called? &&
    match a.ops[t].c
    case DoPut(m) => a' == Atomic(a.q + [m], a.nonblock, a.ops[t := Done(None)])
    case DoGet =>
      if a.q != [] then a' == Atomic(a.q[1..], a.nonblock, a.ops[t := Done(Some(a.q[0]))])
      else a.nonblock && a' == a.(ops := a.ops[t := Done(None)])
    case DoNonblock => a' == Atomic(a.q, true, a.ops[t := Done(None)])
    case DoBlock => a' == Atomic(a.q, false, a.ops[t := Done(None)])
  }

  ghost predicate AtomicStep(a: Atomic, e: Event, a': Atomic) {
    match e
    case Starts(t) => t !in a.ops && a' == a.(ops := a.ops[t := Free])
    case Calls(t, c) => t in a.ops && a.ops[t] == Free && a' == a.(ops := a.ops[t := Called(c)])
    case Answers(t, r) => t in a.ops && a.ops[t] == Done(r) && a' == a.(ops := a.ops[t := Free])
    case Silent => a' == a || exists t :: TakesEffect(a, t, a')
  }

  /** How far the operation of a thread has got: the linearization points are read off here. */
  function OpOf(pc: Pc): Op {
    match pc
    case Idle => Free
    case Put(m, p) => if Flying(pc) then Called(DoPut(m)) else Done(None)
    case Get(g) =>
      (match g
       case GUnlock(r) => Done(r)
       case GRet(r) => Done(r)
       case GLeave(n) => if n == 0 then Done(None) else Called(DoGet)
       case Swap(_, n, p) => if n == 0 && (p == STake || p == SExchange) then Done(None) else Called(DoGet)
       case _ => Called(DoGet))
    case Mode(k) => if k == NSet then Called(DoNonblock) else if k == BSet then Called(DoBlock) else Done(None)
  }

  function Ops(pcs: map<Tid, Pc>): map<Tid, Op> {
    map t | t in pcs :: OpOf(pcs[t])
  }

  function Abs(s: State): Atomic {
    Atomic(s.sh.getq + s.sh.putq, s.sh.nonblock, Ops(s.pcs))
  }

  function ResOf(pc: Pc): Option<Msg> {
    if pc.Get? && pc.g.GRet? then pc.g.res else None
  }

  ghost function EventOf(s: State, a: Action): Event
    requires Enabled(s, a)
  {
    match a
    case Arrive(t) => Starts(t)
    case Invoke(t, c) => Calls(t, c)
    case Return(t) => Answers(t, ResOf(s.pcs[t]))
    case _ => Silent
  }

  lemma OpsUpdate(pcs: map<Tid, Pc>, t: Tid, pc: Pc)
    ensures Ops(pcs[t := pc]) == Ops(pcs)[t := OpOf(pc)]
  {
  }

  /** One instruction is invisible, or the instant at which the operation of its thread takes effect. */
  lemma RunRefines(s: State, t: Tid, w: Tid)
    requires Inv(s) && Enabled(s, Run(t, w))
    ensures AtomicStep(Abs(s), Silent, Abs(Apply(s, Run(t, w))))
  {
    var s' := Apply(s, Run(t, w));
    var a, a', pc := Abs(s), Abs(s'), s.pcs[t];
    OpsUpdate(s.pcs, t, s'.pcs[t]);
    assert Local(s.sh, t, pc);
    if OpOf(s'.pcs[t]) == OpOf(pc) {
      SameOp(s.sh, t, pc, w);
      assert Ops(s'.pcs) == Ops(s.pcs);
    } else {
      EffectStep(s.sh, t, pc, w);
      assert TakesEffect(a, t, a');
    }
  }

  ghost predicate SameContents(sh: Shared, sh': Shared) {
    sh'.getq + sh'.putq == sh.getq + sh.putq && sh'.nonblock == sh.nonblock
  }

  lemma SameSwap(sh: Shared, t: Tid, b: Side, n: nat, p: SwapPc)
    requires p == SExchange ==> sh.getq == []
    ensures SameContents(sh, SwapStep(sh, t, b, n, p).0)
  {
  }

  lemma SameGet(sh: Shared, t: Tid, g: GetPc)
    requires Lists(sh) && Local(sh, t, Get(g)) && Ready(sh, t, Get(g))
    requires OpOf(Get(GetStep(sh, t, g).1)) == OpOf(Get(g))
    ensures SameContents(sh, GetStep(sh, t, g).0)
  {
    FirstCell(sh);
    if g.Swap? { SameSwap(sh, t, g.saved, g.n, g.at); }
  }

  lemma SamePut(sh: Shared, t: Tid, m: Msg, p: PutPc, w: Tid)
    requires OpOf(Put(m, PutStep(sh, t, m, p, w).1)) == OpOf(Put(m, p))
    ensures SameContents(sh, PutStep(sh, t, m, p, w).0)
  {
  }

  /** An instruction that does not move its operation forward leaves the contents and the mode alone. */
  lemma SameOp(sh: Shared, t: Tid, pc: Pc, w: Tid)
    requires Lists(sh) && Local(sh, t, pc) && Ready(sh, t, pc) && OpOf(Exec(sh, t, pc, w).1) == OpOf(pc)
    ensures SameContents(sh, Exec(sh, t, pc, w).0)
  {
    match pc
    case Idle =>
    case Put(m, p) => SamePut(sh, t, m, p, w);
    case Get(g) => SameGet(sh, t, g);
    case Mode(k) =>
  }

  /** The change of contents `q` and mode `nb` when call `c` takes effect with answer `r`. */
  predicate Effect(c: Call, q: seq<Msg>, nb: bool, q': seq<Msg>, nb': bool, r: Option<Msg>) {
    match c
    case DoPut(m) => q' == q + [m] && nb' == nb && r == None
    case DoGet => nb' == nb && if q != [] then q' == q[1..] && r == Some(q[0]) else nb && q' == q && r == None
    case DoNonblock => q' == q && nb' && r == None
    case DoBlock => q' == q && !nb' && r == None
  }

  /** An instruction that moves its operation forward makes it take effect. */
  lemma EffectStep(sh: Shared, t: Tid, pc: Pc, w: Tid)
    requires Lists(sh) && Book(sh) && Local(sh, t, pc) && Ready(sh, t, pc)
    requires OpOf(Exec(sh, t, pc, w).1) != OpOf(pc)
    ensures var (sh', pc') := Exec(sh, t, pc, w);
      OpOf(pc).Called? && OpOf(pc').Done? &&
      Effect(OpOf(pc).c, sh.getq + sh.putq, sh.nonblock, sh'.getq + sh'.putq, sh'.nonblock, OpOf(pc').res)
  {
    match pc
    case Idle =>
    case Put(m, p) => assert p == PAppend;
    case Get(g) => GetEffect(sh, t, g, w);
    case Mode(k) =>
  }

  lemma GetEffect(sh: Shared, t: Tid, g: GetPc, w: Tid)
    requires Lists(sh) && Local(sh, t, Get(g)) && Ready(sh, t, Get(g)) && sh.cnt == |sh.putq|
    requires OpOf(Get(GetStep(sh, t, g).1)) != OpOf(Get(g))
    ensures var (sh', g') := GetStep(sh, t, g);
      OpOf(Get(g)).Called? && OpOf(Get(g')).Done? &&
      Effect(DoGet, sh.getq + sh.putq, sh.nonblock, sh'.getq + sh'.putq, sh'.nonblock, OpOf(Get(g')).res)
  {
    match g
    case GPop => PopEffect(sh, t);
    case Swap(b, n, p) => NullEffect(sh, t, b, n, p);
    case _ =>
  }

  lemma FirstOfTwo(a: seq<Msg>, b: seq<Msg>)
    requires a != []
    ensures a + b != [] && (a + b)[0] == a[0] && (a + b)[1..] == a[1..] + b
  {
  }

  lemma PopEffect(sh: Shared, t: Tid)
    requires Lists(sh) && Local(sh, t, Get(GPop))
    ensures var (sh', g') := GetStep(sh, t, GPop);
      OpOf(Get(g')).Done? && Effect(DoGet, sh.getq + sh.putq, sh.nonblock, sh'.getq + sh'.putq, sh'.nonblock, OpOf(Get(g')).res)
  {
    FirstOfTwo(sh.getq, sh.putq);
    FirstCell(sh);
  }

  lemma NullEffect(sh: Shared, t: Tid, b: Side, n: nat, p: SwapPc)
    requires Local(sh, t, Get(Swap(b, n, p))) && sh.cnt == |sh.putq|
    requires OpOf(Get(SwapStep(sh, t, b, n, p).1)) != OpOf(Get(Swap(b, n, p)))
    ensures var (sh', g') := SwapStep(sh, t, b, n, p);
      OpOf(Get(Swap(b, n, p))).Called? && OpOf(Get(g')).Done? &&
      Effect(DoGet, sh.getq + sh.putq, sh.nonblock, sh'.getq + sh'.putq, sh'.nonblock, OpOf(Get(g')).res)
  {
    assert p == SCheck && sh.cnt == 0;
  }

  /** Starting a thread, calling an operation and returning from one are the same outside. */
  lemma EdgeRefines(s: State, a: Action)
    requires Enabled(s, a) && (a.Arrive? || a.Invoke? || a.Return?)
    ensures AtomicStep(Abs(s), EventOf(s, a), Abs(Apply(s, a)))
  {
    OpsUpdate(s.pcs, a.t, if a.Invoke? then Entry(a.c) else Idle);
  }

  /** Every step of the queue is a step of the atomic queue with the same call, answer or silence. */
  lemma Refines(s: State, a: Action)
    requires Inv(s) && Enabled(s, a)
    ensures AtomicStep(Abs(s), EventOf(s, a), Abs(Apply(s, a)))
  {
    match a
    case Run(t, w) => RunRefines(s, t, w);
    case Spurious(t) => assert Abs(Apply(s, a)) == Abs(s);
    case _ => EdgeRefines(s, a);
  }

  /** Linearizability: every run of the queue is, event by event, a run of the atomic queue. */
  lemma Linearizable(max: nat, ss: seq<State>, acts: seq<Action>)
    requires IsRun(max, ss, acts)
    ensures Abs(ss[0]) == Atomic([], false, map[])
    ensures forall i :: 0 <= i < |acts| ==> StepAt(ss, acts, i) && AtomicStep(Abs(ss[i]), EventOf(ss[i], acts[i]), Abs(ss[i + 1]))
  {
    forall i | 0 <= i < |acts| ensures StepAt(ss, acts, i) && AtomicStep(Abs(ss[i]), EventOf(ss[i], acts[i]), Abs(ss[i + 1])) {
      Reachable(max, ss, acts, i);
      assert StepAt(ss, acts, i);
      Refines(ss[i], acts[i]);
    }
  }

  /** Messages leave in the order in which they were appended, none lost and none twice. */
  lemma Fifo(max: nat, ss: seq<State>, acts: seq<Action>, i: nat)
    requires IsRun(max, ss, acts) && i < |ss|
    ensures ss[i].sh.enq == ss[i].sh.deq + Abs(ss[i]).q
  {
    Reachable(max, ss, acts, i);
    FifoNow(ss[i]);
  }

  lemma FifoNow(s: State)
    requires Book(s.sh)
    ensures s.sh.enq == s.sh.deq + Abs(s).q
  {
    assert s.sh.deq + s.sh.getq + s.sh.putq == s.sh.deq + (s.sh.getq + s.sh.putq);
  }

  // ---- the abstract contents are what the link cells say ----

  lemma {:induction false} ChainUnique(mem: map<Cell, Option<Msg>>, c: Cell, l: seq<Msg>, l': seq<Msg>, i: nat)
    requires Chain(mem, c, l) && Chain(mem, c, l') && i <= |l| && |l| <= |l'|
    ensures l[..i] == l'[..i]
  {
    if i > 0 {
      ChainUnique(mem, c, l, l', i - 1);
      assert CellAt(c, l, i - 1) == CellAt(c, l', i - 1) by {
        if i > 1 { assert l[..i - 1][i - 2] == l'[..i - 1][i - 2]; }
      }
      assert Read(mem, CellAt(c, l', i - 1)) == Some(l[i - 1]);
    }
  }

  lemma SameChain(mem: map<Cell, Option<Msg>>, c: Cell, l: seq<Msg>, l': seq<Msg>)
    requires Chain(mem, c, l) && Chain(mem, c, l')
    ensures l == l'
  {
    var a, b := if |l| <= |l'| then l else l', if |l| <= |l'| then l' else l;
    ChainUnique(mem, c, a, b, |a|);
    assert CellAt(c, a, |a|) == CellAt(c, b, |a|) by {
      if |a| > 0 { assert a[..|a|][|a| - 1] == b[..|a|][|a| - 1]; }
    }
    assert Read(mem, CellAt(c, b, |a|)) == None;
    assert a == a[..|a|] && b == b[..|b|];
  }

  /**
   Following the pointers from `*get_head` and then from `*put_head` gives the abstract contents; while
   both heads are the same cell, in the middle of a swap, that list counts once.
   */
  lemma RealContents(s: State, g: seq<Msg>, p: seq<Msg>)
    requires Inv(s) && Chain(s.sh.mem, Head(s.sh.getHead), g) && Chain(s.sh.mem, Head(s.sh.putHead), p)
    ensures Abs(s).q == if s.sh.getHead == s.sh.putHead then p else g + p
  {
    SameChain(s.sh.mem, Head(s.sh.putHead), p, s.sh.putq);
    if s.sh.getHead == s.sh.putHead {
      var t := s.sh.getOwner.value;
      assert Local(s.sh, t, s.pcs[t]);
      assert s.sh.getq == [];
    } else {
      SameChain(s.sh.mem, Head(s.sh.getHead), g, s.sh.getq);
    }
  }

  // ---- who touches which link cell ----

  /** The link cells the next instruction of a thread reads or writes. */
  function Touches(sh: Shared, pc: Pc): set<Cell> {
    match pc
    case Put(m, PAppend) => {sh.putTail}
    case Get(GTest) => {Head(sh.getHead)}
    case Get(GPop) =>
      {Head(sh.getHead)} +
      (match Read(sh.mem, Head(sh.getHead)) case Some(m) => {Link(m)} case None => {})
    case _ => {}
  }

  /** `put_tail` is the put head cell or the link of the last message waiting on the put list. */
  lemma TailOwnership(s: State)
    requires Inv(s)
    ensures s.sh.putTail == if s.sh.putq == [] then Head(s.sh.putHead) else Link(s.sh.putq[|s.sh.putq| - 1])
    ensures s.sh.putTail.Link? ==> s.sh.putTail.m in s.sh.putq && s.sh.putTail.m !in s.sh.getq
  {
  }

  predicate PutSide(sh: Shared, c: Cell) {
    c == Head(sh.putHead) || (c.Link? && c.m in sh.putq)
  }

  predicate GetSide(sh: Shared, c: Cell) {
    c == Head(Other(sh.putHead)) || (c.Link? && c.m in sh.getq)
  }

  lemma TouchedWhere(sh: Shared, t: Tid, pc: Pc)
    requires Lists(sh) && Local(sh, t, pc)
    ensures forall c :: c in Touches(sh, pc) ==>
              if pc.Put? then PutSide(sh, c) && sh.putOwner == Some(t) else GetSide(sh, c) && sh.getOwner == Some(t)
  {
    FirstCell(sh);
  }

  /** No two threads ever access the same link cell at once, nor a cell a new put is about to clear. */
  lemma CellsDisjoint(s: State, t: Tid, u: Tid)
    requires Inv(s) && t in s.pcs && u in s.pcs && t != u
    ensures Touches(s.sh, s.pcs[t]) !! Touches(s.sh, s.pcs[u])
    ensures forall m :: MayPut(s, m) ==> Link(m) !in Touches(s.sh, s.pcs[t])
  {
    TouchedWhere(s.sh, t, s.pcs[t]);
    TouchedWhere(s.sh, u, s.pcs[u]);
  }

  function WithLink(sh: Shared, m: Msg, v: Option<Msg>): Shared {
    sh.(mem := sh.mem[Link(m) := v])
  }

  /**
   What the link of a message contains that is neither queued nor being put makes no difference to any
   instruction: the memory of a message that came out may be freed, reused, and put again under a new name.
   */
  lemma StaleLink(s: State, t: Tid, w: Tid, m: Msg, v: Option<Msg>)
    requires Inv(s) && MayPut(s, m) && t in s.pcs && Ready(s.sh, t, s.pcs[t])
    ensures Ready(WithLink(s.sh, m, v), t, s.pcs[t])
    ensures var (sh', pc') := Exec(s.sh, t, s.pcs[t], w);
      Exec(WithLink(s.sh, m, v), t, s.pcs[t], w) == (WithLink(sh', m, v), pc')
  {
    assert Local(s.sh, t, s.pcs[t]);
    match s.pcs[t]
    case Get(g) => StaleGet(s.sh, t, g, m, v);
    case Put(x, p) => StalePut(s.sh, t, x, p, w, m, v);
    case _ =>
  }

  lemma StaleGet(sh: Shared, t: Tid, g: GetPc, m: Msg, v: Option<Msg>)
    requires Lists(sh) && Local(sh, t, Get(g)) && m !in sh.getq && m !in sh.putq
    ensures var (sh', g') := GetStep(sh, t, g); GetStep(WithLink(sh, m, v), t, g) == (WithLink(sh', m, v), g')
  {
    FirstCell(sh);
    if g == GPop {
      var c := Head(sh.getHead);
      var n := Read(sh.mem, Link(sh.getq[0]));
      assert sh.mem[Link(m) := v][c := n] == sh.mem[c := n][Link(m) := v];
    }
  }

  lemma StalePut(sh: Shared, t: Tid, x: Msg, p: PutPc, w: Tid, m: Msg, v: Option<Msg>)
    requires Lists(sh) && m !in sh.putq
    ensures var (sh', p') := PutStep(sh, t, x, p, w); PutStep(WithLink(sh, m, v), t, x, p, w) == (WithLink(sh', m, v), p')
  {
    if p == PAppend {
      assert sh.putTail != Link(m);
      assert sh.mem[Link(m) := v][sh.putTail := Some(x)] == sh.mem[sh.putTail := Some(x)][Link(m) := v];
    }
  }

  // ---- the queue only waits where it should ----

  predicate InOperation(pc: Pc) {
    pc != Idle && !IsRet(pc)
  }

  /** A producer waits for room, or a consumer for a message, or behind the consumer that does. */
  ghost predicate WaitsRightly(s: State, t: Tid)
    requires t in s.pcs
  {
    !s.sh.nonblock &&
    match s.pcs[t]
    case Put(_, p) => p == PWait && t in s.sh.putCond && s.sh.cnt > Limit(s.sh)
    case Get(g) =>
      s.sh.cnt == 0 && s.sh.getq == [] && s.sh.getOwner.Some? && s.sh.getOwner.value in s.sh.getCond &&
      (g == GLock || s.sh.getOwner == Some(t))
    case _ => false
  }

  /** With no instruction left to run, nobody holds `put_mutex`. */
  lemma PutMutexFree(s: State)
    requires Inv(s) && forall t :: t in s.pcs ==> !Ready(s.sh, t, s.pcs[t])
    ensures s.sh.putOwner == None
  {
    if s.sh.putOwner.Some? {
      var t := s.sh.putOwner.value;
      assert Local(s.sh, t, s.pcs[t]);
      assert Ready(s.sh, t, s.pcs[t]);
    }
  }

  lemma NothingComing(s: State)
    requires Inv(s) && forall t :: t in s.pcs ==> !Ready(s.sh, t, s.pcs[t])
    ensures !SignalComing(s.pcs) && !NbBroadcastComing(s.pcs)
  {
    PutMutexFree(s);
  }

  /** When every thread is blocked, each waits for something only a further call can bring about. */
  lemma NoStuckQueue(s: State, t: Tid)
    requires Inv(s) && t in s.pcs && InOperation(s.pcs[t])
    requires forall u :: u in s.pcs ==> !Ready(s.sh, u, s.pcs[u])
    ensures WaitsRightly(s, t)
  {
    PutMutexFree(s);
    NothingComing(s);
    assert Local(s.sh, t, s.pcs[t]);
    match s.pcs[t]
    case Put(m, p) =>
    case Get(g) =>
      var h := s.sh.getOwner.value;
      assert Local(s.sh, h, s.pcs[h]);
    case Mode(k) =>
  }

  /** In nonblocking mode no operation is ever blocked for good: some thread can always move. */
  lemma NonblockProgress(s: State, t: Tid)
    requires Inv(s) && s.sh.nonblock && t in s.pcs && InOperation(s.pcs[t])
    ensures exists u :: u in s.pcs && Ready(s.sh, u, s.pcs[u])
  {
    if forall u :: u in s.pcs ==> !Ready(s.sh, u, s.pcs[u]) {
      NoStuckQueue(s, t);
    }
  }

  /**
   No wakeup is lost, in any run. A consumer asleep and not notified finds the queue empty or a
   producer still before its signal; a producer asleep and not notified finds the put list full; if
   the mode is nonblocking, the call that set it has not notified them yet. At most one thread ever
   sleeps on `get_cond`, so one signal is enough.
   */
  lemma NoLostWakeup(max: nat, ss: seq<State>, acts: seq<Action>, i: nat, t: Tid)
    requires IsRun(max, ss, acts) && i < |ss|
    ensures var s := ss[i];
      (t in s.sh.getCond ==>
         (Abs(s).q == [] || SignalComing(s.pcs)) && (s.sh.nonblock ==> NbSignalComing(s.pcs)) &&
         s.sh.getCond == {t} && s.sh.getOwner == Some(t)) &&
      (t in s.sh.putCond ==> s.sh.cnt > Limit(s.sh) && (s.sh.nonblock ==> NbBroadcastComing(s.pcs)))
  {
    Reachable(max, ss, acts, i);
    SleepersWake(ss[i], t);
  }

  lemma SleepersWake(s: State, t: Tid)
    requires Inv(s)
    ensures t in s.sh.getCond ==>
         (Abs(s).q == [] || SignalComing(s.pcs)) && (s.sh.nonblock ==> NbSignalComing(s.pcs)) &&
         s.sh.getCond == {t} && s.sh.getOwner == Some(t)
    ensures t in s.sh.putCond ==> s.sh.cnt > Limit(s.sh) && (s.sh.nonblock ==> NbBroadcastComing(s.pcs))
  {
    if t in s.sh.getCond {
      assert Local(s.sh, t, s.pcs[t]);
      forall u | u in s.sh.getCond ensures u == t { OneSleeper(s, t, u); }
    }
  }

  // ---- the same of every run ----

  /**
   In every run: whatever messages the links spell from the two head cells, they are the abstract queue, and
   `put_tail` is where the next message belongs.
   */
  lemma ContentsInRuns(max: nat, ss: seq<State>, acts: seq<Action>, i: nat, g: seq<Msg>, p: seq<Msg>)
    requires IsRun(max, ss, acts) && i < |ss|
    requires Chain(ss[i].sh.mem, Head(ss[i].sh.getHead), g) && Chain(ss[i].sh.mem, Head(ss[i].sh.putHead), p)
    ensures var s := ss[i];
      Abs(s).q == (if s.sh.getHead == s.sh.putHead then p else g + p) &&
      s.sh.putTail == (if p == [] then Head(s.sh.putHead) else Link(p[|p| - 1])) &&
      forall m :: m in s.sh.deq && m !in Abs(s).q ==> s.sh.putTail != Link(m)
  {
    Reachable(max, ss, acts, i);
    RealContents(ss[i], g, p);
    TailOwnership(ss[i]);
    SameChain(ss[i].sh.mem, Head(ss[i].sh.putHead), ss[i].sh.putq, p);
  }

  /** In no run do two threads access one link cell at the same time. */
  lemma CellsInRuns(max: nat, ss: seq<State>, acts: seq<Action>, i: nat, t: Tid, u: Tid)
    requires IsRun(max, ss, acts) && i < |ss| && t in ss[i].pcs && u in ss[i].pcs && t != u
    ensures Touches(ss[i].sh, ss[i].pcs[t]) !! Touches(ss[i].sh, ss[i].pcs[u])
    ensures forall m :: MayPut(ss[i], m) ==> Link(m) !in Touches(ss[i].sh, ss[i].pcs[t])
  {
    Reachable(max, ss, acts, i);
    CellsDisjoint(ss[i], t, u);
  }

  /** In no run does the queue get stuck where it should not wait; in nonblocking mode it does not at all. */
  lemma NeverStuck(max: nat, ss: seq<State>, acts: seq<Action>, i: nat, t: Tid)
    requires IsRun(max, ss, acts) && i < |ss| && t in ss[i].pcs && InOperation(ss[i].pcs[t])
    ensures (exists u :: u in ss[i].pcs && Ready(ss[i].sh, u, ss[i].pcs[u])) || WaitsRightly(ss[i], t)
  {
    Reachable(max, ss, acts, i);
    if forall u :: u in ss[i].pcs ==> !Ready(ss[i].sh, u, ss[i].pcs[u]) { NoStuckQueue(ss[i], t); }
  }
}
