/**
 What every step of the queue keeps. The proof is by rely and guarantee: each instruction of a
 thread re-establishes what that thread knows, and changes the queue only in ways (`Guarantee`) that
 leave alone what the others know.
 */
module QueueInv {
  import opened Common
  import opened QueueMachine

  // ---- who holds which mutex ----

  predicate HoldsPut(pc: Pc) {
    match pc
    case Idle => false
    case Put(_, p) => p == PCheck || p == PSleep || p == PAppend || p == PUnlock
    case Get(g) => g.GLeave? || (g.Swap? && g.at != SLock && g.at != SWait)
    case Mode(k) => k == NSignal || k == NBroadcast || k == NUnlock
  }

  predicate HoldsGet(pc: Pc) {
    pc.Get? && pc.g != GLock && !pc.g.GRet?
  }

  // ---- the chains of link cells ----

  /** The cell that holds the pointer to message `i` of list `l` hanging off cell `c`. */
  function CellAt(c: Cell, l: seq<Msg>, i: nat): Cell
    requires i <= |l|
  {
    if i == 0 then c else Link(l[i - 1])
  }

  /** Following the links from `c` visits exactly the messages `l` and ends with a null pointer. */
  ghost predicate Chain(mem: map<Cell, Option<Msg>>, c: Cell, l: seq<Msg>) {
    forall i :: 0 <= i <= |l| ==> Read(mem, CellAt(c, l, i)) == if i < |l| then Some(l[i]) else None
  }

  ghost predicate ListsOf(mem: map<Cell, Option<Msg>>, putHead: Side, putTail: Cell, getq: seq<Msg>, putq: seq<Msg>) {
    Chain(mem, Head(Other(putHead)), getq) &&
    Chain(mem, Head(putHead), putq) &&
    putTail == CellAt(Head(putHead), putq, |putq|) &&
    NoDup(getq) && NoDup(putq) && (forall m :: m in getq ==> m !in putq)
  }

  ghost predicate Lists(sh: Shared) {
    ListsOf(sh.mem, sh.putHead, sh.putTail, sh.getq, sh.putq)
  }

  /** What holds of the queue whatever the threads do. */
  predicate Book(sh: Shared) {
    sh.cnt == |sh.putq| &&
    (sh.getOwner == None ==> sh.getHead == Other(sh.putHead)) &&
    sh.enq == sh.deq + sh.getq + sh.putq
  }

  // ---- what a thread knows ----

  /** What thread `t` with program counter `pc` knows of mutexes, heads and counts. */
  predicate Local(sh: Shared, t: Tid, pc: Pc) {
    (HoldsPut(pc) <==> sh.putOwner == Some(t)) &&
    (HoldsGet(pc) <==> sh.getOwner == Some(t)) &&
    (t in sh.putCond ==> pc.Put? && pc.p == PWait) &&
    (t in sh.getCond ==> pc.Get? && pc.g.Swap? && pc.g.at == SWait) &&
    (pc.Put? && pc.p == PSleep ==> sh.cnt > Limit(sh)) &&
    (HoldsGet(pc) ==> sh.getHead == if pc.g.Swap? then sh.putHead else Other(sh.putHead)) &&
    (pc.Get? ==> LocalGet(sh, pc.g))
  }

  predicate LocalGet(sh: Shared, g: GetPc) {
    match g
    case GAlias => sh.getq == []
    case Swap(b, n, p) =>
      b == Other(sh.putHead) && sh.getq == [] &&
      (p == SSleep ==> sh.cnt == 0) &&
      (p == STake || p == SExchange ==> n == sh.cnt) &&
      (p == SExchange && sh.cnt > Limit(sh) ==> sh.putCond == {})
    case GLeave(n) => n == |sh.getq|
    case GPop => sh.getq != []
    case _ => true
  }

  /** A mutex changes hands only by its holder's unlock and by a lock of a free one. */
  predicate Handover(o: Option<Tid>, o': Option<Tid>, t: Tid) {
    o' == o || (o == Some(t) && o' == None) || (o == None && o' == Some(t))
  }

  /** How an instruction of thread `t` may change the queue. */
  predicate Guarantee(sh: Shared, sh': Shared, t: Tid) {
    sh'.max == sh.max &&
    Handover(sh.putOwner, sh'.putOwner, t) &&
    Handover(sh.getOwner, sh'.getOwner, t) &&
    (sh.putOwner != Some(t) ==>
       sh'.cnt == sh.cnt && sh'.putq == sh.putq && sh'.putTail == sh.putTail && sh'.enq == sh.enq) &&
    (sh.getOwner != Some(t) ==> sh'.getHead == sh.getHead && sh'.getq == sh.getq && sh'.deq == sh.deq) &&
    (sh.putOwner != Some(t) || sh.getOwner != Some(t) ==> sh'.putHead == sh.putHead) &&
    (forall u :: u in sh'.putCond && u != t ==> u in sh.putCond) &&
    (forall u :: u in sh'.getCond && u != t ==> u in sh.getCond) &&
    (sh.putOwner != Some(t) ==> sh'.putCond <= sh.putCond)
  }

  lemma StableLocal(sh: Shared, sh': Shared, t: Tid, u: Tid, pc: Pc)
    requires u != t && Local(sh, u, pc) && Guarantee(sh, sh', t)
    ensures Local(sh', u, pc)
  {
  }

  lemma PutKeeps(sh: Shared, t: Tid, m: Msg, p: PutPc, w: Tid)
    requires Local(sh, t, Put(m, p)) && Book(sh) && Ready(sh, t, Put(m, p))
    ensures var (sh', p') := PutStep(sh, t, m, p, w);
            Local(sh', t, Put(m, p')) && Guarantee(sh, sh', t) && Book(sh')
  {
  }

  lemma SwapKeeps(sh: Shared, t: Tid, b: Side, n: nat, p: SwapPc)
    requires Local(sh, t, Get(Swap(b, n, p))) && Book(sh) && Ready(sh, t, Get(Swap(b, n, p)))
    ensures var (sh', g') := SwapStep(sh, t, b, n, p);
            Local(sh', t, Get(g')) && Guarantee(sh, sh', t) && Book(sh')
  {
    if p == SExchange {
      assert sh.deq + sh.getq + sh.putq == sh.deq + (sh.getq + sh.putq) + [];
    }
  }

  /** The head cell of the get list is null exactly when the list is empty. */
  lemma FirstCell(sh: Shared)
    requires Lists(sh)
    ensures Read(sh.mem, Head(Other(sh.putHead))) == if sh.getq == [] then None else Some(sh.getq[0])
  {
    assert CellAt(Head(Other(sh.putHead)), sh.getq, 0) == Head(Other(sh.putHead));
  }

  lemma PopKeeps(sh: Shared, t: Tid)
    requires Local(sh, t, Get(GPop)) && Book(sh) && Lists(sh)
    ensures var (sh', g') := GetStep(sh, t, GPop);
            Local(sh', t, Get(g')) && Guarantee(sh, sh', t) && Book(sh')
  {
    FirstCell(sh);
    assert sh.getq == [sh.getq[0]] + sh.getq[1..];
    assert sh.deq + sh.getq + sh.putq == (sh.deq + [sh.getq[0]]) + sh.getq[1..] + sh.putq;
  }

  lemma GetKeeps(sh: Shared, t: Tid, g: GetPc)
    requires Local(sh, t, Get(g)) && Book(sh) && Ready(sh, t, Get(g)) && Lists(sh)
    ensures var (sh', g') := GetStep(sh, t, g);
            Local(sh', t, Get(g')) && Guarantee(sh, sh', t) && Book(sh')
  {
    match g
    case Swap(b, n, p) => SwapKeeps(sh, t, b, n, p);
    case GPop => PopKeeps(sh, t);
    case GTest => FirstCell(sh);
    case _ =>
  }

  lemma ModeKeeps(sh: Shared, t: Tid, k: ModePc, w: Tid)
    requires Local(sh, t, Mode(k)) && Book(sh) && Ready(sh, t, Mode(k))
    ensures var (sh', k') := ModeStep(sh, t, k, w);
            Local(sh', t, Mode(k')) && Guarantee(sh, sh', t) && Book(sh')
  {
  }

  // ---- the lists ----

  /** A message about to be appended is on no list and its link is already cleared (line 90). */
  predicate FlightOk(sh: Shared, pc: Pc) {
    Flying(pc) ==> pc.m !in sh.getq && pc.m !in sh.putq && Read(sh.mem, Link(pc.m)) == None
  }

  /** A write to a cell that is not on a chain leaves the chain alone. */
  lemma ChainFrame(mem: map<Cell, Option<Msg>>, c: Cell, l: seq<Msg>, d: Cell, v: Option<Msg>)
    requires Chain(mem, c, l) && d != c && forall i :: 0 <= i < |l| ==> d != Link(l[i])
    ensures Chain(mem[d := v], c, l)
  {
  }

  lemma ChainAppend(mem: map<Cell, Option<Msg>>, c: Cell, l: seq<Msg>, m: Msg)
    requires Chain(mem, c, l) && NoDup(l) && m !in l && Read(mem, Link(m)) == None
    requires c.Head?
    ensures Chain(mem[CellAt(c, l, |l|) := Some(m)], c, l + [m])
  {
    var mem' := mem[CellAt(c, l, |l|) := Some(m)];
    var l' := l + [m];
    forall i | 0 <= i <= |l'|
      ensures Read(mem', CellAt(c, l', i)) == if i < |l'| then Some(l'[i]) else None
    {
      if i <= |l| { assert CellAt(c, l', i) == CellAt(c, l, i); }
    }
  }

  lemma AppendKeepsLists(sh: Shared, t: Tid, m: Msg, w: Tid)
    requires Lists(sh) && m !in sh.getq && m !in sh.putq && Read(sh.mem, Link(m)) == None
    ensures Lists(PutStep(sh, t, m, PAppend, w).0)
  {
    ChainAppend(sh.mem, Head(sh.putHead), sh.putq, m);
    assert forall i :: 0 <= i < |sh.getq| ==> sh.getq[i] in sh.getq;
    ChainFrame(sh.mem, Head(Other(sh.putHead)), sh.getq, sh.putTail, Some(m));
  }

  lemma PopKeepsLists(sh: Shared, t: Tid)
    requires Lists(sh) && sh.getq != [] && sh.getHead == Other(sh.putHead)
    ensures Lists(GetStep(sh, t, GPop).0)
  {
    FirstCell(sh);
    var sh' := GetStep(sh, t, GPop).0;
    var c := Head(Other(sh.putHead));
    forall i | 0 <= i <= |sh'.getq|
      ensures Read(sh'.mem, CellAt(c, sh'.getq, i)) == if i < |sh'.getq| then Some(sh'.getq[i]) else None
    {
      assert Read(sh.mem, CellAt(c, sh.getq, i + 1)) == if i + 1 < |sh.getq| then Some(sh.getq[i + 1]) else None;
    }
  }

  lemma ExchangeKeepsLists(sh: Shared, t: Tid, b: Side, n: nat)
    requires Lists(sh) && sh.getq == [] && b == Other(sh.putHead)
    ensures Lists(SwapStep(sh, t, b, n, SExchange).0)
  {
    assert sh.getq + sh.putq == sh.putq;
  }

  lemma ClearKeepsLists(sh: Shared, m: Msg)
    requires Lists(sh) && m !in sh.getq && m !in sh.putq
    ensures Lists(sh.(mem := sh.mem[Link(m) := None]))
  {
  }

  lemma PutListsKept(sh: Shared, t: Tid, m: Msg, p: PutPc, w: Tid)
    requires Lists(sh) && FlightOk(sh, Put(m, p))
    ensures Lists(PutStep(sh, t, m, p, w).0)
  {
    if p == PAppend { AppendKeepsLists(sh, t, m, w); }
  }

  lemma GetListsKept(sh: Shared, t: Tid, g: GetPc)
    requires Lists(sh) && Local(sh, t, Get(g)) && Ready(sh, t, Get(g))
    ensures Lists(GetStep(sh, t, g).0)
  {
    if g == GPop { PopKeepsLists(sh, t); }
    else if g.Swap? && g.at == SExchange { ExchangeKeepsLists(sh, t, g.saved, g.n); }
  }

  lemma ListsKept(sh: Shared, t: Tid, pc: Pc, w: Tid)
    requires Lists(sh) && Local(sh, t, pc) && FlightOk(sh, pc) && Ready(sh, t, pc)
    ensures Lists(Exec(sh, t, pc, w).0)
  {
    match pc
    case Idle =>
    case Put(m, p) => PutListsKept(sh, t, m, p, w);
    case Get(g) => GetListsKept(sh, t, g);
    case Mode(_) =>
  }

  /** An instruction of `t` leaves alone the message another thread is about to append. */
  lemma StableFlight(sh: Shared, t: Tid, pc: Pc, w: Tid, other: Pc)
    requires Lists(sh) && Local(sh, t, pc) && Ready(sh, t, pc)
    requires FlightOk(sh, other) && (Flying(pc) && Flying(other) ==> pc.m != other.m)
    ensures FlightOk(Exec(sh, t, pc, w).0, other)
  {
  }

  lemma OwnFlight(sh: Shared, t: Tid, pc: Pc, w: Tid)
    requires FlightOk(sh, pc) && Ready(sh, t, pc)
    ensures var (sh', pc') := Exec(sh, t, pc, w);
            FlightOk(sh', pc') && (Flying(pc') ==> Flying(pc) && pc'.m == pc.m)
  {
  }

  // ---- no wakeup is lost ----

  /** A producer has appended and not yet signalled `get_cond`. */
  ghost predicate SignalComing(pcs: map<Tid, Pc>) {
    exists p :: p in pcs && pcs[p].Put? && (pcs[p].p == PUnlock || pcs[p].p == PSignal)
  }

  /** A `msgqueue_set_nonblock` has written the flag and not yet signalled `get_cond`. */
  ghost predicate NbSignalComing(pcs: map<Tid, Pc>) {
    exists p :: p in pcs && (pcs[p] == Mode(NLock) || pcs[p] == Mode(NSignal))
  }

  /** A `msgqueue_set_nonblock` has written the flag and not yet broadcast to `put_cond`. */
  ghost predicate NbBroadcastComing(pcs: map<Tid, Pc>) {
    NbSignalComing(pcs) || exists p :: p in pcs && pcs[p] == Mode(NBroadcast)
  }

  /** Thread `t` is about to sleep, or asleep and not notified. */
  predicate GetDozing(sh: Shared, t: Tid, pc: Pc) {
    t in sh.getCond || (pc.Get? && pc.g.Swap? && pc.g.at == SSleep)
  }

  predicate PutDozing(sh: Shared, t: Tid, pc: Pc) {
    t in sh.putCond || (pc.Put? && pc.p == PSleep)
  }

  ghost predicate GetWake(s: State) {
    forall t :: t in s.pcs && GetDozing(s.sh, t, s.pcs[t]) ==>
      (s.sh.cnt == 0 || SignalComing(s.pcs)) && (s.sh.nonblock ==> NbSignalComing(s.pcs))
  }

  ghost predicate PutWake(s: State) {
    forall t :: t in s.pcs && PutDozing(s.sh, t, s.pcs[t]) ==>
      s.sh.cnt > Limit(s.sh) && (s.sh.nonblock ==> NbBroadcastComing(s.pcs))
  }

  // ---- the invariant ----

  ghost predicate Locals(s: State) {
    (forall t :: t in s.pcs ==> Local(s.sh, t, s.pcs[t])) &&
    (s.sh.putOwner.Some? ==> s.sh.putOwner.value in s.pcs) &&
    (s.sh.getOwner.Some? ==> s.sh.getOwner.value in s.pcs) &&
    s.sh.getCond <= s.pcs.Keys && s.sh.putCond <= s.pcs.Keys
  }

  ghost predicate Flights(s: State) {
    (forall t :: t in s.pcs ==> FlightOk(s.sh, s.pcs[t])) &&
    (forall t, u :: t in s.pcs && u in s.pcs && t != u && Flying(s.pcs[t]) && Flying(s.pcs[u]) ==>
       s.pcs[t].m != s.pcs[u].m)
  }

  ghost predicate Inv(s: State) {
    Book(s.sh) && Lists(s.sh) && Locals(s) && Flights(s) && GetWake(s) && PutWake(s)
  }

  lemma ExecKeeps(sh: Shared, t: Tid, pc: Pc, w: Tid)
    requires Book(sh) && Lists(sh) && Local(sh, t, pc) && Ready(sh, t, pc)
    ensures var (sh', pc') := Exec(sh, t, pc, w);
            Book(sh') && Local(sh', t, pc') && Guarantee(sh, sh', t)
  {
    match pc
    case Put(m, p) => PutKeeps(sh, t, m, p, w);
    case Get(g) => GetKeeps(sh, t, g);
    case Mode(k) => ModeKeeps(sh, t, k, w);
  }

  lemma LocalsKept(s: State, t: Tid, w: Tid)
    requires Book(s.sh) && Lists(s.sh) && Locals(s) && Enabled(s, Run(t, w))
    ensures Locals(Apply(s, Run(t, w)))
  {
    ExecKeeps(s.sh, t, s.pcs[t], w);
    var (sh', pc') := Exec(s.sh, t, s.pcs[t], w);
    forall u | u in s.pcs && u != t ensures Local(sh', u, s.pcs[u]) {
      StableLocal(s.sh, sh', t, u, s.pcs[u]);
    }
  }

  lemma FlightsKept(s: State, t: Tid, w: Tid)
    requires Lists(s.sh) && Locals(s) && Flights(s) && Enabled(s, Run(t, w))
    ensures Flights(Apply(s, Run(t, w)))
  {
    OwnFlight(s.sh, t, s.pcs[t], w);
    forall u | u in s.pcs && u != t ensures FlightOk(Exec(s.sh, t, s.pcs[t], w).0, s.pcs[u]) {
      StableFlight(s.sh, t, s.pcs[t], w, s.pcs[u]);
    }
  }

  /** At most one thread sleeps on `get_cond`: it holds `get_mutex` all along. So one signal is enough. */
  lemma OneSleeper(s: State, t: Tid, u: Tid)
    requires Locals(s) && t in s.sh.getCond && u in s.sh.getCond
    ensures t == u && s.sh.getOwner == Some(t)
  {
  }

  /** What is coming stays so until the thread that owes it acts. */
  lemma ComingKept(s: State, t: Tid, w: Tid)
    requires Enabled(s, Run(t, w))
    ensures var pcs' := Apply(s, Run(t, w)).pcs; var pc := s.pcs[t];
            (SignalComing(s.pcs) && !(pc.Put? && pc.p == PSignal) ==> SignalComing(pcs')) &&
            (NbSignalComing(s.pcs) && pc != Mode(NSignal) ==> NbSignalComing(pcs')) &&
            (NbBroadcastComing(s.pcs) && pc != Mode(NBroadcast) ==> NbBroadcastComing(pcs'))
  {
    var pcs' := Apply(s, Run(t, w)).pcs;
    assert forall u :: u in s.pcs && u != t ==> u in pcs' && pcs'[u] == s.pcs[u];
    assert t in pcs';
  }

  /** Who dozes after a step of `t` dozed before it or is `t` itself. */
  lemma DozingBefore(s: State, t: Tid, w: Tid, u: Tid)
    requires Enabled(s, Run(t, w)) && u in s.pcs
    ensures var s' := Apply(s, Run(t, w)); var pc := s.pcs[t];
      (GetDozing(s'.sh, u, s'.pcs[u]) ==>
         GetDozing(s.sh, u, s.pcs[u]) || (u == t && InSwapCheck(pc) && s.sh.cnt == 0 && !s.sh.nonblock)) &&
      (PutDozing(s'.sh, u, s'.pcs[u]) ==>
         PutDozing(s.sh, u, s.pcs[u]) ||
         (u == t && pc.Put? && pc.p == PCheck && s.sh.cnt > Limit(s.sh) && !s.sh.nonblock))
  {
  }

  predicate InSwapCheck(pc: Pc) {
    pc.Get? && pc.g.Swap? && pc.g.at == SCheck
  }

  lemma GetWakeKept(s: State, t: Tid, w: Tid)
    requires Locals(s) && GetWake(s) && Enabled(s, Run(t, w))
    ensures GetWake(Apply(s, Run(t, w)))
  {
    ComingKept(s, t, w);
    var s' := Apply(s, Run(t, w));
    assert t in s'.pcs;
    forall u | u in s'.pcs && GetDozing(s'.sh, u, s'.pcs[u])
      ensures (s'.sh.cnt == 0 || SignalComing(s'.pcs)) && (s'.sh.nonblock ==> NbSignalComing(s'.pcs))
    {
      DozingBefore(s, t, w, u);
      assert Local(s.sh, u, s.pcs[u]) && Local(s.sh, t, s.pcs[t]);
      if u in s.sh.getCond && w in s.sh.getCond { OneSleeper(s, u, w); }
      match s.pcs[t]
      case Idle =>
      case Put(m, p) => if p == PAppend { assert s'.pcs[t] == Put(m, PUnlock); }
      case Get(g) =>
      case Mode(k) => if k == NSet { assert s'.pcs[t] == Mode(NLock); }
    }
  }

  /** The put list stays full for a dozing producer: an exchange wakes all of them first. */
  lemma StillFull(sh: Shared, t: Tid, pc: Pc, w: Tid, u: Tid, other: Pc)
    requires Local(sh, t, pc) && Ready(sh, t, pc) && Local(sh, u, other)
    requires var (sh', pc') := Exec(sh, t, pc, w); PutDozing(sh', u, if u == t then pc' else other)
    requires sh.cnt > Limit(sh)
    ensures var sh' := Exec(sh, t, pc, w).0; sh'.cnt > Limit(sh')
  {
  }

  /** Nor does the broadcast of set_nonblock leave a producer dozing. */
  lemma NoneAfterBroadcast(sh: Shared, t: Tid, w: Tid, u: Tid, other: Pc)
    requires Local(sh, t, Mode(NBroadcast)) && Local(sh, u, other) && u != t
    ensures !PutDozing(Exec(sh, t, Mode(NBroadcast), w).0, u, other)
  {
  }

  lemma PutWakeMode(s: State, t: Tid, w: Tid, u: Tid)
    requires Locals(s) && PutWake(s) && Enabled(s, Run(t, w)) && u in s.pcs
    requires var s' := Apply(s, Run(t, w)); PutDozing(s'.sh, u, s'.pcs[u]) && s'.sh.nonblock
    ensures NbBroadcastComing(Apply(s, Run(t, w)).pcs)
  {
    var s' := Apply(s, Run(t, w));
    ComingKept(s, t, w);
    DozingBefore(s, t, w, u);
    if s.pcs[t] == Mode(NSet) { assert s'.pcs[t] == Mode(NLock); }
    if s.pcs[t] == Mode(NBroadcast) && u != t { NoneAfterBroadcast(s.sh, t, w, u, s.pcs[u]); }
  }

  lemma PutWakeKept(s: State, t: Tid, w: Tid)
    requires Locals(s) && PutWake(s) && Enabled(s, Run(t, w))
    ensures PutWake(Apply(s, Run(t, w)))
  {
    var s' := Apply(s, Run(t, w));
    forall u | u in s'.pcs && PutDozing(s'.sh, u, s'.pcs[u])
      ensures s'.sh.cnt > Limit(s'.sh) && (s'.sh.nonblock ==> NbBroadcastComing(s'.pcs))
    {
      DozingBefore(s, t, w, u);
      StillFull(s.sh, t, s.pcs[t], w, u, s.pcs[u]);
      if s'.sh.nonblock { PutWakeMode(s, t, w, u); }
    }
  }

  lemma RunKeeps(s: State, t: Tid, w: Tid)
    requires Inv(s) && Enabled(s, Run(t, w))
    ensures Inv(Apply(s, Run(t, w)))
  {
    ExecKeeps(s.sh, t, s.pcs[t], w);
    ListsKept(s.sh, t, s.pcs[t], w);
    LocalsKept(s, t, w);
    FlightsKept(s, t, w);
    GetWakeKept(s, t, w);
    PutWakeKept(s, t, w);
  }

  /** A program counter with which a thread holds nothing, waits for no signal and owes none. */
  predicate Quiet(pc: Pc) {
    IsRet(pc) || pc == Idle || pc == Get(GLock) || pc == Mode(NSet) || pc == Mode(BSet) || (pc.Put? && pc.p == PLock)
  }

  lemma QuietLocals(s: State, s': State, t: Tid)
    requires Locals(s) && t in s'.pcs && s'.pcs == s.pcs[t := s'.pcs[t]]
    requires s'.sh == s.sh.(mem := s'.sh.mem)
    requires (t in s.pcs ==> Quiet(s.pcs[t])) && Quiet(s'.pcs[t])
    ensures Locals(s')
  {
    forall u | u in s'.pcs ensures Local(s'.sh, u, s'.pcs[u]) {
      if u != t { assert Local(s.sh, u, s.pcs[u]); }
    }
  }

  lemma QuietComing(pcs: map<Tid, Pc>, pcs': map<Tid, Pc>, t: Tid)
    requires t in pcs' && pcs' == pcs[t := pcs'[t]] && (t in pcs ==> Quiet(pcs[t]))
    ensures (SignalComing(pcs) ==> SignalComing(pcs')) && (NbSignalComing(pcs) ==> NbSignalComing(pcs'))
    ensures NbBroadcastComing(pcs) ==> NbBroadcastComing(pcs')
  {
    assert forall u :: u in pcs && u != t ==> u in pcs' && pcs'[u] == pcs[u];
  }

  lemma QuietWakes(s: State, s': State, t: Tid)
    requires Locals(s) && GetWake(s) && PutWake(s) && t in s'.pcs && s'.pcs == s.pcs[t := s'.pcs[t]]
    requires s'.sh == s.sh.(mem := s'.sh.mem)
    requires (t in s.pcs ==> Quiet(s.pcs[t])) && Quiet(s'.pcs[t])
    ensures GetWake(s') && PutWake(s')
  {
    QuietComing(s.pcs, s'.pcs, t);
    QuietLocals(s, s', t);
    assert Local(s'.sh, t, s'.pcs[t]);
  }

  lemma ArriveKeeps(s: State, t: Tid)
    requires Inv(s) && Enabled(s, Arrive(t))
    ensures Inv(Apply(s, Arrive(t)))
  {
    QuietLocals(s, Apply(s, Arrive(t)), t);
    QuietWakes(s, Apply(s, Arrive(t)), t);
  }

  lemma InvokeKeeps(s: State, t: Tid, c: Call)
    requires Inv(s) && Enabled(s, Invoke(t, c))
    ensures Inv(Apply(s, Invoke(t, c)))
  {
    var s' := Apply(s, Invoke(t, c));
    QuietLocals(s, s', t);
    QuietWakes(s, s', t);
    if c.DoPut? { ClearKeepsLists(s.sh, c.m); }
  }

  lemma SpuriousKeeps(s: State, t: Tid)
    requires Inv(s) && Enabled(s, Spurious(t))
    ensures Inv(Apply(s, Spurious(t)))
  {
  }

  lemma ReturnKeeps(s: State, t: Tid)
    requires Inv(s) && Enabled(s, Return(t))
    ensures Inv(Apply(s, Return(t)))
  {
    QuietLocals(s, Apply(s, Return(t)), t);
    QuietWakes(s, Apply(s, Return(t)), t);
  }

  lemma InitInv(max: nat)
    ensures Inv(Init(max))
  {
  }

  /** Whatever a thread does next, the invariant is kept. */
  lemma AnyKeeps(s: State, a: Action)
    requires Inv(s) && Enabled(s, a)
    ensures Inv(Apply(s, a)) && Apply(s, a).sh.max == s.sh.max
  {
    match a
    case Arrive(t) => ArriveKeeps(s, t);
    case Invoke(t, c) => InvokeKeeps(s, t, c);
    case Run(t, w) => RunKeeps(s, t, w); ExecKeeps(s.sh, t, s.pcs[t], w);
    case Spurious(t) => SpuriousKeeps(s, t);
    case Return(t) => ReturnKeeps(s, t);
  }

  lemma NextKeeps(s: State, a: Action, s': State)
    requires Moves(s, a, s') && Inv(s)
    ensures Inv(s') && s'.sh.max == s.sh.max
  {
    AnyKeeps(s, a);
  }

  /** The invariant holds in every reachable state, whatever the threads do and in whatever order. */
  lemma {:induction false} Reachable(max: nat, ss: seq<State>, acts: seq<Action>, i: nat)
    requires IsRun(max, ss, acts) && i < |ss|
    ensures Inv(ss[i]) && ss[i].sh.max == max
  {
    if i == 0 {
      InitInv(max);
    } else {
      Reachable(max, ss, acts, i - 1);
      assert StepAt(ss, acts, i - 1);
      NextKeeps(ss[i - 1], acts[i - 1], ss[i]);
    }
  }
}
