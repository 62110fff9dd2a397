/**
 Nonblocking mode releases everybody: once it is set and no call starts, every instruction of the queue brings
 the open operations closer to their end, so all consumers return, although `get_cond` was signalled once.
 */
module QueueRank {
  import opened Common
  import opened QueueMachine
  import opened QueueInv
  import opened QueueSpec

  /** At most this many instructions are left of the operation, if none puts it to sleep. */
  function Left(pc: Pc): nat {
    match pc
    case Idle => 0
    case Put(_, p) =>
      (match p
       case PSleep => 7 case PWait => 6 case PLock => 6 case PCheck => 5 case PAppend => 4
       case PUnlock => 3 case PSignal => 2 case PRet => 0)
    case Get(g) =>
      (match g
       case GLock => 14 case GTest => 13 case GAlias => 12
       case Swap(_, _, p) =>
         (match p
          case SSleep => 11 case SWait => 10 case SLock => 10 case SCheck => 9 case STake => 8 case SExchange => 7)
       case GLeave(_) => 6 case GPop => 5 case GUnlock(_) => 4 case GRet(_) => 0)
    case Mode(k) =>
      (match k
       case NSet => 5 case NLock => 4 case NSignal => 3 case NBroadcast => 2 case NUnlock => 1 case NRet => 0
       case BSet => 1 case BRet => 0)
  }

  /** The sum over all threads. */
  ghost function Rank(pcs: map<Tid, Pc>): nat
    decreases |pcs|
  {
    if pcs == map[] then 0
    else
      var t :| t in pcs;
      Left(pcs[t]) + Rank(pcs - {t})
  }

  lemma {:induction false} RankOut(pcs: map<Tid, Pc>, t: Tid)
    requires t in pcs
    ensures Rank(pcs) == Left(pcs[t]) + Rank(pcs - {t})
    decreases |pcs|
  {
    var u :| u in pcs && Rank(pcs) == Left(pcs[u]) + Rank(pcs - {u});
    if u != t {
      RankOut(pcs - {u}, t);
      RankOut(pcs - {t}, u);
      assert pcs - {u} - {t} == pcs - {t} - {u};
    }
  }

  lemma RankUpdate(pcs: map<Tid, Pc>, t: Tid, pc: Pc)
    ensures Rank(pcs[t := pc]) + (if t in pcs then Left(pcs[t]) else 0) == Rank(pcs) + Left(pc)
  {
    RankOut(pcs[t := pc], t);
    assert pcs[t := pc] - {t} == pcs - {t};
    if t in pcs { RankOut(pcs, t); } else { assert pcs - {t} == pcs; }
  }

  lemma GetLowers(sh: Shared, t: Tid, g: GetPc)
    requires Lists(sh) && Local(sh, t, Get(g)) && Ready(sh, t, Get(g)) && sh.nonblock
    ensures Left(Get(GetStep(sh, t, g).1)) < Left(Get(g))
  {
    if g == GPop { FirstCell(sh); }
  }

  lemma ExecLowers(sh: Shared, t: Tid, pc: Pc, w: Tid)
    requires Lists(sh) && Local(sh, t, pc) && Ready(sh, t, pc) && sh.nonblock
    ensures Left(Exec(sh, t, pc, w).1) < Left(pc)
  {
    if pc.Get? { GetLowers(sh, t, pc.g); }
  }

  /** Everything but the start of a call. */
  ghost function Cost(a: Action): nat {
    if a.Run? then 1 else 0
  }

  lemma RankLowers(s: State, a: Action, s': State)
    requires Inv(s) && Moves(s, a, s') && s.sh.nonblock && !a.Invoke?
    ensures Cost(a) + Rank(s'.pcs) <= Rank(s.pcs)
  {
    match a
    case Run(t, w) =>
      assert Local(s.sh, t, s.pcs[t]);
      ExecLowers(s.sh, t, s.pcs[t], w);
      RankUpdate(s.pcs, t, s'.pcs[t]);
    case Arrive(t) => RankUpdate(s.pcs, t, Idle);
    case Return(t) => RankUpdate(s.pcs, t, Idle);
    case Spurious(_) =>
  }

  /** The instructions executed from state `i` to state `j`. */
  ghost function Instructions(acts: seq<Action>, i: nat, j: nat): nat
    requires i <= j <= |acts|
  {
    if i == j then 0 else Instructions(acts, i, j - 1) + Cost(acts[j - 1])
  }

  lemma {:induction false} RankBound(max: nat, ss: seq<State>, acts: seq<Action>, i: nat, j: nat)
    requires IsRun(max, ss, acts) && i <= j < |ss|
    requires forall k :: i <= k < j ==> ss[k].sh.nonblock && !acts[k].Invoke?
    ensures Instructions(acts, i, j) + Rank(ss[j].pcs) <= Rank(ss[i].pcs)
  {
    if i < j {
      RankBound(max, ss, acts, i, j - 1);
      Reachable(max, ss, acts, j - 1);
      assert StepAt(ss, acts, j - 1);
      RankLowers(ss[j - 1], acts[j - 1], ss[j]);
    }
  }

  /**
   In every run, from a state on in which the mode is nonblocking and as long as it is and no call starts, no more
   instructions are executed than the rank says, and when none can be, every operation has its answer.
   */
  lemma NonblockEnds(max: nat, ss: seq<State>, acts: seq<Action>, i: nat, j: nat)
    requires IsRun(max, ss, acts) && i <= j < |ss|
    requires forall k :: i <= k < j ==> ss[k].sh.nonblock && !acts[k].Invoke?
    ensures Instructions(acts, i, j) + Rank(ss[j].pcs) <= Rank(ss[i].pcs)
    ensures ss[j].sh.nonblock && (forall t :: t in ss[j].pcs ==> !Ready(ss[j].sh, t, ss[j].pcs[t])) ==>
      forall t :: t in ss[j].pcs ==> !InOperation(ss[j].pcs[t])
  {
    RankBound(max, ss, acts, i, j);
    Reachable(max, ss, acts, j);
    NobodyLeft(ss[j]);
  }

  lemma NobodyLeft(s: State)
    requires Inv(s)
    ensures s.sh.nonblock && (forall t :: t in s.pcs ==> !Ready(s.sh, t, s.pcs[t])) ==>
      forall t :: t in s.pcs ==> !InOperation(s.pcs[t])
  {
    if s.sh.nonblock && forall t :: t in s.pcs ==> !Ready(s.sh, t, s.pcs[t]) {
      forall t | t in s.pcs ensures !InOperation(s.pcs[t]) {
        if InOperation(s.pcs[t]) { NoStuckQueue(s, t); }
      }
    }
  }

  // ---- in either mode ----

  /** The next instruction is a test (line 92 or 72) that sends the thread to sleep: no room, or no message. */
  predicate Dozes(sh: Shared, pc: Pc) {
    !sh.nonblock &&
    ((pc.Put? && pc.p == PCheck && |sh.putq| > Limit(sh)) ||
     (pc.Get? && pc.g.Swap? && pc.g.at == SCheck && sh.getq == [] && sh.putq == []))
  }

  lemma OwnLowers(sh: Shared, t: Tid, pc: Pc, w: Tid)
    requires Lists(sh) && Book(sh) && Local(sh, t, pc) && Ready(sh, t, pc)
    ensures 1 + Left(Exec(sh, t, pc, w).1) <= Left(pc) + if Dozes(sh, pc) then 3 else 0
  {
    match pc
    case Put(m, p) =>
    case Get(g) => OwnGetLowers(sh, t, g);
    case Mode(k) =>
  }

  lemma OwnGetLowers(sh: Shared, t: Tid, g: GetPc)
    requires Lists(sh) && Book(sh) && Local(sh, t, Get(g)) && Ready(sh, t, Get(g))
    ensures 1 + Left(Get(GetStep(sh, t, g).1)) <= Left(Get(g)) + if Dozes(sh, Get(g)) then 3 else 0
  {
    FirstCell(sh);
  }

  function Own(a: Action, t: Tid): nat {
    if a.Run? && a.t == t then 1 else 0
  }

  function Doze(s: State, a: Action, t: Tid): nat {
    if a.Run? && a.t == t && t in s.pcs && Dozes(s.sh, s.pcs[t]) then 1 else 0
  }

  function LeftOf(s: State, t: Tid): nat {
    if t in s.pcs then Left(s.pcs[t]) else 0
  }

  /** The instructions of thread `t` from state `i` to state `j`, and those of them that send it to sleep. */
  function OwnSteps(acts: seq<Action>, t: Tid, i: nat, j: nat): nat
    requires i <= j <= |acts|
  {
    if i == j then 0 else OwnSteps(acts, t, i, j - 1) + Own(acts[j - 1], t)
  }

  function Dozings(ss: seq<State>, acts: seq<Action>, t: Tid, i: nat, j: nat): nat
    requires i <= j <= |acts| <= |ss|
  {
    if i == j then 0 else Dozings(ss, acts, t, i, j - 1) + Doze(ss[j - 1], acts[j - 1], t)
  }

  ghost predicate PaidBy(ss: seq<State>, acts: seq<Action>, t: Tid, k: int) {
    0 <= k < |acts| && k + 1 < |ss| &&
    Own(acts[k], t) + LeftOf(ss[k + 1], t) <= LeftOf(ss[k], t) + 3 * Doze(ss[k], acts[k], t)
  }

  lemma OwnPaid(s: State, a: Action, s': State, t: Tid)
    requires Inv(s) && Moves(s, a, s') && !(a.Invoke? && a.t == t)
    ensures Own(a, t) + LeftOf(s', t) <= LeftOf(s, t) + 3 * Doze(s, a, t)
  {
    if a.Run? && a.t == t {
      assert Local(s.sh, t, s.pcs[t]);
      OwnLowers(s.sh, t, s.pcs[t], a.w);
    }
  }

  lemma {:induction false} SumOwn(ss: seq<State>, acts: seq<Action>, t: Tid, i: nat, j: nat)
    requires |ss| == |acts| + 1 && i <= j < |ss| && forall k :: i <= k < j ==> PaidBy(ss, acts, t, k)
    ensures OwnSteps(acts, t, i, j) + LeftOf(ss[j], t) <= LeftOf(ss[i], t) + 3 * Dozings(ss, acts, t, i, j)
  {
    if i < j {
      SumOwn(ss, acts, t, i, j - 1);
      assert PaidBy(ss, acts, t, j - 1);
    }
  }

  lemma PaidStep(max: nat, ss: seq<State>, acts: seq<Action>, t: Tid, k: nat)
    requires IsRun(max, ss, acts) && k < |acts| && !(acts[k].Invoke? && acts[k].t == t)
    ensures PaidBy(ss, acts, t, k)
  {
    Reachable(max, ss, acts, k);
    assert StepAt(ss, acts, k);
    OwnPaid(ss[k], acts[k], ss[k + 1], t);
  }

  /**
   In either mode and whatever the others do, an operation executes no more instructions than it has left, and
   three for each time that it is sent to sleep; and that happens only when there is no message, or no room.
   */
  lemma OperationBound(max: nat, ss: seq<State>, acts: seq<Action>, t: Tid, i: nat, j: nat)
    requires IsRun(max, ss, acts) && i <= j < |ss|
    requires forall k :: i <= k < j ==> !(acts[k].Invoke? && acts[k].t == t)
    ensures OwnSteps(acts, t, i, j) + LeftOf(ss[j], t) <= LeftOf(ss[i], t) + 3 * Dozings(ss, acts, t, i, j)
  {
    forall k | i <= k < j ensures PaidBy(ss, acts, t, k) { PaidStep(max, ss, acts, t, k); }
    SumOwn(ss, acts, t, i, j);
  }

  /** A get that finds a message, and a put that finds room, does not sleep: it answers within its instructions. */
  lemma NoSleepBound(max: nat, ss: seq<State>, acts: seq<Action>, t: Tid, i: nat, j: nat)
    requires IsRun(max, ss, acts) && i <= j < |ss| && t in ss[i].pcs
    requires forall k :: i <= k < j ==> !(acts[k].Invoke? && acts[k].t == t) && Doze(ss[k], acts[k], t) == 0
    ensures OwnSteps(acts, t, i, j) + LeftOf(ss[j], t) <= 14
  {
    OperationBound(max, ss, acts, t, i, j);
    NoneDoze(ss, acts, t, i, j);
  }

  lemma {:induction false} NoneDoze(ss: seq<State>, acts: seq<Action>, t: Tid, i: nat, j: nat)
    requires i <= j <= |acts| <= |ss| && forall k :: i <= k < j ==> Doze(ss[k], acts[k], t) == 0
    ensures Dozings(ss, acts, t, i, j) == 0
  {
    if i < j { NoneDoze(ss, acts, t, i, j - 1); }
  }
}
