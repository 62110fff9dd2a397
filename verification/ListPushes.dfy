/** What `push_front` puts into the list, over whole runs: the nodes there are against the calls that were made. */
module ListPushes {
  import opened Common
  import opened ListMachine
  import opened ListInv
  import opened ListTheorems

  // ---- the nodes of any state ----

  /** Every node made is in the list or was cut out of it, and nothing else is; memory holds no node besides. */
  ghost predicate AllNodes(sh: Shared) {
    (forall n: Node :: n in sh.live || n in sh.cutBy <==> n <= sh.made) &&
    (forall n: Node :: n in sh.next <==> n in sh.live || n in sh.out)
  }

  lemma TravNodes(sh: Shared, t: Tid, th: Thread, k: Kind, at: Place)
    requires Shape(sh) && AllNodes(sh) && th.pc == Trav(k, at) && Local(sh, t, th.pc) && !at.Unlink? && !at.Delete?
    ensures AllNodes(TravStep(sh, t, th, k, at).0)
  {
  }

  lemma CutNodes(sh: Shared, t: Tid, th: Thread, k: Kind, at: Place)
    requires Shape(sh) && AllNodes(sh) && th.pc == Trav(k, at) && Local(sh, t, th.pc) && (at.Unlink? || at.Delete?)
    ensures AllNodes(TravStep(sh, t, th, k, at).0)
  {
    assert at.Unlink? ==> Adjacent(sh, at.cur);
  }

  lemma PushNodes(sh: Shared, t: Tid, pc: Pc)
    requires Shape(sh) && AllNodes(sh)
    ensures AllNodes(PushStep(sh, t, pc).0)
  {
  }

  lemma StepNodes(s: State, a: Action, s': State)
    requires Inv(s) && Moves(s, a, s') && AllNodes(s.sh)
    ensures AllNodes(s'.sh)
  {
    if a.Run? {
      var th := s.th[a.t];
      assert Local(s.sh, a.t, th.pc);
      if !th.pc.Trav? { PushNodes(s.sh, a.t, th.pc); }
      else if th.pc.at.Unlink? || th.pc.at.Delete? { CutNodes(s.sh, a.t, th, th.pc.k, th.pc.at); }
      else { TravNodes(s.sh, a.t, th, th.pc.k, th.pc.at); }
    }
  }

  /** In every state: the nodes of the list are exactly those made and not cut, and no node outlives its deletion. */
  lemma NodesInRuns(ss: seq<State>, acts: seq<Action>, i: nat)
    requires IsRun(ss, acts) && i < |ss|
    ensures var sh := ss[i].sh;
      (forall n: Node :: n in sh.live || n in sh.cutBy <==> n <= sh.made) && (forall n :: n in sh.cutBy ==> n !in sh.live) &&
      (forall n: Node :: n in sh.next <==> n in sh.live || n in sh.out)
  {
    Reachable(ss, acts, i);
    assert Shape(ss[i].sh);
    AllInRuns(ss, acts, i);
  }

  ghost predicate NodesAt(ss: seq<State>, k: int) {
    0 <= k && k + 1 < |ss| && (AllNodes(ss[k].sh) ==> AllNodes(ss[k + 1].sh))
  }

  lemma NextNodes(ss: seq<State>, acts: seq<Action>, k: nat)
    requires IsRun(ss, acts) && k < |acts|
    ensures NodesAt(ss, k)
  {
    Reachable(ss, acts, k);
    assert StepAt(ss, acts, k);
    if AllNodes(ss[k].sh) { StepNodes(ss[k], acts[k], ss[k + 1]); }
  }

  lemma {:induction false} NodesFor(ss: seq<State>, i: nat)
    requires i < |ss| && AllNodes(ss[0].sh) && forall k :: 0 <= k < i ==> NodesAt(ss, k)
    ensures AllNodes(ss[i].sh)
  {
    if i > 0 {
      NodesFor(ss, i - 1);
      assert NodesAt(ss, i - 1);
    }
  }

  lemma AllInRuns(ss: seq<State>, acts: seq<Action>, i: nat)
    requires IsRun(ss, acts) && i < |ss|
    ensures AllNodes(ss[i].sh)
  {
    forall k | 0 <= k < i ensures NodesAt(ss, k) { NextNodes(ss, acts, k); }
    NodesFor(ss, i);
  }

  // ---- one push ----

  /** The step of `t` makes a node with this datum and puts it in front of all others. */
  ghost predicate Makes(s: State, a: Action, s': State, t: Tid, v: Val) {
    var n := s'.sh.made;
    a == Run(t) && n == s.sh.made + 1 && n !in s.sh.live && s'.sh.live == s.sh.live + {n} && Data(s'.sh, n) == v &&
    Next(s'.sh, HEAD) == Some(n) && Next(s'.sh, n) == Next(s.sh, HEAD) && forall m :: m in s.sh.live && m != HEAD ==> Before(n, m)
  }

  /** The action starts an operation of `t`. */
  predicate Starts(a: Action, t: Tid) {
    !a.Run? && a.t == t
  }

  /** From state `i` to state `j` thread `t` starts nothing. */
  predicate Quiet(acts: seq<Action>, t: Tid, i: nat, j: nat)
    requires j <= |acts|
  {
    forall x :: i <= x < j ==> !Starts(acts[x], t)
  }

  lemma LinkMakes(s: State, a: Action, s': State, t: Tid, v: Val)
    requires Inv(s) && Moves(s, a, s') && a == Run(t) && s.th[t].pc == PushLink(v)
    ensures Makes(s, a, s', t, v) && s'.th[t].pc == PushUnlock
  {
    assert Adjacent(s.sh, HEAD);
  }

  /** The other steps make no node. */
  lemma MakesNone(s: State, a: Action, s': State)
    requires Moves(s, a, s') && (a.Run? ==> !s.th[a.t].pc.PushLink?)
    ensures s'.sh.made == s.sh.made
  {
  }

  ghost predicate MadeAt(ss: seq<State>, acts: seq<Action>, x: int, t: Tid, v: Val) {
    0 <= x < |acts| && x + 1 < |ss| && Makes(ss[x], acts[x], ss[x + 1], t, v)
  }

  /** The step of `t`, if it is one, makes no node. */
  ghost predicate NoneAt(ss: seq<State>, acts: seq<Action>, x: int, t: Tid) {
    0 <= x < |acts| && x + 1 < |ss| && (acts[x] == Run(t) ==> ss[x + 1].sh.made == ss[x].sh.made)
  }

  ghost predicate OnceIn(ss: seq<State>, acts: seq<Action>, t: Tid, v: Val, i: nat, j: nat) {
    exists x :: i <= x < j && MadeAt(ss, acts, x, t, v) && forall y :: i <= y < j && y != x ==> NoneAt(ss, acts, y, t)
  }

  ghost predicate NeverIn(ss: seq<State>, acts: seq<Action>, t: Tid, i: nat, j: nat) {
    forall y :: i <= y < j ==> NoneAt(ss, acts, y, t)
  }

  /** How far the push of `t` has come. */
  ghost predicate Progress(ss: seq<State>, acts: seq<Action>, t: Tid, v: Val, i: nat, j: nat)
    requires j < |ss|
  {
    t in ss[j].th &&
    if ss[j].th[t].pc == PushLock(v) || ss[j].th[t].pc == PushLink(v) then NeverIn(ss, acts, t, i, j)
    else (ss[j].th[t].pc == PushUnlock || ss[j].th[t].pc == Idle) && OnceIn(ss, acts, t, v, i, j)
  }

  lemma OneStep(s: State, a: Action, s': State, t: Tid, v: Val)
    requires Inv(s) && Moves(s, a, s') && t in s.th && !Starts(a, t)
    requires !s.th[t].pc.Trav?
    ensures t in s'.th
    ensures a != Run(t) ==> s'.th[t].pc == s.th[t].pc
    ensures a == Run(t) && s.th[t].pc == PushLink(v) ==> Makes(s, a, s', t, v)
    ensures a == Run(t) && !s.th[t].pc.PushLink? ==> s'.sh.made == s.sh.made
    ensures a == Run(t) ==> s'.th[t].pc == (match s.th[t].pc
      case PushLock(u) => PushLink(u) case PushLink(_) => PushUnlock case _ => Idle)
  {
    if a == Run(t) {
      if s.th[t].pc == PushLink(v) { LinkMakes(s, a, s', t, v); }
      if !s.th[t].pc.PushLink? { MakesNone(s, a, s'); }
    }
  }

  lemma MoreNever(ss: seq<State>, acts: seq<Action>, t: Tid, v: Val, i: nat, j: nat)
    requires i <= j && NeverIn(ss, acts, t, i, j)
    ensures NoneAt(ss, acts, j, t) ==> NeverIn(ss, acts, t, i, j + 1)
    ensures MadeAt(ss, acts, j, t, v) ==> OnceIn(ss, acts, t, v, i, j + 1)
  {
  }

  lemma MoreOnce(ss: seq<State>, acts: seq<Action>, t: Tid, v: Val, i: nat, j: nat)
    requires i <= j && OnceIn(ss, acts, t, v, i, j) && NoneAt(ss, acts, j, t)
    ensures OnceIn(ss, acts, t, v, i, j + 1)
  {
    var x :| i <= x < j && MadeAt(ss, acts, x, t, v) && forall y :: i <= y < j && y != x ==> NoneAt(ss, acts, y, t);
    assert forall y :: i <= y < j + 1 && y != x ==> NoneAt(ss, acts, y, t);
  }

  lemma ProgressOn(ss: seq<State>, acts: seq<Action>, t: Tid, v: Val, i: nat, j: nat)
    requires |ss| == |acts| + 1 && i <= j < |acts| && Progress(ss, acts, t, v, i, j)
    requires Inv(ss[j]) && Moves(ss[j], acts[j], ss[j + 1]) && !Starts(acts[j], t)
    ensures Progress(ss, acts, t, v, i, j + 1)
  {
    OneStep(ss[j], acts[j], ss[j + 1], t, v);
    if ss[j].th[t].pc == PushLock(v) || ss[j].th[t].pc == PushLink(v) {
      MoreNever(ss, acts, t, v, i, j);
    } else {
      assert NoneAt(ss, acts, j, t);
      MoreOnce(ss, acts, t, v, i, j);
    }
  }

  ghost predicate ProgressAt(ss: seq<State>, acts: seq<Action>, t: Tid, v: Val, i: nat, j: int) {
    0 <= j && j + 1 < |ss| && (i <= j && Progress(ss, acts, t, v, i, j) ==> Progress(ss, acts, t, v, i, j + 1))
  }

  lemma NextProgress(ss: seq<State>, acts: seq<Action>, t: Tid, v: Val, i: nat, j: nat)
    requires IsRun(ss, acts) && j < |acts| && !Starts(acts[j], t)
    ensures ProgressAt(ss, acts, t, v, i, j)
  {
    Reachable(ss, acts, j);
    assert StepAt(ss, acts, j);
    if i <= j && Progress(ss, acts, t, v, i, j) { ProgressOn(ss, acts, t, v, i, j); }
  }

  lemma {:induction false} ProgressFor(ss: seq<State>, acts: seq<Action>, t: Tid, v: Val, i: nat, j: nat)
    requires i <= j < |ss| && Progress(ss, acts, t, v, i, i) && forall x :: i <= x < j ==> ProgressAt(ss, acts, t, v, i, x)
    ensures Progress(ss, acts, t, v, i, j)
  {
    if i < j {
      ProgressFor(ss, acts, t, v, i, j - 1);
      assert ProgressAt(ss, acts, t, v, i, j - 1);
    }
  }

  lemma PushStart(ss: seq<State>, acts: seq<Action>, t: Tid, v: Val, k: nat)
    requires IsRun(ss, acts) && k < |acts| && acts[k] == Push(t, v)
    ensures Progress(ss, acts, t, v, k + 1, k + 1)
  {
    assert StepAt(ss, acts, k);
    assert ss[k + 1].th[t].pc == PushLock(v);
  }

  /**
   A call of `push_front` that has ended made one node, with the value given, and that node then stood first in the
   list, the old nodes behind it.
   */
  lemma PushMakesOne(ss: seq<State>, acts: seq<Action>, t: Tid, v: Val, k: nat, j: nat)
    requires IsRun(ss, acts) && k < j < |ss| && acts[k] == Push(t, v) && Quiet(acts, t, k + 1, j)
    ensures t in ss[j].th && (!Active(ss[j].th[t].pc) ==> OnceIn(ss, acts, t, v, k + 1, j))
  {
    PushStart(ss, acts, t, v, k);
    var i := k + 1;
    forall x | i <= x < j ensures ProgressAt(ss, acts, t, v, i, x) { NextProgress(ss, acts, t, v, i, x); }
    ProgressFor(ss, acts, t, v, i, j);
  }

  // ---- every node comes from a push ----

  ghost predicate PushedFrom(acts: seq<Action>, t: Tid, v: Val, k: int, j: nat)
    requires j <= |acts|
  {
    0 <= k < j && acts[k] == Push(t, v) && Quiet(acts, t, k + 1, j)
  }

  ghost predicate InPush(pc: Pc, v: Val) {
    pc == PushLock(v) || pc == PushLink(v)
  }

  lemma StartedBefore(s: State, a: Action, s': State, t: Tid, v: Val)
    requires Moves(s, a, s') && t in s'.th && InPush(s'.th[t].pc, v)
    ensures a == Push(t, v) || (t in s.th && InPush(s.th[t].pc, v) && !Starts(a, t))
  {
  }

  /** A thread inside a push has been called to push that value. */
  lemma {:induction false} InsidePush(ss: seq<State>, acts: seq<Action>, t: Tid, v: Val, j: nat) returns (k: nat)
    requires IsRun(ss, acts) && j < |ss| && t in ss[j].th && InPush(ss[j].th[t].pc, v)
    ensures PushedFrom(acts, t, v, k, j)
  {
    assert j > 0 && StepAt(ss, acts, j - 1);
    StartedBefore(ss[j - 1], acts[j - 1], ss[j], t, v);
    if acts[j - 1] == Push(t, v) {
      k := j - 1;
    } else {
      k := InsidePush(ss, acts, t, v, j - 1);
    }
  }

  lemma {:induction false} MakingStep(ss: seq<State>, acts: seq<Action>, i: nat, n: Node) returns (x: nat)
    requires IsRun(ss, acts) && i < |ss| && 1 <= n <= ss[i].sh.made
    ensures x < i && acts[x].Run? && acts[x].t in ss[x].th && ss[x].th[acts[x].t].pc.PushLink? && ss[x].sh.made + 1 == n
  {
    assert i > 0 && StepAt(ss, acts, i - 1);
    var s, a := ss[i - 1], acts[i - 1];
    if n <= s.sh.made {
      x := MakingStep(ss, acts, i - 1, n);
    } else {
      if !a.Run? || !s.th[a.t].pc.PushLink? { MakesNone(s, a, ss[i]); }
      x := i - 1;
    }
  }

  /** Every node other than the head was made by a call of `push_front` and has held the value of that call ever since. */
  lemma NodeFromPush(ss: seq<State>, acts: seq<Action>, i: nat, n: Node) returns (k: nat, x: nat, t: Tid, v: Val)
    requires IsRun(ss, acts) && i < |ss| && 1 <= n <= ss[i].sh.made
    ensures x < i && PushedFrom(acts, t, v, k, x) && MadeAt(ss, acts, x, t, v) && ss[x + 1].sh.made == n
    ensures Data(ss[i].sh, n) == v
  {
    x := MakingStep(ss, acts, i, n);
    t := acts[x].t;
    v := ss[x].th[t].pc.v;
    k := InsidePush(ss, acts, t, v, x);
    MadeThere(ss, acts, x, t, v);
    DataStays(ss, acts, x + 1, i, n);
  }

  lemma MadeThere(ss: seq<State>, acts: seq<Action>, x: nat, t: Tid, v: Val)
    requires IsRun(ss, acts) && x < |acts| && acts[x] == Run(t) && t in ss[x].th && ss[x].th[t].pc == PushLink(v)
    ensures MadeAt(ss, acts, x, t, v)
  {
    Reachable(ss, acts, x);
    assert StepAt(ss, acts, x);
    LinkMakes(ss[x], acts[x], ss[x + 1], t, v);
  }

  lemma StepData(s: State, a: Action, s': State)
    requires Inv(s) && Moves(s, a, s')
    ensures Grown(s.sh, s'.sh)
  {
    if a.Run? {
      assert Local(s.sh, a.t, s.th[a.t].pc);
      Frame(s.sh, a.t, s.th[a.t]);
    }
  }

  ghost predicate GrownAt(ss: seq<State>, k: int) {
    0 <= k && k + 1 < |ss| && Grown(ss[k].sh, ss[k + 1].sh)
  }

  lemma NextGrown(ss: seq<State>, acts: seq<Action>, k: nat)
    requires IsRun(ss, acts) && k < |acts|
    ensures GrownAt(ss, k)
  {
    Reachable(ss, acts, k);
    assert StepAt(ss, acts, k);
    StepData(ss[k], acts[k], ss[k + 1]);
  }

  lemma {:induction false} DataFor(ss: seq<State>, i: nat, j: nat, n: Node)
    requires i <= j < |ss| && n <= ss[i].sh.made && forall k :: i <= k < j ==> GrownAt(ss, k)
    ensures n <= ss[j].sh.made && Data(ss[j].sh, n) == Data(ss[i].sh, n)
  {
    if i < j {
      DataFor(ss, i, j - 1, n);
      assert GrownAt(ss, j - 1);
    }
  }

  /** The datum of a node never changes. */
  lemma DataStays(ss: seq<State>, acts: seq<Action>, i: nat, j: nat, n: Node)
    requires IsRun(ss, acts) && i <= j < |ss| && n <= ss[i].sh.made
    ensures n <= ss[j].sh.made && Data(ss[j].sh, n) == Data(ss[i].sh, n)
  {
    forall k | i <= k < j ensures GrownAt(ss, k) { NextGrown(ss, acts, k); }
    DataFor(ss, i, j, n);
  }
}
