/** Stop comes to an end: once `shutdown_` is set and no Flush is in progress, Run needs a bounded number of steps. */
module LogDrain {
  import opened Common
  import opened LogFraming
  import opened LogMachine
  import opened LogInv
  import opened LogProof
  import opened LogStop
  import opened LogTheorems
  import opened LogOutcome

  /** No thread is between lines 201 and 217. */
  ghost predicate NoneInUse(sh: Shared) {
    forall l, b :: l in sh.logs ==> !InUse(sh.logs[l], b)
  }

  /** What Update has to do for this Logger: each buffer is taken and then written. */
  function Load(lg: Log): nat {
    2 * |lg.buffers| + |lg.taken|
  }

  ghost function Loads(sh: Shared): map<Lid, nat> {
    map l | l in sh.logs :: Load(sh.logs[l])
  }

  /** From the wait of line 601 on, with `shutdown_` set. */
  function AfterWait(sh: Shared): nat {
    3 * |sh.busy| + 7 * |sh.list| + 6
  }

  function AfterRound(sh: Shared, run: bool): nat {
    if run then AfterWait(sh) else 4 * |sh.list| + 3
  }

  /** Whether the drain has to come back to the front of the list once more. */
  function Wrap(i: nat): nat {
    if i > 0 then 2 else 1
  }

  /** The steps of Run that are left besides those for the buffers. */
  function Passes(sh: Shared, con: Con): nat {
    match con
    case Wait => AfterWait(sh)
    case Copy(run) => 3 * |sh.list| + 2 + AfterRound(sh, run)
    case Next(InRun(run, todo)) => 3 * |todo| + 1 + AfterRound(sh, run)
    case Next(InDrain(i)) => 4 * |sh.list| + Wrap(i) + 1
    case Scan(InRun(run, todo), _, _, _) => 3 * |todo| + 3 + AfterRound(sh, run)
    case Scan(InDrain(i), _, _, todo) => 4 * |sh.list| + if todo then 5 else Wrap(i)
    case Write(InRun(run, todo), _, _) => 3 * |todo| + 2 + AfterRound(sh, run)
    case Write(InDrain(i), _, todo) => 4 * |sh.list| + if todo then 4 else Wrap(i) - 1
    case LockDrain => 4 * |sh.list| + 3
    case Done => 0
  }

  ghost function Rank(s: State): nat {
    Total(Loads(s.sh)) + Passes(s.sh, s.con)
  }

  // ---- the steps of Run ----

  lemma OneLoad(sh: Shared, l: Lid, lg: Log)
    requires l in sh.logs
    ensures Total(Loads(WithLog(sh, l, lg))) + Load(sh.logs[l]) == Total(Loads(sh)) + Load(lg)
  {
    assert Loads(WithLog(sh, l, lg)) == Loads(sh)[l := Load(lg)];
    TotalUpdate(Loads(sh), l, Load(lg));
  }

  lemma SameLoads(sh: Shared, sh': Shared)
    requires sh'.logs.Keys == sh.logs.Keys
    requires forall l :: l in sh.logs ==> Load(sh'.logs[l]) == Load(sh.logs[l])
    ensures Total(Loads(sh')) == Total(Loads(sh))
  {
    assert Loads(sh') == Loads(sh);
  }

  lemma MapMinus<K, V>(m: map<K, V>, k: K)
    requires k in m
    ensures |m - {k}| + 1 == |m|
  {
    assert (m - {k}).Keys == m.Keys - {k};
  }

  lemma MapPlus<K, V>(m: map<K, V>, k: K, v: V)
    requires k !in m
    ensures |m[k := v]| == |m| + 1
  {
    assert m[k := v].Keys == m.Keys + {k};
  }

  lemma TakenLoad(lg: Log, k: Tid)
    requires k in lg.buffers && k !in lg.taken
    ensures Load(Taken(lg, k)) + 1 == Load(lg)
  {
    MapMinus(lg.buffers, k);
    MapPlus(lg.taken, k, lg.buffers[k]);
  }

  lemma WrittenLoad(lg: Log, k: Tid)
    requires k in lg.taken && |Bytes(lg, lg.taken[k])| < MAXBYTES
    ensures Load(Written(lg, k)) + 1 == Load(lg)
  {
    MapMinus(lg.taken, k);
  }

  lemma ScanLowers(s: State, k: Tid)
    requires Scanning(s.sh, s.con) && RunReady(s, k) && s.con.Scan? && NoneInUse(s.sh)
    ensures Rank(Apply(s, Run(k))) < Rank(s)
  {
    var lg, s' := s.sh.logs[s.con.l], Apply(s, Run(k));
    if s.con.left != {} { TakenLoad(lg, k); }
    OneLoad(s.sh, s.con.l, s'.sh.logs[s.con.l]);
    ScanPasses(s.sh, s.con, k);
  }

  lemma ScanPasses(sh: Shared, con: Con, k: Tid)
    requires con.Scan? && con.l in sh.logs && (con.left != {} ==> k in con.left && k in sh.logs[con.l].buffers)
    requires con.left != {} ==> !InUse(sh.logs[con.l], sh.logs[con.l].buffers[k])
    ensures var (sh', con') := ScanStep(sh, con, k);
      Passes(sh', con') + (if con.left == {} then 1 else 0) <= Passes(sh, con) &&
      sh' == WithLog(sh, con.l, if con.left == {} then sh.logs[con.l].(locked := false) else Taken(sh.logs[con.l], k))
  {
  }

  lemma WriteLowers(s: State, k: Tid)
    requires Lists(s.sh, s.con) && RunReady(s, k) && s.con.Write?
    ensures Rank(Apply(s, Run(k))) < Rank(s)
  {
    var lg, s' := s.sh.logs[s.con.l], Apply(s, Run(k));
    if lg.taken != map[] {
      WrittenLoad(lg, k);
      OneLoad(s.sh, s.con.l, Written(lg, k));
      SameLoads(WithLog(s.sh, s.con.l, Written(lg, k)), s'.sh);
    } else {
      SameLoads(s.sh, s'.sh);
    }
    WritePasses(s.sh, s.con, k);
  }

  lemma WritePasses(sh: Shared, con: Con, k: Tid)
    requires con.Write? && con.l in sh.logs && (con.back.InDrain? ==> con.back.i < |sh.list|)
    requires var lg := sh.logs[con.l]; lg.taken != map[] ==> k in lg.taken && |Bytes(lg, lg.taken[k])| < MAXBYTES
    ensures var (sh', con') := WriteStep(sh, con, k);
      Passes(sh', con') + (if sh.logs[con.l].taken == map[] then 1 else 0) <= Passes(sh, con)
  {
  }

  lemma NextLowers(s: State, k: Tid)
    requires RunReady(s, k) && s.con.Next?
    ensures Rank(Apply(s, Run(k))) < Rank(s)
  {
    var s' := Apply(s, Run(k));
    SameLoads(s.sh, s'.sh);
    NextPasses(s, k);
  }

  lemma NextPasses(s: State, k: Tid)
    requires RunReady(s, k) && s.con.Next?
    ensures Passes(RunStep(s, k).0, RunStep(s, k).1) < Passes(s.sh, s.con)
  {
  }

  lemma CopyLowers(s: State, k: Tid)
    requires RunReady(s, k) && (s.con.Copy? || s.con.LockDrain?)
    ensures Rank(Apply(s, Run(k))) < Rank(s)
  {
    SameLoads(s.sh, Apply(s, Run(k)).sh);
  }

  lemma RunLowers(s: State, k: Tid)
    requires Control(s) && RunReady(s, k) && NoneInUse(s.sh)
    ensures Rank(Apply(s, Run(k))) < Rank(s)
  {
    if s.con.Scan? { ScanLowers(s, k); }
    else if s.con.Write? { WriteLowers(s, k); }
    else if s.con.Next? { NextLowers(s, k); }
    else { CopyLowers(s, k); }
  }

  lemma {:induction false} AsMany(order: seq<Lid>, busy: set<Lid>)
    requires NoDup(order) && forall l :: l in order <==> l in busy
    ensures |order| == |busy|
  {
    if order == [] {
      assert busy == {};
    } else {
      var l, rest := order[|order| - 1], order[..|order| - 1];
      assert order == rest + [l];
      AsMany(rest, busy - {l});
    }
  }

  lemma WakeLowers(s: State, order: seq<Lid>)
    requires Enabled(s, Wake(order)) && s.sh.shutdown
    ensures Rank(Apply(s, Wake(order))) < Rank(s)
  {
    AsMany(order, s.sh.busy);
    SameLoads(s.sh, Apply(s, Wake(order)).sh);
  }

  // ---- the other steps ----

  /** A Flush that goes on, or gets past line 201, has its buffer in use. */
  lemma FlushSeen(s: State, t: Tid)
    requires Core(s) && Enabled(s, Step(t)) && NoneInUse(s.sh) && NoneInUse(Apply(s, Step(t)).sh)
    requires var pc := s.pcs[t]; pc.Enter? || pc.Push? || pc.Release?
    ensures Apply(s, Step(t)).sh == s.sh
  {
    var pc := s.pcs[t];
    assert Local(s.sh, t, pc);
    if pc.Enter? && !s.sh.logs[pc.l].shutdown { EnterSeen(s, t); }
  }

  lemma EnterSeen(s: State, t: Tid)
    requires Core(s) && Enabled(s, Step(t)) && s.pcs[t].Enter? && !s.sh.logs[s.pcs[t].l].shutdown
    ensures !NoneInUse(Apply(s, Step(t)).sh)
  {
    var l := s.pcs[t].l;
    var (lg', b) := Entered(s.sh.logs[l], t);
    assert LogOk(s.sh.logs[l]);
    EnteredUses(s.sh.logs[l], t);
    assert InUse(Apply(s, Step(t)).sh.logs[l], b);
  }

  lemma EnteredUses(lg: Log, t: Tid)
    requires Bufs(lg)
    ensures InUse(Entered(lg, t).0, Entered(lg, t).1)
  {
  }

  lemma StopLoads(s: State, t: Tid)
    requires Enabled(s, Step(t)) && s.sh.shutdown
    requires var pc := s.pcs[t]; !pc.Enter? && !pc.Push? && !pc.Release?
    ensures var s' := Apply(s, Step(t)); s'.con == s.con && Rank(s') == Rank(s)
  {
    StopSame(s.sh, t, s.pcs[t]);
    SameLoads(s.sh, Apply(s, Step(t)).sh);
  }

  lemma StopSame(sh: Shared, t: Tid, pc: Pc)
    requires (pc.Busy? || pc.Begin? || pc.LockLogs? || pc.Shutting? || pc.Join?) && sh.shutdown
    ensures var sh' := StopStep(sh, t, pc).0;
      sh'.logs.Keys == sh.logs.Keys && sh'.list == sh.list && sh'.busy == sh.busy &&
      forall l :: l in sh.logs ==> Load(sh'.logs[l]) == Load(sh.logs[l])
  {
  }

  function Cost(a: Action): nat {
    if a.Run? || a.Wake? then 1 else 0
  }

  lemma RankStep(s: State, a: Action, s': State)
    requires Inv(s) && Moves(s, a, s') && s.sh.shutdown && NoneInUse(s.sh) && NoneInUse(s'.sh)
    ensures Cost(a) + Rank(s') <= Rank(s) && s'.sh.shutdown
  {
    match a
    case Run(k) =>
      RunLowers(s, k);
      RunSame(s, k);
    case Wake(order) => WakeLowers(s, order);
    case Step(t) => if s.pcs[t].Enter? || s.pcs[t].Push? || s.pcs[t].Release? { FlushSeen(s, t); } else { StopLoads(s, t); }
    case _ =>
  }

  // ---- runs ----

  /** The steps of Run from state `i` to state `j`. */
  function RunSteps(acts: seq<Action>, i: nat, j: nat): nat
    requires i <= j <= |acts|
  {
    if i == j then 0 else RunSteps(acts, i, j - 1) + Cost(acts[j - 1])
  }

  ghost predicate LowersAt(ss: seq<State>, acts: seq<Action>, k: int) {
    0 <= k < |acts| && k + 1 < |ss| &&
    (ss[k].sh.shutdown ==> Cost(acts[k]) + Rank(ss[k + 1]) <= Rank(ss[k]) && ss[k + 1].sh.shutdown)
  }

  lemma NextRank(ss: seq<State>, acts: seq<Action>, k: nat)
    requires IsRun(ss, acts) && k < |acts| && NoneInUse(ss[k].sh) && NoneInUse(ss[k + 1].sh)
    ensures LowersAt(ss, acts, k)
  {
    Reachable(ss, acts, k);
    assert StepAt(ss, acts, k);
    if ss[k].sh.shutdown { RankStep(ss[k], acts[k], ss[k + 1]); }
  }

  lemma {:induction false} SumRank(ss: seq<State>, acts: seq<Action>, i: nat, j: nat)
    requires |ss| == |acts| + 1 && i <= j < |ss| && ss[i].sh.shutdown && forall k :: i <= k < j ==> LowersAt(ss, acts, k)
    ensures RunSteps(acts, i, j) + Rank(ss[j]) <= Rank(ss[i]) && ss[j].sh.shutdown
  {
    if i < j {
      SumRank(ss, acts, i, j - 1);
      assert LowersAt(ss, acts, j - 1);
    }
  }

  /**
   Once `shutdown_` is set, and while no buffer is in use, Run takes no more steps than the rank says; and until it
   has finished, it or the thread that shuts the Loggers down can go on.
   */
  lemma RunEnds(ss: seq<State>, acts: seq<Action>, i: nat, j: nat)
    requires IsRun(ss, acts) && i <= j < |ss| && ss[i].sh.shutdown && forall k :: i <= k <= j ==> NoneInUse(ss[k].sh)
    ensures RunSteps(acts, i, j) + Rank(ss[j]) <= Rank(ss[i])
    ensures !ss[j].con.Done? ==> RunnerMoves(ss[j])
  {
    forall k | i <= k < j ensures LowersAt(ss, acts, k) {
      assert NoneInUse(ss[k].sh) && NoneInUse(ss[k + 1].sh);
      NextRank(ss, acts, k);
    }
    SumRank(ss, acts, i, j);
    if !ss[j].con.Done? { RunProgress(ss, acts, j); }
  }

  // ---- the steps of Stop ----

  /** What is left of lines 551-557. */
  function StopLeft(s: State, t: Tid): nat {
    if t !in s.pcs then 0
    else match s.pcs[t]
      case LockLogs => |s.sh.list| + 3
      case Shutting(i) => 2 + if i < |s.sh.list| then |s.sh.list| - i else 0
      case Join => 1
      case _ => 0
  }

  function Own(s: State, a: Action, t: Tid): nat {
    if a == Step(t) && t in s.pcs && Stopping(s.pcs[t]) then 1 else 0
  }

  function StopSteps(ss: seq<State>, acts: seq<Action>, t: Tid, i: nat, j: nat): nat
    requires i <= j <= |acts| <= |ss|
  {
    if i == j then 0 else StopSteps(ss, acts, t, i, j - 1) + Own(ss[j - 1], acts[j - 1], t)
  }

  lemma RunShrinks(s: State, k: Tid)
    requires RunReady(s, k)
    ensures |RunStep(s, k).0.list| <= |s.sh.list|
  {
  }

  lemma FlushLists(s: State, t: Tid)
    requires Core(s) && Enabled(s, Step(t))
    requires var pc := s.pcs[t]; pc.Enter? || pc.Push? || pc.Release?
    ensures Apply(s, Step(t)).sh.list == s.sh.list
  {
    FlushShape(s, t);
  }

  lemma StopLowers(s: State, a: Action, t: Tid)
    requires Inv(s) && Enabled(s, a) && t in s.pcs && Stopping(s.pcs[t])
    ensures Own(s, a, t) + StopLeft(Apply(s, a), t) <= StopLeft(s, t)
  {
    assert s.sh.shutdown;
    match a
    case Run(k) => RunShrinks(s, k);
    case Step(u) => if s.pcs[u].Enter? || s.pcs[u].Push? || s.pcs[u].Release? { FlushLists(s, u); }
    case _ =>
  }

  ghost predicate StopAt(ss: seq<State>, acts: seq<Action>, t: Tid, k: int) {
    0 <= k < |acts| && k + 1 < |ss| && Own(ss[k], acts[k], t) + StopLeft(ss[k + 1], t) <= StopLeft(ss[k], t)
  }

  lemma NextStop(ss: seq<State>, acts: seq<Action>, t: Tid, k: nat)
    requires IsRun(ss, acts) && k < |acts| && t in ss[k].pcs && Stopping(ss[k].pcs[t])
    ensures StopAt(ss, acts, t, k)
  {
    Reachable(ss, acts, k);
    assert StepAt(ss, acts, k);
    StopLowers(ss[k], acts[k], t);
  }

  lemma {:induction false} SumStop(ss: seq<State>, acts: seq<Action>, t: Tid, i: nat, j: nat)
    requires |ss| == |acts| + 1 && i <= j < |ss| && forall k :: i <= k < j ==> StopAt(ss, acts, t, k)
    ensures StopSteps(ss, acts, t, i, j) + StopLeft(ss[j], t) <= StopLeft(ss[i], t)
  {
    if i < j {
      SumStop(ss, acts, t, i, j - 1);
      assert StopAt(ss, acts, t, j - 1);
    }
  }

  predicate InStop(s: State, t: Tid) {
    t in s.pcs && Stopping(s.pcs[t])
  }

  /** From line 551 on, Stop itself takes one step for each Logger and three more. */
  lemma StopBound(ss: seq<State>, acts: seq<Action>, t: Tid, i: nat, j: nat)
    requires IsRun(ss, acts) && i <= j < |ss| && forall k :: i <= k < j ==> InStop(ss[k], t)
    ensures StopSteps(ss, acts, t, i, j) + StopLeft(ss[j], t) <= StopLeft(ss[i], t) <= |ss[i].sh.list| + 3
  {
    forall k | i <= k < j ensures StopAt(ss, acts, t, k) {
      assert InStop(ss[k], t);
      NextStop(ss, acts, t, k);
    }
    SumStop(ss, acts, t, i, j);
  }
}
