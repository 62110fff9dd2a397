/**
 How a Logger ends up when Stop has returned: whether Stop shut it down, and whether all it accepted was
 written. Both depend on which of Run and Stop came first.
 */
module LogOutcome {
  import opened Common
  import opened LogFraming
  import opened LogMachine
  import opened LogInv
  import opened LogProof
  import opened LogStop
  import opened LogTheorems

  // ---- which Loggers are shut down ----

  predicate Stopping(pc: Pc) {
    pc.LockLogs? || pc.Shutting? || pc.Join?
  }

  /** At most one call of Stop is past line 545, and no Logger is shut down before it comes to line 552. */
  ghost predicate OneStop(s: State) {
    (forall t, u :: t in s.pcs && u in s.pcs && Stopping(s.pcs[t]) && Stopping(s.pcs[u]) ==> t == u) &&
    (s.sh.stopped ==> s.sh.shutdown && forall t :: t in s.pcs ==> !Stopping(s.pcs[t])) &&
    (Unshut(s) ==> forall l :: l in s.sh.logs ==> !s.sh.logs[l].shutdown)
  }

  ghost predicate Unshut(s: State) {
    !s.sh.stopped && forall t :: t in s.pcs ==> !s.pcs[t].Shutting? && !s.pcs[t].Join?
  }

  /** The step shuts no Logger down and makes none. */
  ghost predicate SameShut(sh: Shared, sh': Shared) {
    SameFlags(sh, sh') && sh'.shutdown == sh.shutdown && sh'.stopped == sh.stopped
  }

  ghost predicate SameFlags(sh: Shared, sh': Shared) {
    sh'.logs.Keys == sh.logs.Keys && forall l :: l in sh.logs ==> sh'.logs[l].shutdown == sh.logs[l].shutdown
  }

  lemma RunSame(s: State, k: Tid)
    requires RunReady(s, k)
    ensures SameShut(s.sh, RunStep(s, k).0)
  {
    match s.con
    case Scan(_, _, _, _) => ScanSame(s.sh, s.con, k);
    case Write(_, _, _) => WriteSame(s.sh, s.con, k);
    case _ => PlainSame(s, k);
  }

  lemma PlainSame(s: State, k: Tid)
    requires RunReady(s, k) && !s.con.Scan? && !s.con.Write?
    ensures SameShut(s.sh, RunStep(s, k).0)
  {
  }

  lemma ScanSame(sh: Shared, con: Con, k: Tid)
    requires con.Scan? && con.l in sh.logs && (con.left != {} ==> k in con.left && k in sh.logs[con.l].buffers)
    ensures SameShut(sh, ScanStep(sh, con, k).0)
  {
  }

  lemma WriteSame(sh: Shared, con: Con, k: Tid)
    requires con.Write? && con.l in sh.logs
    requires var lg := sh.logs[con.l]; lg.taken != map[] ==> k in lg.taken && |Bytes(lg, lg.taken[k])| < MAXBYTES
    ensures SameShut(sh, WriteStep(sh, con, k).0)
  {
  }

  lemma FlushSame(s: State, t: Tid)
    requires Core(s) && t in s.pcs && Ready(s, t, s.pcs[t])
    requires var pc := s.pcs[t]; pc.Enter? || pc.Push? || pc.Release?
    ensures SameShut(s.sh, Apply(s, Step(t)).sh)
  {
    FlushShape(s, t);
    OneLogSame(s.sh, Apply(s, Step(t)).sh, s.pcs[t].l);
  }

  lemma OneLogSame(sh: Shared, sh': Shared, l: Lid)
    requires l in sh.logs && l in sh'.logs && Quiet(sh.logs[l], sh'.logs[l])
    requires sh' == WithLog(sh, l, sh'.logs[l]).(failed := sh'.failed)
    ensures SameShut(sh, sh')
  {
  }

  lemma FlushPc(sh: Shared, t: Tid, pc: Pc)
    requires (pc.Enter? || pc.Push? || pc.Release?) && pc.l in sh.logs
    ensures !Stopping(FlushStep(sh, t, pc).1)
  {
  }

  lemma SameKeeps(s: State, s': State, t: Tid)
    requires OneStop(s) && SameShut(s.sh, s'.sh)
    requires forall u :: u in s'.pcs && u != t ==> u in s.pcs && s'.pcs[u] == s.pcs[u]
    requires forall u :: u in s.pcs ==> u in s'.pcs
    requires t in s'.pcs ==> if Stopping(s'.pcs[t]) then t in s.pcs && s.pcs[t] == s'.pcs[t] else t in s.pcs ==> !Stopping(s.pcs[t])
    ensures OneStop(s')
  {
  }

  lemma EarlyKeepsOne(s: State, t: Tid)
    requires Inv(s) && OneStop(s) && t in s.pcs && (s.pcs[t].Busy? || s.pcs[t].Begin?)
    ensures OneStop(Apply(s, Step(t)))
  {
    var s' := Apply(s, Step(t));
    assert s.pcs[t].Begin? && !s.sh.shutdown ==> forall u :: u in s.pcs ==> !Stopping(s.pcs[u]);
    assert Unshut(s') ==> Unshut(s) by {
      forall u | Unshut(s') && u in s.pcs ensures !s.pcs[u].Shutting? && !s.pcs[u].Join? {
        assert u in s'.pcs;
      }
    }
  }

  lemma LateKeepsOne(s: State, t: Tid)
    requires Inv(s) && OneStop(s) && t in s.pcs && Ready(s, t, s.pcs[t]) && Stopping(s.pcs[t])
    ensures OneStop(Apply(s, Step(t)))
  {
    var s' := Apply(s, Step(t));
    assert s.sh.shutdown && !s.sh.stopped;
    assert s'.pcs[t].Shutting? || s'.pcs[t].Join? || s'.sh.stopped;
  }

  lemma FlushKeepsOne(s: State, t: Tid)
    requires Core(s) && OneStop(s) && Enabled(s, Step(t))
    requires var pc := s.pcs[t]; pc.Enter? || pc.Push? || pc.Release?
    ensures OneStop(Apply(s, Step(t)))
  {
    FlushSame(s, t);
    FlushPc(s.sh, t, s.pcs[t]);
    OwnPcKeeps(s, Apply(s, Step(t)), t);
  }

  lemma OwnPcKeeps(s: State, s': State, t: Tid)
    requires OneStop(s) && SameShut(s.sh, s'.sh) && t in s.pcs && t in s'.pcs && s'.pcs == s.pcs[t := s'.pcs[t]]
    requires !Stopping(s.pcs[t]) && !Stopping(s'.pcs[t])
    ensures OneStop(s')
  {
    SameKeeps(s, s', t);
  }

  lemma StepKeepsOne(s: State, t: Tid)
    requires Inv(s) && OneStop(s) && Enabled(s, Step(t))
    ensures OneStop(Apply(s, Step(t)))
  {
    var pc := s.pcs[t];
    if pc.Enter? || pc.Push? || pc.Release? {
      FlushKeepsOne(s, t);
    } else if Stopping(pc) {
      LateKeepsOne(s, t);
    } else {
      EarlyKeepsOne(s, t);
    }
  }

  lemma CreateKeepsOne(s: State, l: Lid)
    requires OneStop(s) && Enabled(s, Create(l))
    ensures OneStop(Apply(s, Create(l)))
  {
    var s' := Apply(s, Create(l));
    assert Unshut(s') == Unshut(s);
  }

  lemma ActionKeepsOne(s: State, a: Action)
    requires Inv(s) && OneStop(s) && Enabled(s, a)
    ensures OneStop(Apply(s, a))
  {
    match a
    case Create(l) => CreateKeepsOne(s, l);
    case Call(t, l, rec) => SameKeeps(s, Apply(s, a), t);
    case Stop(t) => SameKeeps(s, Apply(s, a), t);
    case Step(t) => StepKeepsOne(s, t);
    case Wake(order) => SameKeeps(s, Apply(s, a), 0);
    case Run(k) => RunSame(s, k); SameKeeps(s, Apply(s, a), 0);
  }

  lemma NextOne(s: State, a: Action, s': State)
    requires Moves(s, a, s') && Inv(s) && OneStop(s)
    ensures OneStop(s')
  {
    ActionKeepsOne(s, a);
  }

  lemma {:induction false} AlwaysOne(ss: seq<State>, acts: seq<Action>, i: nat)
    requires IsRun(ss, acts) && i < |ss|
    ensures OneStop(ss[i])
  {
    if i > 0 {
      AlwaysOne(ss, acts, i - 1);
      Reachable(ss, acts, i - 1);
      assert StepAt(ss, acts, i - 1);
      NextOne(ss[i - 1], acts[i - 1], ss[i]);
    }
  }

  /** After line 551: `late` says whether Run had finished by then. */
  ghost predicate AfterLock(s: State, t: Tid, late: bool) {
    s.sh.shutdown &&
    if late then s.con.Done? && forall l :: l in s.sh.logs ==> !s.sh.logs[l].shutdown
    else if t in s.pcs && s.pcs[t].Shutting? then
      !s.con.Done? && s.pcs[t].i <= |s.sh.list| &&
      forall j :: 0 <= j < s.pcs[t].i ==> s.sh.list[j] in s.sh.logs && s.sh.logs[s.sh.list[j]].shutdown
    else forall l :: l in s.sh.logs ==> s.sh.logs[l].shutdown
  }

  /** Line 551 is executed by `t`. */
  ghost predicate LocksLogs(s: State, a: Action, t: Tid) {
    a == Step(t) && t in s.pcs && s.pcs[t].LockLogs?
  }

  lemma LockStarts(s: State, a: Action, s': State, t: Tid)
    requires Moves(s, a, s') && Inv(s) && OneStop(s) && LocksLogs(s, a, t)
    ensures AfterLock(s', t, s.con.Done?) && Committed(s', t)
  {
    assert Unshut(s);
  }

  lemma SameAfter(s: State, s': State, t: Tid, late: bool)
    requires AfterLock(s, t, late) && SameFlags(s.sh, s'.sh) && s'.sh.shutdown
    requires late ==> s'.con.Done?
    requires t in s'.pcs && s'.pcs[t].Shutting? <==> t in s.pcs && s.pcs[t].Shutting?
    requires t in s.pcs && s.pcs[t].Shutting? ==> s'.pcs[t] == s.pcs[t] && s'.sh.list == s.sh.list && s'.con.Done? == s.con.Done?
    ensures AfterLock(s', t, late)
  {
  }

  lemma DoneStays(s: State, a: Action)
    requires Enabled(s, a) && s.con.Done?
    ensures Apply(s, a).con.Done?
  {
  }

  /** While a thread is in the loop of lines 552-553 no other thread changes what the loop sees. */
  lemma LoopHolds(s: State, a: Action, t: Tid)
    requires Inv(s) && OneStop(s) && Enabled(s, a) && t in s.pcs && s.pcs[t].Shutting? && a != Step(t)
    ensures var s' := Apply(s, a);
      t in s'.pcs && s'.pcs[t] == s.pcs[t] && s'.sh.list == s.sh.list && s'.con.Done? == s.con.Done?
  {
    assert s.sh.listOwner == Stopper(t) && !Draining(s.con);
    assert s.sh.shutdown;
  }

  lemma ShuttingGoesOn(s: State, t: Tid)
    requires Inv(s) && AfterLock(s, t, false) && t in s.pcs && s.pcs[t].Shutting? && Ready(s, t, s.pcs[t])
    ensures AfterLock(Apply(s, Step(t)), t, false)
  {
    var i := s.pcs[t].i;
    assert !Draining(s.con);
    if i == |s.sh.list| {
      forall l | l in s.sh.logs ensures s.sh.logs[l].shutdown {
        assert l in s.sh.list;
      }
    }
  }

  lemma LateShutting(s: State, t: Tid)
    requires Inv(s) && AfterLock(s, t, true) && t in s.pcs && s.pcs[t].Shutting? && Ready(s, t, s.pcs[t])
    ensures AfterLock(Apply(s, Step(t)), t, true)
  {
    assert s.sh.list == [];
  }

  /** `t` is past line 551, or its Stop has returned. */
  ghost predicate Committed(s: State, t: Tid) {
    s.sh.stopped || (t in s.pcs && (s.pcs[t].Shutting? || s.pcs[t].Join?))
  }

  /** Once `shutdown_` is set only the loop of lines 552-553 changes a Logger's flag. */
  lemma ActionSame(s: State, a: Action)
    requires Inv(s) && s.sh.shutdown && Enabled(s, a)
    requires a.Step? ==> !s.pcs[a.t].Shutting?
    ensures SameFlags(s.sh, Apply(s, a).sh) && Apply(s, a).sh.shutdown
  {
    match a
    case Step(t) =>
      var pc := s.pcs[t];
      if pc.Enter? || pc.Push? || pc.Release? { FlushSame(s, t); }
    case Run(k) => RunSame(s, k);
    case _ =>
  }

  /** Before Stop has returned, `t` alone is in it; afterwards nobody is. */
  lemma OthersOut(s: State, t: Tid, u: Tid)
    requires OneStop(s) && Committed(s, t) && u in s.pcs && s.pcs[u].Shutting?
    ensures u == t && !s.sh.stopped
  {
  }

  lemma CommittedStays(s: State, a: Action, t: Tid)
    requires Enabled(s, a) && Committed(s, t)
    ensures Committed(Apply(s, a), t)
  {
  }

  lemma NotShutting(s: State, a: Action, t: Tid)
    requires Enabled(s, a) && Committed(s, t) && !(t in s.pcs && s.pcs[t].Shutting?)
    requires s.sh.stopped ==> forall u :: u in s.pcs ==> !Stopping(s.pcs[u])
    ensures var s' := Apply(s, a); !(t in s'.pcs && s'.pcs[t].Shutting?)
  {
  }

  lemma AfterGoesOn(s: State, a: Action, t: Tid, late: bool)
    requires Inv(s) && OneStop(s) && Enabled(s, a) && AfterLock(s, t, late) && Committed(s, t)
    ensures AfterLock(Apply(s, a), t, late)
  {
    if late { DoneStaysIf(s, a); }
    if a.Step? && s.pcs[a.t].Shutting? {
      OthersOut(s, t, a.t);
      if late { LateShutting(s, t); } else { ShuttingGoesOn(s, t); }
    } else {
      ActionSame(s, a);
      if t in s.pcs && s.pcs[t].Shutting? { LoopHolds(s, a, t); } else { NotShutting(s, a, t); }
      SameAfter(s, Apply(s, a), t, late);
    }
  }

  lemma DoneStaysIf(s: State, a: Action)
    requires Enabled(s, a)
    ensures s.con.Done? ==> Apply(s, a).con.Done?
  {
    if s.con.Done? { DoneStays(s, a); }
  }

  lemma AfterNext(s: State, a: Action, s': State, t: Tid, late: bool)
    requires Moves(s, a, s') && Inv(s) && OneStop(s) && AfterLock(s, t, late) && Committed(s, t)
    ensures AfterLock(s', t, late) && Committed(s', t)
  {
    AfterGoesOn(s, a, t, late);
    CommittedStays(s, a, t);
  }

  lemma AfterFirst(ss: seq<State>, acts: seq<Action>, k: nat, t: Tid)
    requires IsRun(ss, acts) && k + 1 < |ss| && LocksLogs(ss[k], acts[k], t)
    ensures AfterLock(ss[k + 1], t, ss[k].con.Done?) && Committed(ss[k + 1], t)
  {
    Reachable(ss, acts, k);
    AlwaysOne(ss, acts, k);
    assert StepAt(ss, acts, k);
    LockStarts(ss[k], acts[k], ss[k + 1], t);
  }

  lemma AfterOneMore(ss: seq<State>, acts: seq<Action>, j: nat, t: Tid, late: bool)
    requires IsRun(ss, acts) && j + 1 < |ss| && AfterLock(ss[j], t, late) && Committed(ss[j], t)
    ensures AfterLock(ss[j + 1], t, late) && Committed(ss[j + 1], t)
  {
    Reachable(ss, acts, j);
    AlwaysOne(ss, acts, j);
    assert StepAt(ss, acts, j);
    AfterNext(ss[j], acts[j], ss[j + 1], t, late);
  }

  lemma {:induction false} AfterRuns(ss: seq<State>, acts: seq<Action>, k: nat, j: nat, t: Tid)
    requires IsRun(ss, acts) && k < j < |ss| && LocksLogs(ss[k], acts[k], t)
    ensures AfterLock(ss[j], t, ss[k].con.Done?) && Committed(ss[j], t)
  {
    if j == k + 1 {
      AfterFirst(ss, acts, k, t);
    } else {
      AfterRuns(ss, acts, k, j - 1, t);
      AfterOneMore(ss, acts, j - 1, t, ss[k].con.Done?);
    }
  }

  lemma EntersStop(s: State, a: Action, s': State, t: Tid)
    requires Moves(s, a, s') && t in s'.pcs && (s'.pcs[t].Shutting? || s'.pcs[t].Join?)
    ensures (t in s.pcs && (s.pcs[t].Shutting? || s.pcs[t].Join?)) || LocksLogs(s, a, t)
  {
  }

  lemma {:induction false} LockedBefore(ss: seq<State>, acts: seq<Action>, j: nat, t: Tid) returns (k: nat)
    requires IsRun(ss, acts) && j < |ss| && t in ss[j].pcs && (ss[j].pcs[t].Shutting? || ss[j].pcs[t].Join?)
    ensures k < j && LocksLogs(ss[k], acts[k], t)
  {
    assert j > 0;
    assert StepAt(ss, acts, j - 1);
    EntersStop(ss[j - 1], acts[j - 1], ss[j], t);
    if LocksLogs(ss[j - 1], acts[j - 1], t) { k := j - 1; } else { k := LockedBefore(ss, acts, j - 1, t); }
  }

  lemma EndsStop(s: State, a: Action, s': State)
    requires Moves(s, a, s') && s'.sh.stopped && !s.sh.stopped
    ensures a.Step? && a.t in s.pcs && s.pcs[a.t].Join?
  {
  }

  /** A Stop that returned after setting `shutdown_` has locked `logsMutex_` before. */
  lemma {:induction false} StopLocked(ss: seq<State>, acts: seq<Action>, j: nat) returns (k: nat, t: Tid)
    requires IsRun(ss, acts) && j < |ss| && ss[j].sh.stopped
    ensures k < j && LocksLogs(ss[k], acts[k], t)
  {
    assert j > 0;
    if ss[j - 1].sh.stopped {
      k, t := StopLocked(ss, acts, j - 1);
    } else {
      assert StepAt(ss, acts, j - 1);
      EndsStop(ss[j - 1], acts[j - 1], ss[j]);
      t := acts[j - 1].t;
      k := LockedBefore(ss, acts, j - 1, t);
    }
  }

  /**
   When Stop has returned, a Logger has been shut down if and only if Run had not finished when Stop locked
   `logsMutex_`: a Run that has finished has dropped all Loggers, and the loop of line 552 finds none.
   */
  lemma ShutDownIff(ss: seq<State>, acts: seq<Action>, k: nat, j: nat, t: Tid, l: Lid)
    requires IsRun(ss, acts) && k < j < |ss| && LocksLogs(ss[k], acts[k], t)
    requires ss[j].sh.stopped && l in ss[j].sh.logs
    ensures ss[j].sh.logs[l].shutdown <==> !ss[k].con.Done?
  {
    AfterRuns(ss, acts, k, j, t);
    AlwaysOne(ss, acts, j);
  }

  // ---- which Loggers have written everything ----

  /** The drain is through with `l`: its last Update found no buffer in use, or has returned and `l` is dropped. */
  ghost predicate Closing(s: State, l: Lid) {
    l in s.sh.logs &&
    (l !in s.sh.list || (s.con.Write? && s.con.back.InDrain? && s.con.l == l && !s.con.todo))
  }

  /** The records of one thread that are written or about to be. */
  function Outgoing(lg: Log, p: Tid): seq<Record> {
    Of(p, lg.sink) + RecsAt(lg, lg.taken, p)
  }

  lemma ClosingStays(s: State, a: Action, l: Lid)
    requires Inv(s) && Enabled(s, a) && Closing(s, l)
    ensures Closing(Apply(s, a), l)
  {
    if a.Run? { RunClosing(s, a.k, l); } else { OtherClosing(s, a, l); }
  }

  lemma RunClosing(s: State, k: Tid, l: Lid)
    requires Lists(s.sh, s.con) && RunReady(s, k) && Closing(s, l)
    ensures Closing(Apply(s, Run(k)), l)
  {
    RunSame(s, k);
    if s.con.Write? { WriteClosing(s.sh, s.con, k, l); } else { ListSame(s, k); }
  }

  lemma WriteClosing(sh: Shared, con: Con, k: Tid, l: Lid)
    requires con.Write? && con.l in sh.logs && Lists(sh, con)
    requires var lg := sh.logs[con.l]; lg.taken != map[] ==> k in lg.taken && |Bytes(lg, lg.taken[k])| < MAXBYTES
    requires l !in sh.list || (con.back.InDrain? && con.l == l && !con.todo)
    ensures var (sh', con') := WriteStep(sh, con, k); l !in sh'.list || con' == con
  {
    if con.back.InDrain? { EraseOne(sh.list, con.back.i); }
  }

  lemma ListSame(s: State, k: Tid)
    requires RunReady(s, k) && !s.con.Write?
    ensures RunStep(s, k).0.list == s.sh.list
  {
  }

  lemma OtherClosing(s: State, a: Action, l: Lid)
    requires Inv(s) && Enabled(s, a) && !a.Run? && Closing(s, l)
    ensures Closing(Apply(s, a), l)
  {
    if a.Step? && (s.pcs[a.t].Enter? || s.pcs[a.t].Push? || s.pcs[a.t].Release?) { FlushSame(s, a.t); }
  }

  /** Only flags of the Logger change, and the mark. */
  ghost predicate Framed(lg: Log, lg': Log) {
    lg' == lg.(locked := lg'.locked, shutdown := lg'.shutdown, mark := lg'.mark)
  }

  lemma OtherFramed(s: State, a: Action, l: Lid)
    requires Enabled(s, a) && l in s.sh.logs && !a.Run?
    requires a.Step? ==> var pc := s.pcs[a.t]; !pc.Enter? && !pc.Push? && !pc.Release?
    ensures var sh' := Apply(s, a).sh; l in sh'.logs && Framed(s.sh.logs[l], sh'.logs[l])
  {
    if a.Step? { StopFramed(s, a.t, l); }
  }

  lemma StopFramed(s: State, t: Tid, l: Lid)
    requires t in s.pcs && Ready(s, t, s.pcs[t]) && l in s.sh.logs
    requires var pc := s.pcs[t]; !pc.Enter? && !pc.Push? && !pc.Release?
    ensures var sh' := StopStep(s.sh, t, s.pcs[t]).0; l in sh'.logs && Framed(s.sh.logs[l], sh'.logs[l])
  {
  }

  lemma RunFramed(s: State, k: Tid, l: Lid)
    requires RunReady(s, k) && l in s.sh.logs && !s.con.Scan?
    requires s.con.Write? && s.con.l == l ==> s.sh.logs[l].taken == map[]
    ensures var sh' := RunStep(s, k).0; l in sh'.logs && Framed(s.sh.logs[l], sh'.logs[l])
  {
  }

  lemma ScanFramed(sh: Shared, con: Con, k: Tid, l: Lid)
    requires con.Scan? && con.l in sh.logs && (con.left != {} ==> k in con.left && k in sh.logs[con.l].buffers)
    requires l in sh.logs && con.l != l
    ensures var sh' := ScanStep(sh, con, k).0; l in sh'.logs && Framed(sh.logs[l], sh'.logs[l])
  {
  }

  lemma FramedCloses(lg: Log, lg': Log, p: Tid)
    requires Framed(lg, lg')
    ensures Outgoing(lg', p) == Outgoing(lg, p) && RecsAt(lg', lg'.buffers, p) == RecsAt(lg, lg.buffers, p)
  {
  }

  /** Once the drain is through with it, a Logger writes nothing but what Update has taken. */
  lemma OutgoingStays(s: State, a: Action, l: Lid, p: Tid)
    requires Inv(s) && Enabled(s, a) && Closing(s, l)
    ensures var sh' := Apply(s, a).sh; l in sh'.logs && Outgoing(sh'.logs[l], p) == Outgoing(s.sh.logs[l], p)
  {
    if a.Run? {
      RunOutgoing(s, a.k, l, p);
    } else if a.Step? && (s.pcs[a.t].Enter? || s.pcs[a.t].Push? || s.pcs[a.t].Release?) {
      FlushOutgoing(s, a.t, l, p);
    } else {
      OtherFramed(s, a, l);
      FramedCloses(s.sh.logs[l], Apply(s, a).sh.logs[l], p);
    }
  }

  lemma FlushOutgoing(s: State, t: Tid, l: Lid, p: Tid)
    requires Core(s) && Enabled(s, Step(t)) && l in s.sh.logs
    requires var pc := s.pcs[t]; pc.Enter? || pc.Push? || pc.Release?
    ensures var sh' := Apply(s, Step(t)).sh; l in sh'.logs && Outgoing(sh'.logs[l], p) == Outgoing(s.sh.logs[l], p)
  {
    FlushShape(s, t);
  }

  lemma NotScanned(s: State, l: Lid)
    requires Inv(s) && Closing(s, l)
    ensures s.con.Scan? ==> s.con.l != l
  {
  }

  lemma RunOutgoing(s: State, k: Tid, l: Lid, p: Tid)
    requires Inv(s) && RunReady(s, k) && Closing(s, l)
    ensures var sh' := RunStep(s, k).0; l in sh'.logs && Outgoing(sh'.logs[l], p) == Outgoing(s.sh.logs[l], p)
  {
    var lg := s.sh.logs[l];
    assert LogOk(lg);
    if s.con.Scan? {
      NotScanned(s, l);
      ScanFramed(s.sh, s.con, k, l);
      FramedCloses(lg, RunStep(s, k).0.logs[l], p);
    } else if s.con.Write? && s.con.l == l && lg.taken != map[] {
      WrittenOutgoing(lg, k, p);
    } else {
      RunFramed(s, k, l);
      FramedCloses(lg, RunStep(s, k).0.logs[l], p);
    }
  }

  lemma WrittenOutgoing(lg: Log, k: Tid, p: Tid)
    requires Bufs(lg) && k in lg.taken && |Bytes(lg, lg.taken[k])| < MAXBYTES
    ensures Outgoing(Written(lg, k), p) == Outgoing(lg, p)
  {
    TakenRecords(lg, k);
    WrittenSink(lg, k, p, lg.heap[lg.taken[k]].recs);
    WrittenRecs(lg, k, p);
  }

  lemma ClosingNext(s: State, a: Action, s': State, l: Lid, p: Tid)
    requires Moves(s, a, s') && Inv(s) && Closing(s, l)
    ensures Closing(s', l) && Outgoing(s'.sh.logs[l], p) == Outgoing(s.sh.logs[l], p)
    ensures s.sh.logs[l].enq <= s'.sh.logs[l].enq
  {
    ClosingStays(s, a, l);
    OutgoingStays(s, a, l, p);
    GrowsNow(s, a, s', l);
  }

  lemma {:induction false} ClosingFor(ss: seq<State>, acts: seq<Action>, i: nat, j: nat, l: Lid, p: Tid)
    requires IsRun(ss, acts) && i <= j < |ss| && Closing(ss[i], l)
    ensures Closing(ss[j], l) && Outgoing(ss[j].sh.logs[l], p) == Outgoing(ss[i].sh.logs[l], p)
    ensures ss[i].sh.logs[l].enq <= ss[j].sh.logs[l].enq
  {
    if i < j {
      ClosingFor(ss, acts, i, j - 1, l, p);
      Reachable(ss, acts, j - 1);
      assert StepAt(ss, acts, j - 1);
      ClosingNext(ss[j - 1], acts[j - 1], ss[j], l, p);
    }
  }

  /** A third push into a Logger that the drain is through with. */
  ghost predicate LateGift(s: State, a: Action, l: Lid) {
    Closing(s, l) && a.Step? && a.t in s.pcs && s.pcs[a.t].Push? && s.pcs[a.t].piece == 2 && s.pcs[a.t].l == l
  }

  lemma GiftNow(s: State, a: Action, s': State, l: Lid)
    requires Moves(s, a, s') && Inv(s) && LateGift(s, a, l)
    ensures LogOk(s.sh.logs[l]) && !s.sh.logs[l].shutdown
    ensures l in s'.sh.logs && s'.sh.logs[l].enq == s.sh.logs[l].enq + [Entry(a.t, s.pcs[a.t].rec)]
  {
    assert Local(s.sh, a.t, s.pcs[a.t]);
    GivenNow(s, a, s', l, s.pcs[a.t].rec);
  }

  /**
   A record accepted once the drain is through with its Logger, which Stop then has not shut down, is never
   written, however long one waits; `LogDropped` has such a run.
   */
  lemma LateRecordLost(ss: seq<State>, acts: seq<Action>, i: nat, j: nat, l: Lid)
    requires IsRun(ss, acts) && i < j < |ss| && LateGift(ss[i], acts[i], l)
    ensures !ss[i].sh.logs[l].shutdown && l in ss[j].sh.logs
    ensures var t, rec, lg := acts[i].t, ss[i].pcs[acts[i].t].rec, ss[j].sh.logs[l];
      rec in Of(t, lg.enq) && |Of(t, lg.sink)| < |Of(t, lg.enq)|
  {
    var t, rec := acts[i].t, ss[i].pcs[acts[i].t].rec;
    Reachable(ss, acts, i);
    assert StepAt(ss, acts, i);
    GiftNow(ss[i], acts[i], ss[i + 1], l);
    ClosingFor(ss, acts, i, j, l, t);
    ClosingNext(ss[i], acts[i], ss[i + 1], l, t);
    ClosingFor(ss, acts, i + 1, j, l, t);
    LateCount(ss[i].sh.logs[l], ss[j].sh.logs[l], Entry(t, rec));
  }

  lemma LateCount(lg: Log, lg': Log, e: Entry)
    requires Conserved(lg) && Outgoing(lg', e.who) == Outgoing(lg, e.who) && lg.enq + [e] <= lg'.enq
    ensures |Of(e.who, lg'.sink)| < |Of(e.who, lg'.enq)| && e.rec in Of(e.who, lg'.enq)
  {
    var p := e.who;
    OfConcat(p, lg.enq + [e], lg'.enq[|lg.enq| + 1..]);
    assert lg'.enq == lg.enq + [e] + lg'.enq[|lg.enq| + 1..];
    OfConcat(p, lg.enq, [e]);
    assert Of(p, [e]) == [e.rec];
    assert Of(p, lg.enq) == Outgoing(lg, p) + RecsAt(lg, lg.buffers, p);
  }

  // ---- without such a record nothing is lost ----

  /** The buffers still in the map hold no whole record. */
  ghost predicate Vacant(lg: Log) {
    forall p :: RecsAt(lg, lg.buffers, p) == []
  }

  lemma FramedVacant(lg: Log, lg': Log)
    requires Vacant(lg) && Framed(lg, lg')
    ensures Vacant(lg')
  {
    forall p { FramedCloses(lg, lg', p); }
  }

  lemma EnteredVacant(lg: Log, t: Tid)
    requires Vacant(lg) && Bufs(lg)
    ensures Vacant(Entered(lg, t).0)
  {
    var lg' := Entered(lg, t).0;
    forall p ensures RecsAt(lg', lg'.buffers, p) == [] {
      assert RecsAt(lg, lg.buffers, p) == [];
    }
  }

  lemma SetUseVacant(lg: Log, b: Bid, use: bool)
    requires Vacant(lg)
    ensures Vacant(SetUse(lg, b, use))
  {
    var lg' := SetUse(lg, b, use);
    forall p ensures RecsAt(lg', lg'.buffers, p) == [] {
      assert RecsAt(lg, lg.buffers, p) == [];
    }
  }

  lemma PushedVacant(lg: Log, t: Tid, pc: Pc)
    requires Vacant(lg) && Bufs(lg) && pc.Push? && Holds(lg, t, pc) && pc.piece != 2
    ensures Vacant(Pushed(lg, t, pc.b, pc.rec, pc.piece))
  {
    forall p { PushedRecs(lg, t, pc, p); }
  }

  lemma WrittenVacant(lg: Log, k: Tid)
    requires Vacant(lg) && Bufs(lg) && k in lg.taken && |Bytes(lg, lg.taken[k])| < MAXBYTES
    ensures Vacant(Written(lg, k))
  {
    forall p { WrittenRecs(lg, k, p); }
  }

  lemma FlushVacant(s: State, t: Tid, l: Lid)
    requires Core(s) && Enabled(s, Step(t)) && l in s.sh.logs && Vacant(s.sh.logs[l])
    requires var pc := s.pcs[t]; pc.Enter? || pc.Push? || pc.Release?
    requires s.pcs[t].Push? && s.pcs[t].l == l ==> s.pcs[t].piece != 2
    ensures var sh' := FlushStep(s.sh, t, s.pcs[t]).0; l in sh'.logs && Vacant(sh'.logs[l])
  {
    var pc := s.pcs[t];
    assert Local(s.sh, t, pc) && LogOk(s.sh.logs[pc.l]);
    if pc.l == l {
      var lg := s.sh.logs[l];
      match pc
      case Enter(_, _) => if !lg.shutdown { EnteredVacant(lg, t); }
      case Push(_, _, _, _) => PushedVacant(lg, t, pc);
      case Release(_, b) => SetUseVacant(lg, b, false);
    }
  }

  lemma RunVacant(s: State, k: Tid, l: Lid)
    requires Inv(s) && RunReady(s, k) && Closing(s, l) && Vacant(s.sh.logs[l])
    ensures var sh' := RunStep(s, k).0; l in sh'.logs && Vacant(sh'.logs[l])
  {
    var lg := s.sh.logs[l];
    assert LogOk(lg);
    if s.con.Scan? {
      NotScanned(s, l);
      ScanFramed(s.sh, s.con, k, l);
      FramedVacant(lg, RunStep(s, k).0.logs[l]);
    } else if s.con.Write? && s.con.l == l && lg.taken != map[] {
      WrittenVacant(lg, k);
    } else {
      RunFramed(s, k, l);
      FramedVacant(lg, RunStep(s, k).0.logs[l]);
    }
  }

  lemma VacantStays(s: State, a: Action, l: Lid)
    requires Inv(s) && Enabled(s, a) && Closing(s, l) && Vacant(s.sh.logs[l]) && !LateGift(s, a, l)
    ensures var sh' := Apply(s, a).sh; l in sh'.logs && Vacant(sh'.logs[l])
  {
    if a.Run? {
      RunVacant(s, a.k, l);
    } else if a.Step? && (s.pcs[a.t].Enter? || s.pcs[a.t].Push? || s.pcs[a.t].Release?) {
      FlushVacant(s, a.t, l);
    } else {
      OtherFramed(s, a, l);
      FramedVacant(s.sh.logs[l], Apply(s, a).sh.logs[l]);
    }
  }

  /** The drain is through with a Logger when a scan has found no buffer in use, and so has left none. */
  lemma ClosingStarts(s: State, a: Action, l: Lid)
    requires Inv(s) && Enabled(s, a) && !Closing(s, l) && Closing(Apply(s, a), l)
    ensures Vacant(Apply(s, a).sh.logs[l])
  {
    if a.Run? {
      RunStarts(s, a.k, l);
    } else {
      OtherStarts(s, a, l);
    }
  }

  lemma OtherStarts(s: State, a: Action, l: Lid)
    requires Inv(s) && Enabled(s, a) && !a.Run? && !Closing(s, l)
    ensures !Closing(Apply(s, a), l)
  {
    if a.Step? && (s.pcs[a.t].Enter? || s.pcs[a.t].Push? || s.pcs[a.t].Release?) { FlushSame(s, a.t); }
  }

  lemma RunStarts(s: State, k: Tid, l: Lid)
    requires Lists(s.sh, s.con) && Scanning(s.sh, s.con) && RunReady(s, k) && !Closing(s, l) && Closing(Apply(s, Run(k)), l)
    ensures Vacant(Apply(s, Run(k)).sh.logs[l])
  {
    RunSame(s, k);
    if s.con.Scan? {
      ScanStarts(s.sh, s.con, k, l);
    } else if s.con.Write? && s.con.back.InDrain? {
      EraseOne(s.sh.list, s.con.back.i);
    }
  }

  lemma ScanStarts(sh: Shared, con: Con, k: Tid, l: Lid)
    requires con.Scan? && con.l in sh.logs && (con.left != {} ==> k in con.left && k in sh.logs[con.l].buffers)
    requires Scanning(sh, con) && l in sh.logs && l in sh.list
    requires var (sh', con') := ScanStep(sh, con, k);
      l !in sh'.list || (con'.Write? && con'.back.InDrain? && con'.l == l && !con'.todo)
    ensures l in ScanStep(sh, con, k).0.logs && Vacant(ScanStep(sh, con, k).0.logs[l])
  {
  }

  lemma VacantNext(s: State, a: Action, s': State, l: Lid)
    requires Moves(s, a, s') && Inv(s) && (Closing(s, l) ==> Vacant(s.sh.logs[l])) && !LateGift(s, a, l)
    ensures Closing(s', l) ==> Vacant(s'.sh.logs[l])
  {
    if Closing(s, l) { VacantStays(s, a, l); }
    else if Closing(s', l) { ClosingStarts(s, a, l); }
  }

  lemma {:induction false} VacantRuns(ss: seq<State>, acts: seq<Action>, i: nat, l: Lid)
    requires IsRun(ss, acts) && i < |ss| && forall k :: 0 <= k < i ==> !LateGift(ss[k], acts[k], l)
    ensures Closing(ss[i], l) ==> Vacant(ss[i].sh.logs[l])
  {
    if i > 0 {
      VacantRuns(ss, acts, i - 1, l);
      Reachable(ss, acts, i - 1);
      assert StepAt(ss, acts, i - 1);
      VacantNext(ss[i - 1], acts[i - 1], ss[i], l);
    }
  }

  lemma AllOut(s: State, l: Lid)
    requires Inv(s) && s.sh.stopped && l in s.sh.logs
    ensures Closing(s, l) && s.sh.logs[l].taken == map[]
    ensures Vacant(s.sh.logs[l]) ==> forall p: Tid :: Of(p, s.sh.logs[l].enq) == Of(p, s.sh.logs[l].sink)
  {
    StoppedCovered(s, l);
    var lg := s.sh.logs[l];
    if Vacant(lg) {
      forall p: Tid ensures Of(p, lg.enq) == Of(p, lg.sink) {
        assert Of(p, lg.enq) == Outgoing(lg, p) + RecsAt(lg, lg.buffers, p);
      }
    }
  }

  /**
   When Stop has returned, a Logger has written all that any thread ever gave it if and only if no thread gave
   it a record after the last scan of its buffers by the drain.
   */
  lemma AllWrittenIff(ss: seq<State>, acts: seq<Action>, j: nat, l: Lid)
    requires IsRun(ss, acts) && j < |ss| && ss[j].sh.stopped && l in ss[j].sh.logs
    ensures (forall p: Tid :: Of(p, ss[j].sh.logs[l].enq) == Of(p, ss[j].sh.logs[l].sink)) <==>
      forall k :: 0 <= k < j ==> !LateGift(ss[k], acts[k], l)
  {
    Reachable(ss, acts, j);
    AllOut(ss[j], l);
    if k :| 0 <= k < j && LateGift(ss[k], acts[k], l) {
      LateRecordLost(ss, acts, k, j, l);
    } else {
      VacantRuns(ss, acts, j, l);
    }
  }

  /** In particular when Run had not finished as Stop locked `logsMutex_`: then every Logger refuses from there on. */
  lemma AllWritten(ss: seq<State>, acts: seq<Action>, k: nat, j: nat, t: Tid, l: Lid, p: Tid)
    requires IsRun(ss, acts) && k < j < |ss| && LocksLogs(ss[k], acts[k], t) && !ss[k].con.Done?
    requires ss[j].sh.stopped && l in ss[j].sh.logs
    ensures Of(p, ss[j].sh.logs[l].enq) == Of(p, ss[j].sh.logs[l].sink)
  {
    ShutDownIff(ss, acts, k, j, t, l);
    Reachable(ss, acts, j);
    StoppedCovered(ss[j], l);
    var lg := ss[j].sh.logs[l];
    assert Of(p, lg.enq) == Of(p, lg.sink) + RecsAt(lg, lg.taken, p) + RecsAt(lg, lg.buffers, p);
  }
}
