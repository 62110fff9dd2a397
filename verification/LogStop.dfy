/** How Run and Stop get along: who holds which mutex, which Loggers are left, and what was written by then. */
module LogStop {
  import opened Common
  import opened LogFraming
  import opened LogMachine
  import opened LogInv
  import opened LogProof

  ghost predicate Updating(con: Con, l: Lid) {
    (con.Scan? || con.Write?) && con.l == l
  }

  ghost predicate Draining(con: Con) {
    (con.Next? || con.Scan? || con.Write?) && con.back.InDrain?
  }

  /** Run has seen `shutdown_`. */
  ghost predicate Ending(con: Con) {
    match con
    case Wait => false
    case Copy(run) => !run
    case LockDrain => true
    case Done => true
    case _ => con.back.InDrain? || !con.back.run
  }

  ghost predicate Flags(s: State) {
    (Ending(s.con) ==> s.sh.shutdown) &&
    (s.sh.stopped ==> s.con.Done?) &&
    (s.sh.listOwner == Runner <==> Draining(s.con)) &&
    (forall t :: s.sh.listOwner == Stopper(t) <==> t in s.pcs && s.pcs[t].Shutting?) &&
    (forall t :: t in s.pcs && (s.pcs[t].LockLogs? || s.pcs[t].Shutting? || s.pcs[t].Join?) ==> s.sh.shutdown)
  }

  ghost predicate Todo(sh: Shared, con: Con) {
    match con
    case Next(InRun(_, todo)) => forall l :: l in todo ==> l in sh.logs
    case Scan(back, l, _, _) => l in sh.logs && TodoBack(sh, back, l)
    case Write(back, l, _) => l in sh.logs && TodoBack(sh, back, l)
    case _ => true
  }

  ghost predicate TodoBack(sh: Shared, back: Back, l: Lid) {
    match back
    case InRun(_, todo) => forall m :: m in todo ==> m in sh.logs
    case InDrain(i) => i < |sh.list| && sh.list[i] == l
  }

  ghost predicate Lists(sh: Shared, con: Con) {
    NoDup(sh.list) && (forall l :: l in sh.list ==> l in sh.logs) && (forall l :: l in sh.busy ==> l in sh.logs) &&
    (!Draining(con) && !con.Done? ==> forall l :: l in sh.logs ==> l in sh.list) &&
    (con.Done? ==> sh.list == []) &&
    Todo(sh, con)
  }

  /** Inside one Update. */
  ghost predicate Scanning(sh: Shared, con: Con) {
    (forall l :: l in sh.logs && sh.logs[l].locked ==> con.Scan? && con.l == l) &&
    (forall l :: l in sh.logs && sh.logs[l].taken != map[] ==> Updating(con, l)) &&
    (con.Scan? && con.l in sh.logs ==>
       var lg := sh.logs[con.l];
       lg.locked && con.left <= lg.buffers.Keys && con.left !! lg.taken.Keys && (!con.todo ==> lg.buffers.Keys == con.left))
  }

  /** What was given before Stop began is written or about to be. */
  ghost predicate Covered(lg: Log) {
    forall p :: |Of(p, lg.mark)| <= |Of(p, lg.sink)| + |RecsAt(lg, lg.taken, p)|
  }

  ghost predicate Settled(lg: Log) {
    lg.shutdown ==> lg.buffers == map[]
  }

  ghost predicate Finished(sh: Shared, con: Con) {
    (forall l :: l in sh.logs && l !in sh.list ==> Covered(sh.logs[l]) && Settled(sh.logs[l])) &&
    (con.Write? && con.back.InDrain? && !con.todo && con.l in sh.logs ==>
       Covered(sh.logs[con.l]) && Settled(sh.logs[con.l]))
  }

  ghost predicate Control(s: State) {
    Flags(s) && Lists(s.sh, s.con) && Scanning(s.sh, s.con) && Finished(s.sh, s.con)
  }

  // ---- Flush ----

  /** What a step of Flush may do to a Logger, as far as Update and Stop can tell. */
  ghost predicate Quiet(lg: Log, lg': Log) {
    lg' == lg.(heap := lg'.heap, made := lg'.made, buffers := lg'.buffers, enq := lg'.enq) &&
    lg.enq <= lg'.enq && (lg.locked || lg.shutdown ==> lg'.buffers == lg.buffers) &&
    forall p :: RecsAt(lg', lg'.taken, p) == RecsAt(lg, lg.taken, p)
  }

  lemma EnteredQuiet(lg: Log, t: Tid)
    requires Bufs(lg) && !lg.locked && !lg.shutdown
    ensures Quiet(lg, Entered(lg, t).0)
  {
  }

  lemma PushedQuiet(lg: Log, t: Tid, pc: Pc)
    requires Bufs(lg) && pc.Push? && Holds(lg, t, pc)
    ensures Quiet(lg, Pushed(lg, t, pc.b, pc.rec, pc.piece))
  {
    forall p { PushedRecs(lg, t, pc, p); }
  }

  lemma SetUseQuiet(lg: Log, b: Bid, use: bool)
    requires Bufs(lg)
    ensures Quiet(lg, SetUse(lg, b, use))
  {
  }

  lemma QuietFinished(lg: Log, lg': Log)
    requires Quiet(lg, lg') && Covered(lg) && Settled(lg)
    ensures Covered(lg') && Settled(lg')
  {
    forall p ensures |Of(p, lg'.mark)| <= |Of(p, lg'.sink)| + |RecsAt(lg', lg'.taken, p)| {
      assert RecsAt(lg', lg'.taken, p) == RecsAt(lg, lg.taken, p);
    }
  }

  lemma QuietKeeps(sh: Shared, con: Con, l: Lid, lg': Log, sh': Shared)
    requires Lists(sh, con) && Scanning(sh, con) && Finished(sh, con)
    requires l in sh.logs && Quiet(sh.logs[l], lg') && sh' == WithLog(sh, l, lg').(failed := sh'.failed)
    ensures Lists(sh', con) && Scanning(sh', con) && Finished(sh', con)
  {
    forall m | m in sh'.logs && m !in sh'.list ensures Covered(sh'.logs[m]) && Settled(sh'.logs[m]) {
      assert Covered(sh.logs[m]) && Settled(sh.logs[m]);
      if m == l { QuietFinished(sh.logs[l], lg'); }
    }
    if con.Write? && con.back.InDrain? && !con.todo && con.l == l { QuietFinished(sh.logs[l], lg'); }
  }

  lemma FlushShape(s: State, t: Tid)
    requires Core(s) && t in s.pcs && Ready(s, t, s.pcs[t])
    requires var pc := s.pcs[t]; pc.Enter? || pc.Push? || pc.Release?
    ensures var l, s' := s.pcs[t].l, Apply(s, Step(t));
      l in s.sh.logs && l in s'.sh.logs && Quiet(s.sh.logs[l], s'.sh.logs[l]) &&
      s'.sh == WithLog(s.sh, l, s'.sh.logs[l]).(failed := s'.sh.failed)
  {
    var pc := s.pcs[t];
    assert Local(s.sh, t, pc) && LogOk(s.sh.logs[pc.l]);
    var lg := s.sh.logs[pc.l];
    match pc
    case Enter(l, rec) =>
      if lg.shutdown { assert WithLog(s.sh, l, lg).logs == s.sh.logs; } else { EnteredQuiet(lg, t); }
    case Push(l, b, rec, k) => PushedQuiet(lg, t, pc);
    case Release(l, b) => SetUseQuiet(lg, b, false);
  }

  lemma FlushFlags(s: State, t: Tid)
    requires Flags(s) && t in s.pcs && Ready(s, t, s.pcs[t])
    requires var pc := s.pcs[t]; pc.Enter? || pc.Push? || pc.Release?
    ensures Flags(Apply(s, Step(t)))
  {
  }

  lemma FlushKeeps(s: State, t: Tid)
    requires Core(s) && Control(s) && t in s.pcs && Ready(s, t, s.pcs[t])
    requires var pc := s.pcs[t]; pc.Enter? || pc.Push? || pc.Release?
    ensures Control(Apply(s, Step(t)))
  {
    var s' := Apply(s, Step(t));
    FlushFlags(s, t);
    FlushShape(s, t);
    QuietKeeps(s.sh, s.con, s.pcs[t].l, s'.sh.logs[s.pcs[t].l], s'.sh);
  }

  // ---- Stop, CreateLog, calls ----

  lemma BeginKeeps(s: State, t: Tid)
    requires Control(s) && t in s.pcs && s.pcs[t].Begin?
    ensures Control(Apply(s, Step(t)))
  {
    assert s.sh.shutdown || !Ending(s.con);
  }

  lemma ShuttingKeeps(s: State, t: Tid)
    requires Control(s) && t in s.pcs && s.pcs[t].Shutting? && Ready(s, t, s.pcs[t])
    ensures Control(Apply(s, Step(t)))
  {
    var sh, i := s.sh, s.pcs[t].i;
    assert sh.listOwner == Stopper(t) && !Draining(s.con);
    if i < |sh.list| {
      var l := sh.list[i];
      ShutLists(sh, s.con, l, WithLog(sh, l, sh.logs[l].(shutdown := true)));
    }
  }

  lemma ShutLists(sh: Shared, con: Con, l: Lid, sh': Shared)
    requires Lists(sh, con) && Scanning(sh, con) && Finished(sh, con) && !Draining(con)
    requires l in sh.list && l in sh.logs && sh' == WithLog(sh, l, sh.logs[l].(shutdown := true))
    ensures Lists(sh', con) && Scanning(sh', con) && Finished(sh', con)
  {
  }

  lemma StopKeeps(s: State, t: Tid)
    requires Core(s) && Control(s) && t in s.pcs && Ready(s, t, s.pcs[t])
    requires var pc := s.pcs[t]; pc.Busy? || pc.LockLogs? || pc.Join?
    ensures Control(Apply(s, Step(t)))
  {
    assert Local(s.sh, t, s.pcs[t]);
  }

  lemma StartKeeps(s: State, a: Action)
    requires Control(s) && Enabled(s, a) && (a.Call? || a.Stop?)
    ensures Control(Apply(s, a))
  {
  }

  lemma CreateControls(s: State, l: Lid)
    requires Control(s) && Enabled(s, Create(l))
    ensures Control(Apply(s, Create(l)))
  {
    var s' := Apply(s, Create(l));
    if !s.sh.shutdown {
      assert l !in s.sh.list;
      assert forall m :: m in s'.sh.list <==> m in s.sh.list || m == l;
      assert Todo(s.sh, s.con);
    }
  }

  // ---- Run ----

  lemma WakeKeeps(s: State, order: seq<Lid>)
    requires Control(s) && Enabled(s, Wake(order))
    ensures Control(Apply(s, Wake(order)))
  {
  }

  lemma CopyKeeps(s: State, k: Tid)
    requires Control(s) && RunReady(s, k) && (s.con.Copy? || s.con.LockDrain?)
    ensures Control(Apply(s, Run(k)))
  {
  }

  lemma NextKeeps(s: State, k: Tid)
    requires Control(s) && RunReady(s, k) && s.con.Next?
    ensures Control(Apply(s, Run(k)))
  {
    match s.con.back
    case InRun(run, todo) =>
      if todo != [] { StartKeepsUpdate(s, InRun(run, todo[1..]), todo[0]); }
    case InDrain(i) =>
      if i < |s.sh.list| { StartKeepsUpdate(s, s.con.back, s.sh.list[i]); }
  }

  lemma StartKeepsUpdate(s: State, back: Back, l: Lid)
    requires Control(s) && s.con.Next? && l in s.sh.logs && TodoBack(s.sh, back, l)
    requires back.InDrain? == s.con.back.InDrain? && (back.InRun? ==> back.run == s.con.back.run)
    ensures var (sh', con') := StartUpdate(s.sh, back, l); Control(State(sh', con', s.pcs))
  {
    var (sh', con') := StartUpdate(s.sh, back, l);
    assert s.sh.logs[l].taken == map[];
  }

  lemma FlagsKept(s: State, s': State)
    requires Flags(s) && s'.pcs == s.pcs
    requires s'.sh.listOwner == s.sh.listOwner && s'.sh.shutdown == s.sh.shutdown && s'.sh.stopped == s.sh.stopped
    requires Ending(s'.con) == Ending(s.con) && Draining(s'.con) == Draining(s.con) && s'.con.Done? == s.con.Done?
    ensures Flags(s')
  {
  }

  lemma ScanKeeps(s: State, k: Tid)
    requires Core(s) && Control(s) && RunReady(s, k) && s.con.Scan?
    ensures Control(Apply(s, Run(k)))
  {
    var s' := Apply(s, Run(k));
    var l := s.con.l;
    var lg := s.sh.logs[l];
    assert LogOk(lg);
    FlagsKept(s, s');
    if s.con.left == {} {
      ScanEnds(s.sh, s.con, s'.sh, s'.con);
    } else if InUse(lg, lg.buffers[k]) {
      ScanSkips(s.sh, s.con, k);
    } else {
      ScanTakes(s.sh, s.con, k, s'.sh);
    }
  }

  lemma ScanEnds(sh: Shared, con: Con, sh': Shared, con': Con)
    requires Lists(sh, con) && Scanning(sh, con) && Finished(sh, con) && con.Scan? && con.left == {}
    requires LogOk(sh.logs[con.l])
    requires sh' == WithLog(sh, con.l, sh.logs[con.l].(locked := false)) && con' == Write(con.back, con.l, con.todo)
    ensures Lists(sh', con') && Scanning(sh', con') && Finished(sh', con')
  {
    if !con.todo { NothingLeft(sh.logs[con.l]); }
    LockedFinished(sh, con.l);
  }

  lemma LockedFinished(sh: Shared, l: Lid)
    requires l in sh.logs
    ensures var lg, lg' := sh.logs[l], sh.logs[l].(locked := false);
      (Covered(lg) ==> Covered(lg')) && (Settled(lg) ==> Settled(lg'))
  {
    var lg, lg' := sh.logs[l], sh.logs[l].(locked := false);
    assert forall p :: RecsAt(lg', lg'.taken, p) == RecsAt(lg, lg.taken, p);
  }

  lemma ScanSkips(sh: Shared, con: Con, k: Tid)
    requires Lists(sh, con) && Scanning(sh, con) && Finished(sh, con) && con.Scan? && k in con.left
    ensures var con' := con.(left := con.left - {k}, todo := true);
      Lists(sh, con') && Scanning(sh, con') && Finished(sh, con')
  {
  }

  lemma ScanTakes(sh: Shared, con: Con, k: Tid, sh': Shared)
    requires Lists(sh, con) && Scanning(sh, con) && Finished(sh, con) && con.Scan? && k in con.left
    requires k in sh.logs[con.l].buffers && sh' == WithLog(sh, con.l, Taken(sh.logs[con.l], k))
    ensures var con' := con.(left := con.left - {k});
      Lists(sh', con') && Scanning(sh', con') && Finished(sh', con')
  {
  }

  lemma NothingLeft(lg: Log)
    requires LogOk(lg) && lg.buffers.Keys == {}
    ensures Covered(lg) && Settled(lg)
  {
    forall p ensures |Of(p, lg.mark)| <= |Of(p, lg.sink)| + |RecsAt(lg, lg.taken, p)| {
      assert Of(p, lg.enq) == Of(p, lg.sink) + RecsAt(lg, lg.taken, p) + RecsAt(lg, lg.buffers, p);
      MarkShorter(lg, p);
    }
  }

  lemma MarkShorter(lg: Log, p: Tid)
    requires Marks(lg)
    ensures |Of(p, lg.mark)| <= |Of(p, lg.enq)| && Of(p, lg.mark) == Of(p, lg.enq)[..|Of(p, lg.mark)|]
  {
    OfConcat(p, lg.mark, lg.enq[|lg.mark|..]);
    assert lg.enq == lg.mark + lg.enq[|lg.mark|..];
  }

  lemma WrittenFinished(lg: Log, k: Tid)
    requires Bufs(lg) && k in lg.taken && |Bytes(lg, lg.taken[k])| < MAXBYTES && Covered(lg) && Settled(lg)
    ensures Covered(Written(lg, k)) && Settled(Written(lg, k))
  {
    var lg' := Written(lg, k);
    TakenParses(lg, k);
    forall p ensures |Of(p, lg'.mark)| <= |Of(p, lg'.sink)| + |RecsAt(lg', lg'.taken, p)| {
      WrittenSink(lg, k, p, lg.heap[lg.taken[k]].recs);
      WrittenRecs(lg, k, p);
    }
  }

  lemma WriteOne(sh: Shared, con: Con, k: Tid, sh': Shared)
    requires Lists(sh, con) && Scanning(sh, con) && Finished(sh, con) && con.Write? && LogOk(sh.logs[con.l])
    requires k in sh.logs[con.l].taken && |Bytes(sh.logs[con.l], sh.logs[con.l].taken[k])| < MAXBYTES
    requires sh' == WithLog(sh, con.l, Written(sh.logs[con.l], k)).(failed := sh'.failed)
    ensures Lists(sh', con) && Scanning(sh', con) && Finished(sh', con)
  {
    var lg := sh.logs[con.l];
    if Covered(lg) && Settled(lg) { WrittenFinished(lg, k); }
  }

  lemma EraseOne(list: seq<Lid>, i: nat)
    requires NoDup(list) && i < |list|
    ensures NoDup(Erased(list, i)) && forall l :: l in Erased(list, i) <==> l in list && l != list[i]
  {
    var e := Erased(list, i);
    forall l | l in list && l != list[i] ensures l in e {
      var j :| 0 <= j < |list| && list[j] == l;
      assert e[if j < i then j else j - 1] == l;
    }
  }

  lemma WriteBack(sh: Shared, con: Con, sh': Shared, con': Con)
    requires Lists(sh, con) && Scanning(sh, con) && Finished(sh, con) && con.Write?
    requires sh.logs[con.l].taken == map[]
    requires if con.back.InDrain? && !con.todo
      then sh' == sh.(list := Erased(sh.list, con.back.i)) && con' == Next(con.back)
      else sh' == sh && con' == Next(if con.back.InRun? then con.back else InDrain(con.back.i + 1))
    ensures Lists(sh', con') && Scanning(sh', con') && Finished(sh', con')
  {
    if con.back.InDrain? && !con.todo { EraseOne(sh.list, con.back.i); }
  }

  lemma WriteControls(s: State, k: Tid)
    requires Core(s) && Control(s) && RunReady(s, k) && s.con.Write?
    ensures Control(Apply(s, Run(k)))
  {
    var s' := Apply(s, Run(k));
    var lg := s.sh.logs[s.con.l];
    assert LogOk(lg);
    FlagsKept(s, s');
    if lg.taken != map[] {
      WriteOne(s.sh, s.con, k, s'.sh);
    } else {
      WriteBack(s.sh, s.con, s'.sh, s'.con);
    }
  }
}
