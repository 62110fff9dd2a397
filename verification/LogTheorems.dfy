/** What the logging pipeline promises of every run. */
module LogTheorems {
  import opened Common
  import opened LogFraming
  import opened LogMachine
  import opened LogInv
  import opened LogProof
  import opened LogStop

  ghost predicate Inv(s: State) {
    Core(s) && Control(s) && !s.sh.failed
  }

  lemma RunCore(s: State, k: Tid)
    requires Inv(s) && RunReady(s, k)
    ensures Core(Apply(s, Run(k))) && !Apply(s, Run(k)).sh.failed
  {
    var s' := Apply(s, Run(k));
    if s.con.Next? && s'.con.Scan? {
      FlagKeeps(s, s', s'.con.l, s'.sh.logs[s'.con.l]);
    } else if s.con.Scan? {
      ScanCore(s, k);
    } else if s.con.Write? && s.sh.logs[s.con.l].taken != map[] {
      WriteKeeps(s, s', s.con.l, k);
    } else {
      SameLogs(s, s');
    }
  }

  lemma ScanCore(s: State, k: Tid)
    requires Inv(s) && RunReady(s, k) && s.con.Scan?
    ensures Core(Apply(s, Run(k))) && !Apply(s, Run(k)).sh.failed
  {
    var s', l := Apply(s, Run(k)), s.con.l;
    if s.con.left == {} {
      FlagKeeps(s, s', l, s'.sh.logs[l]);
    } else if InUse(s.sh.logs[l], s.sh.logs[l].buffers[k]) {
      SameLogs(s, s');
    } else {
      TakeKeeps(s, s', l, k);
    }
  }

  lemma RunKeeps(s: State, k: Tid)
    requires Inv(s) && RunReady(s, k)
    ensures Inv(Apply(s, Run(k)))
  {
    RunCore(s, k);
    if s.con.Next? { NextKeeps(s, k); }
    else if s.con.Scan? { ScanKeeps(s, k); }
    else if s.con.Write? { WriteControls(s, k); }
    else { CopyKeeps(s, k); }
  }

  lemma StepKeeps(s: State, t: Tid)
    requires Inv(s) && Enabled(s, Step(t))
    ensures Inv(Apply(s, Step(t)))
  {
    match s.pcs[t]
    case Enter(_, _) => EnterKeeps(s, t); FlushKeeps(s, t);
    case Push(_, _, _, _) => PushKeeps(s, t); FlushKeeps(s, t);
    case Release(_, _) => ReleaseKeeps(s, t); FlushKeeps(s, t);
    case Begin => StopStepKeeps(s, t); BeginKeeps(s, t);
    case Shutting(_) => StopStepKeeps(s, t); ShuttingKeeps(s, t);
    case _ => StopStepKeeps(s, t); StopKeeps(s, t);
  }

  lemma ActionKeeps(s: State, a: Action)
    requires Inv(s) && Enabled(s, a)
    ensures Inv(Apply(s, a))
  {
    match a
    case Create(l) => CreateKeeps(s, l); CreateControls(s, l);
    case Call(t, l, rec) => PcKeeps(s, t, Enter(l, rec)); StartKeeps(s, a);
    case Stop(t) => PcKeeps(s, t, Begin); StartKeeps(s, a);
    case Step(t) => StepKeeps(s, t);
    case Wake(order) => SameLogs(s, Apply(s, a)); WakeKeeps(s, order);
    case Run(k) => RunKeeps(s, k);
  }

  lemma StepInRun(s: State, a: Action, s': State)
    requires Moves(s, a, s') && Inv(s)
    ensures Inv(s')
  {
    ActionKeeps(s, a);
  }

  lemma {:induction false} Reachable(ss: seq<State>, acts: seq<Action>, i: nat)
    requires IsRun(ss, acts) && i < |ss|
    ensures Inv(ss[i])
  {
    if i > 0 {
      Reachable(ss, acts, i - 1);
      assert StepAt(ss, acts, i - 1);
      StepInRun(ss[i - 1], acts[i - 1], ss[i]);
    }
  }

  // ---- conservation ----

  /**
   At every moment and for each thread, the records it gave to a Logger are those written, those in the
   hands of Update and those in its current buffer, in that order and without loss or repetition.
   */
  lemma Conservation(ss: seq<State>, acts: seq<Action>, i: nat, l: Lid, p: Tid)
    requires IsRun(ss, acts) && i < |ss| && l in ss[i].sh.logs
    ensures var lg := ss[i].sh.logs[l];
      Of(p, lg.enq) == Of(p, lg.sink) + RecsAt(lg, lg.taken, p) + RecsAt(lg, lg.buffers, p)
  {
    Reachable(ss, acts, i);
    assert LogOk(ss[i].sh.logs[l]);
  }

  /**
   The buffer a thread writes in Flush is in memory, is still its entry of `buffers_`, and is not one that
   Update has taken; what it holds is whole records and the pieces of the one being pushed.
   */
  lemma UpdateTakesNoneInUse(ss: seq<State>, acts: seq<Action>, i: nat, t: Tid)
    requires IsRun(ss, acts) && i < |ss| && t in ss[i].pcs && (ss[i].pcs[t].Push? || ss[i].pcs[t].Release?)
    ensures var pc := ss[i].pcs[t];
      pc.l in ss[i].sh.logs &&
      var lg := ss[i].sh.logs[pc.l];
      pc.b in lg.heap && t in lg.buffers && lg.buffers[t] == pc.b && (forall p :: p in lg.taken ==> lg.taken[p] != pc.b) &&
      lg.heap[pc.b].bytes == EncodeAll(lg.heap[pc.b].recs) + Partial(pc)
  {
    Reachable(ss, acts, i);
    var pc := ss[i].pcs[t];
    assert Local(ss[i].sh, t, pc) && LogOk(ss[i].sh.logs[pc.l]);
    OwnNotTaken(ss[i].sh.logs[pc.l], t);
  }

  /** The asserts of lines 200, 435 and 468 hold in every run. */
  lemma AssertsHold(ss: seq<State>, acts: seq<Action>, i: nat)
    requires IsRun(ss, acts) && i < |ss|
    ensures !ss[i].sh.failed
  {
    Reachable(ss, acts, i);
  }

  // ---- Stop ----

  /** What was in `enq` when Stop set `shutdown_` stays marked, whatever follows. */
  lemma {:induction false} MarkStays(ss: seq<State>, acts: seq<Action>, i: nat, j: nat, l: Lid)
    requires IsRun(ss, acts) && i < j < |ss| && StopBegins(ss[i], acts[i]) && l in ss[i].sh.logs
    ensures ss[j].sh.shutdown && l in ss[j].sh.logs && ss[j].sh.logs[l].mark == ss[i].sh.logs[l].enq
  {
    if j > i + 1 {
      MarkStays(ss, acts, i, j - 1, l);
      Reachable(ss, acts, j - 1);
      assert StepAt(ss, acts, j - 1);
      GrowsNow(ss[j - 1], acts[j - 1], ss[j], l);
    } else {
      assert StepAt(ss, acts, i);
      MarkBegins(ss[i], acts[i], ss[j], l);
    }
  }

  lemma MarkBegins(s: State, a: Action, s': State, l: Lid)
    requires Moves(s, a, s') && StopBegins(s, a) && l in s.sh.logs
    ensures s'.sh.shutdown && l in s'.sh.logs && s'.sh.logs[l].mark == s.sh.logs[l].enq
  {
  }

  lemma GrowsNow(s: State, a: Action, s': State, l: Lid)
    requires Moves(s, a, s') && Inv(s) && l in s.sh.logs
    ensures Grows(s.sh, s'.sh, l)
  {
    MarkStep(s, a, l);
  }

  ghost predicate StopBegins(s: State, a: Action) {
    a.Step? && a.t in s.pcs && s.pcs[a.t].Begin? && !s.sh.shutdown
  }

  ghost predicate Grows(sh: Shared, sh': Shared, l: Lid) {
    l in sh.logs && l in sh'.logs && sh.logs[l].enq <= sh'.logs[l].enq &&
    (sh.shutdown ==> sh'.shutdown && sh'.logs[l].mark == sh.logs[l].mark)
  }

  lemma MarkStep(s: State, a: Action, l: Lid)
    requires Inv(s) && Enabled(s, a) && l in s.sh.logs
    ensures Grows(s.sh, Apply(s, a).sh, l)
  {
    if a.Step? && (s.pcs[a.t].Enter? || s.pcs[a.t].Push? || s.pcs[a.t].Release?) {
      FlushGrows(s, a.t, l);
    } else if a.Run? {
      RunGrows(s, a.k, l);
    } else {
      OtherGrows(s, a, l);
    }
  }

  lemma FlushGrows(s: State, t: Tid, l: Lid)
    requires Inv(s) && t in s.pcs && Ready(s, t, s.pcs[t]) && l in s.sh.logs
    requires var pc := s.pcs[t]; pc.Enter? || pc.Push? || pc.Release?
    ensures Grows(s.sh, Apply(s, Step(t)).sh, l)
  {
    FlushShape(s, t);
  }

  lemma RunGrows(s: State, k: Tid, l: Lid)
    requires RunReady(s, k) && l in s.sh.logs
    ensures Grows(s.sh, Apply(s, Run(k)).sh, l)
  {
    match s.con
    case Scan(_, _, _, _) => ScanGrows(s.sh, s.con, k, l);
    case Write(_, _, _) => WriteGrows(s.sh, s.con, k, l);
    case _ => PlainGrows(s, k, l);
  }

  lemma PlainGrows(s: State, k: Tid, l: Lid)
    requires RunReady(s, k) && l in s.sh.logs && !s.con.Scan? && !s.con.Write?
    ensures Grows(s.sh, RunStep(s, k).0, l)
  {
  }

  lemma ScanGrows(sh: Shared, con: Con, k: Tid, l: Lid)
    requires con.Scan? && con.l in sh.logs && (con.left != {} ==> k in con.left && k in sh.logs[con.l].buffers)
    requires l in sh.logs
    ensures Grows(sh, ScanStep(sh, con, k).0, l)
  {
  }

  lemma WriteGrows(sh: Shared, con: Con, k: Tid, l: Lid)
    requires con.Write? && con.l in sh.logs && l in sh.logs
    requires var lg := sh.logs[con.l]; lg.taken != map[] ==> k in lg.taken && |Bytes(lg, lg.taken[k])| < MAXBYTES
    ensures Grows(sh, WriteStep(sh, con, k).0, l)
  {
  }

  lemma OtherGrows(s: State, a: Action, l: Lid)
    requires Enabled(s, a) && l in s.sh.logs && !a.Run?
    requires a.Step? ==> var pc := s.pcs[a.t]; !pc.Enter? && !pc.Push? && !pc.Release?
    ensures Grows(s.sh, Apply(s, a).sh, l)
  {
  }

  /** At its third push a Flush has given its record, and the Logger never forgets it. */
  ghost predicate Gives(s: State, a: Action, l: Lid, rec: Record) {
    a.Step? && a.t in s.pcs && s.pcs[a.t].Push? && s.pcs[a.t].piece == 2 && s.pcs[a.t].l == l && s.pcs[a.t].rec == rec
  }

  lemma {:induction false} Given(ss: seq<State>, acts: seq<Action>, k: nat, i: nat, l: Lid, rec: Record)
    requires IsRun(ss, acts) && k < i < |ss| && Gives(ss[k], acts[k], l, rec)
    ensures l in ss[i].sh.logs && Entry(acts[k].t, rec) in ss[i].sh.logs[l].enq
  {
    Reachable(ss, acts, i - 1);
    assert StepAt(ss, acts, i - 1);
    if k + 1 < i {
      Given(ss, acts, k, i - 1, l, rec);
      StillGiven(ss[i - 1], acts[i - 1], ss[i], l, Entry(acts[k].t, rec));
    } else {
      GivenNow(ss[i - 1], acts[i - 1], ss[i], l, rec);
    }
  }

  lemma StillGiven(s: State, a: Action, s': State, l: Lid, e: Entry)
    requires Inv(s) && Moves(s, a, s') && l in s.sh.logs && e in s.sh.logs[l].enq
    ensures l in s'.sh.logs && e in s'.sh.logs[l].enq
  {
    GrowsNow(s, a, s', l);
  }

  lemma GivenNow(s: State, a: Action, s': State, l: Lid, rec: Record)
    requires Inv(s) && Moves(s, a, s') && Gives(s, a, l, rec)
    ensures l in s.sh.logs && l in s'.sh.logs && s'.sh.logs[l].enq == s.sh.logs[l].enq + [Entry(a.t, rec)]
    ensures Entry(a.t, rec) in s'.sh.logs[l].enq
  {
    assert Local(s.sh, a.t, s.pcs[a.t]);
  }

  lemma {:induction false} OfHas(p: Tid, es: seq<Entry>, rec: Record)
    ensures Entry(p, rec) in es <==> rec in Of(p, es)
  {
    if es != [] {
      OfHas(p, es[..|es| - 1], rec);
      assert es == es[..|es| - 1] + [es[|es| - 1]];
    }
  }

  /**
   For each thread and Logger, what was given before Stop began is written, in order, when Stop has returned;
   in particular every record of a Flush that had finished.
   */
  lemma StopWrites(ss: seq<State>, acts: seq<Action>, i: nat, j: nat, l: Lid, p: Tid)
    requires IsRun(ss, acts) && i < j < |ss| && StopBegins(ss[i], acts[i]) && l in ss[i].sh.logs && ss[j].sh.stopped
    ensures l in ss[j].sh.logs && Of(p, ss[i].sh.logs[l].enq) <= Of(p, ss[j].sh.logs[l].sink)
    ensures forall k, rec :: 0 <= k < i && acts[k] == Step(p) && Gives(ss[k], acts[k], l, rec) ==>
      rec in Of(p, ss[j].sh.logs[l].sink)
  {
    MarkStays(ss, acts, i, j, l);
    Reachable(ss, acts, j);
    StoppedCovered(ss[j], l);
    var lg := ss[j].sh.logs[l];
    MarkShorter(lg, p);
    assert Of(p, lg.enq) == Of(p, lg.sink) + RecsAt(lg, lg.taken, p) + RecsAt(lg, lg.buffers, p);
    assert |Of(p, lg.mark)| <= |Of(p, lg.sink)| + |RecsAt(lg, lg.taken, p)|;
    forall k, rec | 0 <= k < i && acts[k] == Step(p) && Gives(ss[k], acts[k], l, rec) ensures rec in Of(p, lg.sink) {
      Given(ss, acts, k, i, l, rec);
      OfHas(p, ss[i].sh.logs[l].enq, rec);
    }
  }

  lemma StoppedCovered(s: State, l: Lid)
    requires Inv(s) && s.sh.stopped && l in s.sh.logs
    ensures LogOk(s.sh.logs[l]) && Covered(s.sh.logs[l]) && Settled(s.sh.logs[l]) && s.sh.logs[l].taken == map[]
  {
    assert l !in s.sh.list;
  }

  /** Until Run has finished, it can take a step or waits for the thread in Stop, which can. */
  lemma RunProgress(ss: seq<State>, acts: seq<Action>, i: nat)
    requires IsRun(ss, acts) && i < |ss| && !ss[i].con.Done?
    ensures RunnerMoves(ss[i])
  {
    Reachable(ss, acts, i);
    var s := ss[i];
    match s.con
    case Wait => WaitEnds(s);
    case Next(_) => NextReady(s);
    case Scan(_, _, _, _) => ScanReady(s);
    case Write(_, _, _) => WriteReady(s);
    case _ => ListFree(s);
  }

  ghost predicate RunnerMoves(s: State) {
    exists a :: Enabled(s, a) && (a.Run? || a.Wake? || (a.Step? && s.pcs[a.t].Shutting?))
  }

  lemma WaitEnds(s: State)
    requires s.con.Wait?
    ensures RunnerMoves(s)
  {
    var order := SetListed(s.sh.busy);
    assert Enabled(s, Wake(order));
  }

  lemma NextReady(s: State)
    requires Control(s) && s.con.Next?
    ensures RunnerMoves(s)
  {
    assert Enabled(s, Run(0));
  }

  lemma ScanReady(s: State)
    requires Control(s) && s.con.Scan?
    ensures RunnerMoves(s)
  {
    var k :| s.con.left != {} ==> k in s.con.left;
    assert Enabled(s, Run(k));
  }

  lemma WriteReady(s: State)
    requires Core(s) && Control(s) && s.con.Write?
    ensures RunnerMoves(s)
  {
    var lg := s.sh.logs[s.con.l];
    assert LogOk(lg);
    var k :| lg.taken != map[] ==> k in lg.taken;
    if lg.taken != map[] { TakenParses(lg, k); }
    assert Enabled(s, Run(k));
  }

  lemma ListFree(s: State)
    requires Inv(s) && (s.con.Copy? || s.con.LockDrain?)
    ensures RunnerMoves(s)
  {
    match s.sh.listOwner
    case Nobody => assert Enabled(s, Run(0));
    case Stopper(t) => assert Enabled(s, Step(t));
  }

  lemma {:induction false} SetListed(b: set<Lid>) returns (order: seq<Lid>)
    ensures NoDup(order) && forall l :: l in order <==> l in b
    decreases b
  {
    order := [];
    if b != {} {
      var x :| x in b;
      var rest := SetListed(b - {x});
      order := rest + [x];
    }
  }
}
