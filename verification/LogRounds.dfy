/** The rounds of Run while the system is up: an Update writes what it finds, and each Logger gets its Update. */
module LogRounds {
  import opened Common
  import opened LogFraming
  import opened LogMachine
  import opened LogInv
  import opened LogProof
  import opened LogStop
  import opened LogTheorems
  import opened LogOutcome

  // ---- one Update ----

  /** Thread `p` is not in a Flush of the Logger, after its call and before line 217. */
  predicate Away(s: State, p: Tid, l: Lid) {
    p in s.pcs ==> var pc := s.pcs[p]; !((pc.Enter? || pc.Push? || pc.Release?) && pc.l == l)
  }

  /** The buffer of `p` is still to be looked at, or has been taken. */
  predicate Serves(s: State, l: Lid, p: Tid) {
    l in s.sh.logs &&
    (s.con.Scan? && s.con.l == l ==> p in s.sh.logs[l].buffers ==> p in s.con.left) &&
    (s.con.Write? && s.con.l == l ==> p !in s.sh.logs[l].buffers)
  }

  ghost predicate UpToDate(s: State, l: Lid, p: Tid) {
    l in s.sh.logs && Of(p, s.sh.logs[l].sink) == Of(p, s.sh.logs[l].enq)
  }

  /** The buffer of a thread that is away is not in use. */
  lemma NotInUse(s: State, l: Lid, p: Tid)
    requires Core(s) && l in s.sh.logs && Away(s, p, l) && p in s.sh.logs[l].buffers
    ensures !InUse(s.sh.logs[l], s.sh.logs[l].buffers[p])
  {
    assert LogOk(s.sh.logs[l]);
  }

  lemma ScanServes(s: State, k: Tid, l: Lid, p: Tid)
    requires RunReady(s, k) && s.con.Scan? && s.con.l == l && Serves(s, l, p)
    requires p in s.sh.logs[l].buffers ==> !InUse(s.sh.logs[l], s.sh.logs[l].buffers[p])
    ensures var s' := Apply(s, Run(k)); Serves(s', l, p) && Updating(s'.con, l)
  {
  }

  lemma WriteServes(s: State, k: Tid, l: Lid, p: Tid)
    requires RunReady(s, k) && s.con.Write? && s.con.l == l && Serves(s, l, p) && LogOk(s.sh.logs[l])
    ensures var s' := Apply(s, Run(k)); Serves(s', l, p) && (s'.con.Next? ==> UpToDate(s', l, p))
  {
    var lg := s.sh.logs[l];
    assert Of(p, lg.enq) == Of(p, lg.sink) + RecsAt(lg, lg.taken, p) + RecsAt(lg, lg.buffers, p);
    assert lg.taken == map[] ==> RecsAt(lg, lg.taken, p) == [];
  }

  lemma FlushServes(s: State, u: Tid, l: Lid, p: Tid)
    requires Core(s) && Scanning(s.sh, s.con) && Enabled(s, Step(u)) && Serves(s, l, p) && Updating(s.con, l) && Away(s, p, l)
    requires var pc := s.pcs[u]; pc.Enter? || pc.Push? || pc.Release?
    ensures Serves(Apply(s, Step(u)), l, p)
  {
    var pc := s.pcs[u];
    assert Local(s.sh, u, pc);
    if pc.l == l { FlushOwn(s.sh, u, pc, p); } else { FlushElse(s.sh, u, pc, l); }
    assert s.con.Scan? ==> s.sh.logs[l].locked;
  }

  lemma FlushOwn(sh: Shared, u: Tid, pc: Pc, p: Tid)
    requires (pc.Enter? || pc.Push? || pc.Release?) && pc.l in sh.logs && p != u
    ensures var sh' := FlushStep(sh, u, pc).0;
      pc.l in sh'.logs && (p in sh'.logs[pc.l].buffers <==> p in sh.logs[pc.l].buffers)
  {
  }

  lemma FlushElse(sh: Shared, u: Tid, pc: Pc, l: Lid)
    requires (pc.Enter? || pc.Push? || pc.Release?) && pc.l in sh.logs && l in sh.logs && pc.l != l
    ensures var sh' := FlushStep(sh, u, pc).0; l in sh'.logs && sh'.logs[l] == sh.logs[l]
  {
  }

  lemma StepServes(s: State, a: Action, s': State, l: Lid, p: Tid)
    requires Inv(s) && Moves(s, a, s') && Serves(s, l, p) && Updating(s.con, l) && Away(s, p, l)
    ensures Serves(s', l, p) && (s'.con.Next? ==> UpToDate(s', l, p))
  {
    if a.Run? {
      if p in s.sh.logs[l].buffers { NotInUse(s, l, p); }
      assert LogOk(s.sh.logs[l]);
      if s.con.Scan? { ScanServes(s, a.k, l, p); } else { WriteServes(s, a.k, l, p); }
    } else if a.Step? && (s.pcs[a.t].Enter? || s.pcs[a.t].Push? || s.pcs[a.t].Release?) {
      FlushServes(s, a.t, l, p);
    } else {
      OtherFramed(s, a, l);
    }
  }

  /** The step begins an Update of the Logger. */
  predicate StartsUpdate(s: State, s': State, l: Lid) {
    s.con.Next? && s'.con.Scan? && s'.con.l == l
  }

  lemma StartServes(s: State, a: Action, s': State, l: Lid, p: Tid)
    requires Moves(s, a, s') && StartsUpdate(s, s', l)
    ensures Serves(s', l, p)
  {
  }

  ghost predicate ServesAt(ss: seq<State>, l: Lid, p: Tid, k: int) {
    0 <= k && k + 1 < |ss| && (Serves(ss[k], l, p) ==> Serves(ss[k + 1], l, p) && (ss[k + 1].con.Next? ==> UpToDate(ss[k + 1], l, p)))
  }

  lemma NextServes(ss: seq<State>, acts: seq<Action>, l: Lid, p: Tid, k: nat)
    requires IsRun(ss, acts) && k < |acts| && Updating(ss[k].con, l) && Away(ss[k], p, l)
    ensures ServesAt(ss, l, p, k)
  {
    Reachable(ss, acts, k);
    assert StepAt(ss, acts, k);
    if Serves(ss[k], l, p) { StepServes(ss[k], acts[k], ss[k + 1], l, p); }
  }

  lemma {:induction false} ServesFor(ss: seq<State>, l: Lid, p: Tid, i: nat, j: nat)
    requires i <= j < |ss| && Serves(ss[i], l, p) && forall k :: i <= k < j ==> ServesAt(ss, l, p, k)
    ensures Serves(ss[j], l, p) && (i < j && ss[j].con.Next? ==> UpToDate(ss[j], l, p))
  {
    if i < j {
      ServesFor(ss, l, p, i, j - 1);
      assert ServesAt(ss, l, p, j - 1);
    }
  }

  ghost predicate During(s: State, l: Lid, p: Tid) {
    Updating(s.con, l) && Away(s, p, l)
  }

  /** When Update returns, all that a thread has given to the Logger is written, if it was in no Flush of it meanwhile. */
  lemma UpdateWrites(ss: seq<State>, acts: seq<Action>, i: nat, j: nat, l: Lid, p: Tid)
    requires IsRun(ss, acts) && i + 1 < j < |ss| && StartsUpdate(ss[i], ss[i + 1], l) && ss[j].con.Next?
    requires forall k :: i < k < j ==> During(ss[k], l, p)
    ensures UpToDate(ss[j], l, p)
  {
    var m := i + 1;
    assert StepAt(ss, acts, i);
    StartServes(ss[i], acts[i], ss[m], l, p);
    forall k | m <= k < j ensures ServesAt(ss, l, p, k) {
      assert During(ss[k], l, p);
      NextServes(ss, acts, l, p, k);
    }
    ServesFor(ss, l, p, m, j);
  }

  // ---- one round ----

  /** The Loggers that the round of Run has still to update. */
  function Todo(s: State): seq<Lid> {
    match s.con
    case Copy(_) => s.sh.list
    case Next(InRun(_, todo)) => todo
    case Scan(InRun(_, todo), _, _, _) => todo
    case Write(InRun(_, todo), _, _) => todo
    case _ => []
  }

  lemma RunTodo(s: State, k: Tid, l: Lid)
    requires RunReady(s, k) && l in Todo(s)
    ensures var s' := Apply(s, Run(k)); l in Todo(s') || StartsUpdate(s, s', l)
  {
  }

  lemma StepTodo(s: State, a: Action, s': State, l: Lid)
    requires Inv(s) && Moves(s, a, s') && l in Todo(s)
    ensures l in Todo(s') || StartsUpdate(s, s', l)
  {
    if a.Run? {
      RunTodo(s, a.k, l);
    } else if a.Step? && (s.pcs[a.t].Enter? || s.pcs[a.t].Push? || s.pcs[a.t].Release?) {
      FlushShape(s, a.t);
    }
  }

  ghost predicate TodoAt(ss: seq<State>, l: Lid, k: int) {
    0 <= k && k + 1 < |ss| && (l in Todo(ss[k]) ==> l in Todo(ss[k + 1]) || StartAt(ss, l, k))
  }

  lemma NextTodo(ss: seq<State>, acts: seq<Action>, l: Lid, k: nat)
    requires IsRun(ss, acts) && k < |acts|
    ensures TodoAt(ss, l, k)
  {
    Reachable(ss, acts, k);
    assert StepAt(ss, acts, k);
    if l in Todo(ss[k]) { StepTodo(ss[k], acts[k], ss[k + 1], l); }
  }

  ghost predicate UpdatedIn(ss: seq<State>, l: Lid, i: nat, j: nat) {
    exists k :: i <= k < j && StartAt(ss, l, k)
  }

  ghost predicate StartAt(ss: seq<State>, l: Lid, k: int) {
    0 <= k && k + 1 < |ss| && StartsUpdate(ss[k], ss[k + 1], l)
  }

  lemma {:induction false} TodoFor(ss: seq<State>, l: Lid, i: nat, j: nat)
    requires i <= j < |ss| && l in Todo(ss[i]) && forall k :: i <= k < j ==> TodoAt(ss, l, k)
    ensures l in Todo(ss[j]) || UpdatedIn(ss, l, i, j)
  {
    if i < j {
      TodoFor(ss, l, i, j - 1);
      assert TodoAt(ss, l, j - 1);
    }
  }

  /**
   Before Run waits again, or goes on to the drain, it has updated every busy Logger; or every Logger, if none was
   busy.
   */
  lemma RoundUpdates(ss: seq<State>, acts: seq<Action>, i: nat, j: nat, l: Lid)
    requires IsRun(ss, acts) && i < j < |ss| && acts[i].Wake? && (ss[j].con.Wait? || ss[j].con.LockDrain?)
    requires if ss[i].sh.busy == {} then l in ss[i].sh.list else l in ss[i].sh.busy
    ensures UpdatedIn(ss, l, i + 1, j)
  {
    var m := i + 1;
    assert StepAt(ss, acts, i);
    WakeTodo(ss[i], acts[i].order, l);
    forall k | m <= k < j ensures TodoAt(ss, l, k) { NextTodo(ss, acts, l, k); }
    TodoFor(ss, l, m, j);
  }

  lemma WakeTodo(s: State, order: seq<Lid>, l: Lid)
    requires Enabled(s, Wake(order)) && if s.sh.busy == {} then l in s.sh.list else l in s.sh.busy
    ensures l in Todo(Apply(s, Wake(order)))
  {
    OrderEmpty(order, s.sh.busy);
  }

  lemma OrderEmpty(order: seq<Lid>, busy: set<Lid>)
    requires forall l :: l in order <==> l in busy
    ensures order == [] <==> busy == {}
  {
    assert order != [] ==> order[0] in busy;
  }

  // ---- busy Loggers ----

  /** The Logger is to be updated in the next round, or is about to be put on the list for it. */
  predicate Noted(s: State, t: Tid, l: Lid) {
    s.sh.shutdown || l in s.sh.busy || (t in s.pcs && s.pcs[t] == Busy(l))
  }

  lemma StepNoted(s: State, a: Action, s': State, t: Tid, l: Lid)
    requires Inv(s) && Moves(s, a, s') && Noted(s, t, l) && !(a.Wake? && l in a.order)
    ensures Noted(s', t, l)
  {
    match a
    case Step(u) => if s.pcs[u].Enter? || s.pcs[u].Push? || s.pcs[u].Release? { FlushShape(s, u); }
    case Run(k) => RunSame(s, k); RunBusy(s, k);
    case _ =>
  }

  lemma RunBusy(s: State, k: Tid)
    requires RunReady(s, k)
    ensures RunStep(s, k).0.busy == s.sh.busy
  {
  }

  /** A Flush that leaves more than 2 MiB in its buffer (line 213). */
  predicate Fills(s: State, a: Action, l: Lid) {
    a.Step? && a.t in s.pcs && s.pcs[a.t].Release? && s.pcs[a.t].l == l && l in s.sh.logs &&
    |Bytes(s.sh.logs[l], s.pcs[a.t].b)| > 2 * 1024 * 1024
  }

  lemma FillsNoted(s: State, a: Action, s': State, l: Lid)
    requires Moves(s, a, s') && Fills(s, a, l)
    ensures Noted(s', a.t, l)
  {
  }

  ghost predicate WokenFor(acts: seq<Action>, l: Lid, i: nat, j: nat) {
    exists k :: i <= k < j && k < |acts| && acts[k].Wake? && l in acts[k].order
  }

  ghost predicate NotedAt(ss: seq<State>, acts: seq<Action>, t: Tid, l: Lid, k: int) {
    0 <= k < |acts| && k + 1 < |ss| && (Noted(ss[k], t, l) ==> Noted(ss[k + 1], t, l) || (acts[k].Wake? && l in acts[k].order))
  }

  lemma NextNoted(ss: seq<State>, acts: seq<Action>, t: Tid, l: Lid, k: nat)
    requires IsRun(ss, acts) && k < |acts|
    ensures NotedAt(ss, acts, t, l, k)
  {
    Reachable(ss, acts, k);
    assert StepAt(ss, acts, k);
    if Noted(ss[k], t, l) && !(acts[k].Wake? && l in acts[k].order) { StepNoted(ss[k], acts[k], ss[k + 1], t, l); }
  }

  lemma {:induction false} NotedFor(ss: seq<State>, acts: seq<Action>, t: Tid, l: Lid, i: nat, j: nat)
    requires |ss| == |acts| + 1 && i <= j < |ss| && Noted(ss[i], t, l) && forall k :: i <= k < j ==> NotedAt(ss, acts, t, l, k)
    ensures Noted(ss[j], t, l) || WokenFor(acts, l, i, j)
  {
    if i < j {
      NotedFor(ss, acts, t, l, i, j - 1);
      assert NotedAt(ss, acts, t, l, j - 1);
    }
  }

  /** After a Flush that leaves more than 2 MiB its Logger is, or is about to be, busy until Run wakes up for it. */
  lemma BigBufferNoted(ss: seq<State>, acts: seq<Action>, i: nat, j: nat, l: Lid)
    requires IsRun(ss, acts) && i < j < |ss| && Fills(ss[i], acts[i], l)
    ensures Noted(ss[j], acts[i].t, l) || WokenFor(acts, l, i + 1, j)
  {
    var m := i + 1;
    assert StepAt(ss, acts, i);
    var t := acts[i].t;
    FillsNoted(ss[i], acts[i], ss[m], l);
    forall k | m <= k < j ensures NotedAt(ss, acts, t, l, k) { NextNoted(ss, acts, t, l, k); }
    NotedFor(ss, acts, t, l, m, j);
  }

  ghost predicate FilledBefore(ss: seq<State>, acts: seq<Action>, l: Lid, i: nat) {
    exists k :: 0 <= k < i && k < |acts| && k < |ss| && Fills(ss[k], acts[k], l)
  }

  /** The Logger is busy, or a thread is about to make it so. */
  ghost predicate SomeBusy(s: State, l: Lid) {
    l in s.sh.busy || exists t :: t in s.pcs && s.pcs[t] == Busy(l)
  }

  lemma FlushBusy(s: State, u: Tid, t: Tid, l: Lid)
    requires Core(s) && Enabled(s, Step(u)) && t in s.pcs
    requires var pc := s.pcs[u]; pc.Enter? || pc.Push? || pc.Release?
    ensures var s' := Apply(s, Step(u)); s'.pcs[t] == Busy(l) ==> s.pcs[t] == Busy(l) || Fills(s, Step(u), l)
  {
    assert Local(s.sh, u, s.pcs[u]);
    ReleaseBusy(s.sh, u, s.pcs[u]);
  }

  lemma ReleaseBusy(sh: Shared, u: Tid, pc: Pc)
    requires (pc.Enter? || pc.Push? || pc.Release?) && pc.l in sh.logs
    ensures FlushStep(sh, u, pc).1.Busy? ==>
      pc.Release? && FlushStep(sh, u, pc).1.l == pc.l && |Bytes(sh.logs[pc.l], pc.b)| > 2 * 1024 * 1024
  {
  }

  lemma StepBusy(s: State, a: Action, s': State, l: Lid)
    requires Inv(s) && Moves(s, a, s') && SomeBusy(s', l)
    ensures SomeBusy(s, l) || Fills(s, a, l)
  {
    if a.Step? && (s.pcs[a.t].Enter? || s.pcs[a.t].Push? || s.pcs[a.t].Release?) {
      FlushShape(s, a.t);
      if t :| t in s'.pcs && s'.pcs[t] == Busy(l) { FlushBusy(s, a.t, t, l); }
    } else {
      OtherBusy(s, a, l);
    }
  }

  lemma OtherBusy(s: State, a: Action, l: Lid)
    requires Enabled(s, a) && SomeBusy(Apply(s, a), l)
    requires a.Step? ==> var pc := s.pcs[a.t]; !pc.Enter? && !pc.Push? && !pc.Release?
    ensures SomeBusy(s, l)
  {
    if a.Run? { RunBusy(s, a.k); }
  }

  ghost predicate BusyAt(ss: seq<State>, acts: seq<Action>, l: Lid, k: int) {
    0 <= k < |acts| && k + 1 < |ss| && (SomeBusy(ss[k + 1], l) ==> SomeBusy(ss[k], l) || Fills(ss[k], acts[k], l))
  }

  lemma NextBusy(ss: seq<State>, acts: seq<Action>, l: Lid, k: nat)
    requires IsRun(ss, acts) && k < |acts|
    ensures BusyAt(ss, acts, l, k)
  {
    Reachable(ss, acts, k);
    assert StepAt(ss, acts, k);
    if SomeBusy(ss[k + 1], l) { StepBusy(ss[k], acts[k], ss[k + 1], l); }
  }

  lemma {:induction false} BusyFor(ss: seq<State>, acts: seq<Action>, l: Lid, i: nat)
    requires |ss| == |acts| + 1 && i < |ss| && !SomeBusy(ss[0], l) && forall k :: 0 <= k < i ==> BusyAt(ss, acts, l, k)
    ensures SomeBusy(ss[i], l) ==> FilledBefore(ss, acts, l, i)
  {
    if i > 0 {
      BusyFor(ss, acts, l, i - 1);
      assert BusyAt(ss, acts, l, i - 1);
    }
  }

  /** A Logger is busy only after such a Flush. */
  lemma BusyOnlyFilled(ss: seq<State>, acts: seq<Action>, i: nat, l: Lid)
    requires IsRun(ss, acts) && i < |ss| && l in ss[i].sh.busy
    ensures FilledBefore(ss, acts, l, i)
  {
    forall k | 0 <= k < i ensures BusyAt(ss, acts, l, k) { NextBusy(ss, acts, l, k); }
    BusyFor(ss, acts, l, i);
  }
}
