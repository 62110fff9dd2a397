/** From the calls of Flush to the file: which records are accepted, and that those are the ones written. */
module LogCalls {
  import opened Common
  import opened LogFraming
  import opened LogMachine
  import opened LogInv
  import opened LogProof
  import opened LogStop
  import opened LogTheorems
  import opened LogOutcome

  /** A Flush comes to line 191: with this record, and with the Logger shut down or not. */
  datatype Try = Try(rec: Record, refused: bool)

  function Recs(ts: seq<Try>): seq<Record> {
    if ts == [] then [] else Recs(ts[..|ts| - 1]) + [ts[|ts| - 1].rec]
  }

  /** The records that were not refused. */
  function Accepted(ts: seq<Try>): seq<Record> {
    if ts == [] then [] else Accepted(ts[..|ts| - 1]) + if ts[|ts| - 1].refused then [] else [ts[|ts| - 1].rec]
  }

  function CallOf(a: Action, t: Tid, l: Lid): seq<Record> {
    if a.Call? && a.t == t && a.l == l then [a.rec] else []
  }

  function TryOf(s: State, a: Action, t: Tid, l: Lid): seq<Try> {
    if a == Step(t) && t in s.pcs && s.pcs[t].Enter? && s.pcs[t].l == l && l in s.sh.logs then
      [Try(s.pcs[t].rec, s.sh.logs[l].shutdown)]
    else []
  }

  /** The records with which thread `t` has called Flush of Logger `l` before state `i`, in the order of the calls. */
  function Called(acts: seq<Action>, t: Tid, l: Lid, i: nat): seq<Record>
    requires i <= |acts|
  {
    if i == 0 then [] else Called(acts, t, l, i - 1) + CallOf(acts[i - 1], t, l)
  }

  function Tries(ss: seq<State>, acts: seq<Action>, t: Tid, l: Lid, i: nat): seq<Try>
    requires i <= |acts| <= |ss|
  {
    if i == 0 then [] else Tries(ss, acts, t, l, i - 1) + TryOf(ss[i - 1], acts[i - 1], t, l)
  }

  /** A Flush of `t` that has not come to line 191 yet. */
  function Waiting(s: State, t: Tid, l: Lid): seq<Record> {
    if t in s.pcs && s.pcs[t].Enter? && s.pcs[t].l == l then [s.pcs[t].rec] else []
  }

  /** A Flush of `t` that has not completed its third push yet. */
  function Pushing(s: State, t: Tid, l: Lid): seq<Record> {
    if t in s.pcs && s.pcs[t].Push? && s.pcs[t].l == l then [s.pcs[t].rec] else []
  }

  function GivenTo(s: State, t: Tid, l: Lid): seq<Record> {
    if l in s.sh.logs then Of(t, s.sh.logs[l].enq) else []
  }

  // ---- one step ----

  lemma CallStep(s: State, a: Action, s': State, t: Tid, l: Lid)
    requires Moves(s, a, s')
    ensures Recs(TryOf(s, a, t, l)) + Waiting(s', t, l) == Waiting(s, t, l) + CallOf(a, t, l)
  {
  }

  lemma OneEntry(p: Tid, es: seq<Entry>, e: Entry)
    ensures Of(p, es + [e]) == Of(p, es) + if e.who == p then [e.rec] else []
  {
    assert (es + [e])[..|es|] == es;
  }

  lemma EnterGives(sh: Shared, u: Tid, pc: Pc, t: Tid, l: Lid)
    requires pc.Enter? && pc.l in sh.logs && l in sh.logs
    ensures var (sh', pc') := FlushStep(sh, u, pc);
      l in sh'.logs && sh'.logs[l].enq == sh.logs[l].enq &&
      if sh.logs[pc.l].shutdown then pc'.Idle? else pc'.Push? && pc'.l == pc.l && pc'.rec == pc.rec
  {
  }

  lemma PushGives(sh: Shared, u: Tid, pc: Pc, t: Tid, l: Lid)
    requires pc.Push? && pc.l in sh.logs && Holds(sh.logs[pc.l], u, pc) && l in sh.logs
    ensures var (sh', pc') := FlushStep(sh, u, pc);
      l in sh'.logs && (if pc.piece < 2 then pc'.Push? && pc'.l == pc.l && pc'.rec == pc.rec else !pc'.Push?) &&
      Of(t, sh'.logs[l].enq) == Of(t, sh.logs[l].enq) + if pc.piece == 2 && pc.l == l && u == t then [pc.rec] else []
  {
    OneEntry(t, sh.logs[l].enq, Entry(u, pc.rec));
  }

  lemma ReleaseGives(sh: Shared, u: Tid, pc: Pc, l: Lid)
    requires pc.Release? && pc.l in sh.logs && l in sh.logs
    ensures var (sh', pc') := FlushStep(sh, u, pc); l in sh'.logs && sh'.logs[l].enq == sh.logs[l].enq && !pc'.Push?
  {
  }

  lemma FlushKeys(s: State, u: Tid)
    requires Core(s) && Enabled(s, Step(u))
    requires var pc := s.pcs[u]; pc.Enter? || pc.Push? || pc.Release?
    ensures Apply(s, Step(u)).sh.logs.Keys == s.sh.logs.Keys
  {
    FlushSame(s, u);
  }

  ghost predicate Balanced(s: State, a: Action, s': State, t: Tid, l: Lid) {
    GivenTo(s', t, l) + Pushing(s', t, l) == GivenTo(s, t, l) + Pushing(s, t, l) + Accepted(TryOf(s, a, t, l))
  }

  lemma FlushEnter(s: State, u: Tid, t: Tid, l: Lid)
    requires u in s.pcs && s.pcs[u].Enter? && Ready(s, u, s.pcs[u]) && Local(s.sh, u, s.pcs[u])
    requires l in s.sh.logs && l in Apply(s, Step(u)).sh.logs
    ensures Balanced(s, Step(u), Apply(s, Step(u)), t, l)
  {
    EnterGives(s.sh, u, s.pcs[u], t, l);
  }

  lemma FlushPush(s: State, u: Tid, t: Tid, l: Lid)
    requires u in s.pcs && s.pcs[u].Push? && Ready(s, u, s.pcs[u]) && Local(s.sh, u, s.pcs[u])
    requires l in s.sh.logs && l in Apply(s, Step(u)).sh.logs
    ensures Balanced(s, Step(u), Apply(s, Step(u)), t, l)
  {
    PushGives(s.sh, u, s.pcs[u], t, l);
  }

  lemma FlushRelease(s: State, u: Tid, t: Tid, l: Lid)
    requires u in s.pcs && s.pcs[u].Release? && Ready(s, u, s.pcs[u]) && Local(s.sh, u, s.pcs[u])
    requires l in s.sh.logs && l in Apply(s, Step(u)).sh.logs
    ensures Balanced(s, Step(u), Apply(s, Step(u)), t, l)
  {
    ReleaseGives(s.sh, u, s.pcs[u], l);
  }

  lemma FlushGives(s: State, u: Tid, t: Tid, l: Lid)
    requires Core(s) && Enabled(s, Step(u))
    requires var pc := s.pcs[u]; pc.Enter? || pc.Push? || pc.Release?
    ensures Balanced(s, Step(u), Apply(s, Step(u)), t, l)
  {
    assert Local(s.sh, u, s.pcs[u]) && (t in s.pcs ==> Local(s.sh, t, s.pcs[t]));
    FlushKeys(s, u);
    if l in s.sh.logs {
      match s.pcs[u]
      case Enter(_, _) => FlushEnter(s, u, t, l);
      case Push(_, _, _, _) => FlushPush(s, u, t, l);
      case Release(_, _) => FlushRelease(s, u, t, l);
    } else {
      FlushElsewhere(s, u, t, l);
    }
  }

  /** No thread is in Flush of a Logger that does not exist. */
  lemma FlushElsewhere(s: State, u: Tid, t: Tid, l: Lid)
    requires u in s.pcs && Ready(s, u, s.pcs[u]) && Local(s.sh, u, s.pcs[u]) && (t in s.pcs ==> Local(s.sh, t, s.pcs[t]))
    requires var pc := s.pcs[u]; (pc.Enter? || pc.Push? || pc.Release?) && pc.l in s.sh.logs
    requires l !in s.sh.logs && l !in Apply(s, Step(u)).sh.logs
    ensures Balanced(s, Step(u), Apply(s, Step(u)), t, l)
  {
    FlushAt(s.sh, u, s.pcs[u]);
  }

  lemma FlushAt(sh: Shared, u: Tid, pc: Pc)
    requires (pc.Enter? || pc.Push? || pc.Release?) && pc.l in sh.logs
    ensures var pc' := FlushStep(sh, u, pc).1; pc'.Push? ==> pc'.l == pc.l
  {
  }

  lemma StopEnq(sh: Shared, t: Tid, pc: Pc, l: Lid)
    requires pc.Busy? || pc.Begin? || pc.LockLogs? || pc.Shutting? || pc.Join?
    ensures var (sh', pc') := StopStep(sh, t, pc); SameEnq(sh, sh', l) && !pc'.Push?
  {
  }

  lemma StopGives(s: State, u: Tid, t: Tid, l: Lid)
    requires Enabled(s, Step(u))
    requires var pc := s.pcs[u]; !pc.Enter? && !pc.Push? && !pc.Release?
    ensures var s' := Apply(s, Step(u));
      GivenTo(s', t, l) == GivenTo(s, t, l) && Pushing(s', t, l) == Pushing(s, t, l) && TryOf(s, Step(u), t, l) == []
  {
    StopEnq(s.sh, u, s.pcs[u], l);
  }

  lemma RunGives(s: State, k: Tid, l: Lid, t: Tid)
    requires RunReady(s, k)
    ensures GivenTo(Apply(s, Run(k)), t, l) == GivenTo(s, t, l)
  {
    match s.con
    case Scan(_, _, _, _) => ScanGives(s.sh, s.con, k, l);
    case Write(_, _, _) => WriteGives(s.sh, s.con, k, l);
    case _ => PlainGives(s, k, l);
  }

  lemma PlainGives(s: State, k: Tid, l: Lid)
    requires RunReady(s, k) && !s.con.Scan? && !s.con.Write?
    ensures SameEnq(s.sh, RunStep(s, k).0, l)
  {
  }

  ghost predicate SameEnq(sh: Shared, sh': Shared, l: Lid) {
    (l in sh'.logs <==> l in sh.logs) && (l in sh.logs ==> sh'.logs[l].enq == sh.logs[l].enq)
  }

  lemma ScanGives(sh: Shared, con: Con, k: Tid, l: Lid)
    requires con.Scan? && con.l in sh.logs && (con.left != {} ==> k in con.left && k in sh.logs[con.l].buffers)
    ensures SameEnq(sh, ScanStep(sh, con, k).0, l)
  {
  }

  lemma WriteGives(sh: Shared, con: Con, k: Tid, l: Lid)
    requires con.Write? && con.l in sh.logs
    requires var lg := sh.logs[con.l]; lg.taken != map[] ==> k in lg.taken && |Bytes(lg, lg.taken[k])| < MAXBYTES
    ensures SameEnq(sh, WriteStep(sh, con, k).0, l)
  {
  }

  lemma OtherGives(s: State, a: Action, t: Tid, l: Lid)
    requires Core(s) && Enabled(s, a) && !a.Step? && !a.Run?
    ensures var s' := Apply(s, a); GivenTo(s', t, l) == GivenTo(s, t, l) && Pushing(s', t, l) == Pushing(s, t, l)
  {
  }

  /** What is given and being pushed grows by the record of a Flush that is not refused, and by no other. */
  lemma GiveStep(s: State, a: Action, s': State, t: Tid, l: Lid)
    requires Core(s) && Moves(s, a, s')
    ensures Balanced(s, a, s', t, l)
  {
    match a
    case Step(u) =>
      if s.pcs[u].Enter? || s.pcs[u].Push? || s.pcs[u].Release? { FlushGives(s, u, t, l); } else { StopGives(s, u, t, l); }
    case Run(k) => RunGives(s, k, l, t);
    case _ => OtherGives(s, a, t, l);
  }

  // ---- runs ----

  ghost predicate CountedAt(ss: seq<State>, acts: seq<Action>, t: Tid, l: Lid, k: int) {
    0 <= k < |acts| && k + 1 < |ss| &&
    Recs(TryOf(ss[k], acts[k], t, l)) + Waiting(ss[k + 1], t, l) == Waiting(ss[k], t, l) + CallOf(acts[k], t, l) &&
    GivenTo(ss[k + 1], t, l) + Pushing(ss[k + 1], t, l) ==
      GivenTo(ss[k], t, l) + Pushing(ss[k], t, l) + Accepted(TryOf(ss[k], acts[k], t, l))
  }

  lemma NextCounted(ss: seq<State>, acts: seq<Action>, t: Tid, l: Lid, k: nat)
    requires IsRun(ss, acts) && k < |acts|
    ensures CountedAt(ss, acts, t, l, k)
  {
    Reachable(ss, acts, k);
    assert StepAt(ss, acts, k);
    CallStep(ss[k], acts[k], ss[k + 1], t, l);
    GiveStep(ss[k], acts[k], ss[k + 1], t, l);
  }

  lemma OneTry(ts: seq<Try>, more: seq<Try>)
    requires |more| <= 1
    ensures Recs(ts + more) == Recs(ts) + Recs(more) && Accepted(ts + more) == Accepted(ts) + Accepted(more)
  {
    if more == [] { assert ts + more == ts; } else { assert (ts + more)[..|ts|] == ts; }
  }

  lemma Regroup(a: seq<Record>, b: seq<Record>, c: seq<Record>, d: seq<Record>, e: seq<Record>)
    requires b + c == d + e
    ensures a + b + c == a + d + e
  {
    assert a + b + c == a + (b + c);
    assert a + d + e == a + (d + e);
  }

  lemma {:induction false} CountTries(ss: seq<State>, acts: seq<Action>, t: Tid, l: Lid, i: nat)
    requires |ss| == |acts| + 1 && i < |ss| && ss[0] == Init() && forall k :: 0 <= k < i ==> CountedAt(ss, acts, t, l, k)
    ensures Called(acts, t, l, i) == Recs(Tries(ss, acts, t, l, i)) + Waiting(ss[i], t, l)
    ensures GivenTo(ss[i], t, l) + Pushing(ss[i], t, l) == Accepted(Tries(ss, acts, t, l, i))
  {
    if i > 0 {
      var k := i - 1;
      CountTries(ss, acts, t, l, k);
      assert CountedAt(ss, acts, t, l, k);
      var ts, more := Tries(ss, acts, t, l, k), TryOf(ss[k], acts[k], t, l);
      OneTry(ts, more);
      Regroup(Recs(ts), Recs(more), Waiting(ss[i], t, l), Waiting(ss[k], t, l), CallOf(acts[k], t, l));
    }
  }

  /**
   Every call of Flush with a record comes to line 191 once, in the order of the calls, but for one that waits
   there; and a thread has given to a Logger exactly the records with which it was not refused, in that order, but
   for one being pushed. It is refused exactly when the Logger is shut down.
   */
  lemma GivenAreCalled(ss: seq<State>, acts: seq<Action>, t: Tid, l: Lid, i: nat)
    requires IsRun(ss, acts) && i < |ss|
    ensures Called(acts, t, l, i) == Recs(Tries(ss, acts, t, l, i)) + Waiting(ss[i], t, l)
    ensures GivenTo(ss[i], t, l) + Pushing(ss[i], t, l) == Accepted(Tries(ss, acts, t, l, i))
  {
    forall k | 0 <= k < i ensures CountedAt(ss, acts, t, l, k) { NextCounted(ss, acts, t, l, k); }
    CountTries(ss, acts, t, l, i);
  }

  /**
   At every moment and for each thread and Logger, the records of the Flushes that were not refused are those written,
   those in the hands of Update, those in its current buffer and the one being pushed, in that order and without loss
   or repetition.
   */
  lemma CallsConserved(ss: seq<State>, acts: seq<Action>, t: Tid, l: Lid, i: nat)
    requires IsRun(ss, acts) && i < |ss| && l in ss[i].sh.logs
    ensures var lg := ss[i].sh.logs[l];
      Accepted(Tries(ss, acts, t, l, i)) ==
        Of(t, lg.sink) + RecsAt(lg, lg.taken, t) + RecsAt(lg, lg.buffers, t) + Pushing(ss[i], t, l)
  {
    GivenAreCalled(ss, acts, t, l, i);
    Conservation(ss, acts, i, l, t);
  }

  // ---- no refusal before Stop ----

  lemma UnshutStep(s: State, a: Action, s': State)
    requires Moves(s, a, s') && Unshut(s')
    ensures Unshut(s)
  {
    assert s.sh.stopped ==> s'.sh.stopped;
    forall t | t in s.pcs ensures !s.pcs[t].Shutting? && !s.pcs[t].Join? {
      assert t in s'.pcs;
    }
  }

  /** Before a Stop has locked `logsMutex_` no Flush is refused. */
  lemma {:induction false} NoneRefused(ss: seq<State>, acts: seq<Action>, t: Tid, l: Lid, i: nat)
    requires IsRun(ss, acts) && i < |ss| && Unshut(ss[i])
    ensures Accepted(Tries(ss, acts, t, l, i)) == Recs(Tries(ss, acts, t, l, i))
  {
    if i > 0 {
      assert StepAt(ss, acts, i - 1);
      UnshutStep(ss[i - 1], acts[i - 1], ss[i]);
      NoneRefused(ss, acts, t, l, i - 1);
      OneTry(Tries(ss, acts, t, l, i - 1), TryOf(ss[i - 1], acts[i - 1], t, l));
      NotRefused(ss, acts, t, l, i - 1);
    }
  }

  lemma NotRefused(ss: seq<State>, acts: seq<Action>, t: Tid, l: Lid, k: nat)
    requires IsRun(ss, acts) && k < |acts| && Unshut(ss[k])
    ensures Accepted(TryOf(ss[k], acts[k], t, l)) == Recs(TryOf(ss[k], acts[k], t, l))
  {
    AlwaysOne(ss, acts, k);
  }

  // ---- from the calls to the file ----

  lemma UnshutBefore(s: State)
    requires Inv(s) && !s.sh.shutdown
    ensures Unshut(s)
  {
    forall t | t in s.pcs ensures !s.pcs[t].Shutting? && !s.pcs[t].Join? {
      assert Flags(s);
    }
  }

  /** The records of the calls of `t` that have ended: all but that of a Flush in progress. */
  function Ended(s: State, acts: seq<Action>, t: Tid, l: Lid, i: nat): seq<Record>
    requires i <= |acts|
  {
    var all, open := Called(acts, t, l, i), Waiting(s, t, l) + Pushing(s, t, l);
    if |open| <= |all| then all[..|all| - |open|] else []
  }

  lemma EndedGiven(ss: seq<State>, acts: seq<Action>, t: Tid, l: Lid, i: nat)
    requires IsRun(ss, acts) && i < |ss| && !ss[i].sh.shutdown
    ensures Ended(ss[i], acts, t, l, i) == GivenTo(ss[i], t, l)
    ensures Called(acts, t, l, i) == Ended(ss[i], acts, t, l, i) + Pushing(ss[i], t, l) + Waiting(ss[i], t, l)
  {
    Reachable(ss, acts, i);
    UnshutBefore(ss[i]);
    NoneRefused(ss, acts, t, l, i);
    GivenAreCalled(ss, acts, t, l, i);
    var given, p, w := GivenTo(ss[i], t, l), Pushing(ss[i], t, l), Waiting(ss[i], t, l);
    assert Called(acts, t, l, i) == given + p + w;
    assert |p + w| == |w + p|;
  }

  /**
   Every record with which a Flush was called and had ended before Stop began is in the file when Stop has returned,
   in the order of the calls.
   */
  lemma StopWritesCalls(ss: seq<State>, acts: seq<Action>, i: nat, j: nat, l: Lid, t: Tid)
    requires IsRun(ss, acts) && i < j < |ss| && StopBegins(ss[i], acts[i]) && l in ss[i].sh.logs && ss[j].sh.stopped
    ensures l in ss[j].sh.logs && Ended(ss[i], acts, t, l, i) <= Of(t, ss[j].sh.logs[l].sink)
    ensures Called(acts, t, l, i) == Ended(ss[i], acts, t, l, i) + Pushing(ss[i], t, l) + Waiting(ss[i], t, l)
  {
    StopWrites(ss, acts, i, j, l, t);
    EndedGiven(ss, acts, t, l, i);
  }

  lemma NoneInside(s: State, t: Tid, l: Lid)
    requires Inv(s) && s.sh.stopped && l in s.sh.logs && s.sh.logs[l].shutdown
    ensures Pushing(s, t, l) == []
  {
    StoppedCovered(s, l);
    assert t in s.pcs ==> Local(s.sh, t, s.pcs[t]);
  }

  /**
   When Stop has returned, and Run had not finished as Stop locked `logsMutex_`, the file has exactly the records of
   the calls of Flush that were not refused, each once and in the order of the calls of each thread.
   */
  lemma CallsWritten(ss: seq<State>, acts: seq<Action>, k: nat, j: nat, u: Tid, l: Lid, t: Tid)
    requires IsRun(ss, acts) && k < j < |ss| && LocksLogs(ss[k], acts[k], u) && !ss[k].con.Done?
    requires ss[j].sh.stopped && l in ss[j].sh.logs
    ensures Of(t, ss[j].sh.logs[l].sink) == Accepted(Tries(ss, acts, t, l, j))
  {
    AllWritten(ss, acts, k, j, u, l, t);
    ShutDownIff(ss, acts, k, j, u, l);
    Reachable(ss, acts, j);
    NoneInside(ss[j], t, l);
    GivenAreCalled(ss, acts, t, l, j);
  }

  // ---- the Loggers there are ----

  ghost predicate CreatedBefore(ss: seq<State>, acts: seq<Action>, l: Lid, i: nat) {
    exists k :: 0 <= k < i && k < |acts| && k < |ss| && acts[k] == Create(l) && !ss[k].sh.shutdown
  }

  lemma CreateStep(s: State, a: Action, s': State, l: Lid)
    requires Inv(s) && Moves(s, a, s')
    ensures l in s'.sh.logs <==> l in s.sh.logs || (a == Create(l) && !s.sh.shutdown)
  {
    match a
    case Step(t) => if s.pcs[t].Enter? || s.pcs[t].Push? || s.pcs[t].Release? { FlushSame(s, t); }
    case Run(k) => RunSame(s, k);
    case _ =>
  }

  ghost predicate CreatedAt(ss: seq<State>, acts: seq<Action>, l: Lid, k: int) {
    0 <= k < |acts| && k + 1 < |ss| &&
    (l in ss[k + 1].sh.logs <==> l in ss[k].sh.logs || (acts[k] == Create(l) && !ss[k].sh.shutdown))
  }

  lemma NextCreated(ss: seq<State>, acts: seq<Action>, l: Lid, k: nat)
    requires IsRun(ss, acts) && k < |acts|
    ensures CreatedAt(ss, acts, l, k)
  {
    Reachable(ss, acts, k);
    assert StepAt(ss, acts, k);
    CreateStep(ss[k], acts[k], ss[k + 1], l);
  }

  lemma {:induction false} CreatedSum(ss: seq<State>, acts: seq<Action>, l: Lid, i: nat)
    requires |ss| == |acts| + 1 && i < |ss| && l !in ss[0].sh.logs && forall k :: 0 <= k < i ==> CreatedAt(ss, acts, l, k)
    ensures l in ss[i].sh.logs <==> CreatedBefore(ss, acts, l, i)
  {
    if i > 0 {
      CreatedSum(ss, acts, l, i - 1);
      assert CreatedAt(ss, acts, l, i - 1);
    }
  }

  /** The Loggers are those that CreateLog was called for before Stop began. */
  lemma LoggersCreated(ss: seq<State>, acts: seq<Action>, l: Lid, i: nat)
    requires IsRun(ss, acts) && i < |ss|
    ensures l in ss[i].sh.logs <==> CreatedBefore(ss, acts, l, i)
  {
    forall k | 0 <= k < i ensures CreatedAt(ss, acts, l, k) { NextCreated(ss, acts, l, k); }
    CreatedSum(ss, acts, l, i);
  }
}
