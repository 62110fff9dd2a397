/** What has become of the tasks when `thrdpool_destroy` returns. */
module PoolDrain {
  import opened Common
  import opened PoolMachine
  import opened PoolInv
  import opened PoolProof
  import opened PoolTasks
  import opened PoolSafety
  import opened PoolTheorems
  import Q = QueueMachine
  import QI = QueueInv

  predicate Empty(q: Q.Shared) {
    q.getq == [] && q.putq == []
  }

  /** The destroyer's own get in the drain loop (line 223) is about to answer NULL. */
  ghost predicate DrainEnds(s: State) {
    s.sh.destroyer.Some? && s.sh.destroyer.value in s.qp && s.sh.stage == 8 && GetsNull(s.qp[s.sh.destroyer.value])
  }

  ghost predicate Emptied(s: State) {
    s.sh.stage >= 9 || DrainEnds(s) ==> Empty(s.sh.q)
  }

  /** From line 222 on only the destroyer is inside a queue operation. */
  lemma Alone(s: State, t: Tid)
    requires Known(s) && Linked(s) && s.sh.stage >= 8 && t in s.fr && s.sh.destroyer != Some(t)
    ensures s.qp[t] == Q.Idle && (s.fr[t] == User(None, Rest) || s.fr[t] == Gone)
  {
    OnlyTheDestroyer(s, t);
    if t in s.sh.exits { AllGone(s, t); }
    assert Hold(s.sh, t, s.fr[t], s.qp[t]);
  }

  lemma DrainExec(q: Q.Shared, t: Tid, pc: Q.Pc, w: Tid)
    requires QI.Lists(q) && QI.Book(q) && QI.Local(q, t, pc) && Q.Ready(q, t, pc) && pc.Get?
    ensures var (q', pc') := Q.Exec(q, t, pc, w);
      (GetsNull(pc') && !GetsNull(pc) ==> Empty(q) && Empty(q')) &&
      (Empty(q) ==> Empty(q'))
  {
    QI.FirstCell(q);
  }

  lemma QueueEmptied(s: State, t: Tid, w: Tid)
    requires Inv(s) && Emptied(s) && Enabled(s, Queue(t, w))
    ensures Emptied(Apply(s, Queue(t, w)))
  {
    if s.sh.stage >= 8 {
      QueueShape(s, t, w);
      DestroyerGets(s, t);
      DrainExec(s.sh.q, t, s.qp[t], w);
    }
  }

  lemma DestroyerGets(s: State, t: Tid)
    requires Inv(s) && s.sh.stage >= 8 && t in s.fr && t in s.qp && Q.Ready(s.sh.q, t, s.qp[t])
    ensures s.sh.destroyer == Some(t) && s.qp[t].Get? && QI.Local(s.sh.q, t, s.qp[t]) && QI.Lists(s.sh.q) && QI.Book(s.sh.q)
  {
    if s.sh.destroyer != Some(t) { Alone(s, t); }
    assert Place(s.sh, t, s.fr[t]) && Hold(s.sh, t, s.fr[t], s.qp[t]);
    assert QI.Local(s.sh.q, t, s.qp[t]);
  }

  /** The destroyer leaves the drain loop only on NULL, and skips it only if nothing was ever scheduled. */
  lemma LeavesDrain(sh: Shared, fr: map<Tid, Frame>, t: Tid, f: Frame, pc: Q.Pc)
    requires f.User? && f.a.Ds? && ActReady(sh, fr, t, f.a, pc) && Place(sh, t, f) && QueueMatch(f, pc) && sh.stage <= 8
    ensures var o := ActStep(sh, t, f.task.Some?, f.a, pc, None);
      (o.sh.stage >= 9 ==> !sh.published || (sh.stage == 8 && GetsNull(pc))) &&
      (o.sh.stage == 8 && GetsNull(o.pc) ==> sh.stage == 8 && GetsNull(pc))
  {
    match f.a.d
    case DsJoin =>
    case DrainCall =>
    case DrainGet =>
    case _ =>
  }

  lemma NeverScheduled(sh: Shared)
    requires Book(sh) && QI.Book(sh.q) && !sh.published
    ensures Empty(sh.q)
  {
    assert |sh.q.enq| == |sh.q.deq| + |sh.q.getq| + |sh.q.putq|;
  }

  lemma PoolEmptied(s: State, t: Tid, made: Option<Tid>)
    requires Inv(s) && Emptied(s) && Enabled(s, Pool(t, made))
    ensures Emptied(Apply(s, Pool(t, made)))
  {
    var o, s' := PoolStep(s, t, made), Apply(s, Pool(t, made));
    assert Place(s.sh, t, s.fr[t]) && Hold(s.sh, t, s.fr[t], s.qp[t]);
    QueueSide(s, t, made);
    StepKept(s, t, made);
    assert o.sh.q == s.sh.q && s'.sh == o.sh;
    if s.sh.stage <= 8 {
      if !s.sh.published { NeverScheduled(s.sh); }
      PoolLeaves(s, t, made);
    }
  }

  lemma PoolLeaves(s: State, t: Tid, made: Option<Tid>)
    requires Known(s) && Enabled(s, Pool(t, made)) && s.sh.stage <= 8 && Kept(s.sh, t, PoolStep(s, t, made))
    requires PoolStep(s, t, made).spawn.Some? ==> PoolStep(s, t, made).spawn == made
    ensures var s' := Apply(s, Pool(t, made));
      (s'.sh.stage >= 9 ==> !s.sh.published || DrainEnds(s)) && (DrainEnds(s') ==> DrainEnds(s))
  {
    var f := s.fr[t];
    assert Place(s.sh, t, f) && Hold(s.sh, t, f, s.qp[t]);
    if f.User? && f.a.Ds? {
      LeavesDrain(s.sh, s.fr, t, f, s.qp[t]);
    }
  }

  lemma UserEmptied(s: State, s': State, t: Tid)
    requires Keys(s) && Emptied(s) && UserChange(s, s', t) && Place(s.sh, t, s.fr[t])
    ensures Emptied(s')
  {
  }

  /** Wakeups and new threads change neither the lists nor what the destroyer does. */
  lemma PlainEmptied(s: State, s': State)
    requires Keys(s) && Emptied(s) && s'.sh.stage == s.sh.stage && s'.sh.destroyer == s.sh.destroyer
    requires s'.sh.q.getq == s.sh.q.getq && s'.sh.q.putq == s.sh.q.putq
    requires forall u :: u in s.qp ==> u in s'.qp && s'.qp[u] == s.qp[u]
    ensures Emptied(s')
  {
  }

  lemma CallEmptied(s: State, a: Action)
    requires Known(s) && Emptied(s) && Enabled(s, a) && (a.Schedule? || a.Increase?)
    ensures Emptied(Apply(s, a))
  {
    assert Place(s.sh, a.t, s.fr[a.t]);
    if a.Schedule? { ScheduleChange(s, a.t, a.m); } else { IncreaseChange(s, a.t); }
    UserEmptied(s, Apply(s, a), a.t);
  }

  lemma EdgeEmptied(s: State, a: Action)
    requires Known(s) && Emptied(s) && Enabled(s, a) && (a.Finish? || a.Destroy?)
    ensures Emptied(Apply(s, a))
  {
    assert Place(s.sh, a.t, s.fr[a.t]);
    if a.Finish? { FinishChange(s, a.t); } else { DestroyChange(s, a.t); }
    UserEmptied(s, Apply(s, a), a.t);
  }

  lemma OtherEmptied(s: State, a: Action)
    requires Known(s) && Emptied(s) && Enabled(s, a) && !a.Pool? && !a.Queue?
    ensures Emptied(Apply(s, a))
  {
    if a.Schedule? || a.Increase? {
      CallEmptied(s, a);
    } else if a.Finish? || a.Destroy? {
      EdgeEmptied(s, a);
    } else {
      PlainEmptied(s, Apply(s, a));
    }
  }

  lemma StepEmptied(s: State, a: Action)
    requires Inv(s) && Emptied(s) && Enabled(s, a)
    ensures Emptied(Apply(s, a))
  {
    match a
    case Pool(t, made) => PoolEmptied(s, t, made);
    case Queue(t, w) => QueueEmptied(s, t, w);
    case _ => OtherEmptied(s, a);
  }

  ghost predicate Sound(s: State) {
    Inv(s) && Emptied(s)
  }

  lemma StepSound(s: State, a: Action)
    requires Sound(s) && Enabled(s, a)
    ensures Sound(Apply(s, a))
  {
    AnyKeeps(s, a);
    StepEmptied(s, a);
  }

  lemma {:induction false} ReachesSound(want: nat, ss: seq<State>, acts: seq<Action>, i: nat)
    requires IsRun(want, ss, acts) && i < |ss|
    ensures Sound(ss[i])
  {
    if i == 0 {
      InitInv(want);
    } else {
      ReachesSound(want, ss, acts, i - 1);
      StepSound(ss[i - 1], acts[i - 1]);
    }
  }

  /** Once the drain loop has ended the queue is empty. */
  lemma ReachesEmptied(want: nat, ss: seq<State>, acts: seq<Action>, i: nat)
    requires IsRun(want, ss, acts) && i < |ss|
    ensures Emptied(ss[i])
  {
    ReachesSound(want, ss, acts, i);
  }

  /**
   At any time the tasks scheduled so far are those waiting in the queue, fetched by a thread, started,
   or handed to `pending`, each in one of these places and only once.
   */
  lemma TasksConserved(want: nat, ss: seq<State>, acts: seq<Action>, i: nat)
    requires IsRun(want, ss, acts) && i < |ss|
    ensures ss[i].fr.Keys == ss[i].qp.Keys
    ensures var s := ss[i];
      forall m :: m in s.sh.q.enq <==>
        m in s.sh.q.getq || m in s.sh.q.putq || Held(s, m) || m in s.sh.started || m in s.sh.drained
    ensures Separate(ss[i])
  {
    Reachable(want, ss, acts, i);
    PlacesSeparate(ss[i]);
  }

  /** No task is in two places or twice in one. */
  ghost predicate Separate(s: State)
    requires s.fr.Keys == s.qp.Keys
  {
    NoDup(s.sh.q.enq) && NoDup(s.sh.started) && NoDup(s.sh.drained) &&
    (forall m :: m in s.sh.started ==> m !in s.sh.drained) &&
    (forall m :: m in s.sh.q.getq || m in s.sh.q.putq ==> m !in s.sh.started && m !in s.sh.drained && !Held(s, m)) &&
    (forall m :: Held(s, m) ==> m !in s.sh.started && m !in s.sh.drained)
  }

  lemma PlacesSeparate(s: State)
    requires Keys(s) && Tasks(s) && QI.Book(s.sh.q)
    ensures Separate(s)
  {
    var q := s.sh.q;
    forall m | m in q.getq || m in q.putq ensures m !in q.deq {
      Later(q, m);
    }
  }

  lemma Later(q: Q.Shared, m: Task)
    requires QI.Book(q) && NoDup(q.enq) && (m in q.getq || m in q.putq)
    ensures m !in q.deq
  {
    assert q.enq == q.deq + (q.getq + q.putq);
    var rest := q.getq + q.putq;
    assert m in rest;
    var j :| 0 <= j < |rest| && rest[j] == m;
    forall i | 0 <= i < |q.deq| ensures q.deq[i] != m {
      assert q.enq[i] == q.deq[i] && q.enq[|q.deq| + j] == m;
    }
  }

  // ---- the calls of thrdpool_schedule ----

  /** The task is or was in the queue, or a thread is about to append it. */
  ghost predicate Given(s: State, m: Task) {
    m in s.sh.q.enq || exists t :: t in s.qp && Q.Flying(s.qp[t]) && s.qp[t].m == m
  }

  /** An instruction of the queue loses no task on its way and brings in no other. */
  lemma FlyingOn(q: Q.Shared, t: Tid, pc: Q.Pc, w: Tid)
    ensures var (q', pc') := Q.Exec(q, t, pc, w);
      (forall m :: m in q'.enq <==> m in q.enq || (Q.Flying(pc) && !Q.Flying(pc') && m == pc.m)) &&
      (Q.Flying(pc') ==> Q.Flying(pc) && pc'.m == pc.m)
  {
    if pc.Get? { GetAppendsNot(q, t, pc.g); }
  }

  lemma GetAppendsNot(q: Q.Shared, t: Tid, g: Q.GetPc)
    ensures Q.GetStep(q, t, g).0.enq == q.enq
  {
  }

  lemma QueueGiven(s: State, t: Tid, w: Tid, m: Task)
    requires Enabled(s, Queue(t, w))
    ensures Given(Apply(s, Queue(t, w)), m) <==> Given(s, m)
  {
    QueueShape(s, t, w);
    FlyingOn(s.sh.q, t, s.qp[t], w);
    var s' := Apply(s, Queue(t, w));
    if u :| u in s.qp && Q.Flying(s.qp[u]) && s.qp[u].m == m { assert u in s'.qp; }
    if u :| u in s'.qp && Q.Flying(s'.qp[u]) && s'.qp[u].m == m { assert u in s.qp; }
  }

  /** The other actions change no put in progress, but that a schedule starts one. */
  lemma SamePuts(s: State, s': State, m: Task)
    requires s'.sh.q.enq == s.sh.q.enq
    requires forall u :: u in s.qp && Q.Flying(s.qp[u]) ==> u in s'.qp && s'.qp[u] == s.qp[u]
    requires forall u :: u in s'.qp && Q.Flying(s'.qp[u]) && s'.qp[u].m == m ==> u in s.qp && s.qp[u] == s'.qp[u]
    ensures Given(s', m) <==> Given(s, m)
  {
    if u :| u in s.qp && Q.Flying(s.qp[u]) && s.qp[u].m == m { assert u in s'.qp; }
    if u :| u in s'.qp && Q.Flying(s'.qp[u]) && s'.qp[u].m == m { assert u in s.qp; }
  }

  lemma NoPut(q: Q.State, u: Tid, pc: Q.Pc, s: State, s': State, m: Task)
    requires QueueOf(s) == q && QueueOf(s') == WithPcs(q, q.pcs[u := pc])
    requires !Q.Flying(pc) && (u in q.pcs ==> !Q.Flying(q.pcs[u]))
    ensures Given(s', m) <==> Given(s, m)
  {
    SamePuts(s, s', m);
  }

  lemma PoolGiven(s: State, t: Tid, made: Option<Tid>, m: Task)
    requires Known(s) && Enabled(s, Pool(t, made))
    ensures Given(Apply(s, Pool(t, made)), m) <==> Given(s, m)
  {
    var o, s' := PoolStep(s, t, made), Apply(s, Pool(t, made));
    assert Hold(s.sh, t, s.fr[t], s.qp[t]);
    QueueSide(s, t, made);
    QueueSees(s, t, made);
    if o.pc != s.qp[t] {
      NoPut(QueueOf(s), t, o.pc, s, s', m);
    } else if o.spawn.Some? {
      NoPut(QueueOf(s), o.spawn.value, Q.Idle, s, s', m);
    }
  }

  lemma ScheduleGiven(s: State, t: Tid, n: Task, m: Task)
    requires Enabled(s, Schedule(t, n))
    ensures Given(Apply(s, Schedule(t, n)), m) <==> Given(s, m) || m == n
  {
    var s' := Apply(s, Schedule(t, n));
    if m == n {
      assert Q.Flying(s'.qp[t]) && s'.qp[t].m == n;
    } else {
      SamePuts(s, s', m);
    }
  }

  lemma ActionGiven(s: State, a: Action, m: Task)
    requires Known(s) && Enabled(s, a)
    ensures Given(Apply(s, a), m) <==> Given(s, m) || (a.Schedule? && a.m == m)
  {
    match a
    case Pool(t, made) => PoolGiven(s, t, made, m);
    case Queue(t, w) => QueueGiven(s, t, w, m);
    case Schedule(t, n) => ScheduleGiven(s, t, n, m);
    case _ => OtherGiven(s, a, m);
  }

  lemma OtherGiven(s: State, a: Action, m: Task)
    requires Enabled(s, a) && !a.Pool? && !a.Queue? && !a.Schedule?
    ensures Given(Apply(s, a), m) <==> Given(s, m)
  {
    SamePuts(s, Apply(s, a), m);
  }

  /** The tasks given are those for which `thrdpool_schedule` was called. */
  ghost predicate Called(acts: seq<Action>, i: nat, m: Task) {
    exists k :: 0 <= k < i && k < |acts| && acts[k].Schedule? && acts[k].m == m
  }

  lemma CalledMore(acts: seq<Action>, i: nat, m: Task)
    requires i < |acts|
    ensures Called(acts, i + 1, m) <==> Called(acts, i, m) || (acts[i].Schedule? && acts[i].m == m)
  {
  }

  /** Action `k` gives the task if it schedules it, and no other action does. */
  ghost predicate GivenAt(ss: seq<State>, acts: seq<Action>, k: int, m: Task) {
    0 <= k < |acts| && k + 1 < |ss| && (Given(ss[k + 1], m) <==> Given(ss[k], m) || (acts[k].Schedule? && acts[k].m == m))
  }

  lemma StepGiven(want: nat, ss: seq<State>, acts: seq<Action>, k: nat, m: Task)
    requires IsRun(want, ss, acts) && k < |acts|
    ensures GivenAt(ss, acts, k, m)
  {
    Reachable(want, ss, acts, k);
    ActionGiven(ss[k], acts[k], m);
  }

  lemma {:induction false} CountGiven(ss: seq<State>, acts: seq<Action>, i: nat, m: Task)
    requires |ss| == |acts| + 1 && i < |ss| && !Given(ss[0], m) && forall k :: 0 <= k < i ==> GivenAt(ss, acts, k, m)
    ensures Given(ss[i], m) <==> Called(acts, i, m)
  {
    if i > 0 {
      CountGiven(ss, acts, i - 1, m);
      assert GivenAt(ss, acts, i - 1, m);
      CalledMore(acts, i - 1, m);
    }
  }

  lemma GivenAreCalled(want: nat, ss: seq<State>, acts: seq<Action>, i: nat, m: Task)
    requires IsRun(want, ss, acts) && i < |ss|
    ensures Given(ss[i], m) <==> Called(acts, i, m)
  {
    forall k | 0 <= k < i ensures GivenAt(ss, acts, k, m) { StepGiven(want, ss, acts, k, m); }
    CountGiven(ss, acts, i, m);
  }

  lemma NoneFlying(s: State, m: Task)
    requires Known(s) && Linked(s) && s.sh.stage == 10
    ensures Given(s, m) <==> m in s.sh.q.enq
  {
    forall t | t in s.qp ensures !Q.Flying(s.qp[t]) {
      assert Place(s.sh, t, s.fr[t]) && Hold(s.sh, t, s.fr[t], s.qp[t]);
      if s.sh.destroyer != Some(t) { Alone(s, t); }
    }
  }

  /**
   When `thrdpool_destroy` returns, every task for which `thrdpool_schedule` was called, also by other tasks
   during destruction, was started exactly once or handed over exactly once, and not both; and no other was.
   */
  lemma EveryTaskAccounted(want: nat, ss: seq<State>, acts: seq<Action>, i: nat)
    requires IsRun(want, ss, acts) && i < |ss| && ss[i].sh.stage == 10
    ensures var sh := ss[i].sh;
      multiset(sh.q.enq) == multiset(sh.started) + multiset(sh.drained) && NoDup(sh.q.enq)
    ensures forall m :: m in ss[i].sh.q.enq <==> Called(acts, i, m)
  {
    Reachable(want, ss, acts, i);
    ReachesEmptied(want, ss, acts, i);
    NothingHeld(ss[i]);
    AllAccounted(ss[i]);
    forall m: Task ensures m in ss[i].sh.q.enq <==> Called(acts, i, m) {
      NoneFlying(ss[i], m);
      GivenAreCalled(want, ss, acts, i, m);
    }
  }

  lemma NothingHeld(s: State)
    requires Known(s) && Linked(s) && s.sh.stage == 10
    ensures forall m :: !Held(s, m)
  {
    forall t | t in s.fr ensures Holding(s.fr[t], s.qp[t]) == None {
      assert Place(s.sh, t, s.fr[t]) && Hold(s.sh, t, s.fr[t], s.qp[t]);
      if s.sh.destroyer != Some(t) { Alone(s, t); }
    }
  }

  lemma AllAccounted(s: State)
    requires Keys(s) && Tasks(s) && QI.Book(s.sh.q) && Empty(s.sh.q) && forall m :: !Held(s, m)
    ensures multiset(s.sh.q.enq) == multiset(s.sh.started) + multiset(s.sh.drained)
  {
    var sh := s.sh;
    assert sh.q.enq == sh.q.deq;
    forall m: Task ensures multiset(sh.q.enq)[m] == (multiset(sh.started) + multiset(sh.drained))[m] {
      Once(sh.q.enq, m);
      Once(sh.started, m);
      Once(sh.drained, m);
    }
  }

  lemma {:induction false} Once(l: seq<Task>, m: Task)
    requires NoDup(l)
    ensures multiset(l)[m] == if m in l then 1 else 0
  {
    if l != [] {
      assert l == [l[0]] + l[1..];
      Once(l[1..], m);
      assert multiset(l) == multiset{l[0]} + multiset(l[1..]);
      if m == l[0] { assert m !in l[1..]; }
    }
  }
}
