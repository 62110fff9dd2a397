/** Tasks started are tasks run: `started` against the frames in which the threads call the task routines (line 59). */
module PoolRuns {
  import opened Common
  import opened PoolMachine
  import opened PoolInv
  import opened PoolProof
  import opened PoolTasks
  import opened PoolSafety
  import opened PoolTheorems
  import opened PoolDrain
  import Q = QueueMachine

  /** Thread `t` is inside task `m`. */
  predicate Runs(s: State, t: Tid, m: Task) {
    t in s.fr && s.fr[t].User? && s.fr[t].task == Some(m)
  }

  predicate Enters(s: State, s': State, t: Tid, m: Task) {
    Runs(s', t, m) && !Runs(s, t, m)
  }

  /** In a state up to the `i`-th some thread is inside the task. */
  ghost predicate Ran(ss: seq<State>, i: nat, m: Task) {
    exists k, t :: 0 <= k <= i && k < |ss| && Runs(ss[k], t, m)
  }

  /** The task returned before state `i`. */
  ghost predicate Returned(ss: seq<State>, acts: seq<Action>, i: nat, m: Task) {
    exists k, t :: 0 <= k < i && k < |acts| && k < |ss| && acts[k] == Finish(t) && Runs(ss[k], t, m)
  }

  // ---- one step ----

  ghost predicate Begins(s: State, s': State, t: Tid, m: Task) {
    m !in s.sh.started && s'.sh.started == s.sh.started + [m] && !Runs(s, t, m) &&
    forall u, n :: Runs(s', u, n) <==> Runs(s, u, n) || (u == t && n == m)
  }

  ghost predicate Continues(s: State, a: Action, s': State) {
    s'.sh.started == s.sh.started && forall u, n :: Runs(s', u, n) <==> Runs(s, u, n) && a != Finish(u)
  }

  function TaskOf(f: Frame): Option<Task> {
    if f.User? then f.task else None
  }

  lemma WorkRuns(sh: Shared, t: Tid, f: Frame, pc: Q.Pc)
    requires !f.User?
    ensures var o := WorkStep(sh, t, f, pc);
      TaskOf(o.f) == (if f.Begin? then Some(f.m) else None) && o.spawn == None &&
      o.sh.started == sh.started + if f.Begin? then [f.m] else []
  {
  }

  lemma DestroyRuns(sh: Shared, t: Tid, inPool: bool, d: Stage, pc: Q.Pc)
    ensures var o := DestroyStep(sh, t, inPool, d, pc);
      o.sh.started == sh.started && (sh.terminate.Some? ==> o.sh.terminate.Some?)
  {
  }

  lemma UserRuns(sh: Shared, t: Tid, f: Frame, pc: Q.Pc, made: Option<Tid>)
    requires f.User?
    ensures var o := ActStep(sh, t, f.task.Some?, f.a, pc, made); o.sh.started == sh.started
  {
    if f.a.Ds? { DestroyRuns(sh, t, f.task.Some?, f.a.d, pc); }
  }

  lemma MergeBegins(s: State, t: Tid, o: Out<Frame>, m: Task)
    requires Keys(s) && t in s.fr && !s.fr[t].User? && o.spawn == None && m !in s.sh.started
    requires TaskOf(o.f) == Some(m) && o.sh.started == s.sh.started + [m]
    ensures Begins(s, Merge(s, t, o), t, m)
  {
  }

  lemma MergeContinues(s: State, t: Tid, o: Out<Frame>, a: Action)
    requires Keys(s) && t in s.fr && (o.spawn.Some? ==> o.spawn.value !in s.fr) && !a.Finish?
    requires TaskOf(o.f) == TaskOf(s.fr[t]) && o.sh.started == s.sh.started
    ensures Continues(s, a, Merge(s, t, o))
  {
  }

  lemma PoolSteps(s: State, t: Tid, made: Option<Tid>)
    requires Known(s) && Tasks(s) && Enabled(s, Pool(t, made))
    ensures var s' := Apply(s, Pool(t, made));
      if s.fr[t].Begin? then Begins(s, s', t, s.fr[t].m) else Continues(s, Pool(t, made), s')
  {
    var f, o := s.fr[t], PoolStep(s, t, made);
    assert Hold(s.sh, t, f, s.qp[t]);
    QueueSide(s, t, made);
    if f.User? { UserRuns(s.sh, t, f, s.qp[t], made); } else { WorkRuns(s.sh, t, f, s.qp[t]); }
    if f.Begin? {
      assert Holding(f, s.qp[t]) == Some(f.m);
      MergeBegins(s, t, o, f.m);
    } else {
      MergeContinues(s, t, o, Pool(t, made));
    }
  }

  lemma CallRuns(s: State, a: Action)
    requires Enabled(s, a) && !a.Pool? && !a.Queue?
    ensures Continues(s, a, Apply(s, a))
  {
  }

  lemma QueueRuns(s: State, t: Tid, w: Tid)
    requires Enabled(s, Queue(t, w))
    ensures Continues(s, Queue(t, w), Apply(s, Queue(t, w)))
  {
    QueueShape(s, t, w);
  }

  ghost predicate Steps(s: State, a: Action, s': State) {
    if a.Pool? && a.t in s.fr && s.fr[a.t].Begin? then Begins(s, s', a.t, s.fr[a.t].m) else Continues(s, a, s')
  }

  lemma ActionRuns(s: State, a: Action)
    requires Known(s) && Tasks(s) && Enabled(s, a)
    ensures Steps(s, a, Apply(s, a))
  {
    match a
    case Pool(t, made) => PoolSteps(s, t, made);
    case Queue(t, w) => QueueRuns(s, t, w);
    case _ => CallRuns(s, a);
  }

  // ---- runs ----

  ghost predicate At(ss: seq<State>, acts: seq<Action>, k: int) {
    0 <= k < |acts| && k + 1 < |ss| && Steps(ss[k], acts[k], ss[k + 1])
  }

  /** What the following needs of a run. */
  ghost predicate Story(ss: seq<State>, acts: seq<Action>) {
    |ss| == |acts| + 1 && ss[0].sh.started == [] && (forall t, m :: !Runs(ss[0], t, m)) &&
    forall k :: 0 <= k < |acts| ==> At(ss, acts, k)
  }

  lemma IsStory(want: nat, ss: seq<State>, acts: seq<Action>)
    requires IsRun(want, ss, acts)
    ensures Story(ss, acts)
  {
    forall k | 0 <= k < |acts| ensures At(ss, acts, k) {
      Reachable(want, ss, acts, k);
      ActionRuns(ss[k], acts[k]);
    }
  }

  lemma {:induction false} StaysStarted(ss: seq<State>, acts: seq<Action>, i: nat, j: nat, m: Task)
    requires Story(ss, acts) && i <= j < |ss| && m in ss[i].sh.started
    ensures m in ss[j].sh.started
  {
    if i < j {
      StaysStarted(ss, acts, i, j - 1, m);
      assert At(ss, acts, j - 1);
    }
  }

  lemma {:induction false} RunsStarted(ss: seq<State>, acts: seq<Action>, i: nat, t: Tid, m: Task)
    requires Story(ss, acts) && i < |ss| && Runs(ss[i], t, m)
    ensures m in ss[i].sh.started
  {
    if i > 0 {
      assert At(ss, acts, i - 1);
      if Runs(ss[i - 1], t, m) { RunsStarted(ss, acts, i - 1, t, m); }
    }
  }

  lemma {:induction false} Entered(ss: seq<State>, acts: seq<Action>, i: nat, m: Task) returns (k: nat, t: Tid)
    requires Story(ss, acts) && i < |ss| && m in ss[i].sh.started
    ensures k < i && Enters(ss[k], ss[k + 1], t, m)
  {
    assert i > 0 && At(ss, acts, i - 1);
    if m in ss[i - 1].sh.started {
      k, t := Entered(ss, acts, i - 1, m);
    } else {
      k, t := i - 1, acts[i - 1].t;
    }
  }

  /** The tasks in `started` are those some worker is or was inside. */
  lemma StartedIffRan(want: nat, ss: seq<State>, acts: seq<Action>, i: nat, m: Task)
    requires IsRun(want, ss, acts) && i < |ss|
    ensures m in ss[i].sh.started <==> Ran(ss, i, m)
  {
    IsStory(want, ss, acts);
    if m in ss[i].sh.started {
      var k, t := Entered(ss, acts, i, m);
      assert Runs(ss[k + 1], t, m);
    }
    if k, t :| 0 <= k <= i && Runs(ss[k], t, m) {
      RunsStarted(ss, acts, k, t, m);
      StaysStarted(ss, acts, k, i, m);
    }
  }

  lemma EntryIs(ss: seq<State>, acts: seq<Action>, k: nat, t: Tid, m: Task)
    requires Story(ss, acts) && k < |acts| && Enters(ss[k], ss[k + 1], t, m)
    ensures acts[k].Pool? && acts[k].t == t && m !in ss[k].sh.started && m in ss[k + 1].sh.started
  {
    assert At(ss, acts, k);
  }

  /** No task is entered twice, by the same thread or by two. */
  lemma EnteredOnce(want: nat, ss: seq<State>, acts: seq<Action>, j: nat, k: nat, t: Tid, u: Tid, m: Task)
    requires IsRun(want, ss, acts) && j <= k < |acts| && Enters(ss[j], ss[j + 1], t, m) && Enters(ss[k], ss[k + 1], u, m)
    ensures j == k && t == u
  {
    IsStory(want, ss, acts);
    EntryIs(ss, acts, j, t, m);
    EntryIs(ss, acts, k, u, m);
    if j < k { StaysStarted(ss, acts, j + 1, k, m); }
  }

  /** A thread leaves its task only by the return of the task. */
  lemma {:induction false} LeftByReturn(ss: seq<State>, acts: seq<Action>, i: nat, j: nat, t: Tid, m: Task)
    requires Story(ss, acts) && i <= j < |ss| && Runs(ss[i], t, m)
    ensures Runs(ss[j], t, m) || Returned(ss, acts, j, m)
  {
    if i < j {
      LeftByReturn(ss, acts, i, j - 1, t, m);
      assert At(ss, acts, j - 1);
      if Runs(ss[j - 1], t, m) {
        assert Runs(ss[j], t, m) || acts[j - 1] == Finish(t);
      }
    }
  }

  lemma OnlyDestroyerRuns(s: State, t: Tid, m: Task)
    requires Known(s) && Linked(s) && Terminated(s) && Runs(s, t, m)
    ensures s.sh.destroyer == Some(t)
  {
    if s.sh.destroyer != Some(t) { Alone(s, t); }
  }

  /** When `__thrdpool_terminate` has returned, every task that was started has returned too, but that of the destroyer. */
  lemma StartedReturn(want: nat, ss: seq<State>, acts: seq<Action>, i: nat, m: Task)
    requires IsRun(want, ss, acts) && i < |ss| && Terminated(ss[i]) && Ran(ss, i, m)
    ensures Returned(ss, acts, i, m) || (ss[i].sh.destroyer.Some? && Runs(ss[i], ss[i].sh.destroyer.value, m))
  {
    IsStory(want, ss, acts);
    var k, t :| 0 <= k <= i && Runs(ss[k], t, m);
    LeftByReturn(ss, acts, k, i, t, m);
    Reachable(want, ss, acts, i);
    if Runs(ss[i], t, m) { OnlyDestroyerRuns(ss[i], t, m); }
  }

  /**
   When `thrdpool_destroy` returns: a task was scheduled by call if and only if a worker ran it or `pending` got
   it, and no task had both; what a worker ran has returned, but for a task that is destroying the pool.
   */
  lemma EveryTaskRan(want: nat, ss: seq<State>, acts: seq<Action>, i: nat, m: Task)
    requires IsRun(want, ss, acts) && i < |ss| && ss[i].sh.stage == 10
    ensures Called(acts, i, m) <==> Ran(ss, i, m) || m in ss[i].sh.drained
    ensures !(Ran(ss, i, m) && m in ss[i].sh.drained)
    ensures Ran(ss, i, m) ==>
      Returned(ss, acts, i, m) || (ss[i].sh.destroyer.Some? && Runs(ss[i], ss[i].sh.destroyer.value, m))
  {
    EveryTaskAccounted(want, ss, acts, i);
    TasksConserved(want, ss, acts, i);
    StartedIffRan(want, ss, acts, i, m);
    var sh := ss[i].sh;
    assert m in sh.q.enq <==> m in multiset(sh.q.enq);
    assert m in multiset(sh.started) + multiset(sh.drained) <==> m in sh.started || m in sh.drained;
    if Ran(ss, i, m) { StartedReturn(want, ss, acts, i, m); }
  }

  /**
   At any time the tasks scheduled so far are those waiting in the queue, fetched by a thread, run by one, or handed
   to `pending`, each in one of these places and only once.
   */
  lemma TaskPlaces(want: nat, ss: seq<State>, acts: seq<Action>, i: nat, m: Task)
    requires IsRun(want, ss, acts) && i < |ss|
    ensures ss[i].fr.Keys == ss[i].qp.Keys
    ensures var s := ss[i];
      (m in s.sh.q.enq <==> Queued(s, m) || Held(s, m) || Ran(ss, i, m) || m in s.sh.drained) &&
      (Queued(s, m) ==> !Held(s, m)) && (Ran(ss, i, m) ==> !Queued(s, m) && !Held(s, m)) &&
      (m in s.sh.drained ==> !Queued(s, m) && !Held(s, m) && !Ran(ss, i, m)) &&
      NoDup(s.sh.q.enq) && NoDup(s.sh.drained)
  {
    TasksConserved(want, ss, acts, i);
    StartedIffRan(want, ss, acts, i, m);
  }

  predicate Queued(s: State, m: Task) {
    m in s.sh.q.getq || m in s.sh.q.putq
  }

  // ---- after `terminate` is set ----

  /** The thread has seen its last message. */
  predicate Past(s: State, t: Tid) {
    s.sh.terminate.Some? && (t in s.fr ==> s.fr[t] != Fetch && !s.fr[t].Begin?)
  }

  lemma WorkPast(sh: Shared, t: Tid, f: Frame, pc: Q.Pc)
    requires !f.User? && sh.terminate.Some?
    ensures var o := WorkStep(sh, t, f, pc);
      o.sh.terminate.Some? && o.spawn == None && (f != Fetch && !f.Begin? ==> o.f != Fetch && !o.f.Begin? && !o.f.User?)
  {
  }

  lemma UserPast(sh: Shared, t: Tid, f: Frame, pc: Q.Pc, made: Option<Tid>)
    requires f.User? && sh.terminate.Some?
    ensures ActStep(sh, t, f.task.Some?, f.a, pc, made).sh.terminate.Some?
  {
    if f.a.Ds? { DestroyRuns(sh, t, f.task.Some?, f.a.d, pc); }
  }

  lemma StepPast(s: State, a: Action, t: Tid)
    requires Enabled(s, a) && Past(s, t)
    ensures Past(Apply(s, a), t) && forall m :: Runs(Apply(s, a), t, m) ==> Runs(s, t, m)
  {
    if a.Pool? {
      var f := s.fr[a.t];
      if f.User? { UserPast(s.sh, a.t, f, s.qp[a.t], a.made); } else { WorkPast(s.sh, a.t, f, s.qp[a.t]); }
    }
  }

  /** Once `terminate` is set, a thread that is not just fetching a task, or a new one, never begins another task. */
  lemma {:induction false} NoNewTask(want: nat, ss: seq<State>, acts: seq<Action>, i: nat, j: nat, t: Tid, m: Task)
    requires IsRun(want, ss, acts) && i <= j < |ss| && Past(ss[i], t)
    ensures Past(ss[j], t) && (Runs(ss[j], t, m) ==> Runs(ss[i], t, m))
  {
    if i < j {
      NoNewTask(want, ss, acts, i, j - 1, t, m);
      StepPast(ss[j - 1], acts[j - 1], t);
    }
  }
}
