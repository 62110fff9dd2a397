/** The end of a pool: the object is freed, the last worker signals, and `pending` gets the tasks in their order. */
module PoolEnd {
  import opened Common
  import opened PoolMachine
  import opened PoolInv
  import opened PoolProof
  import opened PoolTasks
  import opened PoolSafety
  import opened PoolTheorems
  import opened PoolDrain
  import R = PoolRuns
  import Q = QueueMachine
  import QI = QueueInv

  // ---- the free ----

  /** A destroyer from outside that has returned has freed the pool (lines 236-237). */
  predicate OutsideFreed(s: State) {
    s.sh.stage == 10 && s.sh.destroyer.Some? && s.sh.destroyer.value in s.fr && Outside(s.fr[s.sh.destroyer.value]) ==> s.sh.freed
  }

  lemma DestroyFrees(sh: Shared, t: Tid, f: Frame, pc: Q.Pc)
    requires f.User? && f.a.Ds? && sh.stage == Nr(f.a.d) && sh.stage != 10
    ensures var sh' := ActStep(sh, t, f.task.Some?, f.a, pc, None).sh;
      sh'.stage == 10 ==> sh'.freed == (sh.freed || f.task == None)
  {
  }

  /** Only `thrdpool_destroy` moves on, and a thread outside stays outside. */
  lemma StageMoves(sh: Shared, t: Tid, f: Frame, pc: Q.Pc, made: Option<Tid>)
    ensures !f.User? ==> var o := WorkStep(sh, t, f, pc);
      o.sh.stage == sh.stage && o.sh.destroyer == sh.destroyer && (sh.freed ==> o.sh.freed) && !Outside(o.f)
    ensures f.User? && !f.a.Ds? ==> var o := CreateStep(sh, t, f.a, pc, made);
      (o.sh.stage == 10 ==> sh.stage == 10 && o.sh.destroyer == sh.destroyer) && o.sh.freed == sh.freed
  {
  }

  lemma PoolFreed(s: State, t: Tid, made: Option<Tid>)
    requires Known(s) && Enabled(s, Pool(t, made)) && OutsideFreed(s)
    ensures OutsideFreed(Apply(s, Pool(t, made)))
  {
    var f, pc := s.fr[t], s.qp[t];
    assert Place(s.sh, t, f) && Hold(s.sh, t, f, pc);
    QueueSide(s, t, made);
    if f.User? && f.a.Ds? {
      DestroyFrees(s.sh, t, f, pc);
    } else {
      StageMoves(s.sh, t, f, pc, made);
    }
  }

  lemma StepFreed(s: State, a: Action)
    requires Known(s) && Enabled(s, a) && OutsideFreed(s)
    ensures OutsideFreed(Apply(s, a))
  {
    if a.Pool? { PoolFreed(s, a.t, a.made); }
  }

  // ---- the signal ----

  /** Who is about to signal has brought the count to zero (line 72). */
  ghost predicate SignalLast(s: State) {
    forall t :: t in s.fr && s.fr[t].ExSignal? ==> s.sh.nthreads == 0
  }

  lemma WorkSignal(sh: Shared, t: Tid, f: Frame, pc: Q.Pc)
    requires !f.User? && Hold(sh, t, f, pc)
    ensures var o := WorkStep(sh, t, f, pc);
      o.spawn == None && (o.f.ExSignal? ==> o.sh.nthreads == 0) && (sh.owner != Some(t) ==> o.sh.nthreads == sh.nthreads)
  {
  }

  lemma UserSignal(sh: Shared, t: Tid, f: Frame, pc: Q.Pc, made: Option<Tid>)
    requires f.User? && Place(sh, t, f) && Hold(sh, t, f, pc) && sh.stage == 5 && sh.owner != Some(t)
    ensures ActStep(sh, t, f.task.Some?, f.a, pc, made).sh.nthreads == sh.nthreads
  {
  }

  lemma PoolSignal(s: State, t: Tid, made: Option<Tid>)
    requires Known(s) && Enabled(s, Pool(t, made)) && SignalLast(s)
    ensures SignalLast(Apply(s, Pool(t, made)))
  {
    var f, pc, s' := s.fr[t], s.qp[t], Apply(s, Pool(t, made));
    assert Hold(s.sh, t, f, pc) && Place(s.sh, t, f);
    QueueSide(s, t, made);
    if !f.User? { WorkSignal(s.sh, t, f, pc); }
    forall u | u in s'.fr && s'.fr[u].ExSignal? ensures s'.sh.nthreads == 0 {
      if u != t {
        assert u in s.fr && s.fr[u].ExSignal? && Hold(s.sh, u, s.fr[u], s.qp[u]);
        if f.User? { UserSignal(s.sh, t, f, pc, made); }
      }
    }
  }

  lemma CallSignal(s: State, a: Action)
    requires Enabled(s, a) && !a.Pool? && SignalLast(s)
    ensures SignalLast(Apply(s, a))
  {
  }

  lemma StepSignal(s: State, a: Action)
    requires Known(s) && Enabled(s, a) && SignalLast(s)
    ensures SignalLast(Apply(s, a))
  {
    if a.Pool? { PoolSignal(s, a.t, a.made); } else { CallSignal(s, a); }
  }

  // ---- the order of the drain ----

  function Suffix(l: seq<Task>, of: seq<Task>): bool {
    |l| <= |of| && of[|of| - |l|..] == l
  }

  /** The tasks that the drain loop has taken from the queue. */
  function Drain(s: State, d: Tid): seq<Task>
    requires d in s.fr && d in s.qp
  {
    s.sh.drained + if Holding(s.fr[d], s.qp[d]).Some? then [Holding(s.fr[d], s.qp[d]).value] else []
  }

  /** They are the last that have left the queue, in the same order. */
  ghost predicate InOrder(s: State) {
    (s.sh.stage < 8 ==> s.sh.drained == []) &&
    (s.sh.stage >= 8 && s.sh.destroyer.Some? ==>
       var d := s.sh.destroyer.value; d in s.fr && d in s.qp && Suffix(Drain(s, d), s.sh.q.deq))
  }

  lemma QueueInOrder(s: State, t: Tid, w: Tid)
    requires Inv(s) && Enabled(s, Queue(t, w)) && InOrder(s)
    ensures InOrder(Apply(s, Queue(t, w)))
  {
    QueueShape(s, t, w);
    if s.sh.stage >= 8 {
      DestroyerGets(s, t);
      ExecEffect(s.sh.q, t, s.qp[t], w);
      assert Place(s.sh, t, s.fr[t]) && Hold(s.sh, t, s.fr[t], s.qp[t]);
      TakeInOrder(s, Apply(s, Queue(t, w)), t);
    }
  }

  lemma TakeInOrder(s: State, s': State, t: Tid)
    requires t in s.fr && t in s.qp && t in s'.qp && s'.fr == s.fr && s'.sh == s.sh.(q := s'.sh.q)
    requires s.sh.destroyer == Some(t) && !s.fr[t].Begin? && s.qp[t].Get? && s.sh.stage >= 8
    requires QueueEffect(s.sh.q, s.qp[t], s'.sh.q, s'.qp[t]) && InOrder(s)
    ensures InOrder(s')
  {
    var l, of := Drain(s, t), s.sh.q.deq;
    if s'.sh.q.deq != of {
      var m := s.sh.q.getq[0];
      assert Drain(s', t) == l + [m];
      assert (of + [m])[|of| - |l|..] == of[|of| - |l|..] + [m];
    }
  }

  lemma DrainOrder(sh: Shared, fr: map<Tid, Frame>, t: Tid, f: Frame, pc: Q.Pc)
    requires f.User? && f.a.Ds? && ActReady(sh, fr, t, f.a, pc) && QueueMatch(f, pc) && sh.stage == Nr(f.a.d)
    ensures var o := ActStep(sh, t, f.task.Some?, f.a, pc, None);
      (o.sh.stage < 8 ==> o.sh.drained == sh.drained) && o.sh.destroyer == sh.destroyer &&
      (sh.stage < 8 ==> sh.drained == o.sh.drained && Holding(f.(a := o.f), o.pc) == None && sh.stage <= o.sh.stage) &&
      (sh.stage >= 8 ==> o.sh.stage >= 8 && (o.sh.drained == sh.drained || Holding(f, pc).Some?))
  {
  }

  /** An instruction of the destroyer leaves what the loop has taken as it is, handed over or not. */
  lemma OwnDrain(sh: Shared, fr: map<Tid, Frame>, t: Tid, f: Frame, pc: Q.Pc, made: Option<Tid>)
    requires !f.Begin? && QueueMatch(f, pc) && (if f.User? then ActReady(sh, fr, t, f.a, pc) else WorkReady(sh, fr, f, pc))
    ensures f.User? ==> var o := ActStep(sh, t, f.task.Some?, f.a, pc, made);
      o.sh.started == sh.started && TaskEffect(sh, f, pc, Out(o.sh, f.(a := o.f), o.pc, o.spawn))
    ensures !f.User? ==> WorkStep(sh, t, f, pc).sh.started == sh.started && TaskEffect(sh, f, pc, WorkStep(sh, t, f, pc))
  {
    if f.User? {
      R.UserRuns(sh, t, f, pc, made);
      UserEffect(sh, fr, t, f, pc, made);
    } else {
      R.WorkRuns(sh, t, f, pc);
      WorkEffect(sh, fr, t, f, pc);
    }
  }

  lemma LateInOrder(s: State, t: Tid, made: Option<Tid>)
    requires Known(s) && Linked(s) && Enabled(s, Pool(t, made)) && InOrder(s) && s.sh.stage >= 8
    ensures InOrder(Apply(s, Pool(t, made)))
  {
    var f, pc, o := s.fr[t], s.qp[t], PoolStep(s, t, made);
    assert Place(s.sh, t, f) && Hold(s.sh, t, f, pc);
    if s.sh.destroyer != Some(t) { Alone(s, t); }
    QueueSide(s, t, made);
    OwnDrain(s.sh, s.fr, t, f, pc, made);
    StageMoves(s.sh, t, f, pc, made);
    if f.User? { DrainOrder(s.sh, s.fr, t, f, pc); }
    assert Drain(Apply(s, Pool(t, made)), t) == Drain(s, t);
  }

  lemma EarlyInOrder(s: State, t: Tid, made: Option<Tid>)
    requires Known(s) && Enabled(s, Pool(t, made)) && InOrder(s) && s.sh.stage < 8
    ensures InOrder(Apply(s, Pool(t, made)))
  {
    var f, pc := s.fr[t], s.qp[t];
    assert Place(s.sh, t, f) && Hold(s.sh, t, f, pc);
    QueueSide(s, t, made);
    if f.User? && f.a.Ds? {
      DrainOrder(s.sh, s.fr, t, f, pc);
    } else {
      NotDrained(s.sh, t, f, pc, made);
    }
  }

  lemma NotDrained(sh: Shared, t: Tid, f: Frame, pc: Q.Pc, made: Option<Tid>)
    requires sh.stage < 8 && (f.User? ==> !f.a.Ds?)
    ensures !f.User? ==> WorkStep(sh, t, f, pc).sh.stage < 8 && WorkStep(sh, t, f, pc).sh.drained == sh.drained
    ensures f.User? ==> var o := CreateStep(sh, t, f.a, pc, made); o.sh.stage < 8 && o.sh.drained == sh.drained
  {
  }

  lemma CallInOrder(s: State, a: Action)
    requires Known(s) && Enabled(s, a) && !a.Pool? && !a.Queue? && InOrder(s)
    ensures InOrder(Apply(s, a))
  {
    if s.sh.destroyer.Some? {
      var d := s.sh.destroyer.value;
      assert Place(s.sh, d, s.fr[d]) && Hold(s.sh, d, s.fr[d], s.qp[d]);
    }
  }

  lemma StepInOrder(s: State, a: Action)
    requires Inv(s) && Enabled(s, a) && InOrder(s)
    ensures InOrder(Apply(s, a))
  {
    match a
    case Pool(t, made) => if s.sh.stage >= 8 { LateInOrder(s, t, made); } else { EarlyInOrder(s, t, made); }
    case Queue(t, w) => QueueInOrder(s, t, w);
    case _ => CallInOrder(s, a);
  }

  // ---- runs ----

  ghost predicate Ends(s: State) {
    OutsideFreed(s) && SignalLast(s) && InOrder(s)
  }

  ghost predicate EndsAt(ss: seq<State>, k: int) {
    0 <= k && k + 1 < |ss| && (Ends(ss[k]) ==> Ends(ss[k + 1]))
  }

  lemma StepEnds(s: State, a: Action)
    requires Inv(s) && Enabled(s, a) && Ends(s)
    ensures Ends(Apply(s, a))
  {
    StepFreed(s, a);
    StepSignal(s, a);
    StepInOrder(s, a);
  }

  lemma NextEnds(want: nat, ss: seq<State>, acts: seq<Action>, k: nat)
    requires IsRun(want, ss, acts) && k < |acts|
    ensures EndsAt(ss, k)
  {
    Reachable(want, ss, acts, k);
    if Ends(ss[k]) { StepEnds(ss[k], acts[k]); }
  }

  lemma {:induction false} EndsFor(ss: seq<State>, i: nat)
    requires i < |ss| && Ends(ss[0]) && forall k :: 0 <= k < i ==> EndsAt(ss, k)
    ensures Ends(ss[i])
  {
    if i > 0 {
      EndsFor(ss, i - 1);
      assert EndsAt(ss, i - 1);
    }
  }

  lemma EndsReached(want: nat, ss: seq<State>, acts: seq<Action>, i: nat)
    requires IsRun(want, ss, acts) && i < |ss|
    ensures Ends(ss[i])
  {
    forall k | 0 <= k < i ensures EndsAt(ss, k) { NextEnds(want, ss, acts, k); }
    EndsFor(ss, i);
  }

  /** The pool has been freed exactly when destroy is through and its caller is outside the pool, or has left it. */
  lemma FreedIff(want: nat, ss: seq<State>, acts: seq<Action>, i: nat)
    requires IsRun(want, ss, acts) && i < |ss|
    ensures var s := ss[i]; s.sh.freed <==>
      s.sh.stage == 10 && s.sh.destroyer.Some? &&
      var d := s.sh.destroyer.value; d in s.fr && (Outside(s.fr[d]) || s.fr[d] == Gone)
  {
    EndsReached(want, ss, acts, i);
    Reachable(want, ss, acts, i);
    FreedWhen(ss[i]);
  }

  lemma FreedWhen(s: State)
    requires Known(s) && OutsideFreed(s)
    ensures s.sh.freed <==>
      s.sh.stage == 10 && s.sh.destroyer.Some? &&
      var d := s.sh.destroyer.value; d in s.fr && (Outside(s.fr[d]) || s.fr[d] == Gone)
  {
    if s.sh.destroyer.Some? {
      var d := s.sh.destroyer.value;
      assert Place(s.sh, d, s.fr[d]);
    }
  }

  /** A worker that signals is the last: the count is zero. */
  lemma LastSignals(want: nat, ss: seq<State>, acts: seq<Action>, i: nat, t: Tid)
    requires IsRun(want, ss, acts) && i < |ss| && t in ss[i].fr && ss[i].fr[t].ExSignal?
    ensures ss[i].sh.nthreads == 0
  {
    EndsReached(want, ss, acts, i);
  }

  /** The tasks handed to `pending` are the last that were queued, and it gets them in the order of the queue. */
  lemma PendingInOrder(want: nat, ss: seq<State>, acts: seq<Action>, i: nat)
    requires IsRun(want, ss, acts) && i < |ss| && ss[i].sh.stage == 10
    ensures Suffix(ss[i].sh.drained, ss[i].sh.q.enq)
  {
    EndsReached(want, ss, acts, i);
    Reachable(want, ss, acts, i);
    ReachesEmptied(want, ss, acts, i);
    LastQueued(ss[i]);
  }

  lemma LastQueued(s: State)
    requires Known(s) && Linked(s) && QI.Book(s.sh.q) && Emptied(s) && InOrder(s) && s.sh.stage == 10
    ensures Suffix(s.sh.drained, s.sh.q.enq)
  {
    var d := s.sh.destroyer.value;
    NothingHeld(s);
    assert Holding(s.fr[d], s.qp[d]) == None by {
      if x :| Holding(s.fr[d], s.qp[d]) == Some(x) { assert Held(s, x); }
    }
    assert s.sh.q.enq == s.sh.q.deq;
  }
}
