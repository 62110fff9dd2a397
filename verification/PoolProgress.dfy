/**
 Destroying a pool never deadlocks: from the call of destroy until it returns, some thread always has
 an instruction it can execute, provided that tasks return. Spurious wakeups are not counted on.
 */
module PoolProgress {
  import opened Common
  import opened PoolMachine
  import opened PoolInv
  import opened PoolProof
  import opened PoolJoin
  import opened PoolSafety
  import Q = QueueMachine
  import QI = QueueInv
  import QS = QueueSpec

  /** Some thread can execute an instruction of the pool or of the queue, or is running its task. */
  ghost predicate SomeoneMoves(s: State) {
    exists a: Action :: (a.Pool? || a.Queue? || a.Finish?) && Enabled(s, a)
  }

  lemma PoolMoves(s: State, t: Tid)
    requires t in s.fr && t in s.qp && PoolReady(s, t)
    ensures SomeoneMoves(s)
  {
    assert Enabled(s, Pool(t, None));
  }

  lemma QueueMoves(s: State, t: Tid)
    requires t in s.qp && Q.Ready(s.sh.q, t, s.qp[t])
    ensures SomeoneMoves(s)
  {
    var w: Tid :| s.sh.q.getCond != {} ==> w in s.sh.q.getCond;
    assert Enabled(s, Queue(t, w));
  }

  /** Whoever holds the pool mutex can go on, except that its queue operation may be blocked. */
  lemma HolderMoves(s: State)
    requires Known(s) && s.sh.owner.Some?
    requires ActOf(s.fr[s.sh.owner.value]) != Ds(DsMode)
    ensures SomeoneMoves(s)
  {
    var o := s.sh.owner.value;
    assert Hold(s.sh, o, s.fr[o], s.qp[o]);
    PoolMoves(s, o);
  }

  /** Whoever holds `put_mutex` can go on. */
  lemma PutHolderReady(q: Q.Shared, p: Tid, pc: Q.Pc)
    requires QI.Local(q, p, pc) && q.putOwner == Some(p)
    ensures Q.Ready(q, p, pc)
  {
  }

  lemma ModeReady(q: Q.Shared, t: Tid, pc: Q.Pc)
    requires pc.Mode? && !Q.IsRet(pc)
    ensures Q.Ready(q, t, pc) || q.putOwner.Some?
  {
  }

  /** `msgqueue_set_nonblock` waits only for `put_mutex`. */
  lemma SwitchMoves(s: State, t: Tid)
    requires Known(s) && QI.Locals(QueueOf(s)) && t in s.fr && ActOf(s.fr[t]) == Ds(DsMode)
    ensures SomeoneMoves(s)
  {
    assert Hold(s.sh, t, s.fr[t], s.qp[t]);
    if Q.IsRet(s.qp[t]) {
      PoolMoves(s, t);
    } else {
      ModeReady(s.sh.q, t, s.qp[t]);
      if s.sh.q.putOwner.Some? {
        var p := s.sh.q.putOwner.value;
        PutHolderReady(s.sh.q, p, s.qp[p]);
        QueueMoves(s, p);
      } else {
        QueueMoves(s, t);
      }
    }
  }

  lemma MutexMoves(s: State)
    requires Known(s) && QI.Inv(QueueOf(s)) && s.sh.owner.Some?
    ensures SomeoneMoves(s)
  {
    var o := s.sh.owner.value;
    assert Hold(s.sh, o, s.fr[o], s.qp[o]);
    if ActOf(s.fr[o]) == Ds(DsMode) { SwitchMoves(s, o); } else { HolderMoves(s); }
  }

  /** A thread inside a put or a get, in nonblocking mode. */
  lemma OperationMoves(s: State, t: Tid)
    requires Known(s) && QI.Inv(QueueOf(s)) && s.sh.q.nonblock && t in s.fr && s.qp[t] != Q.Idle
    requires PoolReady(s, t) || !Q.IsRet(s.qp[t])
    ensures SomeoneMoves(s)
  {
    if Q.IsRet(s.qp[t]) {
      PoolMoves(s, t);
    } else {
      QS.NonblockProgress(QueueOf(s), t);
      var u :| u in s.qp && Q.Ready(s.sh.q, u, s.qp[u]);
      QueueMoves(s, u);
    }
  }

  /** A counted worker moves, or somebody else does. */
  lemma WorkerMoves(s: State, t: Tid)
    requires Known(s) && QI.Inv(QueueOf(s)) && s.sh.q.nonblock && t in s.fr && Counted(s.sh, t, s.fr[t]) && s.sh.stage >= 5
    ensures SomeoneMoves(s)
  {
    var f := s.fr[t];
    assert Hold(s.sh, t, f, s.qp[t]) && Place(s.sh, t, f);
    if f == Fetch {
      OperationMoves(s, t);
    } else if f.User? {
      if f.a == Rest {
        assert Enabled(s, Finish(t));
      } else if f.a.Sched? {
        OperationMoves(s, t);
      } else if f.a == IncLock && s.sh.owner.Some? {
        MutexMoves(s);
      } else {
        PoolMoves(s, t);
      }
    } else if f == ExLock && s.sh.owner.Some? {
      MutexMoves(s);
    } else {
      PoolMoves(s, t);
    }
  }

  /** The terminator waits on its condition variable. */
  lemma WaitMoves(s: State, d: Tid)
    requires Inv(s) && d in s.fr && ActOf(s.fr[d]) == Ds(DsWait)
    ensures SomeoneMoves(s)
  {
    assert Hold(s.sh, d, s.fr[d], s.qp[d]) && Place(s.sh, d, s.fr[d]);
    if s.sh.owner.Some? {
      MutexMoves(s);
    } else if d !in s.sh.termCond {
      PoolMoves(s, d);
    } else {
      assert Active(s) != {};
      var t :| t in Active(s);
      WorkerMoves(s, t);
    }
  }

  /** The chain of joins is well founded: its first worker that has not returned waits for nobody. */
  lemma FirstLeaver(sh: Shared, fr: map<Tid, Frame>) returns (i: nat)
    requires JoinChain(sh, fr) && sh.exits != [] && sh.stage < 8
    requires sh.exits[|sh.exits| - 1] in fr && fr[sh.exits[|sh.exits| - 1]] != Gone
    ensures i < |sh.exits| && sh.exits[i] in fr && fr[sh.exits[i]] != Gone
    ensures i > 0 ==> sh.exits[i - 1] in fr && fr[sh.exits[i - 1]] == Gone
  {
    var n, j := |sh.exits|, |sh.joined|;
    assert Link(sh, fr, n - 1) && Link(sh, fr, 0);
    if fr[sh.exits[0]] != Gone {
      i := 0;
    } else {
      i := j + 1;
      assert Link(sh, fr, j) && Link(sh, fr, j + 1);
    }
  }

  lemma LastOut(s: State, d: Tid)
    requires Known(s) && d in s.fr && ActOf(s.fr[d]) == Ds(DsJoin) && !Joinable(s.fr, s.sh.tid)
    ensures var l := s.sh.exits; s.sh.stage == 7 && l != [] && l[|l| - 1] in s.fr && s.fr[l[|l| - 1]] != Gone
  {
    assert Place(s.sh, d, s.fr[d]);
  }

  lemma ChainMoves(s: State)
    requires Known(s) && Linked(s) && s.sh.exits != [] && s.sh.stage < 8
    requires var l := s.sh.exits[|s.sh.exits| - 1]; l in s.fr && s.fr[l] != Gone
    ensures SomeoneMoves(s)
  {
    var i := FirstLeaver(s.sh, s.fr);
    LeaverMoves(s, i);
  }

  lemma JoinMoves(s: State, d: Tid)
    requires Known(s) && Linked(s) && d in s.fr && s.fr[d].User? && s.fr[d].a == Ds(DsJoin)
    ensures SomeoneMoves(s)
  {
    if Joinable(s.fr, s.sh.tid) {
      PoolMoves(s, d);
    } else {
      LastOut(s, d);
      ChainMoves(s);
    }
  }

  lemma LeaverMoves(s: State, i: nat)
    requires Known(s) && Linked(s) && i < |s.sh.exits| && s.sh.exits[i] in s.fr && s.fr[s.sh.exits[i]] != Gone
    requires i > 0 ==> s.sh.exits[i - 1] in s.fr && s.fr[s.sh.exits[i - 1]] == Gone
    ensures SomeoneMoves(s)
  {
    var x := s.sh.exits[i];
    assert Link(s.sh, s.fr, i);
    assert Hold(s.sh, x, s.fr[x], s.qp[x]);
    PoolMoves(s, x);
  }

  lemma DestroyerStands(sh: Shared, d: Tid, f: Frame, pc: Q.Pc)
    requires Place(sh, d, f) && Hold(sh, d, f, pc) && Book(sh) && sh.destroyer == Some(d) && 1 <= sh.stage < 10
    ensures f.User? && f.a.Ds? && f.a.d != DsDone
    ensures f.a.d == DrainGet ==> pc.Get? && sh.q.nonblock
  {
  }

  lemma DestroyMoves(s: State, d: Tid)
    requires Inv(s) && s.sh.destroyer == Some(d) && 1 <= s.sh.stage < 10
    ensures SomeoneMoves(s)
  {
    var f := s.fr[d];
    assert Hold(s.sh, d, f, s.qp[d]) && Place(s.sh, d, f);
    DestroyerStands(s.sh, d, f, s.qp[d]);
    match f.a.d
    case DsLock => if s.sh.owner.Some? { MutexMoves(s); } else { PoolMoves(s, d); }
    case DsMode => SwitchMoves(s, d);
    case DsWait => WaitMoves(s, d);
    case DsJoin => JoinMoves(s, d);
    case DrainGet => OperationMoves(s, d);
    case _ => PoolMoves(s, d);
  }

  // ---- before destroy ----

  /** Some thread can execute an instruction of the pool or of the queue, whether or not any task returns. */
  ghost predicate PoolGoesOn(s: State) {
    exists a: Action :: (a.Pool? || a.Queue?) && Enabled(s, a)
  }

  lemma FetchGoesOn(s: State, t: Tid)
    requires QI.Inv(QueueOf(s)) && t in s.fr && t in s.qp && s.fr[t] == Fetch && s.qp[t].Get?
    requires s.sh.q.getq != [] || s.sh.q.putq != []
    ensures PoolGoesOn(s)
  {
    if Q.IsRet(s.qp[t]) {
      assert Enabled(s, Pool(t, None));
    } else if u :| u in s.qp && Q.Ready(s.sh.q, u, s.qp[u]) {
      var w: Tid :| s.sh.q.getCond != {} ==> w in s.sh.q.getCond;
      assert Enabled(s, Queue(u, w));
    } else {
      QS.NoStuckQueue(QueueOf(s), t);
    }
  }

  lemma WorkerGoesOn(s: State, t: Tid)
    requires Known(s) && QI.Inv(QueueOf(s)) && s.sh.stage == 0 && t in s.fr && !s.fr[t].User?
    requires s.sh.q.getq != [] || s.sh.q.putq != []
    ensures PoolGoesOn(s)
  {
    assert Place(s.sh, t, s.fr[t]) && Hold(s.sh, t, s.fr[t], s.qp[t]);
    if s.fr[t] == Fetch { FetchGoesOn(s, t); } else { NotLeaving(s, t); assert Enabled(s, Pool(t, None)); }
  }

  lemma NotLeaving(s: State, t: Tid)
    requires Known(s) && s.sh.stage == 0 && t in s.fr && !s.fr[t].User? && s.fr[t] != Fetch
    ensures t in s.qp && PoolReady(s, t)
  {
    assert Place(s.sh, t, s.fr[t]) && Hold(s.sh, t, s.fr[t], s.qp[t]);
  }

  /** Before destroy: a worker outside its tasks and a task in the queue never leave the pool stuck, whatever tasks do. */
  lemma TaskGoesOn(want: nat, ss: seq<State>, acts: seq<Action>, i: nat, t: Tid)
    requires IsRun(want, ss, acts) && i < |ss| && ss[i].sh.stage == 0 && t in ss[i].fr && !ss[i].fr[t].User?
    requires ss[i].sh.q.getq != [] || ss[i].sh.q.putq != []
    ensures PoolGoesOn(ss[i])
  {
    Reachable(want, ss, acts, i);
    WorkerGoesOn(ss[i], t);
  }

  // ---- while it is destroyed ----

  /** From the call of destroy until it returns some thread can always go on. */
  lemma NoDeadlock(want: nat, ss: seq<State>, acts: seq<Action>, i: nat)
    requires IsRun(want, ss, acts) && i < |ss| && 1 <= ss[i].sh.stage < 10
    ensures SomeoneMoves(ss[i])
  {
    Reachable(want, ss, acts, i);
    DestroyMoves(ss[i], ss[i].sh.destroyer.value);
  }
}
