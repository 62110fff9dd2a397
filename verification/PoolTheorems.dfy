/** What the thread pool promises, in every run. */
module PoolTheorems {
  import opened Common
  import opened PoolMachine
  import opened PoolInv
  import opened PoolProof
  import opened PoolJoin
  import opened PoolSafety
  import opened PoolRoles
  import Q = QueueMachine

  // ---- when the terminator has finished waiting and joining ----

  /** `__thrdpool_terminate` has returned (to destroy, or to the failed creation). */
  predicate Terminated(s: State) {
    s.sh.stage >= 8
  }

  lemma {:induction false} OnlyTheDestroyer(s: State, t: Tid)
    requires Known(s) && Count(s) && s.sh.stage >= 6 && t in s.fr && s.sh.destroyer != Some(t)
    ensures s.fr[t] == User(None, Rest) || t in s.sh.exits
  {
    assert Place(s.sh, t, s.fr[t]) && Hold(s.sh, t, s.fr[t], s.qp[t]);
    if Counted(s.sh, t, s.fr[t]) { CountedMany(s, t); }
  }

  lemma AllGone(s: State, t: Tid)
    requires Known(s) && Linked(s) && Terminated(s) && t in s.sh.exits
    ensures t in s.fr && s.fr[t] == Gone && t in s.sh.joined
  {
    var i :| 0 <= i < |s.sh.exits| && s.sh.exits[i] == t;
    assert Link(s.sh, s.fr, i);
    assert s.sh.joined[i] == t;
  }

  /**
   When `__thrdpool_terminate` returns, every worker ever created, except a destroyer that is one, has returned
   from `__thrdpool_routine` and has been joined, exactly once, and nothing else has been joined; threads
   outside are not using the pool.
   */
  lemma TerminateJoinsAll(want: nat, ss: seq<State>, acts: seq<Action>, i: nat)
    requires IsRun(want, ss, acts) && i < |ss| && Terminated(ss[i])
    ensures var s := ss[i];
      (forall t :: t in s.sh.workers && s.sh.destroyer != Some(t) ==> t in s.fr && s.fr[t] == Gone && t in s.sh.joined) &&
      (forall t :: t in s.sh.joined ==> t in s.sh.workers && s.sh.destroyer != Some(t)) &&
      NoDup(s.sh.joined) && s.sh.joined == s.sh.exits &&
      (forall t :: t in s.fr && t !in s.sh.workers && s.sh.destroyer != Some(t) ==> s.fr[t] == User(None, Rest))
  {
    Reachable(want, ss, acts, i);
    RolesReached(want, ss, acts, i);
    AllJoined(ss[i]);
    JoinedAre(ss[i]);
  }

  lemma AllJoined(s: State)
    requires Known(s) && Linked(s) && Roles(s) && Terminated(s)
    ensures forall t :: t in s.sh.workers && s.sh.destroyer != Some(t) ==> t in s.fr && s.fr[t] == Gone && t in s.sh.joined
    ensures forall t :: t in s.sh.joined ==> t in s.sh.workers
    ensures forall t :: t in s.fr && t !in s.sh.workers && s.sh.destroyer != Some(t) ==> s.fr[t] == User(None, Rest)
  {
    forall t | t in s.fr && s.sh.destroyer != Some(t)
      ensures if t in s.sh.workers then s.fr[t] == Gone && t in s.sh.joined else s.fr[t] == User(None, Rest)
    {
      OnlyTheDestroyer(s, t);
      if t in s.sh.exits { AllGone(s, t); }
    }
    forall t | t in s.sh.exits ensures t in s.sh.workers { AllGone(s, t); }
  }

  /** The thread that the next instruction joins, if it is a join. */
  function Joins(sh: Shared, f: Frame): Option<Tid> {
    if f.ExJoin? then f.prev else if ActOf(f) == Ds(DsJoin) then sh.tid else None
  }

  /** A thread that joins or waits to join never names itself or a thread joined before, but a worker that left. */
  lemma JoinsOnce(want: nat, ss: seq<State>, acts: seq<Action>, i: nat, t: Tid)
    requires IsRun(want, ss, acts) && i < |ss| && t in ss[i].fr && Joins(ss[i].sh, ss[i].fr[t]).Some?
    ensures var x := Joins(ss[i].sh, ss[i].fr[t]).value; x != t && x !in ss[i].sh.joined && x in ss[i].sh.exits
  {
    Reachable(want, ss, acts, i);
    JoinFacts(ss[i], t);
  }

  lemma JoinFacts(s: State, t: Tid)
    requires Known(s) && Linked(s) && t in s.fr && Joins(s.sh, s.fr[t]).Some?
    ensures var x := Joins(s.sh, s.fr[t]).value; x != t && x !in s.sh.joined && x in s.sh.exits
  {
    assert Place(s.sh, t, s.fr[t]) && Hold(s.sh, t, s.fr[t], s.qp[t]);
    JoinStanding(s.sh, t, s.fr[t], s.qp[t]);
    if s.fr[t].ExJoin? { WorkerJoins(s.sh, s.fr, t); } else { LastJoin(s.sh, t); }
  }

  lemma JoinStanding(sh: Shared, t: Tid, f: Frame, pc: Q.Pc)
    requires Place(sh, t, f) && Hold(sh, t, f, pc) && Joins(sh, f).Some?
    ensures if f.ExJoin? then t in sh.exits else ActOf(f) == Ds(DsJoin) && t !in sh.exits && sh.stage == 7
  {
  }

  /** Worker `k` to leave has not returned, so the threads joined are among those before the one it joins. */
  lemma WorkerJoins(sh: Shared, fr: map<Tid, Frame>, t: Tid)
    requires JoinChain(sh, fr) && t in sh.exits && t in fr && fr[t].ExJoin? && fr[t].prev.Some?
    ensures var x := fr[t].prev.value; x != t && x !in sh.joined && x in sh.exits
  {
    var k :| 0 <= k < |sh.exits| && sh.exits[k] == t;
    assert Link(sh, fr, k);
    assert fr[t].prev.value == sh.exits[k - 1] && |sh.joined| <= k - 1;
  }

  lemma LastJoin(sh: Shared, t: Tid)
    requires NoDup(sh.exits) && |sh.joined| < |sh.exits| && sh.joined == sh.exits[..|sh.joined|]
    requires Book(sh) && t !in sh.exits && sh.tid.Some?
    ensures var x := sh.tid.value; x != t && x !in sh.joined && x in sh.exits
  {
    assert sh.tid.value == sh.exits[|sh.exits| - 1];
  }

  lemma JoinedAre(s: State)
    requires Known(s) && Linked(s) && Terminated(s)
    ensures s.sh.joined == s.sh.exits && NoDup(s.sh.joined)
    ensures forall t :: t in s.sh.joined ==> s.sh.destroyer != Some(t)
  {
    forall t | t in s.sh.exits ensures s.sh.destroyer != Some(t) {
      assert Hold(s.sh, t, s.fr[t], s.qp[t]);
    }
  }

  // ---- freeing the pool ----

  /** The next instruction of the thread reads or writes the pool or its queue, or frees the pool. */
  predicate Touches(f: Frame) {
    match f
    case User(_, a) => a != Rest && a != Ds(DsDone)
    case ExJoin(_) => false
    case Gone => false
    case _ => true
  }

  predicate Frees(f: Frame) {
    f == FreePool || f == User(None, Ds(DsFree))
  }

  /** Once the pool is freed no thread touches it, and none may call into it: so it is freed only once. */
  lemma NoUseAfterFree(want: nat, ss: seq<State>, acts: seq<Action>, i: nat, t: Tid)
    requires IsRun(want, ss, acts) && i < |ss| && ss[i].sh.freed && t in ss[i].fr
    ensures !Touches(ss[i].fr[t]) && !Frees(ss[i].fr[t]) && !MayCall(ss[i], t)
  {
    Reachable(want, ss, acts, i);
    FreedQuiet(ss[i], t);
  }

  lemma FreedQuiet(s: State, t: Tid)
    requires Known(s) && Linked(s) && s.sh.freed && t in s.fr
    ensures !Touches(s.fr[t]) && !Frees(s.fr[t]) && !MayCall(s, t)
  {
    assert Place(s.sh, t, s.fr[t]);
    if s.sh.destroyer != Some(t) {
      OnlyTheDestroyer(s, t);
      if t in s.sh.exits { AllGone(s, t); }
    }
  }

  /** A thread about to free the pool finds it not freed and frees it; all other threads are through with it. */
  lemma FreedByOne(want: nat, ss: seq<State>, acts: seq<Action>, i: nat, t: Tid, u: Tid)
    requires IsRun(want, ss, acts) && i < |ss| && t in ss[i].fr && Frees(ss[i].fr[t])
    requires u in ss[i].fr && u != t
    ensures !ss[i].sh.freed && ss[i].sh.destroyer == Some(t) && !Touches(ss[i].fr[u])
    ensures t in ss[i].qp && PoolStep(ss[i], t, None).sh.freed
  {
    Reachable(want, ss, acts, i);
    FreedByDestroyer(ss[i], t);
    OthersQuiet(ss[i], u);
  }

  lemma FreedByDestroyer(s: State, t: Tid)
    requires Known(s) && t in s.fr && Frees(s.fr[t])
    ensures !s.sh.freed && s.sh.destroyer == Some(t) && s.sh.stage >= 8
    ensures t in s.qp && PoolStep(s, t, None).sh.freed
  {
    assert Place(s.sh, t, s.fr[t]);
  }

  lemma OthersQuiet(s: State, u: Tid)
    requires Known(s) && Linked(s) && u in s.fr && s.sh.stage >= 8 && s.sh.destroyer != Some(u)
    ensures !Touches(s.fr[u])
  {
    OnlyTheDestroyer(s, u);
    if u in s.sh.exits { AllGone(s, u); }
  }

  /** The unlocked test of line 61 finds `nthreads` zero only in the thread that destroyed the pool. */
  lemma UnlockedTest(want: nat, ss: seq<State>, acts: seq<Action>, i: nat, t: Tid)
    requires IsRun(want, ss, acts) && i < |ss| && t in ss[i].fr && ss[i].fr[t] == After
    ensures ss[i].sh.nthreads == 0 <==> ss[i].sh.destroyer == Some(t)
  {
    Reachable(want, ss, acts, i);
    var s := ss[i];
    CensusHolds(s, t);
    assert Place(s.sh, t, s.fr[t]);
  }

  /** `nthreads` counts the workers that have been counted and have neither left nor withdrawn. */
  lemma ThreadCount(want: nat, ss: seq<State>, acts: seq<Action>, i: nat)
    requires IsRun(want, ss, acts) && i < |ss|
    ensures ss[i].sh.nthreads == |set t | t in ss[i].fr && Counted(ss[i].sh, t, ss[i].fr[t])|
  {
    Reachable(want, ss, acts, i);
    assert Active(ss[i]) == set t | t in ss[i].fr && Counted(ss[i].sh, t, ss[i].fr[t]);
  }

  // ---- the condition variable on the terminator's stack ----

  /**
   A worker that signals `pool->terminate` finds it set, and the thread whose frame holds the condition
   variable is still waiting in that frame.
   */
  lemma SignalFindsTerminator(want: nat, ss: seq<State>, acts: seq<Action>, i: nat, t: Tid)
    requires IsRun(want, ss, acts) && i < |ss| && t in ss[i].fr && ss[i].fr[t].ExSignal?
    ensures var s := ss[i];
      s.sh.terminate.Some? && s.sh.terminate == s.sh.destroyer && s.sh.terminate.value in s.fr &&
      ActOf(s.fr[s.sh.terminate.value]) == Ds(DsWait) && s.sh.terminate != Some(t)
  {
    Reachable(want, ss, acts, i);
    SignalOwner(ss[i], t);
  }

  lemma SignalOwner(s: State, t: Tid)
    requires Known(s) && t in s.fr && s.fr[t].ExSignal?
    ensures s.sh.terminate.Some? && s.sh.terminate == s.sh.destroyer && s.sh.terminate.value in s.fr
    ensures ActOf(s.fr[s.sh.terminate.value]) == Ds(DsWait) && s.sh.terminate != Some(t)
  {
    assert Place(s.sh, t, s.fr[t]) && Hold(s.sh, t, s.fr[t], s.qp[t]);
    Signaller(s.sh, t, s.fr[t], s.qp[t]);
    var d := s.sh.destroyer.value;
    assert Place(s.sh, d, s.fr[d]) && Hold(s.sh, d, s.fr[d], s.qp[d]);
    Terminator(s.sh, d, s.fr[d], s.qp[d]);
  }

  lemma Signaller(sh: Shared, t: Tid, f: Frame, pc: Q.Pc)
    requires Book(sh) && Place(sh, t, f) && Hold(sh, t, f, pc) && f.ExSignal?
    ensures sh.stage == 5 && sh.terminate == sh.destroyer && sh.destroyer.Some? && sh.destroyer != Some(t) && sh.owner == Some(t)
  {
  }

  lemma Terminator(sh: Shared, d: Tid, f: Frame, pc: Q.Pc)
    requires Place(sh, d, f) && Hold(sh, d, f, pc) && sh.destroyer == Some(d) && sh.stage == 5 && sh.owner != Some(d)
    ensures ActOf(f) == Ds(DsWait)
  {
  }
}
