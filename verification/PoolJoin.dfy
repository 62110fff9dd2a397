/**
 The chain of joins. Each worker that leaves joins the one that left before it, and the terminator
 joins the last; `joined` grows along `exits`, one thread at a time.
 */
module PoolJoin {
  import opened Common
  import opened PoolMachine
  import opened PoolInv
  import opened PoolProof
  import Q = QueueMachine

  function Prev(exits: seq<Tid>, i: nat): Option<Tid>
    requires i < |exits|
  {
    if i == 0 then None else Some(exits[i - 1])
  }

  predicate OnTheWayOut(f: Frame) {
    f.ExSignal? || f.ExUnlock? || f.ExJoin?
  }

  /** Worker `i` to leave joins worker `i - 1`, and has returned exactly when it has done so. */
  predicate Link(sh: Shared, fr: map<Tid, Frame>, i: nat)
    requires i < |sh.exits|
  {
    var x := sh.exits[i];
    x in fr &&
    (OnTheWayOut(fr[x]) ==> fr[x].prev == Prev(sh.exits, i)) &&
    (i > 0 ==> (fr[x] == Gone <==> i <= |sh.joined|)) &&
    (i < |sh.joined| ==> fr[x] == Gone)
  }

  ghost predicate JoinChain(sh: Shared, fr: map<Tid, Frame>) {
    NoDup(sh.exits) &&
    |sh.joined| <= |sh.exits| && sh.joined == sh.exits[..|sh.joined|] &&
    (if sh.stage >= 8 then |sh.joined| == |sh.exits| else sh.exits == [] || |sh.joined| < |sh.exits|) &&
    forall i :: 0 <= i < |sh.exits| ==> Link(sh, fr, i)
  }

  /** A worker takes its place in the chain (lines 70-72). */
  lemma LeaveKeeps(sh: Shared, fr: map<Tid, Frame>, t: Tid, sh': Shared, f': Frame)
    requires JoinChain(sh, fr) && t !in sh.exits && sh.stage < 8
    requires sh'.exits == sh.exits + [t] && sh'.joined == sh.joined && sh'.stage == sh.stage
    requires OnTheWayOut(f') && f'.prev == (if sh.exits == [] then None else Some(sh.exits[|sh.exits| - 1]))
    ensures JoinChain(sh', fr[t := f'])
  {
    var fr' := fr[t := f'];
    forall i | 0 <= i < |sh'.exits| ensures Link(sh', fr', i) {
      if i < |sh.exits| { assert Link(sh, fr, i); assert sh.exits[i] in sh.exits; }
    }
  }

  /** A worker joins the one before it (lines 76-77). */
  lemma JoinKeeps(sh: Shared, fr: map<Tid, Frame>, t: Tid, sh': Shared, i: nat)
    requires JoinChain(sh, fr) && i < |sh.exits| && t == sh.exits[i] && t in fr && fr[t].ExJoin? && Joinable(fr, fr[t].prev)
    requires sh'.exits == sh.exits && sh'.stage == sh.stage
    requires sh'.joined == if fr[t].prev.Some? then sh.joined + [fr[t].prev.value] else sh.joined
    ensures JoinChain(sh', fr[t := Gone]) && (fr[t].prev.Some? ==> fr[t].prev.value !in sh.joined && fr[t].prev != Some(t))
  {
    assert Link(sh, fr, i);
    if i > 0 {
      assert Link(sh, fr, i - 1);
      assert i == |sh.joined| + 1;
      assert sh.exits[..i] == sh.exits[..i - 1] + [sh.exits[i - 1]];
    }
    var fr' := fr[t := Gone];
    forall k | 0 <= k < |sh'.exits| ensures Link(sh', fr', k) {
      assert Link(sh, fr, k);
    }
  }

  /** The terminator joins the last worker (lines 99-100). */
  lemma FinalKeeps(sh: Shared, fr: map<Tid, Frame>, t: Tid, sh': Shared, f': Frame)
    requires JoinChain(sh, fr) && t !in sh.exits && sh.stage < 8 <= sh'.stage && Joinable(fr, sh.tid)
    requires sh.tid == (if sh.exits == [] then None else Some(sh.exits[|sh.exits| - 1]))
    requires sh'.exits == sh.exits && sh'.joined == if sh.tid.Some? then sh.joined + [sh.tid.value] else sh.joined
    ensures JoinChain(sh', fr[t := f']) && (sh.tid.Some? ==> sh.tid.value !in sh.joined && sh.tid != Some(t))
  {
    var n := |sh.exits|;
    if n > 0 {
      assert Link(sh, fr, n - 1);
      assert |sh.joined| == n - 1;
      assert sh.exits == sh.exits[..n - 1] + [sh.exits[n - 1]];
    }
    var fr' := fr[t := f'];
    forall k | 0 <= k < n ensures Link(sh', fr', k) {
      assert Link(sh, fr, k);
      assert sh.exits[k] in sh.exits;
    }
  }

  /** Nothing else touches the chain. */
  lemma OtherKeeps(sh: Shared, fr: map<Tid, Frame>, t: Tid, sh': Shared, f': Frame)
    requires JoinChain(sh, fr) && sh'.exits == sh.exits && sh'.joined == sh.joined && (sh'.stage >= 8 <==> sh.stage >= 8)
    requires t in sh.exits ==>
               t in fr && OnTheWayOut(fr[t]) && OnTheWayOut(f') && f'.prev == fr[t].prev
    ensures JoinChain(sh', fr[t := f'])
  {
    var fr' := fr[t := f'];
    forall k | 0 <= k < |sh.exits| ensures Link(sh', fr', k) {
      assert Link(sh, fr, k);
      assert sh.exits[k] in sh.exits;
    }
  }

  lemma SpawnKeeps(sh: Shared, fr: map<Tid, Frame>, w: Tid, f: Frame)
    requires JoinChain(sh, fr) && w !in fr
    ensures JoinChain(sh, fr[w := f])
  {
    var fr' := fr[w := f];
    forall k | 0 <= k < |sh.exits| ensures Link(sh, fr', k) {
      assert Link(sh, fr, k);
    }
  }

  /** The instruction is none of the three that touch the chain. */
  predicate Plain(sh: Shared, t: Tid, f: Frame, sh': Shared, f': Frame) {
    sh'.exits == sh.exits && sh'.joined == sh.joined && (sh'.stage >= 8 <==> sh.stage >= 8) &&
    (t in sh.exits ==> OnTheWayOut(f) && OnTheWayOut(f') && f'.prev == f.prev)
  }

  lemma WorkPlain(sh: Shared, fr: map<Tid, Frame>, t: Tid, f: Frame, pc: Q.Pc)
    requires !f.User? && WorkReady(sh, fr, f, pc) && f != ExLeave && !f.ExJoin?
    requires Place(sh, t, f) && Hold(sh, t, f, pc)
    ensures Plain(sh, t, f, WorkStep(sh, t, f, pc).sh, WorkStep(sh, t, f, pc).f)
  {
  }

  lemma UserPlain(sh: Shared, t: Tid, f: Frame, pc: Q.Pc, made: Option<Tid>)
    requires f.User? && f.a != Ds(DsJoin) && Place(sh, t, f) && Hold(sh, t, f, pc)
    ensures var o := ActStep(sh, t, f.task.Some?, f.a, pc, made); Plain(sh, t, f, o.sh, f.(a := o.f))
  {
    if f.a.Ds? {
      match f.a.d
      case DsFree =>
      case _ =>
    }
  }

  lemma WorkChain(sh: Shared, fr: map<Tid, Frame>, t: Tid, f: Frame, pc: Q.Pc)
    requires t in fr && fr[t] == f && !f.User? && WorkReady(sh, fr, f, pc) && JoinChain(sh, fr)
    requires Book(sh) && Place(sh, t, f) && Hold(sh, t, f, pc)
    ensures var o := WorkStep(sh, t, f, pc); JoinChain(o.sh, fr[t := o.f])
  {
    var o := WorkStep(sh, t, f, pc);
    if f == ExLeave {
      LeaveKeeps(sh, fr, t, o.sh, o.f);
    } else if f.ExJoin? {
      var i :| 0 <= i < |sh.exits| && sh.exits[i] == t;
      JoinKeeps(sh, fr, t, o.sh, i);
    } else {
      WorkPlain(sh, fr, t, f, pc);
      OtherKeeps(sh, fr, t, o.sh, o.f);
    }
  }

  lemma UserChain(sh: Shared, fr: map<Tid, Frame>, t: Tid, f: Frame, pc: Q.Pc, made: Option<Tid>)
    requires t in fr && fr[t] == f && f.User? && ActReady(sh, fr, t, f.a, pc) && JoinChain(sh, fr)
    requires Book(sh) && Place(sh, t, f) && Hold(sh, t, f, pc)
    ensures var o := ActStep(sh, t, f.task.Some?, f.a, pc, made); JoinChain(o.sh, fr[t := f.(a := o.f)])
  {
    var o := ActStep(sh, t, f.task.Some?, f.a, pc, made);
    if f.a == Ds(DsJoin) {
      FinalKeeps(sh, fr, t, o.sh, f.(a := o.f));
    } else {
      UserPlain(sh, t, f, pc, made);
      OtherKeeps(sh, fr, t, o.sh, f.(a := o.f));
    }
  }

  lemma ChainKept(s: State, t: Tid, made: Option<Tid>)
    requires Keys(s) && Book(s.sh) && Threads(s) && JoinChain(s.sh, s.fr) && Enabled(s, Pool(t, made))
    requires PoolStep(s, t, made).spawn.Some? ==> PoolStep(s, t, made).spawn.value !in s.fr
    ensures var s' := Apply(s, Pool(t, made)); JoinChain(s'.sh, s'.fr)
  {
    var o, f := PoolStep(s, t, made), s.fr[t];
    assert Place(s.sh, t, f) && Hold(s.sh, t, f, s.qp[t]);
    if f.User? { UserChain(s.sh, s.fr, t, f, s.qp[t], made); } else { WorkChain(s.sh, s.fr, t, f, s.qp[t]); }
    assert JoinChain(o.sh, s.fr[t := o.f]);
    if o.spawn.Some? { SpawnKeeps(o.sh, s.fr[t := o.f], o.spawn.value, Loop); }
  }
}
