/** What `thrdpool_create` and `thrdpool_increase` have made, and that scheduling a task never waits for room. */
module PoolCreate {
  import opened Common
  import opened PoolMachine
  import opened PoolInv
  import opened PoolProof
  import opened PoolSafety
  import opened PoolRoles
  import Q = QueueMachine

  // ---- how many workers there are ----

  /** An increase is about to execute line 197. */
  predicate AtIncrease(s: State, t: Tid) {
    t in s.fr && ActOf(s.fr[t]) == IncCreate
  }

  /** The action is the creation of a thread by an increase. */
  function Adds(s: State, a: Action): nat {
    if a.Pool? && a.made.Some? && AtIncrease(s, a.t) then 1 else 0
  }

  /** The threads that increases have created before state `i`. */
  function Increases(ss: seq<State>, acts: seq<Action>, i: nat): nat
    requires i <= |acts| <= |ss|
  {
    if i == 0 then 0 else Increases(ss, acts, i - 1) + Adds(ss[i - 1], acts[i - 1])
  }

  predicate Staffed(sh: Shared, want: nat, more: nat) {
    sh.want == want &&
    (sh.published ==> |sh.workers| == want + more) &&
    (!sh.published && sh.stage == 0 ==>
       more == 0 && |sh.workers| == sh.nthreads + (if sh.uncounted.Some? then 1 else 0) <= want) &&
    (!sh.published ==> more == 0)
  }

  lemma OneMore(workers: set<Tid>, w: Tid)
    requires w !in workers
    ensures |workers + {w}| == |workers| + 1
  {
  }

  lemma CreatorStaffed(sh: Shared, t: Tid, f: Frame, pc: Q.Pc, made: Option<Tid>, more: nat)
    requires f.User? && (f.a == CrLoop || f.a.CrCount?) && Book(sh) && Place(sh, t, f) && Staffed(sh, sh.want, more)
    requires f.a == CrLoop ==> sh.uncounted == None
    requires made.Some? ==> made.value !in sh.workers
    ensures Staffed(CreateStep(sh, t, f.a, pc, made).sh, sh.want, more)
  {
    if made.Some? { OneMore(sh.workers, made.value); }
  }

  lemma IncreaseStaffed(sh: Shared, t: Tid, f: Frame, pc: Q.Pc, made: Option<Tid>, more: nat)
    requires f.User? && !f.a.Ds? && f.a != CrLoop && !f.a.CrCount?
    requires Book(sh) && Place(sh, t, f) && Staffed(sh, sh.want, more)
    requires made.Some? ==> made.value !in sh.workers
    ensures Staffed(CreateStep(sh, t, f.a, pc, made).sh, sh.want, more + if f.a == IncCreate && made.Some? then 1 else 0)
  {
    if made.Some? { OneMore(sh.workers, made.value); }
  }

  lemma DestroyStaffed(sh: Shared, t: Tid, f: Frame, pc: Q.Pc, more: nat)
    requires f.User? && f.a.Ds? && Book(sh) && Place(sh, t, f) && Staffed(sh, sh.want, more)
    ensures Staffed(ActStep(sh, t, f.task.Some?, f.a, pc, None).sh, sh.want, more)
  {
    DestroyMakesNone(sh, t, f.task.Some?, f.a.d, pc);
  }

  lemma DestroyMakesNone(sh: Shared, t: Tid, inPool: bool, d: Stage, pc: Q.Pc)
    ensures var o := DestroyStep(sh, t, inPool, d, pc);
      o.sh.workers == sh.workers && o.sh.want == sh.want && o.sh.published == sh.published && Nr(o.f) > 0
  {
  }

  lemma WorkStaffed(sh: Shared, t: Tid, f: Frame, pc: Q.Pc, more: nat)
    requires !f.User? && Book(sh) && Place(sh, t, f) && Hold(sh, t, f, pc) && Staffed(sh, sh.want, more)
    ensures Staffed(WorkStep(sh, t, f, pc).sh, sh.want, more)
  {
  }

  lemma UserStaffed(sh: Shared, t: Tid, f: Frame, pc: Q.Pc, made: Option<Tid>, more: nat)
    requires f.User? && Book(sh) && Place(sh, t, f) && Staffed(sh, sh.want, more)
    requires f.a == CrLoop ==> sh.uncounted == None
    requires made.Some? ==> made.value !in sh.workers
    ensures Staffed(ActStep(sh, t, f.task.Some?, f.a, pc, made).sh, sh.want,
      more + if f.a == IncCreate && made.Some? then 1 else 0)
  {
    if f.a.Ds? {
      DestroyStaffed(sh, t, f, pc, more);
    } else if f.a == CrLoop || f.a.CrCount? {
      CreatorStaffed(sh, t, f, pc, made, more);
    } else {
      IncreaseStaffed(sh, t, f, pc, made, more);
    }
  }

  /** The creator is back at line 113 only when it has counted what it created. */
  lemma CreatorCounted(s: State, t: Tid)
    requires Known(s) && Uncounted(s) && t in s.fr && ActOf(s.fr[t]) == CrLoop
    ensures s.sh.uncounted == None
  {
    assert Place(s.sh, t, s.fr[t]);
  }

  lemma PoolStaffed(s: State, t: Tid, made: Option<Tid>, more: nat)
    requires Known(s) && Uncounted(s) && Enabled(s, Pool(t, made)) && Staffed(s.sh, s.sh.want, more)
    requires made.Some? ==> made.value !in s.sh.workers
    ensures Staffed(Apply(s, Pool(t, made)).sh, s.sh.want, more + Adds(s, Pool(t, made)))
  {
    var f, pc := s.fr[t], s.qp[t];
    assert Place(s.sh, t, f) && Hold(s.sh, t, f, pc);
    assert Apply(s, Pool(t, made)).sh == PoolStep(s, t, made).sh;
    if !f.User? {
      WorkStaffed(s.sh, t, f, pc, more);
    } else {
      if f.a == CrLoop { CreatorCounted(s, t); }
      UserStaffed(s.sh, t, f, pc, made, more);
    }
  }

  lemma OtherStaffed(s: State, a: Action, more: nat)
    requires Enabled(s, a) && !a.Pool? && Staffed(s.sh, s.sh.want, more)
    ensures Staffed(Apply(s, a).sh, s.sh.want, more)
  {
  }

  ghost predicate StaffedOn(want: nat, s: State, a: Action, s': State) {
    forall more: nat :: Staffed(s.sh, want, more) ==> Staffed(s'.sh, want, more + Adds(s, a))
  }

  ghost predicate StaffStep(want: nat, ss: seq<State>, acts: seq<Action>, k: int) {
    0 <= k < |acts| && k + 1 < |ss| && StaffedOn(want, ss[k], acts[k], ss[k + 1])
  }

  lemma NextStaffed(want: nat, ss: seq<State>, acts: seq<Action>, k: nat)
    requires IsRun(want, ss, acts) && k < |acts|
    ensures StaffStep(want, ss, acts, k)
  {
    Reachable(want, ss, acts, k);
    RolesReached(want, ss, acts, k);
    AnyStaffed(want, ss[k], acts[k]);
  }

  lemma AnyStaffed(want: nat, s: State, a: Action)
    requires Inv(s) && Roles(s) && Enabled(s, a)
    ensures StaffedOn(want, s, a, Apply(s, a))
  {
    forall more: nat | Staffed(s.sh, want, more) ensures Staffed(Apply(s, a).sh, want, more + Adds(s, a)) {
      StepStaffed(s, a, more);
    }
  }

  lemma {:induction false} StaffedFor(want: nat, ss: seq<State>, acts: seq<Action>, i: nat)
    requires |ss| == |acts| + 1 && i < |ss| && Staffed(ss[0].sh, want, 0) && forall k :: 0 <= k < i ==> StaffStep(want, ss, acts, k)
    ensures Staffed(ss[i].sh, want, Increases(ss, acts, i))
  {
    if i > 0 {
      StaffedFor(want, ss, acts, i - 1);
      assert StaffStep(want, ss, acts, i - 1);
    }
  }

  lemma StaffedAt(want: nat, ss: seq<State>, acts: seq<Action>, i: nat)
    requires IsRun(want, ss, acts) && i < |ss|
    ensures Staffed(ss[i].sh, want, Increases(ss, acts, i))
  {
    forall k | 0 <= k < i ensures StaffStep(want, ss, acts, k) { NextStaffed(want, ss, acts, k); }
    StaffedFor(want, ss, acts, i);
  }

  lemma StepStaffed(s: State, a: Action, more: nat)
    requires Inv(s) && Roles(s) && Enabled(s, a) && Staffed(s.sh, s.sh.want, more)
    ensures Staffed(Apply(s, a).sh, s.sh.want, more + Adds(s, a))
  {
    if a.Pool? { PoolStaffed(s, a.t, a.made, more); } else { OtherStaffed(s, a, more); }
  }

  /** A pool that `thrdpool_create` has returned has the threads asked for and one more for each increase that made one. */
  lemma AllCreated(want: nat, ss: seq<State>, acts: seq<Action>, i: nat)
    requires IsRun(want, ss, acts) && i < |ss| && ss[i].sh.published
    ensures |ss[i].sh.workers| == want + Increases(ss, acts, i)
  {
    StaffedAt(want, ss, acts, i);
  }

  // ---- the creation fails only with pthread_create, and comes to an end ----

  predicate CreateFailed(s: State, a: Action) {
    a == Pool(CREATOR, None) && CREATOR in s.fr && ActOf(s.fr[CREATOR]) == CrLoop && s.sh.nthreads < s.sh.want
  }

  ghost predicate FailedBefore(ss: seq<State>, acts: seq<Action>, i: nat) {
    exists k :: 0 <= k < i && k < |acts| && k < |ss| && CreateFailed(ss[k], acts[k])
  }

  lemma UserUnpublished(sh: Shared, t: Tid, f: Frame, pc: Q.Pc, made: Option<Tid>)
    requires f.User? && Place(sh, t, f)
    ensures var sh' := ActStep(sh, t, f.task.Some?, f.a, pc, made).sh;
      !sh'.published && sh'.destroyer != sh.destroyer ==>
        t == CREATOR && f.a == CrLoop && made == None && sh.nthreads < sh.want
    ensures ActStep(sh, t, f.task.Some?, f.a, pc, made).sh.published <== sh.published
  {
    if f.a.Ds? { DestroyMakesNone(sh, t, f.task.Some?, f.a.d, pc); }
  }

  lemma WorkUnpublished(sh: Shared, t: Tid, f: Frame, pc: Q.Pc)
    requires !f.User?
    ensures WorkStep(sh, t, f, pc).sh.destroyer == sh.destroyer && WorkStep(sh, t, f, pc).sh.published == sh.published
  {
  }

  lemma PoolUnpublished(s: State, t: Tid, made: Option<Tid>)
    requires Known(s) && Enabled(s, Pool(t, made))
    ensures var sh' := Apply(s, Pool(t, made)).sh;
      !sh'.published && sh'.destroyer.Some? ==> (!s.sh.published && s.sh.destroyer.Some?) || CreateFailed(s, Pool(t, made))
  {
    var f, pc := s.fr[t], s.qp[t];
    assert Place(s.sh, t, f);
    if f.User? { UserUnpublished(s.sh, t, f, pc, made); } else { WorkUnpublished(s.sh, t, f, pc); }
  }

  lemma DestroyedUnpublished(s: State, a: Action)
    requires Known(s) && Enabled(s, a)
    ensures var sh' := Apply(s, a).sh;
      !sh'.published && sh'.destroyer.Some? ==> (!s.sh.published && s.sh.destroyer.Some?) || CreateFailed(s, a)
  {
    if a.Pool? { PoolUnpublished(s, a.t, a.made); }
  }

  /** `thrdpool_create` fails, and takes the pool down again, only if a thread could not be created. */
  lemma {:induction false} FailsOnlyIf(want: nat, ss: seq<State>, acts: seq<Action>, i: nat)
    requires IsRun(want, ss, acts) && i < |ss| && !ss[i].sh.published && ss[i].sh.destroyer.Some?
    ensures FailedBefore(ss, acts, i)
  {
    if i > 0 {
      Reachable(want, ss, acts, i - 1);
      DestroyedUnpublished(ss[i - 1], acts[i - 1]);
      if !CreateFailed(ss[i - 1], acts[i - 1]) { FailsOnlyIf(want, ss, acts, i - 1); }
    }
  }

  function Missing(sh: Shared): nat {
    if sh.nthreads < sh.want then sh.want - sh.nthreads else 0
  }

  predicate Creating(f: Frame) {
    ActOf(f) == CrLoop || ActOf(f).CrCount?
  }

  /** What is left of lines 113-122. */
  function LeftOf(sh: Shared, f: Frame): nat {
    if !Creating(f) then 0 else 2 * Missing(sh) + if ActOf(f) == CrLoop then 1 else 0
  }

  function CreationLeft(s: State): nat {
    if CREATOR in s.fr then LeftOf(s.sh, s.fr[CREATOR]) else 0
  }

  function Creates(s: State, a: Action): nat {
    if a.Pool? && a.t == CREATOR && CREATOR in s.fr && Creating(s.fr[CREATOR]) then 1 else 0
  }

  function CreationSteps(ss: seq<State>, acts: seq<Action>, i: nat): nat
    requires i <= |acts| <= |ss|
  {
    if i == 0 then 0 else CreationSteps(ss, acts, i - 1) + Creates(ss[i - 1], acts[i - 1])
  }

  lemma CreatorLowers(sh: Shared, t: Tid, f: Frame, pc: Q.Pc, made: Option<Tid>)
    requires Creating(f) && (f.a.CrCount? ==> sh.nthreads < sh.want)
    ensures var o := CreateStep(sh, t, f.a, pc, made);
      ActReady(sh, map[], t, f.a, pc) && LeftOf(o.sh, f.(a := o.f)) < LeftOf(sh, f)
  {
  }

  lemma NeverBack(sh: Shared, t: Tid, f: Frame, pc: Q.Pc, made: Option<Tid>)
    requires f.User? && !Creating(f)
    ensures !Creating(f.(a := ActStep(sh, t, f.task.Some?, f.a, pc, made).f))
  {
  }

  /** While the creator is at work nobody else touches the count. */
  lemma OthersWait(sh: Shared, t: Tid, f: Frame, pc: Q.Pc, made: Option<Tid>)
    requires Place(sh, t, f) && Hold(sh, t, f, pc) && !sh.published && sh.stage == 0 && Book(sh) && t != CREATOR
    ensures f.User? ==> Missing(ActStep(sh, t, f.task.Some?, f.a, pc, made).sh) == Missing(sh)
    ensures !f.User? ==> Missing(WorkStep(sh, t, f, pc).sh) == Missing(sh)
  {
  }

  lemma CreatorOwn(sh: Shared, t: Tid, f: Frame, pc: Q.Pc, made: Option<Tid>, more: nat)
    requires Place(sh, t, f) && Staffed(sh, sh.want, more)
    ensures f.User? ==> var o := ActStep(sh, t, f.task.Some?, f.a, pc, made);
      LeftOf(o.sh, f.(a := o.f)) + (if Creating(f) then 1 else 0) <= LeftOf(sh, f)
    ensures !f.User? ==> !Creating(f) && !Creating(WorkStep(sh, t, f, pc).f)
  {
    if Creating(f) {
      CreatorLowers(sh, t, f, pc, made);
    } else if f.User? {
      NeverBack(sh, t, f, pc, made);
    } else {
      WorkKind(sh, t, f, pc);
    }
  }

  lemma WorkKind(sh: Shared, t: Tid, f: Frame, pc: Q.Pc)
    requires !f.User?
    ensures !Creating(WorkStep(sh, t, f, pc).f)
  {
  }

  lemma CreatorStep(s: State, made: Option<Tid>, more: nat)
    requires Known(s) && Enabled(s, Pool(CREATOR, made)) && Staffed(s.sh, s.sh.want, more)
    ensures CreationLeft(Apply(s, Pool(CREATOR, made))) + Creates(s, Pool(CREATOR, made)) <= CreationLeft(s)
  {
    var f, pc := s.fr[CREATOR], s.qp[CREATOR];
    assert Place(s.sh, CREATOR, f) && Hold(s.sh, CREATOR, f, pc);
    QueueSide(s, CREATOR, made);
    CreatorOwn(s.sh, CREATOR, f, pc, made, more);
  }

  lemma OtherStep(s: State, t: Tid, made: Option<Tid>)
    requires Known(s) && Enabled(s, Pool(t, made)) && t != CREATOR
    ensures CreationLeft(Apply(s, Pool(t, made))) <= CreationLeft(s)
  {
    assert Place(s.sh, t, s.fr[t]) && Hold(s.sh, t, s.fr[t], s.qp[t]) && Place(s.sh, CREATOR, s.fr[CREATOR]);
    QueueSide(s, t, made);
    if Creating(s.fr[CREATOR]) { OthersWait(s.sh, t, s.fr[t], s.qp[t], made); }
  }

  lemma CreationStep(s: State, a: Action, more: nat)
    requires Inv(s) && Enabled(s, a) && Staffed(s.sh, s.sh.want, more)
    ensures CreationLeft(Apply(s, a)) + Creates(s, a) <= CreationLeft(s)
  {
    if !a.Pool? {
      CallStep(s, a);
    } else if a.t == CREATOR {
      CreatorStep(s, a.made, more);
    } else {
      OtherStep(s, a.t, a.made);
    }
  }

  lemma CallStep(s: State, a: Action)
    requires Enabled(s, a) && !a.Pool? && CREATOR in s.fr
    ensures CreationLeft(Apply(s, a)) + Creates(s, a) <= CreationLeft(s)
  {
  }

  ghost predicate LowersAt(ss: seq<State>, acts: seq<Action>, k: int) {
    0 <= k < |acts| && k + 1 < |ss| && CreationLeft(ss[k + 1]) + Creates(ss[k], acts[k]) <= CreationLeft(ss[k])
  }

  lemma NextLowers(want: nat, ss: seq<State>, acts: seq<Action>, k: nat)
    requires IsRun(want, ss, acts) && k < |acts|
    ensures LowersAt(ss, acts, k)
  {
    Reachable(want, ss, acts, k);
    StaffedAt(want, ss, acts, k);
    CreationStep(ss[k], acts[k], Increases(ss, acts, k));
  }

  lemma {:induction false} CreationSum(ss: seq<State>, acts: seq<Action>, i: nat)
    requires |ss| == |acts| + 1 && i < |ss| && forall k :: 0 <= k < i ==> LowersAt(ss, acts, k)
    ensures CreationSteps(ss, acts, i) + CreationLeft(ss[i]) <= CreationLeft(ss[0])
  {
    if i > 0 {
      CreationSum(ss, acts, i - 1);
      assert LowersAt(ss, acts, i - 1);
    }
  }

  /** The loop of lines 113-119 ends: the creator takes at most two steps for each thread and one more. */
  lemma CreationEnds(want: nat, ss: seq<State>, acts: seq<Action>, i: nat)
    requires IsRun(want, ss, acts) && i < |ss|
    ensures CreationSteps(ss, acts, i) + CreationLeft(ss[i]) <= 2 * want + 1
  {
    forall k | 0 <= k < i ensures LowersAt(ss, acts, k) { NextLowers(want, ss, acts, k); }
    CreationSum(ss, acts, i);
  }

  /** The creator is through with `thrdpool_create`: the pool is published, or is being taken down again. */
  predicate Outcome(s: State) {
    CREATOR in s.fr && (Creating(s.fr[CREATOR]) || s.sh.published || s.sh.destroyer.Some?)
  }

  lemma CreatorOutcome(sh: Shared, t: Tid, f: Frame, pc: Q.Pc, made: Option<Tid>)
    requires Creating(f)
    ensures var o := CreateStep(sh, t, f.a, pc, made); Creating(f.(a := o.f)) || o.sh.published || o.sh.destroyer.Some?
  {
  }

  lemma OutcomeStays(sh: Shared, t: Tid, f: Frame, pc: Q.Pc, made: Option<Tid>)
    requires sh.published || sh.destroyer.Some?
    ensures f.User? ==> var sh' := ActStep(sh, t, f.task.Some?, f.a, pc, made).sh; sh'.published || sh'.destroyer.Some?
    ensures !f.User? ==> var sh' := WorkStep(sh, t, f, pc).sh; sh'.published || sh'.destroyer.Some?
  {
    if f.User? && f.a.Ds? { DestroyMakesNone(sh, t, f.task.Some?, f.a.d, pc); DestroyerSame(sh, t, f.task.Some?, f.a.d, pc); }
  }

  lemma DestroyerSame(sh: Shared, t: Tid, inPool: bool, d: Stage, pc: Q.Pc)
    ensures DestroyStep(sh, t, inPool, d, pc).sh.destroyer == sh.destroyer
  {
  }

  lemma PoolOutcome(s: State, t: Tid, made: Option<Tid>)
    requires Known(s) && Outcome(s) && Enabled(s, Pool(t, made))
    ensures Outcome(Apply(s, Pool(t, made)))
  {
    assert Hold(s.sh, t, s.fr[t], s.qp[t]);
    QueueSide(s, t, made);
    if s.sh.published || s.sh.destroyer.Some? {
      OutcomeStays(s.sh, t, s.fr[t], s.qp[t], made);
    } else if t == CREATOR {
      CreatorOutcome(s.sh, t, s.fr[t], s.qp[t], made);
    }
  }

  lemma StepOutcome(s: State, a: Action)
    requires Inv(s) && Outcome(s) && Enabled(s, a)
    ensures Outcome(Apply(s, a))
  {
    if a.Pool? { PoolOutcome(s, a.t, a.made); } else { CallOutcome(s, a); }
  }

  lemma CallOutcome(s: State, a: Action)
    requires Outcome(s) && Enabled(s, a) && !a.Pool?
    ensures Outcome(Apply(s, a))
  {
  }

  ghost predicate OutcomeAt(ss: seq<State>, k: int) {
    0 <= k && k + 1 < |ss| && (Outcome(ss[k]) ==> Outcome(ss[k + 1]))
  }

  lemma NextOutcome(want: nat, ss: seq<State>, acts: seq<Action>, k: nat)
    requires IsRun(want, ss, acts) && k < |acts|
    ensures OutcomeAt(ss, k)
  {
    Reachable(want, ss, acts, k);
    if Outcome(ss[k]) { StepOutcome(ss[k], acts[k]); }
  }

  lemma {:induction false} OutcomeFor(ss: seq<State>, i: nat)
    requires i < |ss| && Outcome(ss[0]) && forall k :: 0 <= k < i ==> OutcomeAt(ss, k)
    ensures Outcome(ss[i])
  {
    if i > 0 {
      OutcomeFor(ss, i - 1);
      assert OutcomeAt(ss, i - 1);
    }
  }

  /** When the loop is over the pool is published, unless a thread could not be created. */
  lemma CreatedUnlessFailed(want: nat, ss: seq<State>, acts: seq<Action>, i: nat)
    requires IsRun(want, ss, acts) && i < |ss| && CREATOR in ss[i].fr && !Creating(ss[i].fr[CREATOR])
    ensures ss[i].sh.published || FailedBefore(ss, acts, i)
  {
    forall k | 0 <= k < i ensures OutcomeAt(ss, k) { NextOutcome(want, ss, acts, k); }
    OutcomeFor(ss, i);
    if !ss[i].sh.published { FailsOnlyIf(want, ss, acts, i); }
  }

  // ---- the capacity of the queue ----

  predicate NoSleeper(q: Q.Shared, qp: map<Tid, Q.Pc>) {
    q.max == Q.SIZE_MAX && q.putCond == {} &&
    forall t :: t in qp && qp[t].Put? ==> qp[t].p != Q.PSleep && qp[t].p != Q.PWait
  }

  lemma RunSleepsNot(q: Q.Shared, t: Tid, pc: Q.Pc, w: Tid)
    requires q.max == Q.SIZE_MAX && q.putCond == {} && q.cnt < Q.SIZE_MAX
    requires pc.Put? ==> pc.p != Q.PSleep && pc.p != Q.PWait
    ensures var (q', pc') := Q.Exec(q, t, pc, w);
      q'.max == q.max && q'.putCond == {} && (pc'.Put? ==> pc'.p != Q.PSleep && pc'.p != Q.PWait)
  {
    match pc
    case Idle =>
    case Put(m, p) =>
    case Get(g) => GetSleepsNot(q, t, g);
    case Mode(k) =>
  }

  lemma GetSleepsNot(q: Q.Shared, t: Tid, g: Q.GetPc)
    requires q.putCond == {}
    ensures var (q', g') := Q.GetStep(q, t, g); q'.max == q.max && q'.putCond == {}
  {
  }

  lemma StepSleepsNot(s: State, a: Action)
    requires Inv(s) && Enabled(s, a) && NoSleeper(s.sh.q, s.qp) && s.sh.q.cnt < Q.SIZE_MAX
    ensures NoSleeper(Apply(s, a).sh.q, Apply(s, a).qp)
  {
    match a
    case Pool(t, made) => PoolSleepsNot(s, t, made);
    case Queue(t, w) => QueueSleepsNot(s, t, w);
    case _ => CallSleepsNot(s, a);
  }

  lemma QueueSleepsNot(s: State, t: Tid, w: Tid)
    requires Enabled(s, Queue(t, w)) && NoSleeper(s.sh.q, s.qp) && s.sh.q.cnt < Q.SIZE_MAX
    ensures NoSleeper(Apply(s, Queue(t, w)).sh.q, Apply(s, Queue(t, w)).qp)
  {
    QueueShape(s, t, w);
    RunSleepsNot(s.sh.q, t, s.qp[t], w);
  }

  lemma CallSleepsNot(s: State, a: Action)
    requires Enabled(s, a) && !a.Pool? && !a.Queue? && NoSleeper(s.sh.q, s.qp)
    ensures NoSleeper(Apply(s, a).sh.q, Apply(s, a).qp)
  {
  }

  lemma PoolSleepsNot(s: State, t: Tid, made: Option<Tid>)
    requires Known(s) && Enabled(s, Pool(t, made)) && NoSleeper(s.sh.q, s.qp)
    ensures NoSleeper(Apply(s, Pool(t, made)).sh.q, Apply(s, Pool(t, made)).qp)
  {
    assert Hold(s.sh, t, s.fr[t], s.qp[t]);
    QueueSide(s, t, made);
    MergeSleepsNot(s, t, PoolStep(s, t, made), made);
  }

  lemma MergeSleepsNot(s: State, t: Tid, o: Out<Frame>, made: Option<Tid>)
    requires t in s.qp && NoSleeper(s.sh.q, s.qp) && Sides(s.sh, s.qp[t], o.sh, o.pc, o.spawn, made)
    ensures NoSleeper(Merge(s, t, o).sh.q, Merge(s, t, o).qp)
  {
  }

  predicate Roomy(ss: seq<State>, k: int) {
    0 <= k < |ss| && ss[k].sh.q.cnt < Q.SIZE_MAX
  }

  /** As long as the put list is shorter than the largest size_t no `thrdpool_schedule` sleeps, or is about to. */
  lemma {:induction false} ScheduleNeverSleeps(want: nat, ss: seq<State>, acts: seq<Action>, i: nat)
    requires IsRun(want, ss, acts) && i < |ss| && forall k :: 0 <= k < i ==> Roomy(ss, k)
    ensures NoSleeper(ss[i].sh.q, ss[i].qp)
  {
    if i > 0 {
      ScheduleNeverSleeps(want, ss, acts, i - 1);
      Reachable(want, ss, acts, i - 1);
      assert Roomy(ss, i - 1);
      StepSleepsNot(ss[i - 1], acts[i - 1]);
    }
  }
}
