/** How many messages a queue that is never switched to nonblocking mode can hold. */
module QueueBound {
  import opened Common
  import opened QueueMachine
  import opened QueueInv
  import opened QueueSpec

  function Pending(s: State): nat {
    |Abs(s).q|
  }

  /** What thread program counters add to the bound: only lines 82 and 109 see a full get list. */
  predicate BoundLocal(sh: Shared, pc: Pc) {
    (pc.Mode? ==> pc.k == BSet || pc.k == BRet) &&
    (pc.Put? && pc.p == PAppend ==> sh.cnt < sh.max) &&
    (HoldsGet(pc) && !pc.g.GLeave? && pc.g != GPop ==> |sh.getq| < sh.max)
  }

  predicate BoundShared(sh: Shared) {
    sh.max > 0 && !sh.nonblock && |sh.putq| <= sh.max && |sh.getq| <= sh.max &&
    (sh.getOwner == None ==> |sh.getq| < sh.max)
  }

  ghost predicate Bounded(s: State) {
    BoundShared(s.sh) && forall t :: t in s.pcs ==> BoundLocal(s.sh, s.pcs[t])
  }

  lemma BoundOwn(sh: Shared, t: Tid, pc: Pc, w: Tid)
    requires Book(sh) && Lists(sh) && Local(sh, t, pc) && BoundShared(sh) && BoundLocal(sh, pc) && Ready(sh, t, pc)
    ensures BoundShared(Exec(sh, t, pc, w).0) && BoundLocal(Exec(sh, t, pc, w).0, Exec(sh, t, pc, w).1)
  {
    FirstCell(sh);
    match pc
    case Idle =>
    case Put(_, _) =>
    case Get(_) =>
    case Mode(_) =>
  }

  lemma BoundOther(sh: Shared, sh': Shared, t: Tid, u: Tid, other: Pc)
    requires Guarantee(sh, sh', t) && Local(sh, u, other) && u != t && BoundLocal(sh, other)
    ensures BoundLocal(sh', other)
  {
  }

  lemma BoundedRun(s: State, t: Tid, w: Tid)
    requires Inv(s) && Bounded(s) && Enabled(s, Run(t, w))
    ensures Bounded(Apply(s, Run(t, w)))
  {
    var sh' := Exec(s.sh, t, s.pcs[t], w).0;
    BoundOwn(s.sh, t, s.pcs[t], w);
    ExecKeeps(s.sh, t, s.pcs[t], w);
    forall u | u in s.pcs && u != t ensures BoundLocal(sh', s.pcs[u]) {
      BoundOther(s.sh, sh', t, u, s.pcs[u]);
    }
  }

  lemma BoundedKept(s: State, a: Action)
    requires Inv(s) && Bounded(s) && Enabled(s, a) && !(a.Invoke? && a.c == DoNonblock)
    ensures Bounded(Apply(s, a))
  {
    if a.Run? { BoundedRun(s, a.t, a.w); }
  }

  /** No call asks for nonblocking mode anywhere in the run. */
  predicate AlwaysBlocking(acts: seq<Action>) {
    forall i :: 0 <= i < |acts| ==> !(acts[i].Invoke? && acts[i].c == DoNonblock)
  }

  lemma {:induction false} BoundedReachable(max: nat, ss: seq<State>, acts: seq<Action>, i: nat)
    requires IsRun(max, ss, acts) && i < |ss| && max > 0 && AlwaysBlocking(acts)
    ensures Bounded(ss[i])
  {
    if i > 0 {
      BoundedReachable(max, ss, acts, i - 1);
      Reachable(max, ss, acts, i - 1);
      assert StepAt(ss, acts, i - 1);
      BoundedKept(ss[i - 1], acts[i - 1]);
    }
  }

  /** At most twice `maxlen` messages are pending, and one less whenever `get_mutex` is free. */
  lemma PendingBound(max: nat, ss: seq<State>, acts: seq<Action>, i: nat)
    requires IsRun(max, ss, acts) && i < |ss| && max > 0 && AlwaysBlocking(acts)
    ensures Pending(ss[i]) <= 2 * max
    ensures ss[i].sh.getOwner == None ==> Pending(ss[i]) <= 2 * max - 1
  {
    BoundedReachable(max, ss, acts, i);
    Reachable(max, ss, acts, i);
  }

  // ---- the bound is reached ----

  /** `to` can be reached from `from` without asking for nonblocking mode. */
  ghost predicate Leads(from: State, acts: seq<Action>, to: State)
    decreases |acts|
  {
    if acts == [] then from == to
    else
      Enabled(from, acts[0]) && !(acts[0].Invoke? && acts[0].c == DoNonblock) &&
      Leads(Apply(from, acts[0]), acts[1..], to)
  }

  lemma {:induction false} LeadsFurther(a: State, xs: seq<Action>, b: State, ys: seq<Action>, c: State)
    requires Leads(a, xs, b) && Leads(b, ys, c)
    ensures Leads(a, xs + ys, c)
    decreases |xs|
  {
    if xs == [] {
      assert xs + ys == ys;
    } else {
      LeadsFurther(Apply(a, xs[0]), xs[1..], b, ys, c);
      assert (xs + ys)[1..] == xs[1..] + ys;
    }
  }

  lemma OneStep(a: State, act: Action)
    requires Enabled(a, act) && !(act.Invoke? && act.c == DoNonblock)
    ensures Leads(a, [act], Apply(a, act))
  {
    assert [act][1..] == [];
  }

  /** Thread 0 can put: it is idle, the put mutex is free and the put list is not full. */
  ghost predicate CanProduce(s: State) {
    0 in s.pcs && s.pcs[0] == Idle && s.sh.putOwner == None && !s.sh.nonblock && s.sh.getCond == {} &&
    s.sh.putCond == {} && (forall m :: m in s.sh.getq ==> m < |s.sh.enq|) && (forall m :: m in s.sh.putq ==> m < |s.sh.enq|) &&
    forall t :: t in s.pcs ==> !s.pcs[t].Put?
  }

  /** The state after thread 0 has put message `|enq|`. */
  function Produced(s: State): State {
    var m := |s.sh.enq|;
    State(s.sh.(mem := s.sh.mem[Link(m) := None][s.sh.putTail := Some(m)], putTail := Link(m), cnt := s.sh.cnt + 1,
                putq := s.sh.putq + [m], enq := s.sh.enq + [m]), s.pcs)
  }

  lemma ProduceFirst(s: State) returns (acts: seq<Action>, s': State)
    requires CanProduce(s) && s.sh.cnt <= Limit(s.sh)
    ensures Leads(s, acts, s')
    ensures s' == State(s.sh.(mem := s.sh.mem[Link(|s.sh.enq|) := None], putOwner := Some(0)), s.pcs[0 := Put(|s.sh.enq|, PAppend)])
  {
    var m := |s.sh.enq|;
    var a := Invoke(0, DoPut(m));
    var s1 := Apply(s, a);
    OneStep(s, a);
    OneStep(s1, Run(0, 0));
    LeadsFurther(s, [a], s1, [Run(0, 0)], Apply(s1, Run(0, 0)));
    var s2 := Apply(s1, Run(0, 0));
    OneStep(s2, Run(0, 0));
    s' := Apply(s2, Run(0, 0));
    acts := [a] + [Run(0, 0)] + [Run(0, 0)];
    LeadsFurther(s, [a] + [Run(0, 0)], s2, [Run(0, 0)], s');
    assert s'.pcs == s.pcs[0 := Put(m, PAppend)];
  }

  lemma ProduceLast(s: State, m: Msg) returns (acts: seq<Action>, s': State)
    requires 0 in s.pcs && s.pcs[0] == Put(m, PAppend) && s.sh.putOwner == Some(0) && s.sh.getCond == {}
    ensures Leads(s, acts, s')
    ensures s' == State(PutStep(s.sh, 0, m, PAppend, 0).0.(putOwner := None), s.pcs[0 := Idle])
  {
    var r := Run(0, 0);
    OneStep(s, r);
    var s1 := Apply(s, r);
    OneStep(s1, r);
    var s2 := Apply(s1, r);
    LeadsFurther(s, [r], s1, [r], s2);
    OneStep(s2, r);
    var s3 := Apply(s2, r);
    LeadsFurther(s, [r] + [r], s2, [r], s3);
    OneStep(s3, Return(0));
    s' := Apply(s3, Return(0));
    acts := [r] + [r] + [r] + [Return(0)];
    LeadsFurther(s, [r] + [r] + [r], s3, [Return(0)], s');
    assert s'.pcs == s.pcs[0 := Idle];
    assert s'.sh.getCond == s.sh.getCond;
  }

  lemma Produce(s: State) returns (acts: seq<Action>)
    requires CanProduce(s) && s.sh.cnt <= Limit(s.sh)
    ensures Leads(s, acts, Produced(s)) && CanProduce(Produced(s))
  {
    var xs, s1 := ProduceFirst(s);
    var ys, s2 := ProduceLast(s1, |s.sh.enq|);
    LeadsFurther(s, xs, s1, ys, s2);
    assert s.pcs[0 := Put(|s.sh.enq|, PAppend)][0 := Idle] == s.pcs;
    assert s2.pcs == s.pcs;
    assert s2 == Produced(s);
    acts := xs + ys;
  }

  /** Thread 0 fills the put list. */
  lemma {:induction false} Fill(s: State) returns (acts: seq<Action>, s': State)
    requires CanProduce(s) && s.sh.max > 0 && s.sh.cnt == |s.sh.putq| <= s.sh.max
    ensures Leads(s, acts, s') && CanProduce(s') && s'.pcs == s.pcs && s'.sh.max == s.sh.max
    ensures s'.sh.cnt == |s'.sh.putq| == s.sh.max && s'.sh.getq == s.sh.getq && s'.sh.getOwner == s.sh.getOwner
    decreases s.sh.max - s.sh.cnt
  {
    if s.sh.cnt == s.sh.max {
      acts, s' := [], s;
    } else {
      var xs := Produce(s);
      var ys;
      ys, s' := Fill(Produced(s));
      LeadsFurther(s, xs, Produced(s), ys, s');
      acts := xs + ys;
    }
  }

  /** The state in which thread 1, inside a get, has swapped the full list in and not popped yet. */
  function Swapped(s: State): State {
    var b := s.sh.getHead;
    State(s.sh.(getOwner := Some(1), getHead := s.sh.putHead, putHead := b, putTail := Head(b), cnt := 0,
                getq := s.sh.getq + s.sh.putq, putq := []), s.pcs[1 := Get(GPop)])
  }

  predicate CanConsume(s: State) {
    1 in s.pcs && s.pcs[1] == Idle && s.sh.putOwner == None && s.sh.getOwner == None && s.sh.getCond == s.sh.putCond == {} &&
    0 < s.sh.cnt <= s.sh.max && Read(s.sh.mem, Head(s.sh.getHead)) == None
  }

  lemma ConsumeFirst(s: State) returns (acts: seq<Action>, s': State)
    requires CanConsume(s)
    ensures Leads(s, acts, s')
    ensures s' == State(s.sh.(getOwner := Some(1), getHead := s.sh.putHead), s.pcs[1 := Get(Swap(s.sh.getHead, 0, SLock))])
  {
    var a, r := Invoke(1, DoGet), Run(1, 0);
    OneStep(s, a);
    var s1 := Apply(s, a);
    OneStep(s1, r);
    var s2 := Apply(s1, r);
    LeadsFurther(s, [a], s1, [r], s2);
    OneStep(s2, r);
    var s3 := Apply(s2, r);
    LeadsFurther(s, [a] + [r], s2, [r], s3);
    OneStep(s3, r);
    s' := Apply(s3, r);
    LeadsFurther(s, [a] + [r] + [r], s3, [r], s');
    acts := [a] + [r] + [r] + [r];
    assert s'.pcs == s.pcs[1 := Get(Swap(s.sh.getHead, 0, SLock))];
  }

  lemma ConsumeLast(s: State, b: Side) returns (acts: seq<Action>, s': State)
    requires 1 in s.pcs && s.pcs[1] == Get(Swap(b, 0, SLock)) && s.sh.putOwner == None && s.sh.getCond == s.sh.putCond == {}
    requires 0 < s.sh.cnt <= s.sh.max
    ensures Leads(s, acts, s')
    ensures s' == State(s.sh.(putHead := b, putTail := Head(b), cnt := 0, getq := s.sh.getq + s.sh.putq, putq := []),
                        s.pcs[1 := Get(GPop)])
  {
    var r := Run(1, 0);
    OneStep(s, r);
    var s1 := Apply(s, r);
    OneStep(s1, r);
    var s2 := Apply(s1, r);
    LeadsFurther(s, [r], s1, [r], s2);
    OneStep(s2, r);
    var s3 := Apply(s2, r);
    LeadsFurther(s, [r] + [r], s2, [r], s3);
    OneStep(s3, r);
    var s4 := Apply(s3, r);
    LeadsFurther(s, [r] + [r] + [r], s3, [r], s4);
    OneStep(s4, r);
    s' := Apply(s4, r);
    LeadsFurther(s, [r] + [r] + [r] + [r], s4, [r], s');
    acts := [r] + [r] + [r] + [r] + [r];
    assert s'.pcs == s.pcs[1 := Get(GPop)];
  }

  lemma Consume(s: State) returns (acts: seq<Action>)
    requires CanConsume(s)
    ensures Leads(s, acts, Swapped(s))
  {
    var xs, s1 := ConsumeFirst(s);
    var ys, s2 := ConsumeLast(s1, s.sh.getHead);
    LeadsFurther(s, xs, s1, ys, s2);
    assert s2.pcs == s.pcs[1 := Get(GPop)];
    acts := xs + ys;
  }

  lemma {:induction false} LeadsKeeps(s: State, acts: seq<Action>, s': State)
    requires Leads(s, acts, s') && Inv(s)
    ensures Inv(s')
    decreases |acts|
  {
    if acts != [] {
      AnyKeeps(s, acts[0]);
      LeadsKeeps(Apply(s, acts[0]), acts[1..], s');
    }
  }

  lemma TwoThreads(max: nat) returns (acts: seq<Action>, s: State)
    ensures Leads(Init(max), acts, s) && s == State(Init(max).sh, map[0 := Idle, 1 := Idle])
  {
    var s1 := Apply(Init(max), Arrive(0));
    OneStep(Init(max), Arrive(0));
    OneStep(s1, Arrive(1));
    s := Apply(s1, Arrive(1));
    LeadsFurther(Init(max), [Arrive(0)], s1, [Arrive(1)], s);
    acts := [Arrive(0)] + [Arrive(1)];
    assert s.pcs == map[0 := Idle, 1 := Idle];
  }

  lemma {:induction false} Trace(from: State, acts: seq<Action>, to: State) returns (ss: seq<State>)
    requires Leads(from, acts, to)
    ensures |ss| == |acts| + 1 && ss[0] == from && ss[|acts|] == to && AlwaysBlocking(acts)
    ensures forall i :: 0 <= i < |acts| ==> StepAt(ss, acts, i)
    decreases |acts|
  {
    if acts == [] {
      ss := [from];
    } else {
      var rest := Trace(Apply(from, acts[0]), acts[1..], to);
      ss := [from] + rest;
      assert forall i :: 0 < i < |acts| ==> acts[i] == acts[1..][i - 1];
      forall i | 0 < i < |acts| ensures StepAt(ss, acts, i) {
        assert StepAt(rest, acts[1..], i - 1);
      }
    }
  }

  lemma FillTwice(max: nat) returns (acts: seq<Action>, s: State)
    requires max > 0
    ensures Leads(Init(max), acts, s) && Pending(s) == 2 * max
  {
    var a1, s1 := TwoThreads(max);
    var a2, s2 := Fill(s1);
    LeadsFurther(Init(max), a1, s1, a2, s2);
    InitInv(max);
    LeadsKeeps(Init(max), a1 + a2, s2);
    FirstCell(s2.sh);
    var a3 := Consume(s2);
    LeadsFurther(Init(max), a1 + a2, s2, a3, Swapped(s2));
    LeadsKeeps(s2, a3, Swapped(s2));
    var a4;
    a4, s := Fill(Swapped(s2));
    LeadsFurther(Init(max), a1 + a2 + a3, Swapped(s2), a4, s);
    acts := a1 + a2 + a3 + a4;
  }

  /** The bound is exact: for every `maxlen` some run in blocking mode holds twice as many messages. */
  lemma BoundReached(max: nat) returns (ss: seq<State>, acts: seq<Action>)
    requires max > 0
    ensures IsRun(max, ss, acts) && AlwaysBlocking(acts) && Pending(ss[|acts|]) == 2 * max
  {
    var s;
    acts, s := FillTwice(max);
    ss := Trace(Init(max), acts, s);
  }
}
