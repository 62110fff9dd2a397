/** The calls that a traversal makes to its function or predicate, and how many steps it takes. */
module ListCalls {
  import opened Common
  import opened ListMachine
  import opened ListInv
  import opened ListOrder
  import opened ListVisit
  import opened ListTheorems
  import opened ListPushes

  /** The node on whose datum this instruction of `t` calls `f` or evaluates the predicate (lines 35, 47, 60). */
  ghost function CallOf(s: State, a: Action, t: Tid): seq<Node> {
    if a == Run(t) && t in s.th && s.th[t].pc.Trav? then
      var k, at := s.th[t].pc.k, s.th[t].pc.at;
      if at.Call? || (at.Both? && k.Remove?) then [at.nxt] else []
    else []
  }

  /** The nodes called on from state `i` to state `j`. */
  ghost function Calls(ss: seq<State>, acts: seq<Action>, t: Tid, i: nat, j: nat): seq<Node>
    requires i <= j <= |acts| <= |ss|
  {
    if i == j then [] else Calls(ss, acts, t, i, j - 1) + CallOf(ss[j - 1], acts[j - 1], t)
  }

  function Own(a: Action, t: Tid): nat {
    if a == Run(t) then 1 else 0
  }

  function OwnSteps(acts: seq<Action>, t: Tid, i: nat, j: nat): nat
    requires i <= j <= |acts|
  {
    if i == j then 0 else OwnSteps(acts, t, i, j - 1) + Own(acts[j - 1], t)
  }

  /** The traversal has called on every node in `reached`, but the last one while it is about to. */
  ghost predicate Heard(th: Thread, k: Kind, called: seq<Node>) {
    th.pc.Trav? && th.pc.k == k &&
    match th.pc.at
    case Enter => called == []
    case Call(n) => !k.Remove? && th.reached == called + [n]
    case _ => th.reached == called
  }

  /** The instructions that bring a traversal to this place: at most six for each node tested. */
  function Walked(at: Place, tested: nat): int {
    match at
    case Enter => 0
    case Test(_) => 6 * tested + 1
    case Want(_, _) => 6 * tested + 2
    case Both(_, _) => 6 * tested + 3
    case Call(_) => 6 * tested - 2
    case Release(_, _) => 6 * tested - 2
    case Unlink(_, _) => 6 * tested - 2
    case UnlockOut(_, _) => 6 * tested - 1
    case Delete(_, _) => 6 * tested
    case Found(_) => 6 * tested - 1
    case End(_) => 6 * tested + 2
    case Finished(_) => 6 * tested + 3
  }

  lemma TravCalls(sh: Shared, t: Tid, th: Thread, k: Kind, at: Place, called: seq<Node>)
    requires th.pc == Trav(k, at) && Heard(th, k, called) && !at.Finished?
    ensures var th' := TravStep(sh, t, th, k, at).1;
      Heard(th', k, called + if at.Call? || (at.Both? && k.Remove?) then [at.nxt] else [])
  {
  }

  lemma TravSteps(sh: Shared, t: Tid, th: Thread, k: Kind, at: Place)
    requires th.pc == Trav(k, at) && !at.Finished?
    ensures var th' := TravStep(sh, t, th, k, at).1;
      th'.pc.Trav? && 1 + Walked(at, |th.reached|) <= Walked(th'.pc.at, |th'.reached|)
  {
  }

  /** The same traversal of `t` in two states, `n` steps and these calls apart. */
  ghost predicate Follows(s: State, t: Tid, k: Kind, called: seq<Node>, steps: nat) {
    t in s.th && Heard(s.th[t], k, called) && steps <= Walked(s.th[t].pc.at, |s.th[t].reached|)
  }

  lemma StepFollows(s: State, a: Action, s': State, t: Tid, k: Kind, called: seq<Node>, steps: nat)
    requires Moves(s, a, s') && !Starts(a, t) && Follows(s, t, k, called, steps)
    ensures Follows(s', t, k, called + CallOf(s, a, t), steps + Own(a, t))
  {
    if a == Run(t) {
      TravCalls(s.sh, t, s.th[t], k, s.th[t].pc.at, called);
      TravSteps(s.sh, t, s.th[t], k, s.th[t].pc.at);
    } else {
      assert called + [] == called;
    }
  }

  ghost predicate FollowsAt(ss: seq<State>, acts: seq<Action>, t: Tid, k: Kind, i: nat, j: int)
    requires |ss| == |acts| + 1
  {
    i <= j < |acts| &&
    (Follows(ss[j], t, k, Calls(ss, acts, t, i, j), OwnSteps(acts, t, i, j)) ==>
     Follows(ss[j + 1], t, k, Calls(ss, acts, t, i, j + 1), OwnSteps(acts, t, i, j + 1)))
  }

  lemma NextFollows(ss: seq<State>, acts: seq<Action>, t: Tid, k: Kind, i: nat, j: nat)
    requires IsRun(ss, acts) && i <= j < |acts| && !Starts(acts[j], t)
    ensures FollowsAt(ss, acts, t, k, i, j)
  {
    assert StepAt(ss, acts, j);
    var called, steps := Calls(ss, acts, t, i, j), OwnSteps(acts, t, i, j);
    if Follows(ss[j], t, k, called, steps) { StepFollows(ss[j], acts[j], ss[j + 1], t, k, called, steps); }
  }

  lemma {:induction false} FollowsFor(ss: seq<State>, acts: seq<Action>, t: Tid, k: Kind, i: nat, j: nat)
    requires |ss| == |acts| + 1 && i <= j < |ss| && Follows(ss[i], t, k, [], 0)
    requires forall x :: i <= x < j ==> FollowsAt(ss, acts, t, k, i, x)
    ensures Follows(ss[j], t, k, Calls(ss, acts, t, i, j), OwnSteps(acts, t, i, j))
  {
    if i < j {
      FollowsFor(ss, acts, t, k, i, j - 1);
      assert FollowsAt(ss, acts, t, k, i, j - 1);
    }
  }

  lemma WalkStart(ss: seq<State>, acts: seq<Action>, t: Tid, k: Kind, x: nat)
    requires IsRun(ss, acts) && x < |acts| && acts[x] == Walk(t, k)
    ensures Follows(ss[x + 1], t, k, [], 0)
  {
    assert StepAt(ss, acts, x);
  }

  lemma TraversalFollows(ss: seq<State>, acts: seq<Action>, t: Tid, k: Kind, x: nat, j: nat)
    requires IsRun(ss, acts) && x < j < |ss| && acts[x] == Walk(t, k) && Quiet(acts, t, x + 1, j)
    ensures Follows(ss[j], t, k, Calls(ss, acts, t, x + 1, j), OwnSteps(acts, t, x + 1, j))
  {
    var i := x + 1;
    WalkStart(ss, acts, t, k, x);
    forall y | i <= y < j ensures FollowsAt(ss, acts, t, k, i, y) { NextFollows(ss, acts, t, k, i, y); }
    FollowsFor(ss, acts, t, k, i, j);
  }

  /** A finished traversal has called its function or predicate on the nodes it tested, on each once and in that order. */
  lemma CallsAll(ss: seq<State>, acts: seq<Action>, t: Tid, k: Kind, x: nat, j: nat)
    requires IsRun(ss, acts) && x < j < |ss| && acts[x] == Walk(t, k) && Quiet(acts, t, x + 1, j)
    ensures t in ss[j].th && ss[j].th[t].pc.Trav?
    ensures ss[j].th[t].pc.at.Finished? ==> Calls(ss, acts, t, x + 1, j) == ss[j].th[t].reached
  {
    TraversalFollows(ss, acts, t, k, x, j);
  }

  lemma {:induction false} FewTested(reached: seq<Node>, snap: set<Node>)
    requires forall i, j :: 0 <= i < j < |reached| ==> Before(reached[i], reached[j])
    requires forall n :: n in reached ==> n in snap
    ensures |reached| <= |snap|
  {
    if reached != [] {
      var n, rest := reached[|reached| - 1], reached[..|reached| - 1];
      FewTested(rest, snap - {n});
    }
  }

  lemma TestedPresent(sh: Shared, th: Thread)
    requires Path(sh, th)
    ensures |th.reached| <= |th.snap|
  {
    FewTested(th.reached, th.snap);
  }

  /** A traversal takes at most six steps for each node that was in the list when it took the head lock, and three more. */
  lemma WalkBound(ss: seq<State>, acts: seq<Action>, t: Tid, k: Kind, x: nat, j: nat)
    requires IsRun(ss, acts) && x < j < |ss| && acts[x] == Walk(t, k) && Quiet(acts, t, x + 1, j)
    ensures t in ss[j].th && OwnSteps(acts, t, x + 1, j) <= 6 * |ss[j].th[t].snap| + 3
  {
    TraversalFollows(ss, acts, t, k, x, j);
    Reachable(ss, acts, j);
    assert Visit(ss[j].sh, ss[j].th[t]);
    TestedPresent(ss[j].sh, ss[j].th[t]);
  }
}
