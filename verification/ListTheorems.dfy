/** What the list promises, in every run. */
module ListTheorems {
  import opened Common
  import opened ListMachine
  import opened ListInv
  import opened ListOrder
  import opened ListVisit

  // ---- what traversals conclude ----

  /** Only `remove_if` unlinks, and only nodes that it tested and that satisfy its predicate. */
  ghost predicate Cuts(sh: Shared, th: Thread) {
    Ticketed(th.pc) ==>
      forall n :: n in sh.cutBy && sh.cutBy[n] == th.ticket ==>
        n in th.reached && th.pc.k.Remove? && th.pc.k.p(Data(sh, n))
  }

  /** `find_first_if` has its last node in hand: it is being tested, or was accepted. */
  predicate InHand(at: Place) {
    at.Call? || at.Found? || (at.Finished? && at.res.Some?)
  }

  /** `find_first_if` has gone on only past nodes that fail its predicate. */
  ghost predicate Passed(sh: Shared, th: Thread) {
    Ticketed(th.pc) && th.pc.k.Find? ==>
      var at, p := th.pc.at, th.pc.k.p;
      (forall n :: n in th.reached && (n != Last(th) || !InHand(at)) ==> !p(Data(sh, n))) &&
      (at.Found? ==> Last(th) == at.nxt && th.reached != [] && p(Data(sh, at.nxt))) &&
      (at.Finished? && at.res.Some? ==> th.reached != [] && Last(th) == at.res.value && p(Data(sh, at.res.value)))
  }

  /** `remove_if` has left in the list only nodes that fail its predicate. */
  ghost predicate Left(sh: Shared, th: Thread) {
    Ticketed(th.pc) && th.pc.k.Remove? ==>
      var at, p := th.pc.at, th.pc.k.p;
      !at.Call? && !at.Found? && (at.Finished? ==> at.res == None) &&
      (at.Unlink? ==> p(Data(sh, at.nxt))) &&
      (forall n :: n in th.reached && n in sh.live && !(at.Unlink? && n == at.nxt) ==> !p(Data(sh, n)))
  }

  /** Only `remove_if` takes its branches, and only `find_first_if` ends before the end of the list. */
  ghost predicate Branches(th: Thread) {
    Ticketed(th.pc) ==>
      var k, at := th.pc.k, th.pc.at;
      (!k.Remove? ==> !at.Release? && !at.Unlink? && !at.UnlockOut? && !at.Delete?) &&
      (!k.Find? ==> !at.Found? && !(at.Finished? && at.res.Some?))
  }

  ghost predicate Verdict(sh: Shared, th: Thread) {
    Cuts(sh, th) && Passed(sh, th) && Left(sh, th) && Branches(th) && Swept(sh, th)
  }

  /** `find_first_if` has come to the node it returns past every node of the snapshot before it that is still there. */
  ghost predicate Swept(sh: Shared, th: Thread) {
    th.pc.Trav? && th.pc.at.Finished? && th.pc.at.res.Some? ==>
      forall m :: m in th.snap && m in sh.live && Before(m, th.pc.at.res.value) ==> m in th.reached
  }

  lemma OwnSwept(sh: Shared, t: Tid, th: Thread)
    requires Visit(sh, th) && Swept(sh, th)
    ensures var (sh', th') := Exec(sh, t, th); Swept(sh', th')
  {
  }

  /** The node in hand is the last one tested, and there is one. */
  lemma TestedNode(sh: Shared, t: Tid, th: Thread)
    requires Shape(sh) && Local(sh, t, th.pc) && Visit(sh, th) && Inside(th.pc) && JustTested(th.pc.at)
    ensures th.reached != [] && Last(th) == th.pc.at.nxt && th.pc.at.nxt in th.reached
  {
    if th.pc.at.Release? || th.pc.at.Unlink? { assert Adjacent(sh, th.pc.at.cur); }
    assert th.pc.at.nxt != HEAD;
  }

  /** Entering and unlinking aside, a step of a traversal leaves `cutBy` and its ticket alone. */
  lemma PlainCuts(sh: Shared, t: Tid, th: Thread, k: Kind, at: Place)
    requires th.pc == Trav(k, at) && at != Enter && !at.Unlink? && Cuts(sh, th) && Branches(th)
    ensures var (sh', th') := TravStep(sh, t, th, k, at); Cuts(sh', th') && Branches(th')
  {
    var (sh', th') := TravStep(sh, t, th, k, at);
    assert forall n :: n in th.reached ==> n in th'.reached;
  }

  lemma EnterCuts(sh: Shared, t: Tid, th: Thread, k: Kind)
    requires th.pc == Trav(k, Enter) && forall n :: n in sh.cutBy ==> sh.cutBy[n] < sh.tickets
    ensures var (sh', th') := TravStep(sh, t, th, k, Enter); Cuts(sh', th') && Branches(th')
  {
  }

  lemma UnlinkCuts(sh: Shared, t: Tid, th: Thread, k: Kind, c: Node, n: Node)
    requires th.pc == Trav(k, Unlink(c, n)) && Cuts(sh, th) && Left(sh, th) && Branches(th) && n in th.reached
    ensures var (sh', th') := TravStep(sh, t, th, k, Unlink(c, n)); Cuts(sh', th') && Branches(th')
  {
  }

  lemma OwnCuts(sh: Shared, t: Tid, th: Thread)
    requires Shape(sh) && Local(sh, t, th.pc) && Visit(sh, th) && Cuts(sh, th) && Left(sh, th) && Branches(th)
    requires Ready(sh, th.pc) && forall n :: n in sh.cutBy ==> sh.cutBy[n] < sh.tickets
    ensures var (sh', th') := Exec(sh, t, th); Cuts(sh', th') && Branches(th')
  {
    if th.pc.Trav? {
      var k, at := th.pc.k, th.pc.at;
      if at == Enter {
        EnterCuts(sh, t, th, k);
      } else if at.Unlink? {
        TestedNode(sh, t, th);
        UnlinkCuts(sh, t, th, k, at.cur, at.nxt);
      } else {
        PlainCuts(sh, t, th, k, at);
      }
    }
  }

  lemma BothPassed(sh: Shared, t: Tid, th: Thread, k: Kind, c: Node, n: Node)
    requires th.pc == Trav(k, Both(c, n)) && k.Find? && Passed(sh, th)
    ensures var (sh', th') := TravStep(sh, t, th, k, Both(c, n)); Passed(sh', th')
  {
    var (sh', th') := TravStep(sh, t, th, k, Both(c, n));
    assert Last(th') == n;
    assert forall m :: m in th'.reached && m != n ==> m in th.reached;
  }

  lemma CallPassed(sh: Shared, t: Tid, th: Thread, k: Kind, n: Node)
    requires th.pc == Trav(k, Call(n)) && k.Find? && Passed(sh, th) && Last(th) == n && th.reached != []
    ensures var (sh', th') := TravStep(sh, t, th, k, Call(n)); Passed(sh', th')
  {
  }

  /** The other steps of `find_first_if` test nothing. */
  lemma PlainPassed(sh: Shared, t: Tid, th: Thread, k: Kind, at: Place)
    requires th.pc == Trav(k, at) && k.Find? && Passed(sh, th) && Branches(th) && !at.Both? && !at.Call?
    ensures var (sh', th') := TravStep(sh, t, th, k, at); Passed(sh', th')
  {
  }

  lemma OwnPassed(sh: Shared, t: Tid, th: Thread)
    requires Shape(sh) && Local(sh, t, th.pc) && Visit(sh, th) && Passed(sh, th) && Branches(th) && Ready(sh, th.pc)
    ensures var (sh', th') := Exec(sh, t, th); Passed(sh', th')
  {
    if th.pc.Trav? && th.pc.k.Find? {
      var k, at := th.pc.k, th.pc.at;
      if at.Call? {
        TestedNode(sh, t, th);
        CallPassed(sh, t, th, k, at.nxt);
      } else if at.Both? {
        BothPassed(sh, t, th, k, at.cur, at.nxt);
      } else {
        PlainPassed(sh, t, th, k, at);
      }
    }
  }

  lemma RemoveLeft(sh: Shared, t: Tid, th: Thread, k: Kind, at: Place)
    requires th.pc == Trav(k, at) && k.Remove? && Left(sh, th) && (at.Both? || at.Unlink?)
    ensures var (sh', th') := TravStep(sh, t, th, k, at); Left(sh', th')
  {
    var (sh', th') := TravStep(sh, t, th, k, at);
    if at.Both? { assert forall m :: m in th'.reached ==> m in th.reached || m == at.nxt; }
  }

  lemma OwnLeft(sh: Shared, t: Tid, th: Thread)
    requires Left(sh, th) && Ready(sh, th.pc)
    ensures var (sh', th') := Exec(sh, t, th); Left(sh', th')
  {
    if th.pc.Trav? && th.pc.k.Remove? && (th.pc.at.Both? || th.pc.at.Unlink?) {
      RemoveLeft(sh, t, th, th.pc.k, th.pc.at);
    }
  }

  /** Steps of others neither change the data of a node nor bring one back into the list. */
  lemma OtherVerdict(sh: Shared, sh': Shared, th: Thread)
    requires Path(sh, th) && Verdict(sh, th) && (th.pc.Trav? && th.pc.at.Unlink? ==> th.pc.at.nxt <= sh.made)
    requires forall n: Node :: n in sh'.live && n <= sh.made ==> n in sh.live
    requires forall n: Node :: n <= sh.made ==> Data(sh', n) == Data(sh, n)
    requires Ticketed(th.pc) ==> forall n: Node :: n in sh'.cutBy && sh'.cutBy[n] == th.ticket ==> n in sh.cutBy && sh.cutBy[n] == th.ticket
    ensures Verdict(sh', th)
  {
    assert forall n :: n in th.reached ==> n <= sh.made;
  }

  ghost predicate Grown(sh: Shared, sh': Shared) {
    (forall n: Node :: n in sh'.live && n <= sh.made ==> n in sh.live) &&
    (forall n: Node :: n <= sh.made ==> Data(sh', n) == Data(sh, n)) && sh.made <= sh'.made
  }

  lemma TravFrame(sh: Shared, t: Tid, th: Thread, k: Kind, at: Place)
    ensures Grown(sh, TravStep(sh, t, th, k, at).0)
  {
  }

  lemma Frame(sh: Shared, t: Tid, th: Thread)
    requires Shape(sh) && Local(sh, t, th.pc) && Ready(sh, th.pc)
    ensures Grown(sh, Exec(sh, t, th).0)
  {
    if th.pc.Trav? { TravFrame(sh, t, th, th.pc.k, th.pc.at); }
  }

  // ---- the invariant ----

  ghost predicate Visits(s: State) {
    forall t :: t in s.th ==> Visit(s.sh, s.th[t]) && Verdict(s.sh, s.th[t])
  }

  ghost predicate Inv(s: State) {
    Shape(s.sh) && Locals(s) && Owners(s) && Tickets(s) && Order(s) && Visits(s)
  }

  /** No traversal unlinks under another's ticket. */
  lemma OthersCuts(s: State, t: Tid, u: Tid)
    requires Tickets(s) && Enabled(s, Run(t)) && u in s.th && u != t && Ticketed(s.th[u].pc)
    ensures var sh' := Exec(s.sh, t, s.th[t]).0;
      forall n: Node :: n in sh'.cutBy && sh'.cutBy[n] == s.th[u].ticket ==> n in s.sh.cutBy && s.sh.cutBy[n] == s.th[u].ticket
  {
    TicketStep(s.sh, t, s.th[t]);
  }

  lemma UnlinkedMade(sh: Shared, u: Tid, pc: Pc)
    requires Shape(sh) && Local(sh, u, pc) && pc.Trav? && pc.at.Unlink?
    ensures pc.at.nxt <= sh.made
  {
    assert Adjacent(sh, pc.at.cur);
  }

  lemma OthersVerdict(s: State, t: Tid, u: Tid)
    requires Inv(s) && Enabled(s, Run(t)) && u in s.th && u != t
    ensures Verdict(Apply(s, Run(t)).sh, s.th[u])
  {
    var th, sh' := s.th[u], Exec(s.sh, t, s.th[t]).0;
    assert Local(s.sh, t, s.th[t].pc) && Local(s.sh, u, th.pc) && Visit(s.sh, th) && Verdict(s.sh, th);
    Frame(s.sh, t, s.th[t]);
    if Ticketed(th.pc) { OthersCuts(s, t, u); }
    if th.pc.Trav? && th.pc.at.Unlink? { UnlinkedMade(s.sh, u, th.pc); }
    OtherVerdict(s.sh, sh', th);
  }

  lemma VisitsKept(s: State, t: Tid)
    requires Inv(s) && Enabled(s, Run(t))
    ensures Visits(Apply(s, Run(t)))
  {
    var th := s.th[t];
    OwnVisit(s.sh, t, th);
    OwnCuts(s.sh, t, th);
    OwnPassed(s.sh, t, th);
    OwnLeft(s.sh, t, th);
    OwnSwept(s.sh, t, th);
    forall u | u in s.th && u != t
      ensures var sh' := Apply(s, Run(t)).sh; Visit(sh', s.th[u]) && Verdict(sh', s.th[u])
    {
      OtherVisit(s, t, u);
      OthersVerdict(s, t, u);
    }
  }

  lemma RunKeeps(s: State, t: Tid)
    requires Inv(s) && Enabled(s, Run(t))
    ensures Inv(Apply(s, Run(t)))
  {
    ShapeKept(s.sh, t, s.th[t]);
    LocalsKept(s, t);
    TicketsKept(s, t);
    OrderKept(s, t);
    VisitsKept(s, t);
  }

  /** Starting a thread or an operation: it holds nothing and has no ticket yet. */
  lemma StartLocals(s: State, t: Tid, th: Thread)
    requires Locals(s) && Owners(s) && (t in s.th ==> !Active(s.th[t].pc))
    requires th.pc == Idle || th.pc.PushLock? || (th.pc.Trav? && th.pc.at == Enter)
    ensures Locals(State(s.sh, s.th[t := th])) && Owners(State(s.sh, s.th[t := th]))
  {
    assert t in s.th ==> Local(s.sh, t, s.th[t].pc);
    assert forall n :: !HoldsNode(th.pc, n);
  }

  lemma StartOrder(s: State, t: Tid, th: Thread)
    requires Tickets(s) && Order(s) && Visits(s) && !Ticketed(th.pc) && Path(s.sh, th)
    ensures var s' := State(s.sh, s.th[t := th]); Tickets(s') && Order(s') && Visits(s')
  {
  }

  lemma StartKeeps(s: State, a: Action)
    requires Inv(s) && Enabled(s, a) && !a.Run?
    ensures Inv(Apply(s, a))
  {
    var th := Apply(s, a).th[a.t];
    assert a.t in s.th ==> Visit(s.sh, s.th[a.t]);
    StartLocals(s, a.t, th);
    StartOrder(s, a.t, th);
  }

  lemma NextKeeps(s: State, a: Action, s': State)
    requires Moves(s, a, s') && Inv(s)
    ensures Inv(s')
  {
    if a.Run? { RunKeeps(s, a.t); } else { StartKeeps(s, a); }
  }

  lemma {:induction false} Reachable(ss: seq<State>, acts: seq<Action>, i: nat)
    requires IsRun(ss, acts) && i < |ss|
    ensures Inv(ss[i])
  {
    if i > 0 {
      Reachable(ss, acts, i - 1);
      assert StepAt(ss, acts, i - 1);
      NextKeeps(ss[i - 1], acts[i - 1], ss[i]);
    }
  }

  // ---- the theorems ----

  lemma AdjacentLocks(sh: Shared, t: Tid, pc: Pc, a: Node, b: Node)
    requires Shape(sh) && Local(sh, t, pc) && Before(a, b) && HoldsNode(pc, a) && HoldsNode(pc, b)
    ensures a in sh.live && (Next(sh, a) == Some(b) || (b in sh.out && sh.out[b] == t))
    ensures forall n :: HoldsNode(pc, n) ==> n == a || n == b
  {
    if pc.at.Both? || pc.at.Release? || pc.at.Unlink? { assert Adjacent(sh, pc.at.cur); }
  }

  /** A thread holds no lock, one lock, or the locks of two nodes adjacent in the list (one perhaps just unlinked). */
  lemma LocksAdjacent(ss: seq<State>, acts: seq<Action>, i: nat, t: Tid, a: Node, b: Node)
    requires IsRun(ss, acts) && i < |ss| && t in ss[i].th && Before(a, b)
    requires a in ss[i].sh.owner && ss[i].sh.owner[a] == t && b in ss[i].sh.owner && ss[i].sh.owner[b] == t
    ensures var sh := ss[i].sh;
      a in sh.live && (Next(sh, a) == Some(b) || (b in sh.out && sh.out[b] == t)) &&
      forall n :: n in sh.owner && sh.owner[n] == t ==> n == a || n == b
  {
    Reachable(ss, acts, i);
    assert Local(ss[i].sh, t, ss[i].th[t].pc);
    AdjacentLocks(ss[i].sh, t, ss[i].th[t].pc, a, b);
  }

  /**
   No overtaking: of two traversals in progress, the one that took the head lock later holds only nodes that
   come before every node the other holds.
   */
  lemma NoOvertaking(ss: seq<State>, acts: seq<Action>, i: nat, t: Tid, u: Tid, a: Node, b: Node)
    requires IsRun(ss, acts) && i < |ss| && t in ss[i].th && u in ss[i].th && t != u
    requires Inside(ss[i].th[t].pc) && Inside(ss[i].th[u].pc) && ss[i].th[t].ticket < ss[i].th[u].ticket
    requires HoldsNode(ss[i].th[u].pc, a) && HoldsNode(ss[i].th[t].pc, b)
    ensures Before(a, b)
  {
    Reachable(ss, acts, i);
    assert Behind(ss[i].th[u].pc, ss[i].th[t].pc);
  }

  /** While a node is being unlinked and deleted no other thread holds its mutex or waits for it. */
  lemma SafeUnlink(ss: seq<State>, acts: seq<Action>, i: nat, t: Tid, u: Tid)
    requires IsRun(ss, acts) && i < |ss| && t in ss[i].th && u in ss[i].th && t != u
    requires ss[i].th[t].pc.Trav? && var at := ss[i].th[t].pc.at; at.Unlink? || at.UnlockOut? || at.Delete?
    ensures var n := ss[i].th[t].pc.at.nxt; !HoldsNode(ss[i].th[u].pc, n) && Awaits(ss[i].th[u].pc) != Some(n)
  {
    Reachable(ss, acts, i);
    UnlinkAlone(ss[i], t, u);
  }

  lemma UnlinkAlone(s: State, t: Tid, u: Tid)
    requires Shape(s.sh) && Locals(s) && t in s.th && u in s.th && t != u
    requires s.th[t].pc.Trav? && var at := s.th[t].pc.at; at.Unlink? || at.UnlockOut? || at.Delete?
    ensures var n := s.th[t].pc.at.nxt; !HoldsNode(s.th[u].pc, n) && Awaits(s.th[u].pc) != Some(n)
  {
    var pt, pu := s.th[t].pc, s.th[u].pc;
    var c, n := pt.at.cur, pt.at.nxt;
    assert Local(s.sh, t, pt) && Local(s.sh, u, pu);
    assert HoldsNode(pt, c);
    if pt.at.Unlink? { assert HoldsNode(pt, n); assert Adjacent(s.sh, c); }
    if pu.Trav? && pu.at.Want? {
      assert HoldsNode(pu, pu.at.cur) && Adjacent(s.sh, pu.at.cur);
      if pu.at.nxt == n { OnePredecessor(s.sh, pu.at.cur, c, n); }
    }
  }

  /**
   A `for_each` or `remove_if` that has finished, and a `find_first_if` that found none, has tested, in list order and
   each once, exactly the nodes that were in the list when it took the head lock, except some that a traversal ahead
   of it unlinked before it came to them.
   */
  lemma VisitsAll(ss: seq<State>, acts: seq<Action>, i: nat, t: Tid)
    requires IsRun(ss, acts) && i < |ss| && t in ss[i].th
    requires var pc := ss[i].th[t].pc; pc.Trav? && pc.at.Finished? && (pc.k.Find? ==> pc.at.res == None)
    ensures var th, sh := ss[i].th[t], ss[i].sh;
      (forall j, k :: 0 <= j < k < |th.reached| ==> Before(th.reached[j], th.reached[k])) &&
      (forall n :: n in th.reached ==> n in th.snap) &&
      (forall n :: n in th.snap && n !in th.reached ==> n !in sh.live && n in sh.cutBy && sh.cutBy[n] < th.ticket)
  {
    Reachable(ss, acts, i);
    var th := ss[i].th[t];
    assert Visit(ss[i].sh, th) && Verdict(ss[i].sh, th);
  }

  /**
   When `remove_if` has finished, every node that was in the list when it took the head lock and still is
   fails the predicate, and every node it unlinked satisfied it.
   */
  lemma RemoveIf(ss: seq<State>, acts: seq<Action>, i: nat, t: Tid, p: Val -> bool)
    requires IsRun(ss, acts) && i < |ss| && t in ss[i].th
    requires ss[i].th[t].pc.Trav? && ss[i].th[t].pc.at.Finished? && ss[i].th[t].pc.k == Remove(p)
    ensures var th, sh := ss[i].th[t], ss[i].sh;
      (forall n :: n in th.snap && n in sh.live ==> !p(Data(sh, n))) &&
      (forall n :: n in sh.cutBy && sh.cutBy[n] == th.ticket ==> p(Data(sh, n)))
  {
    Reachable(ss, acts, i);
    var th := ss[i].th[t];
    assert Visit(ss[i].sh, th) && Verdict(ss[i].sh, th);
  }

  /**
   `find_first_if` returns a node that satisfies the predicate, the first such: every node before it that was in
   the list when it took the head lock and still is fails the predicate. When it returns none, all of those do.
   */
  lemma FindFirst(ss: seq<State>, acts: seq<Action>, i: nat, t: Tid, p: Val -> bool)
    requires IsRun(ss, acts) && i < |ss| && t in ss[i].th
    requires ss[i].th[t].pc.Trav? && ss[i].th[t].pc.at.Finished? && ss[i].th[t].pc.k == Find(p)
    ensures var th, sh, res := ss[i].th[t], ss[i].sh, ss[i].th[t].pc.at.res;
      match res
      case Some(n) =>
        n in th.reached && p(Data(sh, n)) && (forall m :: m in th.reached && m != n ==> !p(Data(sh, m))) &&
        forall m :: m in th.snap && m in sh.live && Before(m, n) ==> !p(Data(sh, m))
      case None => forall m :: m in th.snap && m in sh.live ==> !p(Data(sh, m))
  {
    Reachable(ss, acts, i);
    var th := ss[i].th[t];
    assert Visit(ss[i].sh, th) && Verdict(ss[i].sh, th);
  }

  // ---- progress ----

  /** The further along the list, the smaller. */
  function Rank(sh: Shared, n: Node): nat {
    if n == HEAD then sh.made + 1 else n
  }

  /** A blocked holder waits for a node further along. */
  lemma WaitsAhead(sh: Shared, t: Tid, pc: Pc, n: Node)
    requires Shape(sh) && Local(sh, t, pc) && HoldsNode(pc, n) && !Ready(sh, pc)
    ensures pc.Trav? && pc.at.Want? && pc.at.nxt in sh.owner && Rank(sh, pc.at.nxt) < Rank(sh, n)
  {
    assert pc.Trav? && pc.at.Want?;
    assert Adjacent(sh, pc.at.cur);
  }

  /** Whoever holds a lock can go on, or waits for a node further along, and so on to one that can. */
  lemma {:induction false} HolderChain(s: State, n: Node) returns (u: Tid)
    requires Shape(s.sh) && Locals(s) && Owners(s) && n in s.sh.owner
    ensures u in s.th && Ready(s.sh, s.th[u].pc)
    decreases Rank(s.sh, n)
  {
    u := s.sh.owner[n];
    if !Ready(s.sh, s.th[u].pc) {
      assert Local(s.sh, u, s.th[u].pc);
      WaitsAhead(s.sh, u, s.th[u].pc, n);
      u := HolderChain(s, s.th[u].pc.at.nxt);
    }
  }

  /** No deadlock: while some thread is inside an operation, some thread can execute its next instruction. */
  lemma NoDeadlock(ss: seq<State>, acts: seq<Action>, i: nat, t: Tid)
    requires IsRun(ss, acts) && i < |ss| && t in ss[i].th && Active(ss[i].th[t].pc)
    ensures exists u :: u in ss[i].th && Ready(ss[i].sh, ss[i].th[u].pc)
  {
    Reachable(ss, acts, i);
    if !Ready(ss[i].sh, ss[i].th[t].pc) {
      var u := HolderChain(ss[i], Awaits(ss[i].th[t].pc).value);
    }
  }
}
