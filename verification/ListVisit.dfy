/** Which nodes a traversal tests, and what `remove_if` and `find_first_if` conclude. */
module ListVisit {
  import opened Common
  import opened ListMachine
  import opened ListInv
  import opened ListOrder

  /** The last node tested; the head before the first test. */
  function Last(th: Thread): Node {
    if th.reached == [] then HEAD else th.reached[|th.reached| - 1]
  }

  /** The nodes tested so far, in list order; all were in the list when the traversal began. */
  ghost predicate Path(sh: Shared, th: Thread) {
    (forall i, j :: 0 <= i < j < |th.reached| ==> Before(th.reached[i], th.reached[j])) &&
    (forall i :: 0 <= i < |th.reached| ==> th.reached[i] in th.snap) &&
    (forall m :: m in th.snap ==> m != HEAD && m <= sh.made)
  }

  /** The traversal has run to the end of the list, or is still running. */
  ghost predicate Thorough(pc: Pc) {
    Inside(pc) || (pc.Trav? && pc.at == Finished(None))
  }

  /** A node present at the start and not tested was unlinked by an earlier traversal, or lies ahead. */
  ghost predicate Cover(sh: Shared, th: Thread) {
    Thorough(th.pc) ==>
      forall m :: m in th.snap && m !in th.reached ==>
        if m in sh.live then Inside(th.pc) && Before(Last(th), m) else m in sh.cutBy && sh.cutBy[m] < th.ticket
  }

  /** The node at which the traversal stands: the one tested last, or the last one it kept before that. */
  function Pos(at: Place): Node {
    match at
    case Test(c) => c
    case Want(c, _) => c
    case Both(c, _) => c
    case End(c) => c
    case UnlockOut(c, _) => c
    case Delete(c, _) => c
    case Call(n) => n
    case Found(n) => n
    case Release(_, n) => n
    case Unlink(_, n) => n
    case _ => HEAD
  }

  predicate JustTested(at: Place) {
    at.Call? || at.Found? || at.Release? || at.Unlink? || at.UnlockOut? || at.Delete?
  }

  /** The list beyond the traversal's position is all in the snapshot and not tested yet. */
  ghost predicate Stands(sh: Shared, th: Thread) {
    Inside(th.pc) ==>
      var c := Pos(th.pc.at);
      (c == Last(th) || Before(c, Last(th))) &&
      (JustTested(th.pc.at) ==> th.pc.at.nxt == Last(th)) &&
      (forall m :: m in sh.live && Before(c, m) ==> Before(Last(th), m)) &&
      (forall m :: m in sh.live && Before(Last(th), m) ==> m in th.snap)
  }

  ghost predicate Visit(sh: Shared, th: Thread) {
    Path(sh, th) && Cover(sh, th) && Stands(sh, th)
  }

  // ---- the traversal's own steps ----

  lemma EnterVisit(sh: Shared, t: Tid, th: Thread, k: Kind)
    requires Shape(sh) && th.pc == Trav(k, Enter)
    ensures var (sh', th') := TravStep(sh, t, th, k, Enter); Visit(sh', th')
  {
  }

  lemma BothPath(sh: Shared, t: Tid, th: Thread, k: Kind, c: Node, n: Node)
    requires th.pc == Trav(k, Both(c, n)) && Path(sh, th) && n in th.snap && Before(Last(th), n)
    ensures var (sh', th') := TravStep(sh, t, th, k, Both(c, n)); Path(sh', th')
  {
    forall i | 0 <= i < |th.reached| ensures Before(th.reached[i], n) {
      assert th.reached[i] == Last(th) || Before(th.reached[i], Last(th));
    }
  }

  lemma BothCover(sh: Shared, t: Tid, th: Thread, k: Kind, c: Node, n: Node)
    requires th.pc == Trav(k, Both(c, n)) && Cover(sh, th) && Before(Last(th), n)
    requires forall m :: m in sh.live && Before(Last(th), m) ==> m == n || Before(n, m)
    ensures var (sh', th') := TravStep(sh, t, th, k, Both(c, n)); Cover(sh', th')
  {
    var (sh', th') := TravStep(sh, t, th, k, Both(c, n));
    assert forall m :: m in th'.reached <==> m in th.reached || m == n;
  }

  lemma BothStands(sh: Shared, t: Tid, th: Thread, k: Kind, c: Node, n: Node)
    requires th.pc == Trav(k, Both(c, n)) && Stands(sh, th) && Adjacent(sh, c) && Next(sh, c) == Some(n)
    ensures var (sh', th') := TravStep(sh, t, th, k, Both(c, n)); Stands(sh', th')
  {
  }

  /** The next node is tested. */
  lemma BothVisit(sh: Shared, t: Tid, th: Thread, k: Kind, c: Node, n: Node)
    requires Shape(sh) && th.pc == Trav(k, Both(c, n)) && Local(sh, t, th.pc) && Visit(sh, th)
    ensures var (sh', th') := TravStep(sh, t, th, k, Both(c, n)); Visit(sh', th')
  {
    assert Adjacent(sh, c);
    assert Before(Last(th), n) && n in th.snap;
    assert forall m :: m in sh.live && Before(Last(th), m) ==> m == n || Before(n, m);
    BothPath(sh, t, th, k, c, n);
    BothCover(sh, t, th, k, c, n);
    BothStands(sh, t, th, k, c, n);
  }

  lemma UnlinkCover(sh: Shared, t: Tid, th: Thread, k: Kind, c: Node, n: Node)
    requires th.pc == Trav(k, Unlink(c, n)) && Cover(sh, th) && n in th.reached
    ensures var (sh', th') := TravStep(sh, t, th, k, Unlink(c, n)); Cover(sh', th')
  {
  }

  lemma UnlinkStands(sh: Shared, t: Tid, th: Thread, k: Kind, c: Node, n: Node)
    requires Adjacent(sh, c) && Next(sh, c) == Some(n) && th.pc == Trav(k, Unlink(c, n)) && Stands(sh, th)
    ensures var (sh', th') := TravStep(sh, t, th, k, Unlink(c, n)); Stands(sh', th')
  {
  }

  lemma UnlinkVisit(sh: Shared, t: Tid, th: Thread, k: Kind, c: Node, n: Node)
    requires Shape(sh) && th.pc == Trav(k, Unlink(c, n)) && Local(sh, t, th.pc) && Visit(sh, th)
    ensures var (sh', th') := TravStep(sh, t, th, k, Unlink(c, n)); Visit(sh', th')
  {
    assert Adjacent(sh, c);
    assert th.reached != [] && n in th.reached;
    UnlinkCover(sh, t, th, k, c, n);
    UnlinkStands(sh, t, th, k, c, n);
  }

  /** The traversal stands where it stood, or moves to the node tested last. */
  lemma MoveVisit(sh: Shared, sh': Shared, th: Thread, k: Kind, at': Place)
    requires Visit(sh, th) && Inside(th.pc) && Inside(Trav(k, at'))
    requires sh'.live == sh.live && sh'.cutBy == sh.cutBy && sh'.made == sh.made
    requires Pos(at') == Pos(th.pc.at) || (Pos(at') == Last(th))
    requires JustTested(at') ==> at'.nxt == Last(th)
    ensures Visit(sh', th.(pc := Trav(k, at')))
  {
  }

  lemma EndVisit(sh: Shared, sh': Shared, th: Thread, k: Kind, c: Node)
    requires Shape(sh) && Visit(sh, th) && th.pc == Trav(k, End(c)) && c in sh.live && Next(sh, c) == None
    requires sh'.live == sh.live && sh'.cutBy == sh.cutBy && sh'.made == sh.made
    ensures Visit(sh', th.(pc := Trav(k, Finished(None))))
  {
    assert Adjacent(sh, c);
    assert forall m :: m in sh.live ==> !Before(c, m);
  }

  lemma PlainStep(sh: Shared, t: Tid, th: Thread, k: Kind, at: Place)
    requires Shape(sh) && th.pc == Trav(k, at) && Local(sh, t, th.pc) && Stands(sh, th)
    requires at != Enter && !at.Both? && !at.Unlink?
    ensures var (sh', th') := TravStep(sh, t, th, k, at);
      sh'.live == sh.live && sh'.cutBy == sh.cutBy && sh'.made == sh.made && th'.pc.Trav? && th' == th.(pc := Trav(k, th'.pc.at)) &&
      (Inside(th.pc) && Inside(th'.pc) ==>
         (Pos(th'.pc.at) == Pos(at) || Pos(th'.pc.at) == Last(th)) && (JustTested(th'.pc.at) ==> th'.pc.at.nxt == Last(th)))
  {
  }

  lemma PlainVisit(sh: Shared, t: Tid, th: Thread, k: Kind, at: Place)
    requires Shape(sh) && th.pc == Trav(k, at) && Local(sh, t, th.pc) && Visit(sh, th)
    requires at != Enter && !at.Both? && !at.Unlink?
    ensures var (sh', th') := TravStep(sh, t, th, k, at); Visit(sh', th')
  {
    var (sh', th') := TravStep(sh, t, th, k, at);
    PlainStep(sh, t, th, k, at);
    if at.End? {
      EndVisit(sh, sh', th, k, at.cur);
    } else if Inside(th.pc) && Inside(th'.pc) {
      MoveVisit(sh, sh', th, k, th'.pc.at);
    }
  }

  lemma OwnVisit(sh: Shared, t: Tid, th: Thread)
    requires Shape(sh) && Local(sh, t, th.pc) && Visit(sh, th)
    ensures var (sh', th') := Exec(sh, t, th); Visit(sh', th')
  {
    if th.pc.Trav? {
      var k, at := th.pc.k, th.pc.at;
      if at == Enter { EnterVisit(sh, t, th, k); }
      else if at.Both? { BothVisit(sh, t, th, k, at.cur, at.nxt); }
      else if at.Unlink? { UnlinkVisit(sh, t, th, k, at.cur, at.nxt); }
      else { PlainVisit(sh, t, th, k, at); }
    }
  }

  // ---- steps of other threads ----

  /** A node pushed at the front is not ahead of a traversal that has left the head. */
  lemma PushVisit(sh: Shared, sh': Shared, u: Tid, th: Thread)
    requires Visit(sh, th) && Local(sh, u, th.pc) && (HEAD in sh.owner ==> sh.owner[HEAD] != u)
    requires Shape(sh) && sh'.made == sh.made + 1 && sh'.live == sh.live + {sh'.made} && sh'.cutBy == sh.cutBy
    ensures Visit(sh', th)
  {
    if Inside(th.pc) { assert HoldsNode(th.pc, Pos(th.pc.at)); }
  }

  /** A node is unlinked by a traversal that is ahead. */
  lemma CutVisit(sh: Shared, sh': Shared, th: Thread, n: Node, ticket: nat)
    requires Visit(sh, th) && n in sh.live && sh'.made == sh.made && sh'.live == sh.live - {n}
    requires sh'.cutBy == sh.cutBy[n := ticket] && n !in sh.cutBy
    requires Inside(th.pc) && Before(Last(th), n) ==> ticket < th.ticket
    ensures Visit(sh', th)
  {
  }

  /** A thread about to unlink a node that lies ahead of a traversal took the head lock before it. */
  lemma CutterAhead(s: State, t: Tid, u: Tid)
    requires Shape(s.sh) && Locals(s) && Tickets(s) && Order(s) && t in s.th && u in s.th && t != u
    requires Stands(s.sh, s.th[u]) && Inside(s.th[u].pc) && s.th[t].pc.Trav? && s.th[t].pc.at.Unlink?
    requires Before(Last(s.th[u]), s.th[t].pc.at.nxt)
    ensures s.th[t].ticket < s.th[u].ticket
  {
    var n, c := s.th[t].pc.at.nxt, Pos(s.th[u].pc.at);
    assert HoldsNode(s.th[t].pc, n) && HoldsNode(s.th[u].pc, c);
    assert !Before(n, c);
    assert !Behind(s.th[t].pc, s.th[u].pc);
  }

  lemma OtherVisit(s: State, t: Tid, u: Tid)
    requires Shape(s.sh) && Locals(s) && Tickets(s) && Order(s) && Enabled(s, Run(t))
    requires u in s.th && u != t && Visit(s.sh, s.th[u])
    ensures Visit(Apply(s, Run(t)).sh, s.th[u])
  {
    var th, sh' := s.th[t], Apply(s, Run(t)).sh;
    assert Local(s.sh, t, th.pc);
    if th.pc.PushLink? {
      assert HoldsNode(th.pc, HEAD);
      PushVisit(s.sh, sh', u, s.th[u]);
    } else if th.pc.Trav? && th.pc.at.Unlink? {
      assert Adjacent(s.sh, th.pc.at.cur);
      if Inside(s.th[u].pc) && Before(Last(s.th[u]), th.pc.at.nxt) { CutterAhead(s, t, u); }
      CutVisit(s.sh, sh', s.th[u], th.pc.at.nxt, th.ticket);
    }
  }
}
