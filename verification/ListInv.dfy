/** What every step of the list keeps: its shape, its locks, and what each traversal knows. */
module ListInv {
  import opened Common
  import opened ListMachine

  // ---- the shape of the list ----

  /** The `next` pointer of node `a` of the list leads to the node right after it. */
  ghost predicate Adjacent(sh: Shared, a: Node) {
    match Next(sh, a)
    case None => forall c :: c in sh.live ==> !Before(a, c)
    case Some(b) => b in sh.live && Before(a, b) && forall c :: c in sh.live && Before(a, c) ==> c == b || Before(b, c)
  }

  ghost predicate Shape(sh: Shared) {
    HEAD in sh.live && sh.live <= sh.next.Keys &&
    (forall n :: n in sh.next ==> n <= sh.made) &&
    (forall n :: n in sh.cutBy ==> n <= sh.made && n !in sh.live) &&
    (forall n :: n in sh.out ==> n in sh.next && n !in sh.live) &&
    (forall n :: n in sh.owner ==> n in sh.next) &&
    (forall n :: n in sh.owner && n in sh.out ==> sh.owner[n] == sh.out[n]) &&
    (forall a :: a in sh.live ==> Adjacent(sh, a))
  }

  // ---- what a thread holds and knows ----

  ghost predicate HoldsNode(pc: Pc, n: Node) {
    match pc
    case Idle => false
    case PushLock(_) => false
    case PushLink(_) => n == HEAD
    case PushUnlock => n == HEAD
    case Trav(_, at) =>
      (match at
       case Test(c) => n == c
       case Want(c, _) => n == c
       case Both(c, x) => n == c || n == x
       case Call(x) => n == x
       case Release(c, x) => n == c || n == x
       case Unlink(c, x) => n == c || n == x
       case UnlockOut(c, x) => n == c || n == x
       case Delete(c, _) => n == c
       case Found(x) => n == x
       case End(c) => n == c
       case _ => false)
  }

  /** What the program counter says about the nodes it mentions. */
  ghost predicate Sees(sh: Shared, t: Tid, pc: Pc) {
    pc.Trav? ==>
    match pc.at
    case Test(c) => c in sh.live
    case Want(c, x) => c in sh.live && Next(sh, c) == Some(x)
    case Both(c, x) => c in sh.live && Next(sh, c) == Some(x)
    case Call(x) => x in sh.live && x != HEAD
    case Release(c, x) => c in sh.live && Next(sh, c) == Some(x)
    case Unlink(c, x) => c in sh.live && Next(sh, c) == Some(x)
    case UnlockOut(c, x) => c in sh.live && Before(c, x) && x in sh.out && sh.out[x] == t
    case Delete(c, x) => c in sh.live && Before(c, x) && x in sh.out && sh.out[x] == t
    case Found(x) => x in sh.live && x != HEAD
    case End(c) => c in sh.live && Next(sh, c) == None
    case _ => true
  }

  ghost predicate Local(sh: Shared, t: Tid, pc: Pc) {
    (forall n :: HoldsNode(pc, n) <==> n in sh.owner && sh.owner[n] == t) &&
    (forall n :: n in sh.out && sh.out[n] == t ==>
       pc.Trav? && ((pc.at.UnlockOut? && pc.at.nxt == n) || (pc.at.Delete? && pc.at.nxt == n))) &&
    Sees(sh, t, pc)
  }

  /** A step of `t` leaves alone every node locked by another thread or being deleted by another thread. */
  ghost predicate Guarantee(sh: Shared, sh': Shared, t: Tid) {
    (forall n :: n in sh.owner && sh.owner[n] != t ==>
       n in sh'.owner && sh'.owner[n] == sh.owner[n] && Next(sh', n) == Next(sh, n) && (n in sh.live ==> n in sh'.live)) &&
    (forall n :: n in sh'.owner && sh'.owner[n] != t ==> n in sh.owner && sh.owner[n] == sh'.owner[n]) &&
    (forall n :: n in sh.out && sh.out[n] != t ==> n in sh'.out && sh'.out[n] == sh.out[n]) &&
    (forall n :: n in sh'.out && sh'.out[n] != t ==> n in sh.out && sh.out[n] == sh'.out[n])
  }

  lemma StableLocal(sh: Shared, sh': Shared, t: Tid, u: Tid, pc: Pc)
    requires u != t && Local(sh, u, pc) && Guarantee(sh, sh', t)
    ensures Local(sh', u, pc)
  {
  }

  lemma LockKeeps(sh: Shared, t: Tid, th: Thread, k: Kind, at: Place)
    requires Shape(sh) && th.pc == Trav(k, at) && Local(sh, t, th.pc) && Ready(sh, th.pc)
    requires at == Enter || at.Want?
    ensures var (sh', th') := TravStep(sh, t, th, k, at); Local(sh', t, th'.pc) && Guarantee(sh, sh', t)
  {
  }

  lemma TestKeeps(sh: Shared, t: Tid, th: Thread, k: Kind, at: Place)
    requires Shape(sh) && th.pc == Trav(k, at) && Local(sh, t, th.pc) && at.Test?
    ensures var (sh', th') := TravStep(sh, t, th, k, at); Local(sh', t, th'.pc) && Guarantee(sh, sh', t)
  {
  }

  lemma VisitKeeps(sh: Shared, t: Tid, th: Thread, k: Kind, at: Place)
    requires Shape(sh) && th.pc == Trav(k, at) && Local(sh, t, th.pc) && Ready(sh, th.pc)
    requires at.Both? || at.Call? || at.Release?
    ensures var (sh', th') := TravStep(sh, t, th, k, at); Local(sh', t, th'.pc) && Guarantee(sh, sh', t)
  {
  }

  lemma UnlinkKeeps(sh: Shared, t: Tid, th: Thread, k: Kind, at: Place)
    requires Shape(sh) && th.pc == Trav(k, at) && Local(sh, t, th.pc) && Ready(sh, th.pc)
    requires at.Unlink?
    ensures var (sh', th') := TravStep(sh, t, th, k, at); Local(sh', t, th'.pc) && Guarantee(sh, sh', t)
  {
  }

  lemma DeleteKeeps(sh: Shared, t: Tid, th: Thread, k: Kind, at: Place)
    requires Shape(sh) && th.pc == Trav(k, at) && Local(sh, t, th.pc) && Ready(sh, th.pc)
    requires at.UnlockOut? || at.Delete?
    ensures var (sh', th') := TravStep(sh, t, th, k, at); Local(sh', t, th'.pc) && Guarantee(sh, sh', t)
  {
  }

  lemma EndKeeps(sh: Shared, t: Tid, th: Thread, k: Kind, at: Place)
    requires Shape(sh) && th.pc == Trav(k, at) && Local(sh, t, th.pc) && Ready(sh, th.pc)
    requires at.Found? || at.End?
    ensures var (sh', th') := TravStep(sh, t, th, k, at); Local(sh', t, th'.pc) && Guarantee(sh, sh', t)
  {
  }

  lemma PushKeeps(sh: Shared, t: Tid, pc: Pc)
    requires Shape(sh) && !pc.Trav? && Local(sh, t, pc) && Ready(sh, pc)
    ensures var (sh', pc') := PushStep(sh, t, pc); Local(sh', t, pc') && Guarantee(sh, sh', t)
  {
  }

  lemma ExecKeeps(sh: Shared, t: Tid, th: Thread)
    requires Shape(sh) && Local(sh, t, th.pc) && Ready(sh, th.pc)
    ensures var (sh', th') := Exec(sh, t, th); Local(sh', t, th'.pc) && Guarantee(sh, sh', t)
  {
    if !th.pc.Trav? {
      PushKeeps(sh, t, th.pc);
    } else {
      var k, at := th.pc.k, th.pc.at;
      if at == Enter || at.Want? { LockKeeps(sh, t, th, k, at); }
      else if at.Test? { TestKeeps(sh, t, th, k, at); }
      else if at.Both? || at.Call? || at.Release? { VisitKeeps(sh, t, th, k, at); }
      else if at.Unlink? { UnlinkKeeps(sh, t, th, k, at); }
      else if at.UnlockOut? || at.Delete? { DeleteKeeps(sh, t, th, k, at); }
      else { EndKeeps(sh, t, th, k, at); }
    }
  }

  // ---- the shape ----

  lemma PushShape(sh: Shared, t: Tid, v: Val)
    requires Shape(sh)
    ensures Shape(PushStep(sh, t, PushLink(v)).0)
    ensures var sh', n := PushStep(sh, t, PushLink(v)).0, sh.made + 1;
      Next(sh', HEAD) == Some(n) && Next(sh', n) == Next(sh, HEAD) && Data(sh', n) == v && sh'.live == sh.live + {n}
  {
    var sh' := PushStep(sh, t, PushLink(v)).0;
    forall a | a in sh'.live ensures Adjacent(sh', a) {
      if a in sh.live { assert Adjacent(sh, a); }
      assert Adjacent(sh, HEAD);
    }
  }

  /** A node has one predecessor. */
  lemma OnePredecessor(sh: Shared, a: Node, c: Node, n: Node)
    requires Shape(sh) && a in sh.live && c in sh.live && Next(sh, a) == Some(n) && Next(sh, c) == Some(n)
    ensures a == c
  {
    assert Adjacent(sh, a) && Adjacent(sh, c);
  }

  lemma UnlinkAdjacent(sh: Shared, sh': Shared, c: Node, n: Node, a: Node)
    requires Shape(sh) && c in sh.live && Next(sh, c) == Some(n) && a in sh.live && a != n
    requires sh'.live == sh.live - {n} && sh'.next == sh.next[c := Next(sh, n)][n := None]
    ensures Adjacent(sh', a)
  {
    assert Adjacent(sh, a) && Adjacent(sh, c) && Adjacent(sh, n);
    if a != c && Next(sh, a) == Some(n) { OnePredecessor(sh, a, c, n); }
  }

  lemma UnlinkShape(sh: Shared, t: Tid, th: Thread, k: Kind, c: Node, n: Node)
    requires Shape(sh) && c in sh.live && Next(sh, c) == Some(n) && n in sh.owner && sh.owner[n] == t
    ensures Shape(TravStep(sh, t, th, k, Unlink(c, n)).0)
  {
    var sh' := TravStep(sh, t, th, k, Unlink(c, n)).0;
    assert Adjacent(sh, c);
    forall a | a in sh'.live ensures Adjacent(sh', a) {
      UnlinkAdjacent(sh, sh', c, n, a);
    }
  }

  /** Steps that neither push nor unlink keep the pointers of the nodes in the list. */
  ghost predicate SameNodes(sh: Shared, sh': Shared) {
    sh'.live == sh.live && sh'.made == sh.made && sh'.cutBy == sh.cutBy &&
    sh.live <= sh'.next.Keys <= sh.next.Keys && (forall a :: a in sh.live ==> sh'.next[a] == sh.next[a]) &&
    (forall n :: n in sh'.out ==> n in sh.out && n in sh'.next && sh'.out[n] == sh.out[n]) &&
    (forall n :: n in sh'.owner ==> n in sh'.next && (n in sh.out ==> n in sh.owner && sh'.owner[n] == sh.owner[n]))
  }

  lemma SameShape(sh: Shared, sh': Shared)
    requires Shape(sh) && SameNodes(sh, sh')
    ensures Shape(sh')
  {
    forall a | a in sh'.live ensures Adjacent(sh', a) {
      assert Adjacent(sh, a);
    }
  }

  lemma LockSame(sh: Shared, t: Tid, n: Node)
    requires Shape(sh) && n in sh.live
    ensures SameNodes(sh, Locked(sh, n, t))
  {
  }

  lemma UnlockSame(sh: Shared, n: Node)
    requires Shape(sh)
    ensures SameNodes(sh, Unlocked(sh, n))
  {
  }

  lemma DeleteSame(sh: Shared, t: Tid, th: Thread, k: Kind, c: Node, n: Node)
    requires Shape(sh) && th.pc == Trav(k, Delete(c, n)) && Local(sh, t, th.pc)
    ensures SameNodes(sh, TravStep(sh, t, th, k, Delete(c, n)).0)
  {
  }

  lemma TravSame(sh: Shared, t: Tid, th: Thread, k: Kind, at: Place)
    requires Shape(sh) && th.pc == Trav(k, at) && Local(sh, t, th.pc) && !at.Unlink?
    ensures SameNodes(sh, TravStep(sh, t, th, k, at).0)
  {
    match at
    case Enter => LockSame(sh, t, HEAD);
    case Want(c, n) => assert Adjacent(sh, c); LockSame(sh, t, n);
    case Both(c, n) => UnlockSame(sh, c);
    case Release(c, n) => UnlockSame(sh, c);
    case UnlockOut(c, n) => UnlockSame(sh, n);
    case Delete(c, n) => DeleteSame(sh, t, th, k, c, n);
    case Found(n) => UnlockSame(sh, n);
    case End(c) => UnlockSame(sh, c);
    case _ =>
  }

  lemma ShapeKept(sh: Shared, t: Tid, th: Thread)
    requires Shape(sh) && Local(sh, t, th.pc) && Ready(sh, th.pc)
    ensures Shape(Exec(sh, t, th).0)
  {
    match th.pc
    case Idle =>
    case PushLock(v) => LockSame(sh, t, HEAD); SameShape(sh, Locked(sh, HEAD, t));
    case PushLink(v) => PushShape(sh, t, v);
    case PushUnlock => UnlockSame(sh, HEAD); SameShape(sh, Unlocked(sh, HEAD));
    case Trav(k, at) =>
      if at.Unlink? {
        UnlinkShape(sh, t, th, k, at.cur, at.nxt);
      } else {
        TravSame(sh, t, th, k, at);
        SameShape(sh, TravStep(sh, t, th, k, at).0);
      }
  }

  // ---- all threads ----

  ghost predicate Locals(s: State) {
    forall t :: t in s.th ==> Local(s.sh, t, s.th[t].pc)
  }

  ghost predicate Owners(s: State) {
    (forall n :: n in s.sh.owner ==> s.sh.owner[n] in s.th) && forall n :: n in s.sh.out ==> s.sh.out[n] in s.th
  }

  lemma LocalsKept(s: State, t: Tid)
    requires Shape(s.sh) && Locals(s) && Owners(s) && Enabled(s, Run(t))
    ensures Locals(Apply(s, Run(t))) && Owners(Apply(s, Run(t)))
  {
    ExecKeeps(s.sh, t, s.th[t]);
    var sh' := Exec(s.sh, t, s.th[t]).0;
    forall u | u in s.th && u != t ensures Local(sh', u, s.th[u].pc) {
      StableLocal(s.sh, sh', t, u, s.th[u].pc);
    }
  }
}
