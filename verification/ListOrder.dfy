/** No traversal overtakes another: the order in which they took the head lock is their order along the list. */
module ListOrder {
  import opened Common
  import opened ListMachine
  import opened ListInv

  /** A traversal that has taken the head lock and not finished: it always holds some node. */
  ghost predicate Inside(pc: Pc) {
    pc.Trav? && pc.at != Enter && !pc.at.Finished?
  }

  /** Everything the first thread holds comes before everything the second holds. */
  ghost predicate Behind(pc: Pc, pc': Pc) {
    forall a, b :: HoldsNode(pc, a) && HoldsNode(pc', b) ==> Before(a, b)
  }

  /** A traversal that has taken the head lock, running or finished. */
  ghost predicate Ticketed(pc: Pc) {
    pc.Trav? && pc.at != Enter
  }

  ghost predicate Tickets(s: State) {
    (forall n :: n in s.sh.cutBy ==> s.sh.cutBy[n] < s.sh.tickets) &&
    (forall t :: t in s.th && Ticketed(s.th[t].pc) ==> s.th[t].ticket < s.sh.tickets) &&
    (forall t, u :: t in s.th && u in s.th && t != u && Ticketed(s.th[t].pc) && Ticketed(s.th[u].pc) ==>
       s.th[t].ticket != s.th[u].ticket)
  }

  ghost predicate Order(s: State) {
    forall t, u :: t in s.th && u in s.th && t != u && Inside(s.th[t].pc) && Inside(s.th[u].pc) ==>
      s.th[t].ticket < s.th[u].ticket ==> Behind(s.th[u].pc, s.th[t].pc)
  }

  /** The node after `c` comes no later than any held node that is after `c`. */
  lemma NextFirst(sh: Shared, u: Tid, pc: Pc, c: Node, n: Node, b: Node)
    requires Shape(sh) && c in sh.live && Next(sh, c) == Some(n) && n !in sh.owner
    requires Local(sh, u, pc) && Inside(pc) && HoldsNode(pc, b) && forall x :: HoldsNode(pc, x) ==> Before(c, x)
    ensures Before(n, b)
  {
    assert Adjacent(sh, c);
    if b !in sh.live {
      assert pc.at.UnlockOut? && pc.at.nxt == b;
      assert HoldsNode(pc, pc.at.cur);
    } else if !(pc.at.UnlockOut? || pc.at.Test? || pc.at.End? || pc.at.Call? || pc.at.Found? || pc.at.Delete?) {
      assert Adjacent(sh, pc.at.cur);
    }
  }

  /** Inside a traversal a step takes at most the lock it waits for, and gives up others. */
  lemma TakesOne(sh: Shared, t: Tid, th: Thread, x: Node)
    requires Inside(th.pc) && HoldsNode(Exec(sh, t, th).1.pc, x)
    requires th.pc.at.Test? || Sees(sh, t, th.pc)
    ensures HoldsNode(th.pc, x) || (th.pc.at.Want? && x == th.pc.at.nxt)
  {
  }

  /** A thread ahead moves on: it stays ahead. */
  lemma AheadMoves(sh: Shared, t: Tid, th: Thread, pc: Pc)
    requires Shape(sh) && Local(sh, t, th.pc) && Inside(th.pc) && Behind(pc, th.pc)
    ensures Behind(pc, Exec(sh, t, th).1.pc)
  {
    var next := Exec(sh, t, th).1.pc;
    forall a, b | HoldsNode(pc, a) && HoldsNode(next, b) ensures Before(a, b) {
      TakesOne(sh, t, th, b);
      if !HoldsNode(th.pc, b) {
        assert Adjacent(sh, th.pc.at.cur) && HoldsNode(th.pc, th.pc.at.cur);
        assert Before(a, th.pc.at.cur) && Before(th.pc.at.cur, b);
      }
    }
  }

  /** A thread behind moves on: it does not pass anyone. */
  lemma BehindMoves(sh: Shared, t: Tid, th: Thread, u: Tid, pc: Pc)
    requires Shape(sh) && Local(sh, t, th.pc) && Ready(sh, th.pc) && Inside(th.pc) && Behind(th.pc, pc)
    requires Local(sh, u, pc) && Inside(pc)
    ensures Behind(Exec(sh, t, th).1.pc, pc)
  {
    forall a, b | HoldsNode(Exec(sh, t, th).1.pc, a) && HoldsNode(pc, b) ensures Before(a, b) {
      TakesOne(sh, t, th, a);
      if !HoldsNode(th.pc, a) {
        assert HoldsNode(th.pc, th.pc.at.cur);
        NextFirst(sh, u, pc, th.pc.at.cur, a, b);
      }
    }
  }

  /** A thread that has just taken the head lock is behind all others. */
  lemma NewcomerBehind(sh: Shared, t: Tid, th: Thread, u: Tid, pc: Pc)
    requires th.pc.Trav? && th.pc.at == Enter && Ready(sh, th.pc) && Local(sh, u, pc)
    ensures Behind(Exec(sh, t, th).1.pc, pc)
  {
    assert !HoldsNode(pc, HEAD);
  }

  /** A traversal keeps its ticket; the one that enters takes the next. */
  lemma TicketStep(sh: Shared, t: Tid, th: Thread)
    requires Ready(sh, th.pc)
    ensures var (sh', th') := Exec(sh, t, th);
      sh.tickets <= sh'.tickets &&
      (Ticketed(th'.pc) ==> (Ticketed(th.pc) && th'.ticket == th.ticket) ||
                            (th'.ticket == sh.tickets && sh'.tickets == sh.tickets + 1)) &&
      (sh'.cutBy == sh.cutBy || (Ticketed(th.pc) && th.pc.at.Unlink? && sh'.cutBy == sh.cutBy[th.pc.at.nxt := th.ticket]))
  {
  }

  lemma TicketsKept(s: State, t: Tid)
    requires Tickets(s) && Enabled(s, Run(t))
    ensures Tickets(Apply(s, Run(t)))
  {
    TicketStep(s.sh, t, s.th[t]);
  }

  lemma OrderKept(s: State, t: Tid)
    requires Shape(s.sh) && Locals(s) && Tickets(s) && Order(s) && Enabled(s, Run(t))
    ensures Order(Apply(s, Run(t)))
  {
    var s' := Apply(s, Run(t));
    forall u | u in s.th && u != t && Inside(s.th[u].pc) && Inside(s'.th[t].pc)
      ensures (s'.th[t].ticket < s.th[u].ticket) ==> Behind(s.th[u].pc, s'.th[t].pc)
      ensures s.th[u].ticket < s'.th[t].ticket ==> Behind(s'.th[t].pc, s.th[u].pc)
    {
      OrderPair(s, t, u);
    }
  }

  lemma OrderPair(s: State, t: Tid, u: Tid)
    requires Shape(s.sh) && Locals(s) && Tickets(s) && Order(s) && Enabled(s, Run(t))
    requires u in s.th && u != t && Inside(s.th[u].pc) && Inside(Exec(s.sh, t, s.th[t]).1.pc)
    ensures var th' := Exec(s.sh, t, s.th[t]).1;
      (th'.ticket < s.th[u].ticket ==> Behind(s.th[u].pc, th'.pc)) &&
      (s.th[u].ticket < th'.ticket ==> Behind(th'.pc, s.th[u].pc))
  {
    var th := s.th[t];
    if th.pc.Trav? && th.pc.at == Enter {
      NewcomerBehind(s.sh, t, th, u, s.th[u].pc);
    } else {
      assert Inside(th.pc) && Exec(s.sh, t, th).1.ticket == th.ticket;
      if th.ticket < s.th[u].ticket { AheadMoves(s.sh, t, th, s.th[u].pc); }
      if s.th[u].ticket < th.ticket { BehindMoves(s.sh, t, th, u, s.th[u].pc); }
    }
  }
}
