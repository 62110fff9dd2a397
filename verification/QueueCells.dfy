/**
 The message queue of thrdpool/msgqueue.c on real link cells, as one caller sees it when nobody else
 is inside: two chains of cells that together are one sequence.
 */
module QueueCells {
  import opened Common
  import QM = QueueMachine

  /** The pointer-sized space inside a message, or one of the queue's own head fields. */
  class Cell {
    var next: Cell?

    constructor ()
      ensures next == null
    {
      next := null;
    }
  }

  class MsgQueue {
    const max: nat
    const head1: Cell
    const head2: Cell
    var nonblock: bool
    var cnt: nat
    var getHead: Cell
    var putHead: Cell
    var putTail: Cell
    ghost var getq: seq<Cell>
    ghost var putq: seq<Cell>

    ghost function Repr(): set<object>
      reads this
    {
      {this, head1, head2} + (set c | c in getq) + (set c | c in putq)
    }

    /** The messages in the queue, the next one to be taken first. */
    ghost function Contents(): seq<Cell>
      reads this
    {
      getq + putq
    }

    /** `msg_max - 1` in size_t arithmetic. */
    function Limit(): nat {
      if max == 0 then QM.SIZE_MAX else max - 1
    }

    /** Following the links from `head` visits exactly the messages `l` and ends with a null pointer. */
    ghost predicate Chain(head: Cell, l: seq<Cell>)
      reads head, set c | c in l
    {
      head.next == (if l == [] then null else l[0]) &&
      (l != [] ==> l[|l| - 1].next == null) &&
      forall i, j :: 0 <= i < j < |l| && j == i + 1 ==> l[i].next == l[j]
    }

    function Last(head: Cell, l: seq<Cell>): Cell {
      if l == [] then head else l[|l| - 1]
    }

    ghost predicate Valid()
      reads this, Repr()
    {
      head1 != head2 &&
      ((getHead == head1 && putHead == head2) || (getHead == head2 && putHead == head1)) &&
      Chain(getHead, getq) && Chain(putHead, putq) &&
      putTail == Last(putHead, putq) && cnt == |putq| &&
      NoDup(getq) && NoDup(putq) && (forall c :: c in getq ==> c !in putq) &&
      head1 !in getq && head1 !in putq && head2 !in getq && head2 !in putq
    }

    constructor (maxlen: nat)
      ensures Valid() && Contents() == [] && max == maxlen && !nonblock && fresh(Repr())
    {
      max := maxlen;
      var h1 := new Cell();
      var h2 := new Cell();
      head1, head2 := h1, h2;
      getHead, putHead, putTail := h1, h2, h2;
      nonblock, cnt := false, 0;
      getq, putq := [], [];
    }

    method SetNonblock()
      requires Valid()
      modifies this`nonblock
      ensures Valid() && nonblock
    {
      nonblock := true;
    }

    method SetBlock()
      requires Valid()
      modifies this`nonblock
      ensures Valid() && !nonblock
    {
      nonblock := false;
    }

    /** Appends the message; or, on a full list in blocking mode, puts the caller to sleep and changes nothing. */
    method Put(msg: Cell) returns (sleeps: bool)
      requires Valid() && msg !in Repr()
      modifies this`putTail, this`cnt, this`putq, msg, putTail
      ensures Valid() && (sleeps <==> old(cnt) > Limit() && !nonblock)
      ensures sleeps ==> getq == old(getq) && putq == old(putq)
      ensures !sleeps ==> Contents() == old(Contents()) + [msg] && Repr() == old(Repr()) + {msg}
    {
      msg.next := null;
      sleeps := cnt > Limit() && !nonblock;
      if !sleeps {
        Append(msg);
      }
    }

    /** Lines 95-97 */
    method Append(msg: Cell)
      requires Valid() && msg !in Repr() && msg.next == null
      modifies this`putTail, this`cnt, this`putq, putTail
      ensures Valid() && Contents() == old(Contents()) + [msg] && Repr() == old(Repr()) + {msg}
    {
      putTail.next := msg;
      putTail := msg;
      cnt := cnt + 1;
      ghost var l := putq;
      putq := putq + [msg];
      assert Chain(getHead, getq);
      assert Chain(putHead, putq) by {
        forall i, j | 0 <= i < j < |putq| && j == i + 1 ensures putq[i].next == putq[j] {
          if j < |l| {
            assert l[i] in l && l[i] != l[|l| - 1];
          }
        }
      }
    }

    /**
     `__msgqueue_swap`: with the get list empty, take the put list over; or, when that is empty too and the mode is
     blocking, put the caller to sleep with `get_head` on the put list.
     */
    method Swap() returns (n: nat, sleeps: bool)
      requires Valid() && getq == []
      modifies this`getHead, this`putHead, this`putTail, this`cnt, this`getq, this`putq
      ensures sleeps <==> old(cnt) == 0 && !nonblock
      ensures !sleeps ==> Valid() && getq == old(putq) && putq == [] && n == |getq| && Repr() == old(Repr())
      ensures sleeps ==> Asleep() && putHead == old(putHead)
    {
      var saved := getHead;
      getHead := putHead;
      n, sleeps := cnt, cnt == 0 && !nonblock;
      if !sleeps {
        putHead := saved;
        putTail := saved;
        cnt := 0;
        getq, putq := putq, [];
      }
    }

    /** A consumer sleeps in line 73: the queue is empty and its two heads are one. */
    ghost predicate Asleep()
      reads this, putHead
    {
      getHead == putHead == putTail && putHead.next == null && cnt == 0 && getq == [] && putq == []
    }

    /** Lines 109-110: unhook the first message of the get list. */
    method Pop() returns (msg: Cell)
      requires Valid() && getq != []
      modifies this`getq, getHead
      ensures Valid() && msg == old(getq[0]) && getq == old(getq[1..])
    {
      ghost var l := getq;
      msg := getHead.next;
      getHead.next := msg.next;
      getq := getq[1..];
      assert l == [msg] + getq;
      forall i, j | 0 <= i < j < |getq| && j == i + 1 ensures getq[i].next == getq[j] {
        assert getq[i] == l[j] && getq[j] == l[j + 1] && l[j] in l;
      }
    }

    /**
     With messages in the queue, the oldest, which leaves. With none, NULL in nonblocking mode, else the caller
     goes to sleep.
     */
    method Get() returns (msg: Cell?, sleeps: bool)
      requires Valid()
      modifies this`getHead, this`putHead, this`putTail, this`cnt, this`getq, this`putq, getHead, putHead
      ensures sleeps <==> old(Contents()) == [] && !nonblock
      ensures if sleeps then Asleep() else Valid()
      ensures old(Contents()) == [] ==> msg == null && Contents() == []
      ensures old(Contents()) != [] ==> msg == old(Contents()[0]) && Contents() == old(Contents()[1..])
    {
      ghost var c := Contents();
      var some := getHead.next != null;
      assert some == (getq != []);
      sleeps := false;
      if !some {
        var n;
        n, sleeps := Swap();
        some := n > 0;
      }
      if sleeps {
        msg := null;
        return;
      }
      assert Contents() == c && Valid() && some == (getq != []) && some == (c != []);
      if some {
        msg := Pop();
        assert Contents() == c[1..];
      } else {
        msg := null;
      }
    }
  }
}
