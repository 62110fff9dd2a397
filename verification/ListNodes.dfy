/**
 The list of threadsafe_list.hpp on real nodes, as one caller sees it when nobody else is inside: the
 traversal loops and the splicing of `next`. `ListMachine` has the same operations run by many threads.
 */
module ListNodes {
  import opened Common

  type Val = int

  class Node {
    const data: Val
    var next: Node?

    constructor (value: Val)
      ensures data == value && next == null
    {
      data, next := value, null;
    }
  }

  // ---- what the operations mean, on sequences of nodes ----

  /** The nodes whose data fail `p`. */
  function Kept(p: Val -> bool, l: seq<Node>): seq<Node> {
    if l == [] then []
    else Kept(p, l[..|l| - 1]) + if p(l[|l| - 1].data) then [] else [l[|l| - 1]]
  }

  /** Exactly the nodes that fail `p` are kept. */
  lemma {:induction false} KeptHas(p: Val -> bool, l: seq<Node>, n: Node)
    ensures n in Kept(p, l) <==> n in l && !p(n.data)
  {
    if l != [] {
      KeptHas(p, l[..|l| - 1], n);
      assert l == l[..|l| - 1] + [l[|l| - 1]];
    }
  }

  /** What is kept stays in order: removing in two parts is removing from the whole. */
  lemma {:induction false} KeptConcat(p: Val -> bool, a: seq<Node>, b: seq<Node>)
    ensures Kept(p, a + b) == Kept(p, a) + Kept(p, b)
  {
    if b == [] {
      assert a + b == a;
    } else {
      KeptConcat(p, a, b[..|b| - 1]);
      assert (a + b)[..|a + b| - 1] == a + b[..|b| - 1];
    }
  }

  // ---- the class ----

  class List {
    const head: Node
    ghost var nodes: seq<Node>

    ghost predicate Chain(l: seq<Node>)
      reads head, set n | n in l
    {
      head.next == (if l == [] then null else l[0]) &&
      (l != [] ==> l[|l| - 1].next == null) &&
      forall i, j :: 0 <= i < j < |l| && j == i + 1 ==> l[i].next == l[j]
    }

    ghost predicate Valid()
      reads this, head, set n | n in nodes
    {
      Chain(nodes) && NoDup(nodes) && head !in nodes
    }

    /** The node before position `i`. */
    ghost function Place(i: nat): Node
      reads this
      requires i <= |nodes|
    {
      if i == 0 then head else nodes[i - 1]
    }

    lemma PlaceNext(i: nat)
      requires Valid() && i <= |nodes|
      ensures Place(i).next == if i < |nodes| then nodes[i] else null
    {
      if 0 < i < |nodes| { assert nodes[i - 1].next == nodes[i]; }
    }

    constructor ()
      ensures Valid() && nodes == [] && fresh(head)
    {
      head := new Node(0);
      nodes := [];
    }

    method PushFront(value: Val)
      requires Valid()
      modifies this`nodes, head
      ensures Valid() && |nodes| == |old(nodes)| + 1 && nodes[1..] == old(nodes) && nodes[0].data == value && fresh(nodes[0])
    {
      var newNode := new Node(value);
      newNode.next := head.next;
      head.next := newNode;
      ghost var l := nodes;
      nodes := [newNode] + nodes;
      forall i, j | 0 <= i < j < |nodes| && j == i + 1 ensures nodes[i].next == nodes[j] {
        if i > 0 { assert nodes[i] == l[i - 1] && nodes[j] == l[j - 1]; }
      }
    }

    /** The data of the nodes, each once and in order. */
    method ForEach() returns (visited: seq<Val>)
      requires Valid()
      ensures |visited| == |nodes| && forall i :: 0 <= i < |nodes| ==> visited[i] == nodes[i].data
    {
      visited := [];
      var current, next := head, head.next;
      while next != null
        invariant |visited| <= |nodes| && current == Place(|visited|)
        invariant next == if |visited| < |nodes| then nodes[|visited|] else null
        invariant forall i :: 0 <= i < |visited| ==> visited[i] == nodes[i].data
        decreases |nodes| - |visited|
      {
        visited := visited + [next.data];
        current := next;
        next := current.next;
      }
    }

    /** The first node that satisfies `p`, if there is one. */
    method FindFirstIf(p: Val -> bool) returns (found: Node?)
      requires Valid()
      ensures found == null ==> forall n :: n in nodes ==> !p(n.data)
      ensures found != null ==>
        exists i :: 0 <= i < |nodes| && found == nodes[i] && p(found.data) && forall j :: 0 <= j < i ==> !p(nodes[j].data)
    {
      ghost var i := 0;
      var current, next := head, head.next;
      while next != null
        invariant i <= |nodes| && current == Place(i) && next == if i < |nodes| then nodes[i] else null
        invariant forall j :: 0 <= j < i ==> !p(nodes[j].data)
        decreases |nodes| - i
      {
        if p(next.data) {
          return next;
        }
        current := next;
        next := current.next;
        i := i + 1;
      }
      return null;
    }

    /** Unlinks the node at position `i`, which follows `current`. */
    method Unlink(current: Node, ghost i: nat)
      requires Valid() && i < |nodes| && current == Place(i)
      modifies this`nodes, current, nodes[i]
      ensures Valid() && nodes == old(nodes[..i] + nodes[i + 1..])
    {
      ghost var l := nodes;
      var oldNext := current.next;
      current.next := oldNext.next;
      oldNext.next := null;
      nodes := nodes[..i] + nodes[i + 1..];
      forall a, b | 0 <= a < b < |nodes| && b == a + 1 ensures nodes[a].next == nodes[b] {
        assert nodes[a] == l[if a < i then a else a + 1] && nodes[b] == l[if b < i then b else b + 1];
      }
    }

    ghost predicate At(p: Val -> bool, all: seq<Node>, current: Node, i: nat, j: nat)
      reads this, head, set n | n in nodes
    {
      Valid() && Removing(p, all, nodes, i, j) && current == Place(i) && forall n :: n in nodes ==> n in all
    }

    /** One round of the loop, lines 59-68. */
    method Advance(p: Val -> bool, ghost all: seq<Node>, before: Node, ghost i: nat, ghost j: nat)
      returns (current: Node, ghost k: nat)
      requires At(p, all, before, i, j) && i < |nodes|
      modifies this`nodes, before, nodes[i]
      ensures At(p, all, current, k, j + 1) && |nodes| - k == |old(nodes)| - i - 1
    {
      PlaceNext(i);
      RemovingNext(p, all, nodes, i, j);
      var next := before.next;
      if p(next.data) {
        Unlink(before, i);
        current, k := before, i;
      } else {
        current, k := next, i + 1;
      }
    }

    /** Exactly the nodes that fail `p` stay, the same nodes in the same order. */
    method RemoveIf(p: Val -> bool)
      requires Valid()
      modifies this`nodes, head, set n | n in nodes
      ensures Valid() && nodes == Kept(p, old(nodes))
    {
      var current := head;
      ghost var all: seq<Node>, i: nat, j: nat := nodes, 0, 0;
      PlaceNext(i);
      while current.next != null
        invariant At(p, all, current, i, j) && (current.next == null <==> i == |nodes|)
        decreases |nodes| - i
      {
        assert nodes[i] in nodes && (i > 0 ==> nodes[i - 1] in nodes);
        current, i := Advance(p, all, current, i, j);
        j := j + 1;
        PlaceNext(i);
      }
      RemovingEnds(p, all, nodes, i, j);
    }
  }

  /** `remove_if` has dealt with the first `j` of the nodes `all`: `i` are left of them. */
  ghost predicate Removing(p: Val -> bool, all: seq<Node>, now: seq<Node>, i: nat, j: nat) {
    i <= |now| && j <= |all| && now[..i] == Kept(p, all[..j]) && now[i..] == all[j..]
  }

  lemma RemovingNext(p: Val -> bool, all: seq<Node>, now: seq<Node>, i: nat, j: nat)
    requires Removing(p, all, now, i, j) && i < |now|
    ensures j < |all| && now[i] == all[j]
    ensures if p(now[i].data) then Removing(p, all, now[..i] + now[i + 1..], i, j + 1)
      else Removing(p, all, now, i + 1, j + 1)
  {
    KeptNext(p, all, j);
    assert |now[i..]| == |all[j..]|;
    assert now[i] == now[i..][0] && now[i + 1..] == now[i..][1..] && all[j + 1..] == all[j..][1..];
    var shorter := now[..i] + now[i + 1..];
    assert shorter[..i] == now[..i] && shorter[i..] == now[i + 1..];
    assert now[..i + 1] == now[..i] + [now[i]];
  }

  lemma RemovingEnds(p: Val -> bool, all: seq<Node>, now: seq<Node>, i: nat, j: nat)
    requires Removing(p, all, now, i, j) && i == |now|
    ensures now == Kept(p, all)
  {
    assert |now[i..]| == |all[j..]|;
    assert now[..i] == now && all[..j] == all;
  }

  lemma KeptNext(p: Val -> bool, l: seq<Node>, j: nat)
    requires j < |l|
    ensures Kept(p, l[..j + 1]) == Kept(p, l[..j]) + if p(l[j].data) then [] else [l[j]]
  {
    assert l[..j + 1][..j] == l[..j];
  }
}
