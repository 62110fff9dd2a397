/**
 The hand-over-hand locked list of threadsafe_list.hpp as a step machine: any number of threads run
 `push_front`, `for_each`, `find_first_if` and `remove_if` at the same time. A step is one lock, one
 unlock, one callback or one access to a node. Callbacks neither change the data nor re-enter the list.

 Node 0 is the list's own `head`; the other nodes are numbered in the order of their creation. Since
 nodes are only ever added at the front, a node comes before another in the list exactly when it is
 the head or was created later (`Before`), and the machine proves that the `next` pointers agree.
 */
module ListMachine {
  import opened Common

  type Node = nat
  type Val = int

  const HEAD: Node := 0

  /** The order of the nodes along the list. */
  predicate Before(a: Node, b: Node) {
    b != HEAD && (a == HEAD || a > b)
  }

  datatype Kind = Each | Find(p: Val -> bool) | Remove(p: Val -> bool)

  /** Where a traversal is; the comments give the lines of `for_each`, `find_first_if` and `remove_if`. */
  datatype Place =
    | Enter                        // 31, 43, 57
    | Test(cur: Node)              // 32, 44, 58
    | Want(cur: Node, nxt: Node)   // 33, 45, 59
    | Both(cur: Node, nxt: Node)   // 34, 46; for remove_if 60
    | Call(nxt: Node)              // 35-37, 47-51
    | Release(cur: Node, nxt: Node)   // 65-67
    | Unlink(cur: Node, nxt: Node)    // 61-62
    | UnlockOut(cur: Node, nxt: Node) // 63
    | Delete(cur: Node, nxt: Node)    // 64: old_next goes out of scope
    | Found(nxt: Node)             // 48: next_lk goes out of scope
    | End(cur: Node)               // 38, 52, 69: the last lock goes out of scope
    | Finished(res: Option<Node>)

  datatype Pc =
    | Idle
    | PushLock(v: Val)             // 25
    | PushLink(v: Val)             // 24, 26-27
    | PushUnlock                   // 28
    | Trav(k: Kind, at: Place)

  /**
   A thread, with the history of its traversal: `ticket` numbers the traversals in the order in which they
   took the head lock, `snap` is the set of nodes in the list at that time, `reached` the nodes tested.
   */
  datatype Thread = Thread(pc: Pc, ticket: nat, snap: set<Node>, reached: seq<Node>)

  /**
   The nodes. `next` has the nodes in memory, `owner` the locked ones. History: `live` is the set of nodes in
   the list, `out` maps a node unlinked and not yet deleted to the thread that did it, `cutBy` each unlinked
   node to the ticket of the traversal that did it, `made` counts nodes and `tickets` traversals.
   */
  datatype Shared = Shared(
    next: map<Node, Option<Node>>,
    data: map<Node, Val>,
    owner: map<Node, Tid>,
    live: set<Node>,
    out: map<Node, Tid>,
    cutBy: map<Node, nat>,
    made: nat,
    tickets: nat)

  datatype State = State(sh: Shared, th: map<Tid, Thread>)

  function Next(sh: Shared, n: Node): Option<Node> {
    if n in sh.next then sh.next[n] else None
  }

  function Data(sh: Shared, n: Node): Val {
    if n in sh.data then sh.data[n] else 0
  }

  function Init(): State {
    State(Shared(map[HEAD := None], map[], map[], {HEAD}, map[], map[], 0, 0), map[])
  }

  function Locked(sh: Shared, n: Node, t: Tid): Shared {
    sh.(owner := sh.owner[n := t])
  }

  function Unlocked(sh: Shared, n: Node): Shared {
    sh.(owner := sh.owner - {n})
  }

  // ---- the next instruction of one thread ----

  /** The mutex that the next instruction locks. */
  ghost function Awaits(pc: Pc): Option<Node> {
    if pc.PushLock? then Some(HEAD)
    else if pc.Trav? && pc.at == Enter then Some(HEAD)
    else if pc.Trav? && pc.at.Want? then Some(pc.at.nxt)
    else None
  }

  ghost predicate Active(pc: Pc) {
    !pc.Idle? && !(pc.Trav? && pc.at.Finished?)
  }

  /** The thread is inside an operation and its next instruction does not block. */
  ghost predicate Ready(sh: Shared, pc: Pc) {
    Active(pc) && (Awaits(pc).Some? ==> Awaits(pc).value !in sh.owner)
  }

  ghost function PushStep(sh: Shared, t: Tid, pc: Pc): (Shared, Pc) {
    match pc
    case PushLock(v) => (Locked(sh, HEAD, t), PushLink(v))
    case PushLink(v) =>
      var n := sh.made + 1;
      (sh.(next := sh.next[n := Next(sh, HEAD)][HEAD := Some(n)], data := sh.data[n := v],
           live := sh.live + {n}, made := n), PushUnlock)
    case PushUnlock => (Unlocked(sh, HEAD), Idle)
    case _ => (sh, pc)
  }

  ghost function TravStep(sh: Shared, t: Tid, th: Thread, k: Kind, at: Place): (Shared, Thread) {
    match at
    case Enter =>
      (Locked(sh, HEAD, t).(tickets := sh.tickets + 1),
       Thread(Trav(k, Test(HEAD)), sh.tickets, sh.live - {HEAD}, []))
    case Test(c) =>
      (sh, th.(pc := Trav(k, match Next(sh, c) case None => End(c) case Some(n) => Want(c, n))))
    case Want(c, n) => (Locked(sh, n, t), th.(pc := Trav(k, Both(c, n))))
    case Both(c, n) =>
      var th' := th.(reached := th.reached + [n]);
      if k.Remove? then (sh, th'.(pc := Trav(k, if k.p(Data(sh, n)) then Unlink(c, n) else Release(c, n))))
      else (Unlocked(sh, c), th'.(pc := Trav(k, Call(n))))
    case Call(n) =>
      (sh, th.(pc := Trav(k, if k.Find? && k.p(Data(sh, n)) then Found(n) else Test(n))))
    case Release(c, n) => (Unlocked(sh, c), th.(pc := Trav(k, Test(n))))
    case Unlink(c, n) =>
      (sh.(next := sh.next[c := Next(sh, n)][n := None], live := sh.live - {n},
           out := sh.out[n := t], cutBy := sh.cutBy[n := th.ticket]),
       th.(pc := Trav(k, UnlockOut(c, n))))
    case UnlockOut(c, n) => (Unlocked(sh, n), th.(pc := Trav(k, Delete(c, n))))
    case Delete(c, n) =>
      (sh.(next := sh.next - {n}, out := sh.out - {n}), th.(pc := Trav(k, Test(c))))
    case Found(n) => (Unlocked(sh, n), th.(pc := Trav(k, Finished(Some(n)))))
    case End(c) => (Unlocked(sh, c), th.(pc := Trav(k, Finished(None))))
    case Finished(_) => (sh, th)
  }

  ghost function Exec(sh: Shared, t: Tid, th: Thread): (Shared, Thread) {
    if th.pc.Trav? then TravStep(sh, t, th, th.pc.k, th.pc.at)
    else var (sh', pc') := PushStep(sh, t, th.pc); (sh', th.(pc := pc'))
  }

  datatype Action =
    | Arrive(t: Tid)
    | Push(t: Tid, v: Val)
    | Walk(t: Tid, k: Kind)
    | Run(t: Tid)

  /** A thread may start an operation when it is in none. */
  ghost predicate Enabled(s: State, a: Action) {
    match a
    case Arrive(t) => t !in s.th
    case Push(t, _) => t in s.th && !Active(s.th[t].pc)
    case Walk(t, _) => t in s.th && !Active(s.th[t].pc)
    case Run(t) => t in s.th && Ready(s.sh, s.th[t].pc)
  }

  ghost function Apply(s: State, a: Action): State
    requires Enabled(s, a)
  {
    match a
    case Arrive(t) => State(s.sh, s.th[t := Thread(Idle, 0, {}, [])])
    case Push(t, v) => State(s.sh, s.th[t := s.th[t].(pc := PushLock(v))])
    case Walk(t, k) => State(s.sh, s.th[t := s.th[t].(pc := Trav(k, Enter))])
    case Run(t) => var (sh', th') := Exec(s.sh, t, s.th[t]); State(sh', s.th[t := th'])
  }

  ghost predicate Moves(s: State, a: Action, s': State) {
    Enabled(s, a) && s' == Apply(s, a)
  }

  /** Action `i` leads from state `i` to the next. */
  ghost predicate StepAt(ss: seq<State>, acts: seq<Action>, i: int) {
    0 <= i < |acts| && i + 1 < |ss| && Moves(ss[i], acts[i], ss[i + 1])
  }

  ghost predicate IsRun(ss: seq<State>, acts: seq<Action>) {
    |ss| == |acts| + 1 && ss[0] == Init() &&
    forall i :: 0 <= i < |acts| ==> StepAt(ss, acts, i)
  }
}
