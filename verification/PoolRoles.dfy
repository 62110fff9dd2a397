/** Which threads are workers: those that `pthread_create` started in `__thrdpool_routine`, and no others. */
module PoolRoles {
  import opened Common
  import opened PoolMachine
  import Q = QueueMachine

  ghost predicate Roles(s: State) {
    s.sh.workers <= s.fr.Keys && forall t :: t in s.fr ==> (t in s.sh.workers <==> !Outside(s.fr[t]))
  }

  lemma PoolRolesKept(s: State, t: Tid, w: Option<Tid>)
    requires Roles(s) && Enabled(s, Pool(t, w))
    ensures Roles(Apply(s, Pool(t, w)))
  {
    if s.fr[t].User? { UserRole(s, t, w); } else { WorkRole(s.sh, t, s.fr[t], s.qp[t]); }
  }

  /** A thread keeps its role, and one that it starts is a new worker. */
  ghost predicate KeepsRole(sh: Shared, f: Frame, o: Out<Frame>) {
    Outside(o.f) == Outside(f) &&
    o.sh.workers == (if o.spawn.Some? then sh.workers + {o.spawn.value} else sh.workers)
  }

  lemma WorkRole(sh: Shared, t: Tid, f: Frame, pc: Q.Pc)
    requires !f.User?
    ensures KeepsRole(sh, f, WorkStep(sh, t, f, pc)) && WorkStep(sh, t, f, pc).spawn == None
  {
  }

  lemma UserRole(s: State, t: Tid, w: Option<Tid>)
    requires t in s.fr && t in s.qp && s.fr[t].User?
    ensures var o := PoolStep(s, t, w); KeepsRole(s.sh, s.fr[t], o) && (o.spawn.Some? ==> o.spawn == w)
  {
  }

  lemma RolesKept(s: State, a: Action)
    requires Roles(s) && Enabled(s, a)
    ensures Roles(Apply(s, a))
  {
    if a.Pool? { PoolRolesKept(s, a.t, a.made); }
  }

  lemma {:induction false} RolesReached(want: nat, ss: seq<State>, acts: seq<Action>, i: nat)
    requires IsRun(want, ss, acts) && i < |ss|
    ensures Roles(ss[i])
  {
    if i > 0 {
      RolesReached(want, ss, acts, i - 1);
      RolesKept(ss[i - 1], acts[i - 1]);
    }
  }
}
