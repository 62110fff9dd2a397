/** Types shared by the models. */
module Common {
  datatype Option<+T> = None | Some(value: T)

  /** Threads are named by numbers; any number of them may exist. */
  type Tid = nat

  ghost predicate NoDup<T>(s: seq<T>) {
    forall i, j :: 0 <= i < j < |s| ==> s[i] != s[j]
  }

  /** The sum of numbers, one for each thread or each Logger. */
  ghost function Total(w: map<nat, nat>): nat
    decreases |w|
  {
    if w == map[] then 0
    else
      var t :| t in w;
      w[t] + Total(w - {t})
  }

  lemma {:induction false} TotalOut(w: map<nat, nat>, t: nat)
    requires t in w
    ensures Total(w) == w[t] + Total(w - {t})
    decreases |w|
  {
    var u :| u in w && Total(w) == w[u] + Total(w - {u});
    if u != t {
      TotalOut(w - {u}, t);
      TotalOut(w - {t}, u);
      assert w - {u} - {t} == w - {t} - {u};
    }
  }

  lemma TotalUpdate(w: map<nat, nat>, t: nat, n: nat)
    ensures Total(w[t := n]) + (if t in w then w[t] else 0) == Total(w) + n
  {
    TotalOut(w[t := n], t);
    assert w[t := n] - {t} == w - {t};
    if t in w { TotalOut(w, t); } else { assert w - {t} == w; }
  }
}
