/** Picking out some places of a list, in order. */
module Selections {

  /** The places below n that are chosen, each once, in increasing order. */
  ghost predicate Selects(at: seq<nat>, n: nat, chosen: iset<nat>) {
    && (forall i, j | 0 <= i < j < |at| :: at[i] < at[j])
    && (forall i: nat :: i in at <==> i < n && i in chosen)
  }

  lemma SelectNone(chosen: iset<nat>)
    ensures Selects([], 0, chosen)
  {
  }

  /** The next place joins if it is chosen. */
  lemma SelectNext(at: seq<nat>, n: nat, chosen: iset<nat>) returns (more: seq<nat>)
    requires Selects(at, n, chosen)
    ensures Selects(more, n + 1, chosen)
    ensures more == if n in chosen then at + [n] else at
  {
    more := if n in chosen then at + [n] else at;
    forall i, j | 0 <= i < j < |more| ensures more[i] < more[j] {
      assert j < |at| || (at[i] in at && more[j] == n);
    }
    assert forall i: nat :: i in more <==> i in at || (n in chosen && i == n);
  }

  /** Only the choices below n matter. */
  lemma SelectSame(at: seq<nat>, n: nat, a: iset<nat>, b: iset<nat>)
    requires Selects(at, n, a) && forall i: nat | i < n :: i in a <==> i in b
    ensures Selects(at, n, b)
  {
  }
}
