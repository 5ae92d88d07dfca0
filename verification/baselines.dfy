/** The per-agent "last observed value" dictionaries (`tracked_apys`,
    `last_prices`) and how one check cycle overwrites them. */
module Baselines {

  /** One `(key, value)` pair observed during a cycle, in iteration order. */
  datatype Observation = Observation(key: string, value: real)

  function KeysOf(obs: seq<Observation>): set<string> {
    set i | 0 <= i < |obs| :: obs[i].key
  }

  /** No later observation in the cycle carries the same key. */
  ghost predicate IsLast(obs: seq<Observation>, i: int)
    requires 0 <= i < |obs|
  {
    forall j :: i < j < |obs| ==> obs[j].key != obs[i].key
  }

  /** The baseline after the assignments `base[key] = value` of `obs`, in
      order. `RebaselineMeaning` states what it holds. */
  function Rebaseline(base: map<string, real>, obs: seq<Observation>): map<string, real>
    decreases |obs|
  {
    if obs == [] then base
    else
      var n := |obs| - 1;
      Rebaseline(base, obs[..n])[obs[n].key := obs[n].value]
  }

  /** The keys afterwards are the old keys plus the observed ones. */
  lemma {:induction false} RebaselineKeys(base: map<string, real>, obs: seq<Observation>)
    ensures Rebaseline(base, obs).Keys == base.Keys + KeysOf(obs)
    decreases |obs|
  {
    if obs != [] {
      KeysOfSnoc(obs);
      RebaselineKeys(base, obs[..|obs| - 1]);
    }
  }

  /** A key no observation mentions keeps its old value. */
  lemma {:induction false} RebaselineKeepsUnobserved(base: map<string, real>, obs: seq<Observation>, k: string)
    requires k in base && k !in KeysOf(obs)
    ensures k in Rebaseline(base, obs) && Rebaseline(base, obs)[k] == base[k]
    decreases |obs|
  {
    if obs != [] {
      KeysOfSnoc(obs);
      RebaselineKeepsUnobserved(base, obs[..|obs| - 1], k);
    }
  }

  /** Every observed key ends with its last observed value. */
  lemma {:induction false} RebaselineLastWins(base: map<string, real>, obs: seq<Observation>, i: int)
    requires 0 <= i < |obs| && IsLast(obs, i)
    ensures obs[i].key in Rebaseline(base, obs) && Rebaseline(base, obs)[obs[i].key] == obs[i].value
    decreases |obs|
  {
    var n := |obs| - 1;
    if i < n {
      LastInFront(obs, i);
      RebaselineLastWins(base, obs[..n], i);
    }
  }

  /** An observation that is last in `obs`, other than the final one, is
      last in the front of `obs` too, and its key differs from the final
      one. */
  lemma LastInFront(obs: seq<Observation>, i: int)
    requires 0 <= i < |obs| - 1 && IsLast(obs, i)
    ensures obs[|obs| - 1].key != obs[i].key
    ensures IsLast(obs[..|obs| - 1], i) && obs[..|obs| - 1][i] == obs[i]
  {
    assert obs[|obs| - 1].key != obs[i].key;
  }

  lemma KeysOfSnoc(obs: seq<Observation>)
    requires obs != []
    ensures KeysOf(obs) == KeysOf(obs[..|obs| - 1]) + {obs[|obs| - 1].key}
  {
    var front := obs[..|obs| - 1];
    assert forall i :: 0 <= i < |front| ==> obs[i] == front[i];
  }

  /** Processing the first observation and then the rest gives the same
      baseline: the head-first loop and `Rebaseline` agree. */
  lemma {:induction false} RebaselineCons(base: map<string, real>, o: Observation, rest: seq<Observation>)
    ensures Rebaseline(base, [o] + rest) == Rebaseline(base[o.key := o.value], rest)
    decreases |rest|
  {
    if rest == [] {
      assert ([o] + rest)[..0] == [];
    } else {
      var n := |rest| - 1;
      assert ([o] + rest)[..|rest|] == [o] + rest[..n];
      RebaselineCons(base, o, rest[..n]);
    }
  }
}
