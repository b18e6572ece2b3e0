/** ORDER BY age, id LIMIT n over a set of numbered rows. */
module Selection {

  /** Row p comes before row q: a smaller age, ties by number. */
  predicate Older(age: map<nat, int>, p: nat, q: nat) {
    p in age && q in age && (age[p] < age[q] || (age[p] == age[q] && p < q))
  }

  /** The limit oldest candidates, oldest first; fewer only when there are no more. */
  ghost predicate OldestFirst(age: map<nat, int>, candidates: set<nat>, limit: nat, chosen: seq<nat>) {
    && |chosen| <= limit
    && (forall i | 0 <= i < |chosen| :: chosen[i] in candidates)
    && (forall i, j | 0 <= i < j < |chosen| :: Older(age, chosen[i], chosen[j]))
    && (forall i, q | 0 <= i < |chosen| && q in candidates && q !in chosen :: Older(age, chosen[i], q))
    && (|chosen| < limit ==> forall p | p in candidates :: p in chosen)
  }

  method Oldest(age: map<nat, int>, from: set<nat>) returns (p: nat)
    requires from != {} && from <= age.Keys
    ensures p in from && forall q | q in from && q != p :: Older(age, p, q)
  {
    p :| p in from;
    var rest := from - {p};
    while rest != {}
      invariant rest <= from && p in from && p !in rest
      invariant forall q | q in from && q !in rest && q != p :: Older(age, p, q)
      decreases rest
    {
      var q :| q in rest;
      if Older(age, q, p) { p := q; }
      rest := rest - {q};
    }
  }

  method SelectOldest(age: map<nat, int>, candidates: set<nat>, limit: nat) returns (chosen: seq<nat>)
    requires candidates <= age.Keys
    ensures OldestFirst(age, candidates, limit, chosen)
  {
    chosen := [];
    var left := candidates;
    while |chosen| < limit && left != {}
      invariant |chosen| <= limit && left <= candidates
      invariant forall p | p in candidates :: p in left <==> p !in chosen
      invariant forall i | 0 <= i < |chosen| :: chosen[i] in candidates
      invariant forall i, j | 0 <= i < j < |chosen| :: Older(age, chosen[i], chosen[j])
      invariant forall i, q | 0 <= i < |chosen| && q in left :: Older(age, chosen[i], q)
      decreases limit - |chosen|
    {
      var p := Oldest(age, left);
      chosen := chosen + [p];
      left := left - {p};
    }
  }
}
