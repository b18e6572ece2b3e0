/**
 Splitting an imported order's subtotal over its components by largest remainder.
 Money is in integer cents and quantities in integer hundredths, as the source's
 minor-unit helpers deliver them.
 */
module Apportionment {
  import opened Sums

  const MAX_SAFE_INTEGER := 9007199254740991

  // ---------- The split as a function ----------

  /** Numerators of the exact shares: component i is entitled to Numerators[i] / Sum(quantities). */
  function Numerators(subtotal: nat, quantities: seq<nat>): (r: seq<nat>)
    ensures |r| == |quantities|
  {
    seq(|quantities|, i requires 0 <= i < |quantities| => Scale(subtotal, quantities[i]))
  }

  function Scale(a: nat, b: nat): nat { a * b }

  function Floors(num: seq<nat>, d: nat): (r: seq<nat>)
    requires d > 0
  {
    seq(|num|, i requires 0 <= i < |num| => num[i] / d)
  }

  function Remainders(num: seq<nat>, d: nat): (r: seq<nat>)
    requires d > 0
  {
    seq(|num|, i requires 0 <= i < |num| => num[i] % d)
  }

  /** The comparator of the source: larger remainder first, ties by lower index. */
  predicate Before(rem: seq<nat>, a: nat, b: nat)
    requires a < |rem| && b < |rem|
  {
    rem[a] > rem[b] || (rem[a] == rem[b] && a < b)
  }

  function Place(rem: seq<nat>, order: seq<nat>, x: nat): (r: seq<nat>)
    requires x < |rem| && forall j | 0 <= j < |order| :: order[j] < |rem|
    ensures |r| == |order| + 1 && forall j | 0 <= j < |r| :: r[j] < |rem|
  {
    if order == [] || Before(rem, order[|order| - 1], x) then order + [x]
    else Place(rem, order[..|order| - 1], x) + [order[|order| - 1]]
  }

  /** The first n component indices, sorted by the comparator. */
  function RemainderOrder(rem: seq<nat>, n: nat): (r: seq<nat>)
    requires n <= |rem|
    ensures |r| == n && forall j | 0 <= j < n :: r[j] < |rem|
  {
    if n == 0 then [] else Place(rem, RemainderOrder(rem, n - 1), n - 1)
  }

  /** Cents left over once every component has its floor. */
  function Leftover(subtotal: nat, quantities: seq<nat>): int
    requires Sum(quantities) > 0
  {
    subtotal - Sum(Floors(Numerators(subtotal, quantities), Sum(quantities)))
  }

  /** The components in the first k places of the remainder order. */
  function Top(rem: seq<nat>, k: int): (r: set<nat>) {
    var order := RemainderOrder(rem, |rem|);
    set j | 0 <= j < |order| && j < k :: order[j]
  }

  function Winners(subtotal: nat, quantities: seq<nat>): (r: set<nat>)
    requires Sum(quantities) > 0
  {
    Top(Remainders(Numerators(subtotal, quantities), Sum(quantities)), Leftover(subtotal, quantities))
  }

  /** The split: the floor of each share, plus one cent for the winners. */
  function Split(subtotal: nat, quantities: seq<nat>): (r: seq<nat>)
    requires Sum(quantities) > 0
    ensures |r| == |quantities|
  {
    var floors := Floors(Numerators(subtotal, quantities), Sum(quantities));
    var winners := Winners(subtotal, quantities);
    seq(|quantities|, i requires 0 <= i < |quantities| => floors[i] + if i in winners then 1 else 0)
  }

  // ---------- The order is a sorted permutation ----------

  ghost predicate Sorted(rem: seq<nat>, order: seq<nat>) {
    && (forall j | 0 <= j < |order| :: order[j] < |rem|)
    && (forall j, k | 0 <= j < k < |order| :: Before(rem, order[j], order[k]))
  }

  function Picked(rem: seq<nat>, order: seq<nat>): (r: seq<nat>)
    requires forall j | 0 <= j < |order| :: order[j] < |rem|
    ensures |r| == |order|
  {
    seq(|order|, j requires 0 <= j < |order| => rem[order[j]])
  }

  lemma {:induction false} PlaceMembers(rem: seq<nat>, order: seq<nat>, x: nat)
    requires x < |rem| && forall j | 0 <= j < |order| :: order[j] < |rem|
    ensures forall i: nat :: i in Place(rem, order, x) <==> i in order || i == x
  {
    var n := |order|;
    if n > 0 && !Before(rem, order[n - 1], x) {
      PlaceMembers(rem, order[..n - 1], x);
      assert order == order[..n - 1] + [order[n - 1]];
    }
  }

  lemma {:induction false} PlaceKeepsOrder(rem: seq<nat>, order: seq<nat>, x: nat)
    requires x < |rem| && Sorted(rem, order) && x !in order
    ensures Sorted(rem, Place(rem, order, x))
  {
    var n := |order|;
    if n > 0 && !Before(rem, order[n - 1], x) {
      var front := order[..n - 1];
      PlaceKeepsOrder(rem, front, x);
      PlaceMembers(rem, front, x);
      forall j | 0 <= j < n ensures Before(rem, Place(rem, front, x)[j], order[n - 1]) {
        assert Place(rem, front, x)[j] in Place(rem, front, x);
      }
    }
  }

  lemma {:induction false} PlacePicks(rem: seq<nat>, order: seq<nat>, x: nat)
    requires x < |rem| && forall j | 0 <= j < |order| :: order[j] < |rem|
    ensures Sum(Picked(rem, Place(rem, order, x))) == Sum(Picked(rem, order)) + rem[x]
  {
    var n := |order|;
    if n > 0 && !Before(rem, order[n - 1], x) {
      PlacePicks(rem, order[..n - 1], x);
      var placed := Place(rem, order[..n - 1], x);
      assert Picked(rem, placed + [order[n - 1]])[..n] == Picked(rem, placed);
      assert Picked(rem, order)[..n - 1] == Picked(rem, order[..n - 1]);
    } else {
      assert Picked(rem, order + [x])[..n] == Picked(rem, order);
    }
  }

  lemma {:induction false} OrderHasEveryIndex(rem: seq<nat>, n: nat)
    requires n <= |rem|
    ensures forall i: nat :: i in RemainderOrder(rem, n) <==> i < n
  {
    if n > 0 {
      OrderHasEveryIndex(rem, n - 1);
      PlaceMembers(rem, RemainderOrder(rem, n - 1), n - 1);
    }
  }

  lemma {:induction false} OrderPicksAll(rem: seq<nat>, n: nat)
    requires n <= |rem|
    ensures Sum(Picked(rem, RemainderOrder(rem, n))) == Sum(rem[..n])
  {
    if n > 0 {
      OrderPicksAll(rem, n - 1);
      PlacePicks(rem, RemainderOrder(rem, n - 1), n - 1);
      SumStep(rem, n - 1);
    }
  }

  lemma {:induction false} OrderIsSorted(rem: seq<nat>, n: nat)
    requires n <= |rem|
    ensures Sorted(rem, RemainderOrder(rem, n))
  {
    if n > 0 {
      OrderIsSorted(rem, n - 1);
      assert n - 1 !in RemainderOrder(rem, n - 1) by { OrderHasEveryIndex(rem, n - 1); }
      PlaceKeepsOrder(rem, RemainderOrder(rem, n - 1), n - 1);
    }
  }

  /** Sorting keeps every index once and orders the indices by the comparator. */
  lemma {:induction false} RemainderOrderIsSortedPermutation(rem: seq<nat>, n: nat)
    requires n <= |rem|
    ensures Sorted(rem, RemainderOrder(rem, n))
    ensures forall i: nat :: i in RemainderOrder(rem, n) <==> i < n
    ensures Sum(Picked(rem, RemainderOrder(rem, n))) == Sum(rem[..n])
  {
    OrderIsSorted(rem, n);
    OrderHasEveryIndex(rem, n);
    OrderPicksAll(rem, n);
  }

  // ---------- Arithmetic of floors and remainders ----------

  lemma {:induction false} NumeratorsSum(subtotal: nat, quantities: seq<nat>)
    ensures Sum(Numerators(subtotal, quantities)) == subtotal * Sum(quantities)
  {
    if quantities != [] {
      var n := |quantities| - 1;
      NumeratorsSum(subtotal, quantities[..n]);
      assert Numerators(subtotal, quantities)[..n] == Numerators(subtotal, quantities[..n]);
    }
  }

  /** The division law summed over all components, with quotients and remainders as plain sequences. */
  lemma {:induction false} DivisionLawSum(num: seq<nat>, d: nat, floors: seq<nat>, rem: seq<nat>)
    requires |num| == |floors| == |rem|
    requires forall i | 0 <= i < |num| :: num[i] == d * floors[i] + rem[i]
    ensures Sum(num) == d * Sum(floors) + Sum(rem)
  {
    if num != [] {
      var n := |num| - 1;
      DivisionLawSum(num[..n], d, floors[..n], rem[..n]);
      assert d * (Sum(floors[..n]) + floors[n]) == d * Sum(floors[..n]) + d * floors[n];
    }
  }

  lemma {:induction false} DivisionLaw(num: seq<nat>, d: nat)
    requires d > 0
    ensures forall i | 0 <= i < |num| :: num[i] == d * Floors(num, d)[i] + Remainders(num, d)[i]
    ensures forall i | 0 <= i < |num| :: Remainders(num, d)[i] < d
  {
  }

  function NonZero(s: seq<nat>): nat {
    if s == [] then 0 else NonZero(s[..|s| - 1]) + if s[|s| - 1] != 0 then 1 else 0
  }

  /** The components with a remainder. */
  ghost function NonZeroAt(s: seq<nat>): set<nat> { set i: nat | i < |s| && s[i] != 0 }

  lemma {:induction false} NonZeroCounts(s: seq<nat>)
    ensures NonZero(s) == |NonZeroAt(s)|
  {
    if s != [] {
      var n := |s| - 1;
      NonZeroCounts(s[..n]);
      assert NonZeroAt(s) == NonZeroAt(s[..n]) + if s[n] != 0 then {n} else {};
    }
  }

  lemma {:induction false} RemaindersBound(rem: seq<nat>, d: nat)
    requires d > 0 && forall i | 0 <= i < |rem| :: rem[i] < d
    ensures 0 <= Sum(rem) <= NonZero(rem) * (d - 1)
    ensures NonZero(rem) <= |rem|
  {
    if rem != [] { RemaindersBound(rem[..|rem| - 1], d); }
  }

  lemma {:induction false} LeftoverRange(d: nat, left: int, remSum: int, nonZero: nat)
    requires d > 0 && left * d == remSum && 0 <= remSum <= nonZero * (d - 1)
    ensures 0 <= left <= nonZero && (left < nonZero <==> nonZero > 0)
  {
  }

  /** The leftover never exceeds the components that have a remainder, and is smaller as soon as there is one. */
  lemma {:induction false} LeftoverBelowRemainders(subtotal: nat, quantities: seq<nat>)
    requires Sum(quantities) > 0
    ensures var rem := Remainders(Numerators(subtotal, quantities), Sum(quantities));
            var left := Leftover(subtotal, quantities);
            && left * Sum(quantities) == Sum(rem)
            && 0 <= left <= |NonZeroAt(rem)| <= |quantities|
            && (left < |NonZeroAt(rem)| <==> exists i :: 0 <= i < |rem| && rem[i] > 0)
  {
    var d := Sum(quantities);
    var num := Numerators(subtotal, quantities);
    var floors, rem := Floors(num, d), Remainders(num, d);
    NumeratorsSum(subtotal, quantities);
    DivisionLaw(num, d);
    DivisionLawSum(num, d, floors, rem);
    RemaindersBound(rem, d);
    LeftoverIdentity(d, subtotal, Sum(floors), Sum(rem));
    LeftoverRange(d, Leftover(subtotal, quantities), Sum(rem), NonZero(rem));
    NonZeroCounts(rem);
    SomeRemainder(rem);
  }

  lemma SomeRemainder(rem: seq<nat>)
    ensures |NonZeroAt(rem)| > 0 <==> exists i :: 0 <= i < |rem| && rem[i] > 0
  {
    if i :| 0 <= i < |rem| && rem[i] > 0 { assert i in NonZeroAt(rem); }
    if |NonZeroAt(rem)| > 0 { var i :| i in NonZeroAt(rem); }
  }

  lemma LeftoverIdentity(d: nat, subtotal: int, floored: int, remSum: int)
    requires subtotal * d == d * floored + remSum
    ensures (subtotal - floored) * d == remSum
  {
  }

  lemma MultiplyStrict(a: int, b: int, d: nat) requires a < b && d > 0 ensures a * d < b * d {}

  lemma MultiplyLe(a: int, b: int, d: nat) requires a <= b ensures a * d <= b * d {}

  /** Were a winner's remainder zero, the sorted remainders before it could not add up to the leftover. */
  lemma {:induction false} WinnersHaveRemainders(subtotal: nat, quantities: seq<nat>, k: nat)
    requires Sum(quantities) > 0 && k < Leftover(subtotal, quantities)
    ensures var rem := Remainders(Numerators(subtotal, quantities), Sum(quantities));
            k < |rem| && rem[RemainderOrder(rem, |rem|)[k]] > 0
  {
    var d := Sum(quantities);
    var num := Numerators(subtotal, quantities);
    LeftoverBelowRemainders(subtotal, quantities);
    DivisionLaw(num, d);
    SortedWinnersHaveRemainders(Remainders(num, d), d, Leftover(subtotal, quantities), k);
  }

  lemma {:induction false} SortedWinnersHaveRemainders(rem: seq<nat>, d: nat, left: nat, k: nat)
    requires d > 0 && left * d == Sum(rem) && k < left <= |rem|
    requires forall i | 0 <= i < |rem| :: rem[i] < d
    ensures rem[RemainderOrder(rem, |rem|)[k]] > 0
  {
    var order := RemainderOrder(rem, |rem|);
    RemainderOrderIsSortedPermutation(rem, |rem|);
    SumWhole(rem);
    var picked := Picked(rem, order);
    if rem[order[k]] == 0 {
      forall j | k <= j < |picked| ensures picked[j] == 0 {
        assert j > k ==> Before(rem, order[k], order[j]);
      }
      PrefixHoldsSum(picked, d, k, |picked|);
      SumWhole(picked);
    }
    TooLittle(k, left, d);
  }

  /** k full remainders cannot reach the leftover of more than k shares. */
  lemma TooLittle(k: nat, left: nat, d: nat)
    requires d > 0 && k < left
    ensures k * (d - 1) < left * d
  {
  }

  lemma {:induction false} PrefixHoldsSum(s: seq<nat>, d: nat, k: nat, n: nat)
    requires d > 0 && n <= |s| && forall j | 0 <= j < |s| :: s[j] < d && (j >= k ==> s[j] == 0)
    ensures Sum(s[..n]) <= k * (d - 1)
    ensures n <= k ==> Sum(s[..n]) <= n * (d - 1)
    decreases n
  {
    if n > 0 {
      PrefixHoldsSum(s, d, k, n - 1);
      SumStep(s, n - 1);
      if n <= k {
        assert n * (d - 1) == (n - 1) * (d - 1) + (d - 1);
        MultiplyLe(n, k, d - 1);
      }
    }
    MultiplyLe(0, k, d - 1);
  }

  // ---------- Main results about the split ----------

  lemma {:induction false} WinnersAreIndices(subtotal: nat, quantities: seq<nat>, i: nat)
    requires Sum(quantities) > 0 && i in Winners(subtotal, quantities)
    ensures i < |quantities|
    ensures Remainders(Numerators(subtotal, quantities), Sum(quantities))[i] > 0
  {
    var rem := Remainders(Numerators(subtotal, quantities), Sum(quantities));
    var order := RemainderOrder(rem, |rem|);
    var j :| 0 <= j < |order| && j < Leftover(subtotal, quantities) && order[j] == i;
    WinnersHaveRemainders(subtotal, quantities, j);
  }

  /** Quota rule: each component receives the floor or the ceiling of its exact share, and none of an empty share. */
  lemma {:induction false} SplitKeepsQuota(subtotal: nat, quantities: seq<nat>, i: nat)
    requires Sum(quantities) > 0 && i < |quantities|
    ensures var t, d, share := Split(subtotal, quantities)[i], Sum(quantities), subtotal * quantities[i];
            && t * d - d < share < t * d + d
            && (share % d == 0 ==> t * d == share)
            && (quantities[i] == 0 ==> t == 0)
  {
    var d := Sum(quantities);
    var num := Numerators(subtotal, quantities);
    assert num[i] == Scale(subtotal, quantities[i]) == subtotal * quantities[i];
    assert num[i] == (num[i] / d) * d + num[i] % d;
    if i in Winners(subtotal, quantities) {
      WinnersAreIndices(subtotal, quantities, i);
      assert (num[i] / d + 1) * d == (num[i] / d) * d + d;
    }
  }

  /** Awarding one cent to each of the first k places adds k cents. */
  lemma {:induction false} AwardsSum(floors: seq<nat>, order: seq<nat>, k: nat, out: seq<nat>)
    requires k <= |order| && |out| == |floors|
    requires forall j | 0 <= j < |order| :: order[j] < |floors|
    requires forall j, l | 0 <= j < l < |order| :: order[j] != order[l]
    requires forall i | 0 <= i < |out| :: out[i] == floors[i] + if i in order[..k] then 1 else 0
    ensures Sum(out) == Sum(floors) + k
    decreases k
  {
    if k == 0 {
      assert out == floors;
    } else {
      var w := order[k - 1];
      assert w in order[..k];
      var before := out[w := floors[w]];
      assert order[..k] == order[..k - 1] + [w];
      AwardsSum(floors, order, k - 1, before);
      assert out == before[w := out[w]];
      SumUpdate(before, w, out[w]);
    }
  }

  lemma {:induction false} SortedIsDistinct(rem: seq<nat>, order: seq<nat>)
    requires Sorted(rem, order)
    ensures forall j, l | 0 <= j < l < |order| :: order[j] != order[l]
  {
  }

  /** Nothing is lost or invented: the component totals add up to the subtotal. */
  lemma {:induction false} SplitSumsExactly(subtotal: nat, quantities: seq<nat>)
    requires Sum(quantities) > 0
    ensures Sum(Split(subtotal, quantities)) == subtotal
  {
    var d := Sum(quantities);
    var num := Numerators(subtotal, quantities);
    var rem := Remainders(num, d);
    var order := RemainderOrder(rem, |rem|);
    var left := Leftover(subtotal, quantities);
    LeftoverBelowRemainders(subtotal, quantities);
    RemainderOrderIsSortedPermutation(rem, |rem|);
    SortedIsDistinct(rem, order);
    forall i: nat ensures i in Winners(subtotal, quantities) <==> i in order[..left] {
      TopIsPrefix(rem, left, i);
    }
    AwardsSum(Floors(num, d), order, left, Split(subtotal, quantities));
  }

  lemma DivideMonotone(a: nat, b: nat, d: nat)
    requires d > 0 && a >= b
    ensures a / d >= b / d
    ensures a / d == b / d ==> a % d - b % d == a - b
  {
    var qa, qb := a / d, b / d;
    assert a == qa * d + a % d && b == qb * d + b % d;
    if qa < qb { MultiplyLe(qa + 1, qb, d); }
  }

  lemma {:induction false} TopIsPrefix(rem: seq<nat>, k: nat, i: nat)
    requires k <= |rem|
    ensures i in Top(rem, k) <==> i in RemainderOrder(rem, |rem|)[..k]
  {
  }

  lemma {:induction false} TopIsUpwardClosed(rem: seq<nat>, k: nat, i: nat, j: nat)
    requires i < |rem| && j < |rem| && Before(rem, i, j)
    ensures j in Top(rem, k) ==> i in Top(rem, k)
  {
    var order := RemainderOrder(rem, |rem|);
    RemainderOrderIsSortedPermutation(rem, |rem|);
    assert i in order;
    var a :| 0 <= a < |order| && order[a] == i;
    if j in Top(rem, k) {
      var b :| 0 <= b < |order| && b < k && order[b] == j;
      assert a <= b;
    }
  }

  /** Fairness: more quantity never means fewer cents; equal quantities differ by at most a cent, lower index first. */
  lemma {:induction false} SplitIsFair(subtotal: nat, quantities: seq<nat>, i: nat, j: nat)
    requires Sum(quantities) > 0 && i < |quantities| && j < |quantities|
    ensures var t := Split(subtotal, quantities);
            && (quantities[i] > quantities[j] ==> t[i] >= t[j])
            && (quantities[i] == quantities[j] && i < j ==> t[j] <= t[i] <= t[j] + 1)
  {
    if quantities[i] > quantities[j] || (quantities[i] == quantities[j] && i < j) {
      var d := Sum(quantities);
      var num := Numerators(subtotal, quantities);
      assert num[i] == Scale(subtotal, quantities[i]) && num[j] == Scale(subtotal, quantities[j]);
      MultiplyLe(quantities[j], quantities[i], subtotal);
      DivideMonotone(num[i], num[j], d);
      if num[i] / d == num[j] / d {
        if num[i] > num[j] || i < j {
          LeftoverBelowRemainders(subtotal, quantities);
          TopIsUpwardClosed(Remainders(num, d), Leftover(subtotal, quantities), i, j);
        } else {
          assert subtotal == 0 by {
            if subtotal > 0 { MultiplyStrict(quantities[j], quantities[i], subtotal); }
          }
          if j in Winners(subtotal, quantities) { WinnersAreIndices(subtotal, quantities, j); }
        }
      }
    }
  }

  /** A component is rounded up exactly when it is a winner. */
  lemma RoundedUp(subtotal: nat, quantities: seq<nat>, i: nat)
    requires Sum(quantities) > 0 && i < |quantities|
    ensures i in Winners(subtotal, quantities)
       <==> Split(subtotal, quantities)[i] * Sum(quantities) > subtotal * quantities[i]
  {
    var num, d := Numerators(subtotal, quantities), Sum(quantities);
    assert num[i] == Scale(subtotal, quantities[i]);
    RoundsUp(num[i], d, Split(subtotal, quantities)[i]);
  }

  lemma RoundsUp(n: nat, d: nat, t: nat)
    requires d > 0 && n / d <= t <= n / d + 1
    ensures t == n / d + 1 <==> t * d > n
  {
  }

  /** What is rounded up has the larger remainder, or the same and the lower index, compared with all that is not. */
  lemma {:induction false} WinnersPrecedeLosers(subtotal: nat, quantities: seq<nat>, i: nat, j: nat)
    requires Sum(quantities) > 0 && i < |quantities| && j < |quantities|
    requires Split(subtotal, quantities)[i] * Sum(quantities) > subtotal * quantities[i]
    requires Split(subtotal, quantities)[j] * Sum(quantities) <= subtotal * quantities[j]
    ensures var a, b := subtotal * quantities[i] % Sum(quantities), subtotal * quantities[j] % Sum(quantities);
            a > b || (a == b && i < j)
  {
    var rem := Remainders(Numerators(subtotal, quantities), Sum(quantities));
    assert rem[i] == Scale(subtotal, quantities[i]) % Sum(quantities) && rem[j] == Scale(subtotal, quantities[j]) % Sum(quantities);
    LeftoverBelowRemainders(subtotal, quantities);
    RoundedUp(subtotal, quantities, i);
    RoundedUp(subtotal, quantities, j);
    if Before(rem, j, i) { TopIsUpwardClosed(rem, Leftover(subtotal, quantities), j, i); }
  }

  // ---------- Optimality ----------

  function Abs(x: int): nat { if x < 0 then -x else x }

  /** Total deviation of a split from the exact shares, scaled by the total quantity d. */
  function Deviation(num: seq<nat>, d: nat, split: seq<int>): nat
    requires |num| == |split|
  {
    if num == [] then 0
    else var n := |num| - 1; Deviation(num[..n], d, split[..n]) + Abs(split[n] * d - num[n])
  }

  /** t rounds n / d down or up, as the remainder is on the lower or the upper side of rho. */
  predicate RoundedBy(n: nat, d: nat, rho: nat, t: int)
    requires d > 0
  {
    (t == n / d && n % d <= rho) || (t == n / d + 1 && n % d >= rho)
  }

  /** Leaving the floor, with remainder r at most rho, by e units. */
  lemma LeaveFloor(d: nat, rho: nat, r: nat, e: int)
    requires r <= rho <= d
    ensures Abs(e * d - r) - r >= (d - 2 * rho) * e
  {
    assert (d - 2 * rho) * e == e * d - 2 * (rho * e);
    if e >= 1 {
      MultiplyLe(1, e, rho); MultiplyLe(1, e, d);
    } else {
      MultiplyLe(0, -e, d); MultiplyLe(0, -e, d - rho);
      assert (-e) * (d - rho) == rho * e - e * d;
    }
  }

  /** Leaving the ceiling is leaving the floor seen from above. */
  lemma LeaveCeiling(d: nat, rho: nat, r: nat, e: int)
    requires rho <= r <= d
    ensures Abs(e * d - r) - (d - r) >= (d - 2 * rho) * (e - 1)
  {
    LeaveFloor(d, d - rho, d - r, 1 - e);
    assert (1 - e) * d - (d - r) == -(e * d - r);
    assert (d - 2 * (d - rho)) * (1 - e) == (d - 2 * rho) * (e - 1);
  }

  /** One component: leaving t for y costs at least the price d - 2*rho for every cent gained. */
  lemma OneComponentBound(n: nat, d: nat, rho: nat, t: int, y: int)
    requires d > 0 && rho <= d
    requires RoundedBy(n, d, rho, t)
    ensures Abs(y * d - n) - Abs(t * d - n) >= (d - 2 * rho) * (y - t)
  {
    var f, r := n / d, n % d;
    assert n == f * d + r;
    assert y * d - n == (y - f) * d - r by { assert y * d == f * d + (y - f) * d; }
    assert t * d - n == (t - f) * d - r by { assert t * d == f * d + (t - f) * d; }
    if t == f { LeaveFloor(d, rho, r, y - f); } else { LeaveCeiling(d, rho, r, y - f); }
  }

  lemma AddPriced(p: int, s: int, e: int, a: int, b: int, total: int)
    requires a >= p * s && b >= p * e && total == s + e
    ensures a + b >= p * total
  {
  }

  lemma {:induction false} PrefixBound(num: seq<nat>, d: nat, rho: nat, t: seq<int>, y: seq<int>)
    requires d > 0 && rho <= d && |num| == |t| == |y|
    requires forall i | 0 <= i < |num| :: RoundedBy(num[i], d, rho, t[i])
    ensures Deviation(num, d, y) - Deviation(num, d, t) >= (d - 2 * rho) * (Sum(y) - Sum(t))
  {
    if num != [] {
      var n := |num| - 1;
      PrefixBound(num[..n], d, rho, t[..n], y[..n]);
      OneComponentBound(num[n], d, rho, t[n], y[n]);
      AddPriced(d - 2 * rho, Sum(y[..n]) - Sum(t[..n]), y[n] - t[n],
        Deviation(num[..n], d, y[..n]) - Deviation(num[..n], d, t[..n]),
        Abs(y[n] * d - num[n]) - Abs(t[n] * d - num[n]), Sum(y) - Sum(t));
    }
  }

  lemma SameSumNoWorse(num: seq<nat>, d: nat, rho: nat, t: seq<int>, y: seq<int>)
    requires d > 0 && rho <= d && |num| == |t| == |y| && Sum(t) == Sum(y)
    requires forall i | 0 <= i < |num| :: RoundedBy(num[i], d, rho, t[i])
    ensures Deviation(num, d, t) <= Deviation(num, d, y)
  {
    PrefixBound(num, d, rho, t, y);
    assert Sum(y) - Sum(t) == 0;
  }

  /** The remainder in the last winning place separates winners from losers. */
  lemma {:induction false} ThresholdSeparates(rem: seq<nat>, d: nat, k: nat) returns (rho: nat)
    requires k <= |rem| && forall i | 0 <= i < |rem| :: rem[i] < d
    ensures rho <= d
    ensures forall i | 0 <= i < |rem| :: if i in Top(rem, k) then rem[i] >= rho else rem[i] <= rho
  {
    var order := RemainderOrder(rem, |rem|);
    RemainderOrderIsSortedPermutation(rem, |rem|);
    rho := if k == 0 then d else rem[order[k - 1]];
    forall i: nat | i < |rem| ensures if i in Top(rem, k) then rem[i] >= rho else rem[i] <= rho {
      assert i in order;
      var a :| 0 <= a < |order| && order[a] == i;
      if i in Top(rem, k) {
        var b :| 0 <= b < |order| && b < k && order[b] == i;
        assert b < k - 1 ==> Before(rem, order[b], order[k - 1]);
      } else {
        assert a >= k;
        assert k > 0 ==> Before(rem, order[k - 1], order[a]);
      }
    }
  }

  /** Optimality: no integer split with the same sum, negative entries included, deviates less in total. */
  lemma {:induction false} SplitIsOptimal(subtotal: nat, quantities: seq<nat>, other: seq<int>)
    requires Sum(quantities) > 0
    requires |other| == |quantities| && Sum(other) == subtotal
    ensures var num := Numerators(subtotal, quantities);
            Deviation(num, Sum(quantities), Split(subtotal, quantities)) <= Deviation(num, Sum(quantities), other)
  {
    var num, d := Numerators(subtotal, quantities), Sum(quantities);
    var t := Split(subtotal, quantities);
    LeftoverBelowRemainders(subtotal, quantities);
    DivisionLaw(num, d);
    var rho := ThresholdSeparates(Remainders(num, d), d, Leftover(subtotal, quantities));
    SplitSumsExactly(subtotal, quantities);
    forall i | 0 <= i < |num| ensures RoundedBy(num[i], d, rho, t[i]) {
      assert Remainders(num, d)[i] == num[i] % d && Floors(num, d)[i] == num[i] / d;
    }
    SameSumNoWorse(num, d, rho, t, other);
  }

  // ---------- The imported-price computation ----------

  datatype Rejection = NegativeSubtotal | NegativeQuantity | QuantityOutOfRange | UnitPriceOutOfRange | NoQuantities

  datatype ComponentPrice = ComponentPrice(unitPrice: nat, total: nat)

  datatype Outcome = Prices(rows: seq<ComponentPrice>) | Rejected(why: Rejection)

  /** Half-up division of a cent amount by a quantity in hundredths. */
  function UnitPrice(subtotal: nat, quantity: nat): nat
    requires quantity > 0
  {
    (subtotal * 100 + quantity / 2) / quantity
  }

  /** u cents a unit are nearest to the exact price of q hundredths, and the larger of two equally near. */
  ghost predicate NearestCent(u: int, subtotal: int, q: int) {
    2 * (u * q) - q <= 200 * subtotal < 2 * (u * q) + q
  }

  /** The exact price rounds to at most u cents. */
  ghost predicate HalfUp(u: int, subtotal: int, q: int) { 200 * subtotal < 2 * (u * q) + q }

  lemma UnitPriceIsNearest(subtotal: nat, q: nat)
    requires q > 0
    ensures NearestCent(UnitPrice(subtotal, q), subtotal, q)
    ensures UnitPrice(subtotal, q) <= MAX_SAFE_INTEGER <==> HalfUp(9007199254740991, subtotal, q)
  {
    var u := UnitPrice(subtotal, q);
    assert subtotal * 100 + q / 2 == u * q + (subtotal * 100 + q / 2) % q;
    if u <= MAX_SAFE_INTEGER { MultiplyLe(u, MAX_SAFE_INTEGER, q); } else { MultiplyLe(MAX_SAFE_INTEGER + 1, u, q); }
  }

  ghost predicate AllNonNegative(s: seq<int>) { forall i | 0 <= i < |s| :: s[i] >= 0 }

  /** Each check, in the order in which the source can fail. */
  ghost function Verdict(subtotal: int, quantities: seq<int>): Option<Rejection> {
    if subtotal < 0 then Some(NegativeSubtotal)
    else if !AllNonNegative(quantities) then Some(NegativeQuantity)
    else if Sum(quantities) > MAX_SAFE_INTEGER then Some(QuantityOutOfRange)
    else if Sum(quantities) > 0 && UnitPrice(subtotal, Sum(quantities)) > MAX_SAFE_INTEGER then Some(UnitPriceOutOfRange)
    else if Sum(quantities) == 0 && subtotal > 0 then Some(NoQuantities)
    else None
  }

  method CalculateImportedComponentPrices(subtotal: int, quantities: seq<int>) returns (r: Outcome)
    ensures Verdict(subtotal, quantities) == (if r.Rejected? then Some(r.why) else None)
    ensures r.Prices? ==>
              && |r.rows| == |quantities|
              && (Sum(quantities) == 0 ==> forall i | 0 <= i < |r.rows| :: r.rows[i] == ComponentPrice(0, 0))
              && (Sum(quantities) > 0 ==> forall i | 0 <= i < |r.rows| ::
                     && r.rows[i].total == Split(subtotal, quantities)[i]
                     && NearestCent(r.rows[i].unitPrice, subtotal, Sum(quantities)))
    ensures r.Prices? <==> (
              && 0 <= subtotal && (forall i | 0 <= i < |quantities| :: quantities[i] >= 0)
              && Sum(quantities) <= 9007199254740991 && (Sum(quantities) == 0 ==> subtotal == 0)
              && (Sum(quantities) > 0 ==> HalfUp(9007199254740991, subtotal, Sum(quantities))))
  {
    if subtotal < 0 { return Rejected(NegativeSubtotal); }
    if exists i | 0 <= i < |quantities| :: quantities[i] < 0 { return Rejected(NegativeQuantity); }
    var q: seq<nat> := quantities;
    var total := 0;
    for i := 0 to |q|
      invariant 0 <= total == Sum(q[..i]) <= MAX_SAFE_INTEGER
    {
      SumStep(q, i);
      total := total + q[i];
      if total > MAX_SAFE_INTEGER {
        SumConcat(q[..i + 1], q[i + 1..]);
        SumNonNegative(q[i + 1..]);
        assert q == q[..i + 1] + q[i + 1..];
        return Rejected(QuantityOutOfRange);
      }
    }
    SumWhole(q);
    if total > 0 { UnitPriceIsNearest(subtotal, total); }
    var unitPrice := if total > 0 then UnitPrice(subtotal, total) else 0;
    if unitPrice > MAX_SAFE_INTEGER { return Rejected(UnitPriceOutOfRange); }
    if total == 0 {
      if subtotal > 0 { return Rejected(NoQuantities); }
      return Prices(seq(|q|, i => ComponentPrice(0, 0)));
    }
    var totals := Distribute(subtotal, q, total);
    r := Prices(seq(|q|, i requires 0 <= i < |q| => ComponentPrice(unitPrice, totals[i])));
  }

  /** The floors of the exact shares, one array cell a component, and their sum. */
  method FloorShares(subtotal: nat, quantities: seq<nat>, total: nat) returns (cents: array<nat>, floored: nat)
    requires total == Sum(quantities) > 0
    ensures fresh(cents) && cents[..] == Floors(Numerators(subtotal, quantities), total)
    ensures floored == Sum(cents[..])
  {
    var n := |quantities|;
    cents := new nat[n];
    floored := 0;
    ghost var floors := Floors(Numerators(subtotal, quantities), total);
    for i := 0 to n
      invariant cents[..i] == floors[..i] && floored == Sum(floors[..i])
    {
      cents[i] := Scale(subtotal, quantities[i]) / total;
      SumStep(floors, i);
      floored := floored + cents[i];
    }
    assert cents[..] == cents[..n] == floors[..n] == floors;
  }

  /** One cent at a time down the order; with no more cents than places the index never wraps. */
  method AwardLeftover(cents: array<nat>, order: seq<nat>, leftover: nat)
    requires |order| == cents.Length && leftover <= |order|
    requires forall j | 0 <= j < |order| :: order[j] < cents.Length
    requires forall j, l | 0 <= j < l < |order| :: order[j] != order[l]
    modifies cents
    ensures forall i | 0 <= i < cents.Length :: cents[i] == old(cents[i]) + if i in order[..leftover] then 1 else 0
  {
    var remaining := leftover;
    var index := 0;
    while remaining > 0
      invariant 0 <= remaining && 0 <= index && index + remaining == leftover
      invariant forall i | 0 <= i < cents.Length :: cents[i] == old(cents[i]) + if i in order[..index] then 1 else 0
    {
      assert index % |order| == index;
      var w := order[index % |order|];
      assert order[..index + 1] == order[..index] + [w];
      assert w !in order[..index];
      cents[w] := cents[w] + 1;
      index := index + 1;
      remaining := remaining - 1;
    }
  }

  /** The in-place part: floors first, then the leftover cents down the remainder order. */
  method Distribute(subtotal: nat, quantities: seq<nat>, total: nat) returns (out: seq<nat>)
    requires total == Sum(quantities) > 0
    ensures out == Split(subtotal, quantities)
  {
    var rem := Remainders(Numerators(subtotal, quantities), total);
    var order := RemainderOrder(rem, |rem|);
    LeftoverBelowRemainders(subtotal, quantities);
    RemainderOrderIsSortedPermutation(rem, |rem|);
    SortedIsDistinct(rem, order);
    var cents, floored := FloorShares(subtotal, quantities, total);
    ghost var floors := cents[..];
    AwardLeftover(cents, order, subtotal - floored);
    out := cents[..];
    forall i | 0 <= i < |out| ensures out[i] == Split(subtotal, quantities)[i] {
      TopIsPrefix(rem, subtotal - floored, i);
      assert cents[i] == floors[i] + if i in order[..subtotal - floored] then 1 else 0;
    }
  }
}
