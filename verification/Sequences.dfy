/** Small facts about sequences that several modules share. */
module Sequences {

  function Filter<T>(xs: seq<T>, keep: T -> bool): seq<T> {
    if xs == [] then [] else if keep(xs[0]) then [xs[0]] + Filter(xs[1..], keep) else Filter(xs[1..], keep)
  }

  lemma {:induction false} FilterConcat<T>(xs: seq<T>, ys: seq<T>, keep: T -> bool)
    ensures Filter(xs + ys, keep) == Filter(xs, keep) + Filter(ys, keep)
  {
    if xs == [] {
      assert xs + ys == ys;
    } else {
      assert (xs + ys)[1..] == xs[1..] + ys;
      FilterConcat(xs[1..], ys, keep);
    }
  }

  lemma FilterPair<T>(x: T, y: T, keep: T -> bool)
    ensures Filter([x], keep) == if keep(x) then [x] else []
    ensures Filter([x, y], keep) == (if keep(x) then [x] else []) + if keep(y) then [y] else []
  {
    assert [x][1..] == [] && [y][1..] == [] && [x, y][1..] == [y];
  }

  lemma {:induction false} FilterMembers<T>(xs: seq<T>, keep: T -> bool)
    ensures forall x :: x in Filter(xs, keep) <==> x in xs && keep(x)
    ensures |Filter(xs, keep)| <= |xs|
  {
    if xs != [] {
      FilterMembers(xs[1..], keep);
      assert forall x :: x in xs <==> x == xs[0] || x in xs[1..];
    }
  }

  ghost predicate NoRepeats<T>(xs: seq<T>) {
    forall i, j :: 0 <= i < j < |xs| ==> xs[i] != xs[j]
  }

  lemma NoRepeatsHead<T>(x: T, rest: seq<T>)
    ensures NoRepeats([x] + rest) <==> NoRepeats(rest) && x !in rest
  {
    var xs := [x] + rest;
    if NoRepeats(xs) {
      forall i, j | 0 <= i < j < |rest| ensures rest[i] != rest[j] {
        assert xs[i + 1] == rest[i] && xs[j + 1] == rest[j];
      }
      assert forall j :: 0 <= j < |rest| ==> xs[j + 1] == rest[j] && xs[0] != xs[j + 1];
    }
  }

  lemma {:induction false} FilterNoRepeats<T>(xs: seq<T>, keep: T -> bool)
    requires NoRepeats(xs)
    ensures NoRepeats(Filter(xs, keep))
  {
    if xs != [] {
      assert xs == [xs[0]] + xs[1..];
      NoRepeatsHead(xs[0], xs[1..]);
      FilterNoRepeats(xs[1..], keep);
      FilterMembers(xs[1..], keep);
      NoRepeatsHead(xs[0], Filter(xs[1..], keep));
    }
  }

  /** Distinct values drawn from a set are no more than the set holds. */
  lemma {:induction false} NoLongerThan<T>(xs: seq<T>, pool: set<T>)
    requires NoRepeats(xs)
    requires forall x :: x in xs ==> x in pool
    ensures |xs| <= |pool|
  {
    if xs != [] {
      NoLongerThan(xs[1..], pool - {xs[0]});
    }
  }

  lemma {:induction false} PoolIsSmall<T>(xs: seq<T>)
    ensures |set x | x in xs| <= |xs|
  {
    if xs != [] {
      PoolIsSmall(xs[1..]);
      assert (set x | x in xs) == (set x | x in xs[1..]) + {xs[0]};
    }
  }
}
