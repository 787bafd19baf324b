/** Choosing which of a wallet's transactions to fetch: evenly spread, both ends
    included. */
module Sampling {
  import opened Arithmetic

  function Floor(a: int, b: int): (q: int)
    requires b > 0
    ensures q * b <= a < (q + 1) * b
  {
    a / b
  }

  function Ceiling(a: int, b: int): (q: int)
    requires b > 0
    ensures (q - 1) * b < a <= q * b
  {
    (a + b - 1) / b
  }

  /** `i` steps of `(total - 1) / (size - 1)`, rounded to the nearest, halves up. */
  function Rounded(i: nat, total: nat, size: nat): (index: int)
    requires total >= 1 && size >= 2
    ensures 2 * (size - 1) * index <= 2 * i * (total - 1) + (size - 1) < 2 * (size - 1) * (index + 1)
  {
    Floor(2 * i * (total - 1) + (size - 1), 2 * (size - 1))
  }

  ghost function Picked(n: nat, total: nat, size: nat): set<int>
    requires total >= 1 && size >= 2
  {
    set i: nat | i < n :: Rounded(i, total, size)
  }

  predicate Ascending(indices: seq<int>) {
    forall i, j | 0 <= i < j < |indices| :: indices[i] < indices[j]
  }

  /** Rounding `x + y` in place of `x`, in halves of `d`, moves the result by
      the floor or the ceiling of `y / d`. */
  lemma RoundingStep(x: nat, y: nat, d: nat)
    requires d > 0
    ensures Floor(y, d) <= Floor(2 * (x + y) + d, 2 * d) - Floor(2 * x + d, 2 * d) <= Ceiling(y, d)
  {
    var here, next := Floor(2 * x + d, 2 * d), Floor(2 * (x + y) + d, 2 * d);
    var low, high := Floor(y, d), Ceiling(y, d);
    Doubles(low, d);
    Distributes(here, low, 2 * d);
    MulCancels(here + low, next + 1, 2 * d);
    Doubles(high, d);
    Distributes(here + 1, high, 2 * d);
    MulCancels(next, here + 1 + high, 2 * d);
  }

  lemma Doubles(q: int, d: int)
    ensures q * (2 * d) == 2 * (q * d)
  {
  }

  /** One step moves the rounded index by the floor or the ceiling of the step. */
  lemma StepIsFloorOrCeiling(i: nat, total: nat, size: nat)
    requires total > size >= 2
    ensures Floor(total - 1, size - 1)
         <= Rounded(i + 1, total, size) - Rounded(i, total, size)
         <= Ceiling(total - 1, size - 1)
    ensures Floor(total - 1, size - 1) >= 1
  {
    var t, m := total - 1, size - 1;
    assert 2 * i * t == 2 * (i * t);
    assert 2 * (i + 1) * t == 2 * (i * t + t);
    RoundingStep(i * t, t, m);
    var low := Floor(t, m);
    assert low <= 0 ==> (low + 1) * m <= m;
  }

  lemma {:induction false} RoundedAscends(i: nat, j: nat, total: nat, size: nat)
    requires total > size >= 2 && i < j
    ensures Rounded(i, total, size) < Rounded(j, total, size)
    decreases j
  {
    StepIsFloorOrCeiling(j - 1, total, size);
    if i < j - 1 {
      RoundedAscends(i, j - 1, total, size);
    }
  }

  lemma RoundedEnds(total: nat, size: nat)
    requires total >= 1 && size >= 2
    ensures Rounded(0, total, size) == 0
    ensures Rounded(size - 1, total, size) == total - 1
  {
    var m := size - 1;
    var first, last := Rounded(0, total, size), Rounded(m, total, size);
    MulCancels(first, 0 + 1, 2 * m);
    MulCancels(0, first + 1, 2 * m);
    assert 2 * m * (total - 1) + m < 2 * m * (total - 1 + 1);
    MulCancels(last, total - 1 + 1, 2 * m);
    MulCancels(total - 1, last + 1, 2 * m);
  }

  // ---------------------------------------------------------------------------
  // The set and its ascending arrangement
  // ---------------------------------------------------------------------------

  function Elements(indices: seq<int>): set<int> {
    set x | x in indices
  }

  function Insert(x: int, indices: seq<int>): seq<int> {
    if indices == [] then [x]
    else if x < indices[0] then [x] + indices
    else [indices[0]] + Insert(x, indices[1..])
  }

  lemma {:induction false} InsertAddsElement(x: int, indices: seq<int>)
    ensures Elements(Insert(x, indices)) == Elements(indices) + {x}
    decreases |indices|
  {
    if indices != [] && x >= indices[0] {
      InsertAddsElement(x, indices[1..]);
      var rest := Insert(x, indices[1..]);
      assert Elements(indices) == {indices[0]} + Elements(indices[1..]);
      assert Elements([indices[0]] + rest) == {indices[0]} + Elements(rest);
    } else {
      assert Elements([x] + indices) == {x} + Elements(indices);
    }
  }

  lemma {:induction false} InsertKeepsAscending(x: int, indices: seq<int>)
    requires Ascending(indices) && x !in indices
    ensures Ascending(Insert(x, indices))
    decreases |indices|
  {
    if indices != [] && x >= indices[0] {
      InsertKeepsAscending(x, indices[1..]);
      InsertAddsElement(x, indices[1..]);
      var rest := Insert(x, indices[1..]);
      forall j | 0 <= j < |rest| ensures indices[0] < rest[j] {
        assert rest[j] in Elements(rest);
      }
    }
  }

  lemma NoElements(indices: seq<int>)
    ensures Elements(indices) == {} <==> indices == []
  {
    if indices != [] {
      assert indices[0] in Elements(indices);
    }
  }

  /** A set of indices has one ascending arrangement. */
  lemma {:induction false} AscendingIsUnique(a: seq<int>, b: seq<int>)
    requires Ascending(a) && Ascending(b) && Elements(a) == Elements(b)
    ensures a == b
    decreases |a|
  {
    NoElements(a);
    NoElements(b);
    if a != [] && b != [] {
      assert a[0] in Elements(b) && b[0] in Elements(a);
      assert a[0] == b[0];
      assert Elements(a[1..]) == Elements(a) - {a[0]};
      assert Elements(b[1..]) == Elements(b) - {b[0]};
      AscendingIsUnique(a[1..], b[1..]);
      assert a == [a[0]] + a[1..] && b == [b[0]] + b[1..];
    }
  }

  predicate Distinct(indices: seq<int>) {
    forall i, j | 0 <= i < j < |indices| :: indices[i] != indices[j]
  }

  /** A set kept in the order its members came. */
  function Add(indices: seq<int>, x: int): (more: seq<int>)
    ensures Elements(more) == Elements(indices) + {x}
    ensures Distinct(indices) ==> Distinct(more)
  {
    if x in indices then indices else indices + [x]
  }

  function SortAscending(indices: seq<int>): seq<int> {
    if indices == [] then [] else Insert(indices[0], SortAscending(indices[1..]))
  }

  lemma {:induction false} SortingSorts(indices: seq<int>)
    requires Distinct(indices)
    ensures Ascending(SortAscending(indices)) && Elements(SortAscending(indices)) == Elements(indices)
    decreases |indices|
  {
    if indices != [] {
      SortingSorts(indices[1..]);
      var rest := SortAscending(indices[1..]);
      assert Elements(indices) == {indices[0]} + Elements(indices[1..]);
      forall x | x in indices[1..] ensures x != indices[0] {
        var k :| 0 <= k < |indices[1..]| && indices[1..][k] == x;
        assert indices[k + 1] == x;
      }
      assert forall x | x in rest :: x in Elements(rest);
      InsertKeepsAscending(indices[0], rest);
      InsertAddsElement(indices[0], rest);
    }
  }

  predicate EvenlySpread(indices: seq<int>, total: nat, size: nat)
    requires total > size >= 2
  {
    && |indices| == size
    && indices[0] == 0 && indices[size - 1] == total - 1
    && (forall i | 0 <= i < size :: indices[i] == Rounded(i, total, size))
    && (forall i | 0 < i < size ::
          && indices[i - 1] < indices[i]
          && Floor(total - 1, size - 1) <= indices[i] - indices[i - 1] <= Ceiling(total - 1, size - 1))
  }

  lemma SpreadOfRounded(total: nat, size: nat) returns (spread: seq<int>)
    requires total > size >= 2
    ensures EvenlySpread(spread, total, size)
    ensures Ascending(spread) && Elements(spread) == {0, total - 1} + Picked(size, total, size)
  {
    spread := seq(size, i requires 0 <= i < size => Rounded(i, total, size));
    RoundedEnds(total, size);
    forall i | 0 < i < size
      ensures spread[i - 1] < spread[i]
      ensures Floor(total - 1, size - 1) <= spread[i] - spread[i - 1] <= Ceiling(total - 1, size - 1)
    {
      StepIsFloorOrCeiling(i - 1, total, size);
    }
    forall i, j | 0 <= i < j < size ensures spread[i] < spread[j] {
      RoundedAscends(i, j, total, size);
    }
    ElementsAreRounded(spread, total, size);
  }

  lemma ElementsAreRounded(spread: seq<int>, total: nat, size: nat)
    requires total >= 1 && size >= 2 && |spread| == size
    requires forall i | 0 <= i < size :: spread[i] == Rounded(i, total, size)
    ensures Elements(spread) == {0, total - 1} + Picked(size, total, size)
  {
    RoundedEnds(total, size);
    forall x | x in Picked(size, total, size) ensures x in Elements(spread) {
      var i: nat :| i < size && x == Rounded(i, total, size);
      assert spread[i] == x;
    }
    assert spread[0] == 0 && spread[size - 1] == total - 1;
  }

  /** The picks, and whether "not a number" is among them. */
  datatype Sample = Sample(indices: seq<int>, hasNaN: bool)

  /** What a sample of two or more has picked after `i` rounds; one of none makes no
      rounds. */
  ghost function PickedSoFar(i: nat, total: nat, size: nat): set<int>
    requires total >= 1
  {
    {0, total - 1} + if size >= 2 then Picked(i, total, size) else {}
  }

  /** The indices sampled: exactly as many as asked for, from the first to the
      last, at the rounded multiples of the step, so that neighbours are a floor
      or a ceiling of the step apart. A range no longer than the sample is taken
      whole. Asked for none, both ends come back all the same; asked for one, the
      step divides by zero and the pick is not a number. */
  method SelectSample(total: nat, maxSample: nat) returns (sample: Sample)
    ensures total <= maxSample ==>
      |sample.indices| == total && forall i | 0 <= i < total :: sample.indices[i] == i
    ensures total > maxSample >= 2 ==> EvenlySpread(sample.indices, total, maxSample)
    ensures total > maxSample && maxSample < 2 ==> sample.indices == (if total == 1 then [0] else [0, total - 1])
    ensures sample.hasNaN <==> maxSample == 1 < total
  {
    if total <= maxSample {
      return Sample(seq(total, i => i), false);
    }
    var chosen, hasNaN := Add(Add([], 0), total - 1), false;
    for i := 0 to maxSample
      invariant Distinct(chosen) && Elements(chosen) == PickedSoFar(i, total, maxSample)
      invariant hasNaN <==> maxSample == 1 == i
    {
      if maxSample == 1 {
        hasNaN := true;
      } else {
        chosen := Add(chosen, Rounded(i, total, maxSample));
      }
    }
    SortingSorts(chosen);
    var indices := SortAscending(chosen);
    ghost var expected := Expected(total, maxSample);
    AscendingIsUnique(indices, expected);
    return Sample(indices, hasNaN);
  }

  lemma Expected(total: nat, size: nat) returns (expected: seq<int>)
    requires total > size
    ensures Ascending(expected) && Elements(expected) == PickedSoFar(size, total, size)
    ensures size >= 2 ==> EvenlySpread(expected, total, size)
    ensures size < 2 ==> expected == if total == 1 then [0] else [0, total - 1]
  {
    if size >= 2 {
      expected := SpreadOfRounded(total, size);
    } else {
      expected := if total == 1 then [0] else [0, total - 1];
      assert Elements(expected) == {0, total - 1};
    }
  }
}
