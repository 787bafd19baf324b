/** Dictionary order, the comparator that decides it for keys of bytes, and the
    one sorted arrangement any list of keys has. */
module Lexicographic {

  type Byte = x: int | 0 <= x < 256
  type Bytes = seq<Byte>

  /** `a` is at most `b`: the first differing byte decides, a prefix comes first. */
  predicate AtMost(a: seq<int>, b: seq<int>) {
    if a == [] then true
    else if b == [] then false
    else if a[0] != b[0] then a[0] < b[0]
    else AtMost(a[1..], b[1..])
  }

  lemma {:induction false} AtMostIsTotal(a: seq<int>, b: seq<int>)
    ensures AtMost(a, b) || AtMost(b, a)
    decreases |a|
  {
    if a != [] && b != [] && a[0] == b[0] {
      AtMostIsTotal(a[1..], b[1..]);
    }
  }

  lemma {:induction false} AtMostIsAntisymmetric(a: seq<int>, b: seq<int>)
    requires AtMost(a, b) && AtMost(b, a)
    ensures a == b
    decreases |a|
  {
    if a != [] && b != [] {
      AtMostIsAntisymmetric(a[1..], b[1..]);
      assert a == [a[0]] + a[1..] && b == [b[0]] + b[1..];
    }
  }

  lemma {:induction false} AtMostIsTransitive(a: seq<int>, b: seq<int>, c: seq<int>)
    requires AtMost(a, b) && AtMost(b, c)
    ensures AtMost(a, c)
    decreases |a|
  {
    if a != [] && b != [] && c != [] && a[0] == b[0] && b[0] == c[0] {
      AtMostIsTransitive(a[1..], b[1..], c[1..]);
    }
  }

  lemma {:induction false} CommonPrefixDrops(a: Bytes, b: Bytes, n: nat)
    requires n <= |a| && n <= |b| && a[..n] == b[..n]
    ensures AtMost(a, b) == AtMost(a[n..], b[n..])
    decreases n
  {
    if n == 0 {
      assert a[0..] == a && b[0..] == b;
    } else {
      assert a[0] == a[..n][0] == b[..n][0] == b[0];
      assert a[1..][..n - 1] == a[..n][1..] == b[..n][1..] == b[1..][..n - 1];
      CommonPrefixDrops(a[1..], b[1..], n - 1);
      assert a[1..][n - 1..] == a[n..] && b[1..][n - 1..] == b[n..];
    }
  }

  /** The comparator the sort is given: the difference at the first byte that
      differs, else the difference in length. */
  method CompareKeys(a: Bytes, b: Bytes) returns (sign: int)
    ensures sign <= 0 <==> AtMost(a, b)
    ensures sign == 0 <==> a == b
  {
    var shorter := if |a| < |b| then |a| else |b|;
    for i := 0 to shorter
      invariant a[..i] == b[..i]
    {
      if a[i] != b[i] {
        CommonPrefixDrops(a, b, i);
        var left: int, right: int := a[i], b[i];
        return left - right;
      }
    }
    CommonPrefixDrops(a, b, shorter);
    assert |a| == |b| ==> a == a[..shorter] && b == b[..shorter];
    return |a| - |b|;
  }

  predicate Sorted(keys: seq<Bytes>) {
    forall i, j | 0 <= i < j < |keys| :: AtMost(keys[i], keys[j])
  }

  function Insert(key: Bytes, keys: seq<Bytes>): seq<Bytes> {
    if keys == [] then [key]
    else if AtMost(key, keys[0]) then [key] + keys
    else [keys[0]] + Insert(key, keys[1..])
  }

  /** The keys in bytewise order. */
  function SortedKeys(keys: seq<Bytes>): seq<Bytes> {
    if keys == [] then [] else Insert(keys[0], SortedKeys(keys[1..]))
  }

  lemma {:induction false} InsertKeepsOrder(key: Bytes, keys: seq<Bytes>)
    requires Sorted(keys)
    ensures Sorted(Insert(key, keys))
    ensures multiset(Insert(key, keys)) == multiset(keys) + multiset{key}
    decreases |keys|
  {
    if keys != [] {
      assert keys == [keys[0]] + keys[1..];
      if AtMost(key, keys[0]) {
        forall j | 0 <= j < |keys| ensures AtMost(key, keys[j]) {
          if j > 0 {
            AtMostIsTransitive(key, keys[0], keys[j]);
          }
        }
      } else {
        AtMostIsTotal(key, keys[0]);
        InsertKeepsOrder(key, keys[1..]);
        var rest := Insert(key, keys[1..]);
        forall j | 0 <= j < |rest| ensures AtMost(keys[0], rest[j]) {
          assert rest[j] in multiset(rest);
          assert rest[j] in multiset(keys[1..]) || rest[j] == key;
        }
      }
    }
  }

  lemma {:induction false} SortingSorts(keys: seq<Bytes>)
    ensures Sorted(SortedKeys(keys))
    ensures multiset(SortedKeys(keys)) == multiset(keys)
    ensures |SortedKeys(keys)| == |keys|
    decreases |keys|
  {
    if keys != [] {
      SortingSorts(keys[1..]);
      InsertKeepsOrder(keys[0], SortedKeys(keys[1..]));
      assert keys == [keys[0]] + keys[1..];
    }
    assert |multiset(SortedKeys(keys))| == |multiset(keys)|;
  }

  /** The first key of a sorted list is below every key it holds. */
  lemma HeadIsLeast(a: seq<Bytes>, key: Bytes)
    requires Sorted(a) && key in a
    ensures AtMost(a[0], key)
  {
    var i :| 0 <= i < |a| && a[i] == key;
    AtMostIsTotal(a[0], a[0]);
  }

  /** Two sorted arrangements of the same keys are the same list. */
  lemma {:induction false} SortedIsUnique(a: seq<Bytes>, b: seq<Bytes>)
    requires Sorted(a) && Sorted(b) && multiset(a) == multiset(b)
    ensures a == b
    decreases |a|
  {
    assert |multiset(a)| == |a| && |multiset(b)| == |b|;
    if a != [] {
      assert a[0] in multiset(b) && b[0] in multiset(a);
      HeadIsLeast(a, b[0]);
      HeadIsLeast(b, a[0]);
      AtMostIsAntisymmetric(a[0], b[0]);
      TailMultiset(a);
      TailMultiset(b);
      SortedIsUnique(a[1..], b[1..]);
      assert a == [a[0]] + a[1..] && b == [b[0]] + b[1..];
    }
  }

  lemma TailMultiset(a: seq<Bytes>)
    requires a != []
    ensures multiset(a[1..]) == multiset(a) - multiset{a[0]}
  {
    assert a == [a[0]] + a[1..];
  }

  /** Sorting forgets order and nothing else. */
  lemma SortForgetsOrder(a: seq<Bytes>, b: seq<Bytes>)
    ensures SortedKeys(a) == SortedKeys(b) <==> multiset(a) == multiset(b)
  {
    SortingSorts(a);
    SortingSorts(b);
    if multiset(a) == multiset(b) {
      SortedIsUnique(SortedKeys(a), SortedKeys(b));
    }
  }

  lemma SortedStaysPut(keys: seq<Bytes>)
    requires Sorted(keys)
    ensures SortedKeys(keys) == keys
  {
    SortingSorts(keys);
    SortedIsUnique(SortedKeys(keys), keys);
  }
}
