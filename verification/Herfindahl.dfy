/** The normalised Herfindahl index of a list of amounts: how concentrated they
    are, from an even spread to a single holder. */
module Herfindahl {
  import opened Arithmetic

  function Sum(amounts: seq<real>): real {
    if amounts == [] then 0.0 else Sum(Init(amounts)) + Last(amounts)
  }

  function Square(x: real): (square: real)
    ensures square >= 0.0 && (square == 0.0 <==> x == 0.0)
  {
    ProductOfNonNegative(if x >= 0.0 then x else -x, if x >= 0.0 then x else -x);
    assert (-x) * (-x) == x * x;
    x * x
  }

  function Squares(amounts: seq<real>): real {
    if amounts == [] then 0.0 else Squares(Init(amounts)) + Square(Last(amounts))
  }

  function Clamp(x: real): real {
    if x < 0.0 then 0.0 else if x > 1.0 then 1.0 else x
  }

  /** How far the amounts are from equal: the sum of squared differences over all
      pairs, in closed form. */
  function Spread(amounts: seq<real>): real {
    Excess(|amounts| as real, Squares(amounts), Square(Sum(amounts)))
  }

  function Excess(n: real, squares: real, square: real): real {
    n * squares - square
  }

  function Ratio(n: real, squares: real, square: real): real
    requires n > 1.0 && square > 0.0
  {
    ProductOfNonNegative(n - 1.0, square);
    Excess(n, squares, square) / ((n - 1.0) * square)
  }

  /** The index before clamping. */
  function Unclamped(amounts: seq<real>): real
    requires |amounts| >= 2 && Sum(amounts) != 0.0
  {
    Ratio(|amounts| as real, Squares(amounts), Square(Sum(amounts)))
  }

  function Index(amounts: seq<real>): real {
    if |amounts| == 0 then 0.0
    else if |amounts| == 1 then 1.0
    else if Sum(amounts) == 0.0 then 0.0
    else Clamp(Unclamped(amounts))
  }

  // ---------------------------------------------------------------------------
  // The loops
  // ---------------------------------------------------------------------------

  method NormalizedHHI(amounts: seq<real>) returns (index: real)
    ensures index == Index(amounts)
  {
    if |amounts| <= 1 {
      return if |amounts| == 1 then 1.0 else 0.0;
    }
    var total := 0.0;
    for i := 0 to |amounts|
      invariant total == Sum(amounts[..i])
    {
      assert Init(amounts[..i + 1]) == amounts[..i];
      total := total + amounts[i];
    }
    assert amounts[..|amounts|] == amounts;
    if total == 0.0 {
      return 0.0;
    }
    index := NormalizeShares(amounts, total);
  }

  method NormalizeShares(amounts: seq<real>, total: real) returns (index: real)
    requires |amounts| >= 2 && total == Sum(amounts) != 0.0
    ensures index == Clamp(Unclamped(amounts))
  {
    var hhi := 0.0;
    for i := 0 to |amounts|
      invariant hhi * Square(total) == Squares(amounts[..i])
    {
      assert Init(amounts[..i + 1]) == amounts[..i];
      var share := amounts[i] / total;
      ShareSquared(amounts[i], total, hhi);
      hhi := hhi + share * share;
    }
    assert amounts[..|amounts|] == amounts;
    var n := |amounts| as real;
    Normalising(n, hhi, Square(total), Squares(amounts));
    var minHHI := 1.0 / n;
    var room := 1.0 - minHHI;
    index := Clamp((hhi - minHHI) / (if room == 0.0 then 1.0 else room));
  }

  lemma ShareSquared(a: real, total: real, hhi: real)
    requires total != 0.0
    ensures (hhi + (a / total) * (a / total)) * Square(total) == hhi * Square(total) + Square(a)
  {
    var share := a / total;
    assert share * total == a;
    assert (share * share) * (total * total) == (share * total) * (share * total);
  }

  /** Sharing out before normalising, or after, comes to the same. */
  lemma Normalising(n: real, hhi: real, square: real, squares: real)
    requires n > 1.0 && square > 0.0 && hhi * square == squares
    ensures 1.0 / n < 1.0
    ensures (hhi - 1.0 / n) / (1.0 - 1.0 / n) == Ratio(n, squares, square)
  {
    var least := 1.0 / n;
    assert least * n == 1.0;
    assert least < 1.0 by {
      assert least >= 1.0 ==> least * n >= n;
    }
    var index := (hhi - least) / (1.0 - least);
    assert index * (1.0 - least) == hhi - least;
    assert index * (1.0 - least) * n == index * (n - least * n);
    assert (hhi - least) * n == hhi * n - 1.0;
    assert index * (n - 1.0) == n * hhi - 1.0;
    assert index * (n - 1.0) * square == n * (hhi * square) - square;
    assert index * ((n - 1.0) * square) == n * squares - square;
    assert (n - 1.0) * square != 0.0;
  }

  // ---------------------------------------------------------------------------
  // What the index measures
  // ---------------------------------------------------------------------------

  predicate NonNegative(amounts: seq<real>) {
    forall k | 0 <= k < |amounts| :: amounts[k] >= 0.0
  }

  predicate AllEqual(amounts: seq<real>) {
    forall j, k | 0 <= j < k < |amounts| :: amounts[j] == amounts[k]
  }

  predicate AtMostOneNonZero(amounts: seq<real>) {
    forall j, k | 0 <= j < k < |amounts| :: amounts[j] == 0.0 || amounts[k] == 0.0
  }

  /** The squared differences between the amounts and `x`, summed. */
  function Distance(amounts: seq<real>, x: real): real {
    if amounts == [] then 0.0 else Distance(Init(amounts), x) + Square(Last(amounts) - x)
  }

  lemma {:induction false} DistanceIsZeroIffAll(amounts: seq<real>, x: real)
    ensures Distance(amounts, x) >= 0.0
    ensures Distance(amounts, x) == 0.0 <==> forall k | 0 <= k < |amounts| :: amounts[k] == x
    decreases |amounts|
  {
    if amounts != [] {
      DistanceIsZeroIffAll(Init(amounts), x);
      assert forall k | 0 <= k < |Init(amounts)| :: Init(amounts)[k] == amounts[k];
    }
  }

  /** The same distance, from the count, the sum and the squares. */
  function Closed(n: real, squares: real, sum: real, x: real): real {
    squares - 2.0 * (x * sum) + n * Square(x)
  }

  lemma ClosedStep(n: real, squares: real, sum: real, x: real, last: real)
    ensures Closed(n + 1.0, squares + Square(last), sum + last, x)
         == Closed(n, squares, sum, x) + Square(last - x)
  {
    assert x * (sum + last) == x * sum + x * last;
    assert (n + 1.0) * Square(x) == n * Square(x) + Square(x);
    assert (last - x) * (last - x) == last * last - 2.0 * (x * last) + x * x;
  }

  lemma {:induction false} DistanceInClosedForm(amounts: seq<real>, x: real)
    ensures Distance(amounts, x) == Closed(|amounts| as real, Squares(amounts), Sum(amounts), x)
    decreases |amounts|
  {
    if amounts != [] {
      var init := Init(amounts);
      DistanceInClosedForm(init, x);
      ClosedStep(|init| as real, Squares(init), Sum(init), x, Last(amounts));
      assert |init| as real + 1.0 == |amounts| as real;
    }
  }

  lemma SquareOfSum(sum: real, last: real, total: real)
    requires total == sum + last
    ensures Square(total) == Square(sum) + 2.0 * (last * sum) + Square(last)
  {
    assert (sum + last) * (sum + last) == sum * sum + 2.0 * (last * sum) + last * last;
  }

  lemma SpreadStep(
    n: real, squares: real, sum: real, x: real, n': real, squares': real, sum': real)
    requires n' == n + 1.0 && squares' == squares + Square(x) && sum' == sum + x
    ensures Excess(n', squares', Square(sum')) == Excess(n, squares, Square(sum)) + Closed(n, squares, sum, x)
  {
    assert (n + 1.0) * (squares + Square(x)) == n * squares + n * Square(x) + squares + Square(x);
    SquareOfSum(sum, x, sum');
  }

  lemma SpreadGrows(amounts: seq<real>)
    requires amounts != []
    ensures Spread(amounts) == Spread(Init(amounts)) + Distance(Init(amounts), Last(amounts))
  {
    var init := Init(amounts);
    DistanceInClosedForm(init, Last(amounts));
    SpreadStep(|init| as real, Squares(init), Sum(init), Last(amounts),
               |amounts| as real, Squares(amounts), Sum(amounts));
  }

  lemma {:induction false} SpreadIsZeroIffEqual(amounts: seq<real>)
    ensures Spread(amounts) >= 0.0
    ensures Spread(amounts) == 0.0 <==> AllEqual(amounts)
    decreases |amounts|
  {
    if amounts != [] {
      SpreadIsZeroIffEqual(Init(amounts));
      SpreadGrows(amounts);
      DistanceIsZeroIffAll(Init(amounts), Last(amounts));
    }
  }

  lemma {:induction false} SumOfNonNegative(amounts: seq<real>)
    requires NonNegative(amounts)
    ensures Sum(amounts) >= 0.0
    ensures Sum(amounts) == 0.0 <==> forall k | 0 <= k < |amounts| :: amounts[k] == 0.0
    decreases |amounts|
  {
    if amounts != [] {
      SumOfNonNegative(Init(amounts));
      assert forall k | 0 <= k < |Init(amounts)| :: Init(amounts)[k] == amounts[k];
    }
  }

  lemma {:induction false} SquaresReachSquareIffSingle(amounts: seq<real>)
    requires NonNegative(amounts)
    ensures Squares(amounts) <= Square(Sum(amounts))
    ensures Squares(amounts) == Square(Sum(amounts)) <==> AtMostOneNonZero(amounts)
    decreases |amounts|
  {
    if amounts != [] {
      var init, x := Init(amounts), Last(amounts);
      SquaresReachSquareIffSingle(init);
      SumOfNonNegative(init);
      SquareOfSum(Sum(init), x, Sum(amounts));
      ProductOfNonNegative(x, Sum(init));
      assert forall k | 0 <= k < |init| :: init[k] == amounts[k];
    }
  }

  lemma ProductOfNonNegative(a: real, b: real)
    requires a >= 0.0 && b >= 0.0
    ensures a * b >= 0.0 && (a * b == 0.0 <==> a == 0.0 || b == 0.0)
  {
  }

  /** Before any clamping the index of non-negative amounts lies between zero and
      one; it is zero exactly for an even split, and one exactly when a single
      amount holds everything. */
  lemma IndexMeasuresConcentration(amounts: seq<real>)
    requires NonNegative(amounts) && |amounts| >= 2 && Sum(amounts) > 0.0
    ensures 0.0 <= Unclamped(amounts) <= 1.0
    ensures Index(amounts) == Unclamped(amounts)
    ensures Index(amounts) == 0.0 <==> AllEqual(amounts)
    ensures Index(amounts) == 1.0 <==> AtMostOneNonZero(amounts)
  {
    SpreadIsZeroIffEqual(amounts);
    SquaresReachSquareIffSingle(amounts);
    var n, q, square := |amounts| as real, Squares(amounts), Square(Sum(amounts));
    RatioBounds(n, q, square);
  }

  /** Whatever the amounts, negative ones included, the index is a share of one: the
      unclamped index, cut off at either end. */
  lemma IndexIsAShare(amounts: seq<real>)
    ensures 0.0 <= Index(amounts) <= 1.0
    ensures |amounts| >= 2 && Sum(amounts) != 0.0 ==>
      && (0.0 <= Unclamped(amounts) <= 1.0 ==> Index(amounts) == Unclamped(amounts))
      && (Unclamped(amounts) < 0.0 ==> Index(amounts) == 0.0)
      && (Unclamped(amounts) > 1.0 ==> Index(amounts) == 1.0)
    ensures |amounts| == 1 ==> Index(amounts) == 1.0
    ensures |amounts| == 0 || (|amounts| >= 2 && Sum(amounts) == 0.0) ==> Index(amounts) == 0.0
  {
  }

  lemma RatioBounds(n: real, squares: real, square: real)
    requires n >= 2.0 && square > 0.0 && squares <= square && Excess(n, squares, square) >= 0.0
    ensures
      var index := Ratio(n, squares, square);
      && 0.0 <= index <= 1.0
      && (index == 0.0 <==> Excess(n, squares, square) == 0.0)
      && (index == 1.0 <==> squares == square)
  {
    ProductOfNonNegative(n - 1.0, square);
    ProductOfNonNegative(n, square - squares);
    assert (n - 1.0) * square - (n * squares - square) == n * (square - squares);
    DividingBounds(n * squares - square, (n - 1.0) * square);
  }

  lemma DividingBounds(a: real, b: real)
    requires b > 0.0 && 0.0 <= a <= b
    ensures 0.0 <= a / b <= 1.0
    ensures a / b == 0.0 <==> a == 0.0
    ensures a / b == 1.0 <==> a == b
  {
    var ratio := a / b;
    assert ratio * b == a;
    assert ratio < 0.0 ==> ratio * b < 0.0;
    assert ratio > 1.0 ==> ratio * b > b;
  }

  function Scaled(amounts: seq<real>, factor: real): (scaled: seq<real>)
    ensures |scaled| == |amounts|
  {
    seq(|amounts|, k requires 0 <= k < |amounts| => factor * amounts[k])
  }

  lemma {:induction false} ScalingSums(amounts: seq<real>, factor: real)
    ensures Sum(Scaled(amounts, factor)) == Times(factor, Sum(amounts))
    ensures Squares(Scaled(amounts, factor)) == Times(Square(factor), Squares(amounts))
    decreases |amounts|
  {
    if amounts != [] {
      var init, last := Init(amounts), Last(amounts);
      ScalingSums(init, factor);
      forall k | 0 <= k < |init| ensures Scaled(init, factor)[k] == Scaled(amounts, factor)[k] {
        assert init[k] == amounts[k];
      }
      assert Init(Scaled(amounts, factor)) == Scaled(init, factor);
      SquareOfProduct(factor, last);
      TimesAdds(factor, Sum(init), last, Sum(amounts));
      TimesAdds(Square(factor), Squares(init), Square(last), Squares(amounts));
    }
  }

  lemma SquareOfProduct(a: real, b: real)
    ensures Square(Times(a, b)) == Times(Square(a), Square(b))
  {
    assert (a * b) * (a * b) == (a * a) * (b * b);
  }

  /** Counting in other units changes nothing. */
  lemma IndexIgnoresScale(amounts: seq<real>, factor: real)
    requires factor > 0.0
    ensures Index(Scaled(amounts, factor)) == Index(amounts)
  {
    ScalingSums(amounts, factor);
    ProductNonZero(factor, Sum(amounts));
    if |amounts| >= 2 && Sum(amounts) != 0.0 {
      SquareOfProduct(factor, Sum(amounts));
      RatioIgnoresScale(
        |amounts| as real, Squares(amounts), Square(Sum(amounts)), Square(factor),
        Squares(Scaled(amounts, factor)), Square(Sum(Scaled(amounts, factor))));
    }
  }

  lemma RatioIgnoresScale(n: real, squares: real, square: real, c: real, squares': real, square': real)
    requires n > 1.0 && square > 0.0 && c > 0.0 && squares' == Times(c, squares) && square' == Times(c, square)
    ensures square' > 0.0 && Ratio(n, squares', square') == Ratio(n, squares, square)
  {
    ProductOfNonNegative(c, square);
    ProductOfNonNegative(n - 1.0, square);
    assert n * (c * squares) - c * square == c * (n * squares - square);
    assert (n - 1.0) * (c * square) == c * ((n - 1.0) * square);
    RatioCancels(c, n * squares - square, (n - 1.0) * square);
  }

  lemma ProductNonZero(a: real, b: real)
    ensures a * b == 0.0 <==> a == 0.0 || b == 0.0
  {
  }

  lemma RatioCancels(c: real, a: real, b: real)
    requires c != 0.0 && b != 0.0
    ensures c * b != 0.0 && (c * a) / (c * b) == a / b
  {
    var ratio := a / b;
    assert ratio * b == a;
    assert ratio * (c * b) == c * a;
  }
}
