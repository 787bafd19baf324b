/** What is paid under the payout cap, recorded or not. A payout is counted only
    when its settlement was confirmed, the row was marked paid without a throw, and
    the store could be reached; otherwise the money moves and the counter does not. */
module PaidTotals {
  import opened Arithmetic
  import opened ClaimTypes
  import opened KeeperModel
  import opened PayoutBreaker

  /** A payout that landed, how the settlement came back, and what went wrong after
      it. */
  datatype Payment = Payment(payout: Payout, settle: Report, fault: Fault, storeReached: bool)

  predicate IsCounted(payment: Payment) {
    payment.settle.Confirmation? && payment.fault.NoFault? && payment.storeReached
  }

  function Counted(run: seq<Payment>): seq<Payout> {
    if run == [] then []
    else Counted(Init(run)) + if IsCounted(Last(run)) then [Last(run).payout] else []
  }

  /** One worker under one limit: each payout landed, and passed a check against the
      counter as it stood. */
  predicate Allowed(run: seq<Payment>, limit: int) {
    run == [] ||
    var before, last := Init(run), Last(run);
    && Allowed(before, limit)
    && !last.settle.NeverLanded?
    && last.payout.amount > 0 && last.payout.checkedAt <= last.payout.paidAt
    && (before != [] ==> Last(before).payout.paidAt <= last.payout.checkedAt)
    && Fits(After(Counted(before)), last.payout.checkedAt, limit, last.payout.amount)
  }

  function Paid(run: seq<Payment>): int {
    if run == [] then 0 else Paid(Init(run)) + Last(run).payout.amount
  }

  function Uncounted(run: seq<Payment>): int {
    if run == [] then 0
    else Uncounted(Init(run)) + if IsCounted(Last(run)) then 0 else Last(run).payout.amount
  }

  // ---------------------------------------------------------------------------
  // The recorded payouts are a run of their own
  // ---------------------------------------------------------------------------

  lemma {:induction false} CountedIsPermitted(run: seq<Payment>, limit: int)
    requires Allowed(run, limit)
    ensures Permitted(Counted(run), limit)
    ensures Counted(run) != [] ==> Last(Counted(run)).paidAt <= Last(run).payout.paidAt
    decreases |run|
  {
    if run != [] {
      CountedIsPermitted(Init(run), limit);
      if IsCounted(Last(run)) {
        assert Counted(run)[..|Counted(run)| - 1] == Counted(Init(run));
      } else {
        assert Counted(run) == Counted(Init(run));
      }
    }
  }

  lemma {:induction false} PrefixAllowed(run: seq<Payment>, limit: int, n: nat)
    requires Allowed(run, limit) && n <= |run|
    ensures Allowed(run[..n], limit)
    decreases |run|
  {
    if n == |run| {
      assert run[..n] == run;
    } else {
      PrefixAllowed(Init(run), limit, n);
      assert Init(run)[..n] == run[..n];
    }
  }

  lemma {:induction false} PaymentsAdvance(run: seq<Payment>, limit: int, i: nat, j: nat)
    requires Allowed(run, limit) && i <= j < |run|
    ensures run[i].payout.paidAt <= run[j].payout.paidAt && run[i].payout.amount > 0
    decreases |run|
  {
    if j < |run| - 1 {
      PaymentsAdvance(Init(run), limit, i, j);
    } else if i < j {
      PaymentsAdvance(Init(run), limit, i, j - 1);
    }
  }

  lemma {:induction false} CountedAppends(a: seq<Payment>, b: seq<Payment>)
    ensures Counted(a + b) == Counted(a) + Counted(b)
    decreases |b|
  {
    if b == [] {
      assert a + b == a;
    } else {
      CountedAppends(a, Init(b));
      assert Init(a + b) == a + Init(b);
    }
  }

  lemma CountedSplits(run: seq<Payment>, i: nat)
    requires i <= |run|
    ensures |Counted(run[..i])| <= |Counted(run)|
    ensures Counted(run[i..]) == Counted(run)[|Counted(run[..i])|..]
  {
    CountedAppends(run[..i], run[i..]);
    assert run == run[..i] + run[i..];
  }

  lemma {:induction false} CountedComeFrom(run: seq<Payment>, p: Payout)
    requires p in Counted(run)
    ensures exists k :: 0 <= k < |run| && IsCounted(run[k]) && run[k].payout == p
    decreases |run|
  {
    if IsCounted(Last(run)) && Last(run).payout == p {
      assert run[|run| - 1].payout == p;
    } else {
      CountedComeFrom(Init(run), p);
      var k :| 0 <= k < |Init(run)| && IsCounted(Init(run)[k]) && Init(run)[k].payout == p;
      assert run[k].payout == p;
    }
  }

  /** In any span one window long the recorded payouts total at most twice the limit,
      whatever else was paid between them. */
  lemma RecordedAtMostTwice(run: seq<Payment>, limit: int, i: nat, j: nat)
    requires Allowed(run, limit) && limit > 0 && i <= j < |run|
    requires run[j].payout.paidAt - run[i].payout.paidAt <= 3_600
    ensures Sum(Counted(run[i..j + 1])) <= 2 * limit
  {
    var upTo, span := run[..j + 1], run[i..j + 1];
    PrefixAllowed(run, limit, j + 1);
    CountedIsPermitted(upTo, limit);
    CountedSplits(upTo, i);
    assert upTo[i..] == span;
    if Counted(span) != [] {
      SpanTimes(run, limit, i, j, Counted(span)[0]);
      SpanTimes(run, limit, i, j, Last(Counted(span)));
      TailAtMostTwice(Counted(upTo), limit, |Counted(upTo[..i])|);
    }
  }

  lemma TailAtMostTwice(run: seq<Payout>, limit: int, from: nat)
    requires Permitted(run, limit) && limit > 0 && from < |run|
    requires Last(run[from..]).paidAt - run[from..][0].paidAt <= WINDOW
    ensures Sum(run[from..]) <= 2 * limit
  {
    AnyWindowPaysAtMostTwice(run, limit, from, |run| - 1);
    assert run[from..|run|] == run[from..];
  }

  lemma SpanTimes(run: seq<Payment>, limit: int, i: nat, j: nat, p: Payout)
    requires Allowed(run, limit) && i <= j < |run| && p in Counted(run[i..j + 1])
    ensures run[i].payout.paidAt <= p.paidAt <= run[j].payout.paidAt
  {
    CountedComeFrom(run[i..j + 1], p);
    var span := run[i..j + 1];
    var k :| 0 <= k < |span| && span[k].payout == p;
    assert span[k] == run[i + k];
    PaymentsAdvance(run, limit, i, i + k);
    PaymentsAdvance(run, limit, i + k, j);
  }

  // ---------------------------------------------------------------------------
  // When the cap holds of what is paid
  // ---------------------------------------------------------------------------

  lemma {:induction false} PaidIsCountedAndNot(run: seq<Payment>)
    ensures Paid(run) == Sum(Counted(run)) + Uncounted(run)
    decreases |run|
  {
    if run != [] {
      PaidIsCountedAndNot(Init(run));
      if IsCounted(Last(run)) {
        assert Counted(run)[..|Counted(run)| - 1] == Counted(Init(run));
      } else {
        assert Counted(run) == Counted(Init(run));
      }
    }
  }

  ghost predicate AllPositive(run: seq<Payment>) {
    forall k | 0 <= k < |run| :: run[k].payout.amount > 0
  }

  predicate AllCounted(run: seq<Payment>) {
    forall k | 0 <= k < |run| :: IsCounted(run[k])
  }

  lemma {:induction false} UncountedIsZeroIff(run: seq<Payment>)
    requires AllPositive(run)
    ensures Uncounted(run) >= 0 && Paid(run) >= 0
    ensures run != [] ==> Paid(run) > 0
    ensures Uncounted(run) == 0 <==> AllCounted(run)
    decreases |run|
  {
    if run != [] {
      UncountedIsZeroIff(Init(run));
      assert forall k | 0 <= k < |Init(run)| :: Init(run)[k] == run[k];
    }
  }

  lemma AllowedIsPositive(run: seq<Payment>, limit: int)
    requires Allowed(run, limit)
    ensures AllPositive(run)
  {
    forall k | 0 <= k < |run| ensures run[k].payout.amount > 0 {
      PaymentsAdvance(run, limit, k, k);
    }
  }

  /** Whatever the breaker would let through at `now` keeps `total` within the limit. */
  ghost predicate CapHolds(store: Store, now: int, limit: int, total: int) {
    forall amount | amount > 0 && Fits(store, now, limit, amount) :: total + amount <= limit
  }

  lemma CapHoldsIffCounterCovers(store: Store, now: int, limit: int, total: int)
    requires Spent(store, now) <= limit
    ensures CapHolds(store, now, limit, total) <==> Spent(store, now) == limit || total <= Spent(store, now)
  {
    var most := limit - Spent(store, now);
    assert most > 0 ==> Fits(store, now, limit, most);
  }

  /** Whatever the breaker would let through at `now` keeps everything paid from
      payment `i` on within the limit exactly when the counter is full, or the window
      it counts was opened no later than payment `i`, is still open, and since
      payment `i` no more went unrecorded than was recorded in the window before. */
  lemma RollingCapHoldsIff(run: seq<Payment>, limit: int, i: nat, now: int)
    requires Allowed(run, limit) && limit > 0 && i < |run| && Last(run).payout.paidAt <= now
    ensures
      var recorded, first := Counted(run), |Counted(run[..i])|;
      CapHolds(After(recorded), now, limit, Paid(run[i..])) <==>
        || Spent(After(recorded), now) == limit
        || (&& recorded != [] && Live(After(recorded), now) && Opening(recorded) <= first <= |recorded|
            && Uncounted(run[i..]) <= Sum(recorded[Opening(recorded)..first]))
  {
    var recorded, first := Counted(run), |Counted(run[..i])|;
    CountedIsPermitted(run, limit);
    CounterStaysUnderLimit(recorded, limit, now);
    CapHoldsIffCounterCovers(After(recorded), now, limit, Paid(run[i..]));
    TailTotals(run, limit, i);
    if recorded != [] && Live(After(recorded), now) {
      CoveredIff(recorded, limit, first, Uncounted(run[i..]));
    } else {
      assert Spent(After(recorded), now) == 0;
    }
  }

  /** What was paid from `i` on is what was recorded from there and what was not. */
  lemma TailTotals(run: seq<Payment>, limit: int, i: nat)
    requires Allowed(run, limit) && i < |run|
    ensures
      var recorded, first := Counted(run), |Counted(run[..i])|;
      && first <= |recorded|
      && Paid(run[i..]) == Sum(recorded[first..]) + Uncounted(run[i..])
      && Paid(run[i..]) > 0 && Uncounted(run[i..]) >= 0
      && (first == |recorded| ==> Uncounted(run[i..]) > 0)
  {
    CountedSplits(run, i);
    PaidIsCountedAndNot(run[i..]);
    TailIsPositive(run, limit, i);
  }

  lemma TailIsPositive(run: seq<Payment>, limit: int, i: nat)
    requires Allowed(run, limit) && i < |run|
    ensures Paid(run[i..]) > 0 && Uncounted(run[i..]) >= 0
    ensures Uncounted(run[i..]) == 0 <==> AllCounted(run[i..])
  {
    AllowedIsPositive(run, limit);
    UncountedIsZeroIff(run[i..]);
  }

  /** The counter covers what was recorded from `first` on and `more` besides exactly
      when the window holds as much from before. */
  lemma CoveredIff(recorded: seq<Payout>, limit: int, first: nat, more: int)
    requires Permitted(recorded, limit) && recorded != [] && first <= |recorded| && more >= 0
    requires first == |recorded| ==> more > 0
    ensures Sum(recorded[first..]) + more <= After(recorded).value.value
       <==> Opening(recorded) <= first && more <= Sum(recorded[Opening(recorded)..first])
  {
    var start := Opening(recorded);
    CounterIsWindowTotal(recorded, limit);
    AmountsPositive(recorded, limit);
    if start <= first {
      SumSplits(recorded[start..], first - start);
      assert recorded[start..][..first - start] == recorded[start..first];
      assert recorded[start..][first - start..] == recorded[first..];
    } else {
      SpanAgainstWindow(recorded, first, start);
    }
  }

  /** Over a span that begins with the payment that opened the window, the cap holds
      exactly when the counter is full, or the window is open and every payment since
      was recorded. */
  lemma CapHoldsFromOpeningIff(run: seq<Payment>, limit: int, i: nat, now: int)
    requires Allowed(run, limit) && limit > 0 && i < |run| && Last(run).payout.paidAt <= now
    requires Counted(run) != [] && Opening(Counted(run)) == |Counted(run[..i])|
    ensures CapHolds(After(Counted(run)), now, limit, Paid(run[i..])) <==>
      || Spent(After(Counted(run)), now) == limit
      || (Live(After(Counted(run)), now) && AllCounted(run[i..]))
  {
    var recorded, first := Counted(run), |Counted(run[..i])|;
    RollingCapHoldsIff(run, limit, i, now);
    assert recorded[Opening(recorded)..first] == [];
    TailIsPositive(run, limit, i);
  }

  // ---------------------------------------------------------------------------
  // What goes unrecorded has no bound
  // ---------------------------------------------------------------------------

  /** A settlement that landed and reported an error. */
  function Lost(now: int, amount: int): Payment {
    Payment(Payout(amount, now, now, true), LandedThenError("timeout"), NoFault, true)
  }

  /** A run followed by `n` of them. */
  function WithLosses(run: seq<Payment>, now: int, amount: int, n: nat): (longer: seq<Payment>)
    ensures |run| <= |longer| && longer[..|run|] == run
  {
    if n == 0 then run else WithLosses(run, now, amount, n - 1) + [Lost(now, amount)]
  }

  /** The run is allowed, and would be with one more payment of `amount`. */
  ghost predicate Admits(run: seq<Payment>, limit: int, now: int, amount: int) {
    && Allowed(run, limit) && amount > 0 && Fits(After(Counted(run)), now, limit, amount)
    && (run != [] ==> Last(run).payout.paidAt <= now)
  }

  lemma LossIsUncounted(run: seq<Payment>, now: int, amount: int)
    ensures
      var longer := run + [Lost(now, amount)];
      Init(longer) == run && Last(longer) == Lost(now, amount) && Counted(longer) == Counted(run)
      && Paid(longer) == Paid(run) + amount
  {
    assert Init(run + [Lost(now, amount)]) == run;
  }

  lemma OneLoss(run: seq<Payment>, limit: int, now: int, amount: int)
    requires Admits(run, limit, now, amount)
    ensures Admits(run + [Lost(now, amount)], limit, now, amount)
  {
    LossIsUncounted(run, now, amount);
  }

  /** An amount that fits once and is paid without being recorded fits again, as often
      as there are claims: the counter never moves. */
  lemma {:induction false} LossesAreAllowed(run: seq<Payment>, limit: int, now: int, amount: int, n: nat)
    requires Admits(run, limit, now, amount)
    ensures Admits(WithLosses(run, now, amount, n), limit, now, amount)
    decreases n
  {
    if n > 0 {
      LossesAreAllowed(run, limit, now, amount, n - 1);
      OneLoss(WithLosses(run, now, amount, n - 1), limit, now, amount);
    }
  }

  lemma {:induction false} LossesAddUp(run: seq<Payment>, now: int, amount: int, n: nat)
    ensures Paid(WithLosses(run, now, amount, n)) == Paid(run) + n * amount
    ensures Counted(WithLosses(run, now, amount, n)) == Counted(run)
    decreases n
  {
    if n > 0 {
      LossesAddUp(run, now, amount, n - 1);
      LossIsUncounted(WithLosses(run, now, amount, n - 1), now, amount);
      Distributes(n - 1, 1, amount);
    }
  }

  /** So what is paid passes any total: `n` such payments after any run that admits
      one leave the counter where it was. */
  lemma UnrecordedHasNoCap(run: seq<Payment>, limit: int, now: int, amount: int, n: nat)
    requires Admits(run, limit, now, amount)
    ensures
      var longer := WithLosses(run, now, amount, n);
      && Allowed(longer, limit) && Counted(longer) == Counted(run)
      && Paid(longer) == Paid(run) + n * amount >= Paid(run) + n
  {
    LossesAreAllowed(run, limit, now, amount, n);
    LossesAddUp(run, now, amount, n);
    MulMono(1, amount, n);
  }

  lemma LossesKeepStart(run: seq<Payment>, now: int, amount: int, n: nat)
    requires run != []
    ensures
      var longer := WithLosses(run, now, amount, n);
      longer != [] && longer[0] == run[0]
  {
    var longer := WithLosses(run, now, amount, n);
    assert longer[0] == longer[..|run|][0];
  }

  lemma FirstPayment(first: Payment)
    ensures Counted([first]) == if IsCounted(first) then [first.payout] else []
    ensures Paid([first]) == first.payout.amount
    ensures Init([first]) == [] && Last([first]) == first
  {
    assert Counted([]) == [] && Paid([]) == 0;
  }

  /** The store starts empty, so a first payment within the limit is let through. */
  lemma FirstIsAllowed(first: Payment, limit: int)
    requires 0 < first.payout.amount <= limit && first.payout.checkedAt <= first.payout.paidAt
    requires !first.settle.NeverLanded?
    ensures Allowed([first], limit)
  {
    var run := [first];
    FirstPayment(first);
    assert Init(run) == [] && Last(run) == first;
    assert Allowed(Init(run), limit) && Counted(Init(run)) == [];
    assert Fits(After([]), first.payout.checkedAt, limit, first.payout.amount);
  }

  lemma FirstCounter(payout: Payout)
    requires payout == Payout(1, 0, 0, true)
    ensures After([payout]) == Some(Counter(1, Some(WINDOW)))
  {
    assert [payout][..0] == [] && After([]) == None;
  }

  /** Under a limit of ten a recorded payout of one opens the window; payouts of nine
      then land with a reported error, and any number of them pass within it. */
  lemma NinesPassWithoutEnd(n: nat) returns (run: seq<Payment>)
    ensures Allowed(run, 10) && Paid(run) == 1 + 9 * n
    ensures run != [] && Last(run).payout.paidAt - run[0].payout.paidAt <= WINDOW
  {
    var first := Payment(Payout(1, 0, 0, true), Confirmation, NoFault, true);
    FirstPayment(first);
    FirstCounter(first.payout);
    FirstIsAllowed(first, 10);
    LossesAreAllowed([first], 10, 0, 9, n);
    LossesAddUp([first], 0, 9, n);
    run := WithLosses([first], 0, 9, n);
    LossesKeepStart([first], 0, 9, n);
  }
}
