/** The cap on automatic payouts: a counter in a shared store that is read before
    a payout, added to after it, and expires one window after it was opened. */
module PayoutBreaker {
  import opened ClaimTypes
  import opened Arithmetic

  /** One window, in seconds. */
  const WINDOW := 3_600

  datatype Counter = Counter(value: int, expiresAt: Option<int>)
  type Store = Option<Counter>

  predicate Live(store: Store, now: int) {
    store.Some? && (store.value.expiresAt.Some? ==> now < store.value.expiresAt.value)
  }

  function Spent(store: Store, now: int): int {
    if Live(store, now) then store.value.value else 0
  }

  /** What an increment leaves behind; the expiry is set only by the increment
      that opens the window, and is lost if the store is cut off before it. */
  function Recorded(store: Store, now: int, amount: int, reachesExpiry: bool): Store {
    var total := Spent(store, now) + amount;
    var kept := if Live(store, now) then store.value.expiresAt else None;
    Some(Counter(total, if total == amount && reachesExpiry then Some(now + WINDOW) else kept))
  }

  predicate Fits(store: Store, now: int, limit: int, amount: int) {
    Spent(store, now) + amount <= limit
  }

  class Breaker {
    var store: Store

    constructor ()
      ensures store == None
    {
      store := None;
    }

    /** No limit, a limit of zero or below, or a store out of reach lets every
        payout through. */
    method CheckCircuitBreaker(now: int, limit: Option<int>, reachable: bool, amount: int) returns (ok: bool)
      ensures ok <==> limit == None || limit.value <= 0 || !reachable || Fits(store, now, limit.value, amount)
    {
      if limit == None || limit.value <= 0 || !reachable {
        return true;
      }
      var spent := if Live(store, now) then store.value.value else 0;
      var projected := spent + amount;
      return !(projected > limit.value);
    }

    method RecordAutoPayout(now: int, amount: int, reachable: bool, reachesExpiry: bool)
      modifies this
      ensures store == if reachable then Recorded(old(store), now, amount, reachesExpiry) else old(store)
    {
      if !reachable {
        return;
      }
      if !Live(store, now) {
        store := Some(Counter(0, None));
      }
      store := Some(store.value.(value := store.value.value + amount));
      var total := store.value.value;
      if total == amount && reachesExpiry {
        store := Some(store.value.(expiresAt := Some(now + WINDOW)));
      }
    }
  }

  // ---------------------------------------------------------------------------
  // Runs of one payout worker
  // ---------------------------------------------------------------------------

  /** A payout that was checked, made and, at once, recorded. */
  datatype Payout = Payout(amount: int, checkedAt: int, paidAt: int, reachesExpiry: bool)

  function After(run: seq<Payout>): Store {
    if run == [] then None
    else Recorded(After(run[..|run| - 1]), Last(run).paidAt, Last(run).amount, Last(run).reachesExpiry)
  }

  /** One worker under one limit, its clock never going back: each payout was
      checked after the last was recorded, passed, and was recorded later. */
  predicate Permitted(run: seq<Payout>, limit: int) {
    run == [] ||
    var before := run[..|run| - 1];
    && Permitted(before, limit)
    && Last(run).amount > 0 && Last(run).checkedAt <= Last(run).paidAt
    && (before != [] ==> Last(before).paidAt <= Last(run).checkedAt)
    && Fits(After(before), Last(run).checkedAt, limit, Last(run).amount)
  }

  function Sum(run: seq<Payout>): int {
    if run == [] then 0 else Sum(run[..|run| - 1]) + Last(run).amount
  }

  /** Where the window the last payout counts against was opened. */
  function Opening(run: seq<Payout>): (start: nat)
    requires run != []
    ensures start < |run|
  {
    var before := run[..|run| - 1];
    if before != [] && Live(After(before), Last(run).paidAt) then Opening(before) else |run| - 1
  }

  lemma {:induction false} PrefixPermitted(run: seq<Payout>, limit: int, n: nat)
    requires Permitted(run, limit) && n <= |run|
    ensures Permitted(run[..n], limit)
    decreases |run|
  {
    if n == |run| {
      assert run[..n] == run;
    } else {
      PrefixPermitted(run[..|run| - 1], limit, n);
      assert run[..|run| - 1][..n] == run[..n];
    }
  }

  lemma {:induction false} ClockAdvances(run: seq<Payout>, limit: int, i: nat, j: nat)
    requires Permitted(run, limit) && i <= j < |run|
    ensures run[i].paidAt <= run[j].paidAt
    decreases |run|
  {
    var before := run[..|run| - 1];
    if j < |run| - 1 {
      ClockAdvances(before, limit, i, j);
    } else if i < j {
      ClockAdvances(before, limit, i, j - 1);
    }
  }

  /** The counter holds what was recorded since its window was opened, never
      above the limit, and its expiry is one window after the opening. */
  lemma {:induction false} CounterIsWindowTotal(run: seq<Payout>, limit: int)
    requires Permitted(run, limit) && run != []
    ensures After(run).Some? && 0 < After(run).value.value <= limit
    ensures After(run).value.value == Sum(run[Opening(run)..])
    ensures After(run).value.expiresAt
         == if run[Opening(run)].reachesExpiry then Some(run[Opening(run)].paidAt + WINDOW) else None
    ensures Live(After(run), Last(run).paidAt)
    decreases |run|
  {
    var before, start := run[..|run| - 1], Opening(run);
    assert run[start..][..|run| - 1 - start] == before[start..];
    if before != [] {
      CounterIsWindowTotal(before, limit);
    }
  }

  /** The counter never exceeds the limit, whenever the key expires. */
  lemma CounterStaysUnderLimit(run: seq<Payout>, limit: int, now: int)
    requires Permitted(run, limit) && limit > 0
    ensures 0 <= Spent(After(run), now) <= limit
  {
    if run != [] {
      CounterIsWindowTotal(run, limit);
    }
  }

  lemma {:induction false} SumSplits(run: seq<Payout>, n: nat)
    requires n <= |run|
    ensures Sum(run) == Sum(run[..n]) + Sum(run[n..])
    decreases |run|
  {
    if n == |run| {
      assert run[..n] == run;
    } else {
      SumSplits(run[..|run| - 1], n);
      assert run[..|run| - 1][..n] == run[..n];
      assert run[..|run| - 1][n..] == run[n..][..|run| - 1 - n];
    }
  }

  lemma {:induction false} SumIsPositive(run: seq<Payout>)
    requires forall p | p in run :: p.amount > 0
    ensures Sum(run) >= 0
    decreases |run|
  {
    if run != [] {
      SumIsPositive(run[..|run| - 1]);
    }
  }

  lemma {:induction false} AmountsPositive(run: seq<Payout>, limit: int)
    requires Permitted(run, limit)
    ensures forall p | p in run :: p.amount > 0
    decreases |run|
  {
    if run != [] {
      AmountsPositive(run[..|run| - 1], limit);
      assert run == run[..|run| - 1] + [Last(run)];
    }
  }

  /** From the opening of the current window on, or any later point, no more
      than the limit was recorded. */
  lemma SinceOpening(run: seq<Payout>, limit: int, i: nat)
    requires Permitted(run, limit) && run != [] && Opening(run) <= i <= |run|
    ensures Sum(run[i..]) <= limit
  {
    var start := Opening(run);
    CounterIsWindowTotal(run, limit);
    AmountsPositive(run, limit);
    SumSplits(run[start..], i - start);
    SumIsPositive(run[start..][..i - start]);
    assert run[start..][i - start..] == run[i..];
  }

  /** An opening that is not the first payout waited for the window before it to
      run out. */
  lemma {:induction false} OpeningIsFresh(run: seq<Payout>, limit: int)
    requires Permitted(run, limit) && run != [] && Opening(run) > 0
    ensures !Live(After(run[..Opening(run)]), run[Opening(run)].paidAt)
    decreases |run|
  {
    var before := run[..|run| - 1];
    if before != [] && Live(After(before), Last(run).paidAt) {
      OpeningIsFresh(before, limit);
      assert before[..Opening(before)] == run[..Opening(run)];
    }
  }

  /** A window opened at the end of `run[..s]` starts a full window after the one
      before it, and strictly after every earlier payout. */
  lemma WindowsAreApart(run: seq<Payout>, limit: int)
    requires Permitted(run, limit) && run != [] && Opening(run) > 0
    ensures
      var s := Opening(run);
      && run[s - 1].paidAt < run[s].paidAt
      && run[Opening(run[..s])].paidAt + WINDOW <= run[s].paidAt
  {
    var s := Opening(run);
    PrefixPermitted(run, limit, s);
    CounterIsWindowTotal(run[..s], limit);
    OpeningIsFresh(run, limit);
  }

  /** In any span one window long, both ends counted, the payouts recorded total
      at most twice the limit. */
  lemma AnyWindowPaysAtMostTwice(run: seq<Payout>, limit: int, i: nat, j: nat)
    requires Permitted(run, limit) && limit > 0 && i <= j < |run|
    requires run[j].paidAt - run[i].paidAt <= 3_600
    ensures Sum(run[i..j + 1]) <= 2 * limit
  {
    var upTo := run[..j + 1];
    PrefixPermitted(run, limit, j + 1);
    assert upTo[i..] == run[i..j + 1];
    var s := Opening(upTo);
    if s <= i {
      SinceOpening(upTo, limit, i);
    } else {
      EarlierWindowReachesBack(run, limit, i, j);
      assert upTo[..s] == run[..s];
      TwoWindows(upTo, limit, i);
    }
  }

  lemma TwoWindows(run: seq<Payout>, limit: int, i: nat)
    requires Permitted(run, limit) && run != [] && i < Opening(run)
    requires Opening(run[..Opening(run)]) <= i
    ensures Sum(run[i..]) <= 2 * limit
  {
    var s := Opening(run);
    PrefixPermitted(run, limit, s);
    SinceOpening(run, limit, s);
    SinceOpening(run[..s], limit, i);
    SumSplits(run[i..], s - i);
    assert run[i..][..s - i] == run[..s][i..] && run[i..][s - i..] == run[s..];
  }

  /** Of two windows a span reaches, the first was open when the span began. */
  lemma EarlierWindowReachesBack(run: seq<Payout>, limit: int, i: nat, j: nat)
    requires Permitted(run, limit) && i <= j < |run|
    requires run[j].paidAt - run[i].paidAt <= 3_600
    requires Opening(run[..j + 1]) > i
    ensures Opening(run[..Opening(run[..j + 1])]) <= i
  {
    var upTo := run[..j + 1];
    PrefixPermitted(run, limit, j + 1);
    var s := Opening(upTo);
    var earlier := upTo[..s];
    assert earlier == run[..s];
    PrefixPermitted(run, limit, s);
    WindowsAreApart(upTo, limit);
    var s2 := Opening(earlier);
    if s2 > i {
      WindowsAreApart(earlier, limit);
      ClockAdvances(run, limit, i, s2 - 1);
      ClockAdvances(run, limit, s, j);
      assert false;
    }
  }

  /** A span that begins in the window it ends in stays within one limit, however
      long it is. */
  lemma SpanInOneWindow(run: seq<Payout>, limit: int, i: nat, j: nat)
    requires Permitted(run, limit) && i <= j < |run|
    requires Opening(run[..j + 1]) <= i
    ensures Sum(run[i..j + 1]) <= limit
  {
    PrefixPermitted(run, limit, j + 1);
    SinceOpening(run[..j + 1], limit, i);
    assert run[..j + 1][i..] == run[i..j + 1];
  }

  /** Another payout of `amount`, checked and recorded at `now`. */
  function Extended(run: seq<Payout>, now: int, amount: int): seq<Payout> {
    run + [Payout(amount, now, now, true)]
  }

  lemma ExtendingSums(run: seq<Payout>, i: nat, now: int, amount: int)
    requires i <= |run|
    ensures Sum(Extended(run, now, amount)[i..]) == Sum(run[i..]) + amount
  {
    var longer := Extended(run, now, amount);
    assert longer[i..][..|run| - i] == run[i..];
  }

  lemma ExtendingIsPermitted(run: seq<Payout>, limit: int, now: int, amount: int)
    requires Permitted(run, limit) && amount > 0 && Fits(After(run), now, limit, amount)
    requires run != [] ==> Last(run).paidAt <= now
    ensures Permitted(Extended(run, now, amount), limit)
  {
    assert Extended(run, now, amount)[..|run|] == run;
  }

  /** What was recorded from `i` on, against what was since the window opened. */
  lemma SpanAgainstWindow(run: seq<Payout>, i: nat, start: nat)
    requires i < |run| && start < |run| && forall p | p in run :: p.amount > 0
    ensures Sum(run[i..]) > 0
    ensures start <= i ==> Sum(run[i..]) <= Sum(run[start..])
    ensures start > i ==> Sum(run[i..]) > Sum(run[start..])
  {
    SumOfSome(run[i..]);
    if start <= i {
      SumSplits(run[start..], i - start);
      SumIsPositive(run[start..][..i - start]);
      assert run[start..][i - start..] == run[i..];
    } else {
      SumSplits(run[i..], start - i);
      SumOfSome(run[i..][..start - i]);
      assert run[i..][start - i..] == run[start..];
    }
  }

  lemma SumOfSome(run: seq<Payout>)
    requires run != [] && forall p | p in run :: p.amount > 0
    ensures Sum(run) > 0
  {
    SumIsPositive(run[..|run| - 1]);
  }

  /** Any run whose window has ended can be followed by a full limit at once, and
      the two together are past the cap however close they lie. */
  lemma ReopeningBreaksCap(run: seq<Payout>, limit: int, now: int)
    requires Permitted(run, limit) && limit > 0 && run != [] && Last(run).paidAt <= now
    requires !Live(After(run), now)
    ensures
      var longer := Extended(run, now, limit);
      && Permitted(longer, limit) && Opening(longer) == |run|
      && Sum(longer[|run| - 1..]) > limit
  {
    var longer := Extended(run, now, limit);
    assert longer[..|run|] == run;
    ExtendingIsPermitted(run, limit, now, limit);
    ExtendingSums(run, |run| - 1, now, limit);
    AmountsPositive(run, limit);
    SumOfSome(run[|run| - 1..]);
  }

  /** A window whose expiry was lost never ends: whatever is recorded from its
      opening on stays within one limit. */
  lemma {:induction false} LostExpiryNeverReopens(run: seq<Payout>, limit: int, s: nat)
    requires Permitted(run, limit) && s < |run|
    requires Opening(run[..s + 1]) == s && !run[s].reachesExpiry
    ensures Opening(run) == s && Sum(run[s..]) <= limit
    decreases |run|
  {
    if s == |run| - 1 {
      assert run[..s + 1] == run;
    } else {
      var before := run[..|run| - 1];
      assert before[..s + 1] == run[..s + 1];
      LostExpiryNeverReopens(before, limit, s);
      CounterIsWindowTotal(before, limit);
    }
    SinceOpening(run, limit, s);
  }

  /** The factor two is reached: a full limit at each end of a window passes. */
  lemma TwiceTheLimitCanPass(limit: int)
    requires limit > 0
    ensures
      var run := [Payout(limit, 0, 0, true), Payout(limit, WINDOW, WINDOW, true)];
      Permitted(run, limit) && Sum(run) == 2 * limit && run[1].paidAt - run[0].paidAt <= 3_600
  {
    var first, second := Payout(limit, 0, 0, true), Payout(limit, WINDOW, WINDOW, true);
    var run := [first, second];
    assert run[..1] == [first] && [first][..0] == [];
    assert After([]) == None && Permitted([], limit);
    assert After([first]) == Some(Counter(limit, Some(WINDOW)));
    assert Permitted([first], limit);
    assert Sum([first]) == limit;
  }
}
