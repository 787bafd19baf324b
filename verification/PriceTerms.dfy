/** The asset an oracle-manipulation claim may be priced against, picked from what
    an agent has moved. */
module PriceTerms {
  import opened ClaimTypes
  import opened Lexicographic
  import opened Arithmetic

  datatype Kind = Priced | Stable
  datatype Meta = Meta(decimals: nat, kind: Kind, feedKey: Option<string>)
  datatype Observation = Observation(mint: string, amount: int, decimals: nat)

  /** The mints that are known, and the feed each key names. */
  datatype Registry = Registry(mints: map<string, Meta>, feeds: map<string, Bytes>)

  datatype Terms = Terms(feed: Bytes, mint: string, decimals: nat, maxQuantity: int)

  const NATIVE_SOL := "SOL"
  const WRAPPED_SOL := "So11111111111111111111111111111111111111112"
  const DEFAULT_KEY := "11111111111111111111111111111111"
  const CAP_HEADROOM_MULTIPLE := 5

  function Zeros(n: nat): Bytes {
    seq(n, i => 0)
  }

  const EMPTY := Terms(Zeros(32), DEFAULT_KEY, 0, 0)

  /** Wrapped SOL counts as SOL. */
  function Canonical(mint: string): string {
    if mint == WRAPPED_SOL then NATIVE_SOL else mint
  }

  /** The mint the program records has to be a real one. */
  function OnChain(mint: string): string {
    if mint == NATIVE_SOL then WRAPPED_SOL else mint
  }

  /** A known mint that is not a stable and whose feed is known. */
  predicate HasFeed(registry: Registry, mint: string) {
    && mint in registry.mints
    && registry.mints[mint].kind == Priced
    && registry.mints[mint].feedKey.Some?
    && registry.mints[mint].feedKey.value in registry.feeds
  }

  predicate Moves(registry: Registry, o: Observation, mint: string) {
    o.amount > 0 && Canonical(o.mint) == mint && HasFeed(registry, mint)
  }

  /** How often a mint was moved. */
  function Count(registry: Registry, moved: seq<Observation>, mint: string): nat {
    if moved == [] then 0
    else Count(registry, Init(moved), mint) + if Moves(registry, Last(moved), mint) then 1 else 0
  }

  /** The largest single movement of a mint. */
  function Largest(registry: Registry, moved: seq<Observation>, mint: string): (largest: int)
    ensures largest >= 0
  {
    if moved == [] then 0
    else
      var before := Largest(registry, Init(moved), mint);
      if Moves(registry, Last(moved), mint) then Max(before, Last(moved).amount) else before
  }

  // ---------------------------------------------------------------------------
  // The choice
  // ---------------------------------------------------------------------------

  function Codes(text: string): seq<int> {
    seq(|text|, i requires 0 <= i < |text| => text[i] as int)
  }

  /** `a` comes no later than `b`, code unit by code unit. */
  predicate NoLater(a: string, b: string) {
    AtMost(Codes(a), Codes(b))
  }

  predicate Before(a: string, b: string) {
    NoLater(a, b) && a != b
  }

  lemma NoLaterIsOrder(a: string, b: string, c: string)
    ensures NoLater(a, b) || NoLater(b, a)
    ensures NoLater(a, b) && NoLater(b, a) ==> a == b
    ensures NoLater(a, b) && NoLater(b, c) ==> NoLater(a, c)
  {
    AtMostIsTotal(Codes(a), Codes(b));
    if NoLater(a, b) && NoLater(b, a) {
      AtMostIsAntisymmetric(Codes(a), Codes(b));
      assert |a| == |b|;
      forall i | 0 <= i < |a| ensures a[i] == b[i] {
        assert Codes(a)[i] == Codes(b)[i];
      }
    }
    if NoLater(a, b) && NoLater(b, c) {
      AtMostIsTransitive(Codes(a), Codes(b), Codes(c));
    }
  }

  /** `a` is moved more often than `b`, or as often and comes no later. */
  predicate Outranks(registry: Registry, moved: seq<Observation>, a: string, b: string) {
    || Count(registry, moved, a) > Count(registry, moved, b)
    || (Count(registry, moved, a) == Count(registry, moved, b) && NoLater(a, b))
  }

  /** A mint that was moved and outranks every mint that was. */
  ghost predicate IsChosen(registry: Registry, moved: seq<Observation>, mint: string) {
    && Count(registry, moved, mint) > 0
    && forall m :: Count(registry, moved, m) > 0 ==> Outranks(registry, moved, mint, m)
  }

  lemma ChosenIsUnique(registry: Registry, moved: seq<Observation>, a: string, b: string)
    requires IsChosen(registry, moved, a) && IsChosen(registry, moved, b)
    ensures a == b
  {
    assert Outranks(registry, moved, a, b) && Outranks(registry, moved, b, a);
    NoLaterIsOrder(a, b, a);
  }

  function TermsFor(registry: Registry, moved: seq<Observation>, mint: string): Terms
    requires HasFeed(registry, mint)
  {
    var meta := registry.mints[mint];
    Terms(
      registry.feeds[meta.feedKey.value], OnChain(mint), meta.decimals,
      CAP_HEADROOM_MULTIPLE * Largest(registry, moved, mint))
  }

  /** The terms: those of the chosen mint, or the empty ones where no priced mint
      was moved. */
  ghost predicate AreTerms(registry: Registry, moved: seq<Observation>, terms: Terms) {
    if exists m :: Count(registry, moved, m) > 0
    then exists m :: IsChosen(registry, moved, m) && HasFeed(registry, m) && terms == TermsFor(registry, moved, m)
    else terms == EMPTY
  }

  // ---------------------------------------------------------------------------
  // The loops
  // ---------------------------------------------------------------------------

  datatype Entry = Entry(count: nat, largest: int, decimals: nat, feed: Bytes)

  function EntryFor(registry: Registry, moved: seq<Observation>, mint: string): Entry
    requires HasFeed(registry, mint)
  {
    Entry(
      Count(registry, moved, mint), Largest(registry, moved, mint),
      registry.mints[mint].decimals, registry.feeds[registry.mints[mint].feedKey.value])
  }

  /** Each mint that was moved has its entry, and `order` lists those mints. */
  ghost predicate Tallies(
    registry: Registry, moved: seq<Observation>, byMint: map<string, Entry>, order: seq<string>)
  {
    && (forall m :: m in byMint <==> Count(registry, moved, m) > 0)
    && (forall m :: m in byMint ==> HasFeed(registry, m) && byMint[m] == EntryFor(registry, moved, m))
    && (forall m :: m in byMint <==> m in order)
  }

  method TallyMovements(registry: Registry, moved: seq<Observation>)
    returns (byMint: map<string, Entry>, order: seq<string>)
    ensures Tallies(registry, moved, byMint, order)
  {
    byMint, order := map[], [];
    for i := 0 to |moved|
      invariant Tallies(registry, moved[..i], byMint, order)
    {
      var o := moved[i];
      assert Init(moved[..i + 1]) == moved[..i];
      if !(o.amount > 0) {
        continue;
      }
      var mint := Canonical(o.mint);
      if mint in registry.mints && registry.mints[mint].kind == Stable {
        continue;
      }
      if !HasFeed(registry, mint) {
        continue;
      }
      var meta := registry.mints[mint];
      var entry := if mint in byMint then byMint[mint]
                   else Entry(0, 0, meta.decimals, registry.feeds[meta.feedKey.value]);
      NeverMoved(registry, moved[..i], mint);
      if mint !in byMint {
        order := order + [mint];
      }
      entry := entry.(count := entry.count + 1, largest := Max(entry.largest, o.amount));
      byMint := byMint[mint := entry];
    }
    assert moved[..|moved|] == moved;
  }

  lemma {:induction false} NeverMoved(registry: Registry, moved: seq<Observation>, mint: string)
    ensures Count(registry, moved, mint) == 0 ==> Largest(registry, moved, mint) == 0
    decreases |moved|
  {
    if moved != [] {
      NeverMoved(registry, Init(moved), mint);
    }
  }

  method DerivePriceTerms(registry: Registry, moved: seq<Observation>) returns (terms: Terms)
    ensures AreTerms(registry, moved, terms)
  {
    var byMint, order := TallyMovements(registry, moved);
    var chosen: Option<string> := None;
    for i := 0 to |order|
      invariant chosen.None? ==> i == 0
      invariant chosen.Some? ==> chosen.value in byMint
      invariant chosen.Some? ==> forall j | 0 <= j < i :: Outranks(registry, moved, chosen.value, order[j])
    {
      var mint := order[i];
      assert mint in byMint;
      if chosen.None?
        || byMint[mint].count > byMint[chosen.value].count
        || (byMint[mint].count == byMint[chosen.value].count && Before(mint, chosen.value))
      {
        TakesOver(registry, moved, mint, chosen, order[..i]);
        chosen := Some(mint);
      } else {
        NoLaterIsOrder(mint, chosen.value, mint);
      }
    }
    if chosen.None? {
      return EMPTY;
    }
    var entry := byMint[chosen.value];
    terms := Terms(entry.feed, OnChain(chosen.value), entry.decimals, entry.largest * CAP_HEADROOM_MULTIPLE);
    assert IsChosen(registry, moved, chosen.value);
  }

  lemma TakesOver(
    registry: Registry, moved: seq<Observation>, mint: string, chosen: Option<string>, seen: seq<string>)
    requires chosen.None? ==> seen == []
    requires chosen.Some? ==> Outranks(registry, moved, mint, chosen.value)
    requires chosen.Some? ==> forall j | 0 <= j < |seen| :: Outranks(registry, moved, chosen.value, seen[j])
    ensures forall j | 0 <= j < |seen| :: Outranks(registry, moved, mint, seen[j])
    ensures Outranks(registry, moved, mint, mint)
  {
    NoLaterIsOrder(mint, mint, mint);
    forall j | 0 <= j < |seen| ensures Outranks(registry, moved, mint, seen[j]) {
      NoLaterIsOrder(mint, chosen.value, seen[j]);
    }
  }

  // ---------------------------------------------------------------------------
  // The terms, spelled out
  // ---------------------------------------------------------------------------

  /** A movement of this mint; wrapped SOL goes by the name SOL. */
  predicate IsMovementOf(o: Observation, mint: string) {
    && o.amount > 0
    && mint == if o.mint == "So11111111111111111111111111111111111111112" then "SOL" else o.mint
  }

  lemma {:induction false} LargestIsReached(registry: Registry, moved: seq<Observation>, mint: string)
    ensures forall j | 0 <= j < |moved| && Moves(registry, moved[j], mint) ::
      Count(registry, moved, mint) > 0 && moved[j].amount <= Largest(registry, moved, mint)
    ensures Count(registry, moved, mint) > 0 ==>
      exists k :: 0 <= k < |moved| && Moves(registry, moved[k], mint)
                  && moved[k].amount == Largest(registry, moved, mint)
    decreases |moved|
  {
    if moved != [] {
      LargestIsReached(registry, Init(moved), mint);
      NeverMoved(registry, Init(moved), mint);
      assert Last(moved) == moved[|moved| - 1];
      assert forall j | 0 <= j < |moved| - 1 :: Init(moved)[j] == moved[j];
    }
  }

  lemma MovesIsMovement(registry: Registry, o: Observation, mint: string)
    ensures Moves(registry, o, mint) <==> IsMovementOf(o, mint) && HasFeed(registry, mint)
  {
  }

  /** A mint with a feed was moved. */
  ghost predicate HasMovement(registry: Registry, moved: seq<Observation>, mint: string) {
    HasFeed(registry, mint) && exists k :: 0 <= k < |moved| && IsMovementOf(moved[k], mint)
  }

  /** The terms of a mint: its feed, its name on chain - which is wrapped SOL for SOL -
      its decimals, and five times movement `k`, the largest there was of it. */
  ghost predicate RestOn(registry: Registry, moved: seq<Observation>, terms: Terms, k: nat, mint: string) {
    && k < |moved| && IsMovementOf(moved[k], mint) && HasFeed(registry, mint)
    && (forall j | 0 <= j < |moved| && IsMovementOf(moved[j], mint) :: moved[j].amount <= moved[k].amount)
    && terms == Terms(
         registry.feeds[registry.mints[mint].feedKey.value],
         if mint == "SOL" then "So11111111111111111111111111111111111111112" else mint,
         registry.mints[mint].decimals,
         5 * moved[k].amount)
  }

  lemma MovedIsCounted(registry: Registry, moved: seq<Observation>, mint: string)
    ensures HasMovement(registry, moved, mint) <==> Count(registry, moved, mint) > 0
  {
    LargestIsReached(registry, moved, mint);
    forall k | 0 <= k < |moved|
      ensures Moves(registry, moved[k], mint) <==> IsMovementOf(moved[k], mint) && HasFeed(registry, mint)
    {
      MovesIsMovement(registry, moved[k], mint);
    }
  }

  lemma TermsRestOnLargest(registry: Registry, moved: seq<Observation>, mint: string) returns (k: nat)
    requires Count(registry, moved, mint) > 0 && HasFeed(registry, mint)
    ensures RestOn(registry, moved, TermsFor(registry, moved, mint), k, mint)
  {
    LargestIsReached(registry, moved, mint);
    k :| 0 <= k < |moved| && Moves(registry, moved[k], mint) && moved[k].amount == Largest(registry, moved, mint);
    forall j | 0 <= j < |moved| ensures Moves(registry, moved[j], mint) <==> IsMovementOf(moved[j], mint) {
      MovesIsMovement(registry, moved[j], mint);
    }
  }

  /** Where a mint with a feed was moved, the terms rest on such a mint; otherwise
      they are all zeros. */
  lemma TermsSpelledOut(registry: Registry, moved: seq<Observation>, terms: Terms)
    requires AreTerms(registry, moved, terms)
    ensures
      if exists m :: HasMovement(registry, moved, m) then exists k, m :: RestOn(registry, moved, terms, k, m)
      else terms == Terms(seq(32, i => 0), "11111111111111111111111111111111", 0, 0)
  {
    forall m ensures HasMovement(registry, moved, m) <==> Count(registry, moved, m) > 0 {
      MovedIsCounted(registry, moved, m);
    }
    if m :| IsChosen(registry, moved, m) && HasFeed(registry, m) && terms == TermsFor(registry, moved, m) {
      var k := TermsRestOnLargest(registry, moved, m);
    }
  }

  // ---------------------------------------------------------------------------
  // What the choice depends on
  // ---------------------------------------------------------------------------

  lemma {:induction false} CountSplits(registry: Registry, a: seq<Observation>, b: seq<Observation>, mint: string)
    ensures Count(registry, a + b, mint) == Count(registry, a, mint) + Count(registry, b, mint)
    ensures Largest(registry, a + b, mint) == Max(Largest(registry, a, mint), Largest(registry, b, mint))
    decreases |b|
  {
    if b == [] {
      assert a + b == a;
    } else {
      CountSplits(registry, a, Init(b), mint);
      assert Init(a + b) == a + Init(b);
    }
  }

  /** How often and how far a mint moved does not depend on the order it was
      seen in. */
  lemma {:induction false} TallyIgnoresOrder(
    registry: Registry, a: seq<Observation>, b: seq<Observation>, mint: string)
    requires multiset(a) == multiset(b)
    ensures Count(registry, a, mint) == Count(registry, b, mint)
    ensures Largest(registry, a, mint) == Largest(registry, b, mint)
    decreases |a|
  {
    SameLength(a, b);
    if a != [] {
      var last := Last(a);
      assert last in multiset(a);
      var k :| 0 <= k < |b| && b[k] == last;
      RemovingOne(a, b, k);
      TallyIgnoresOrder(registry, Init(a), b[..k] + b[k + 1..], mint);
      TallyWithout(registry, b, k, mint);
      CountSplits(registry, Init(a), [last], mint);
      assert a == Init(a) + [last];
    }
  }

  lemma TallyWithout(registry: Registry, b: seq<Observation>, k: nat, mint: string)
    requires k < |b|
    ensures Count(registry, b, mint)
         == Count(registry, b[..k] + b[k + 1..], mint) + Count(registry, [b[k]], mint)
    ensures Largest(registry, b, mint)
         == Max(Largest(registry, b[..k] + b[k + 1..], mint), Largest(registry, [b[k]], mint))
  {
    var left, right := b[..k], b[k + 1..];
    CountSplits(registry, left + [b[k]], right, mint);
    CountSplits(registry, left, [b[k]], mint);
    CountSplits(registry, left, right, mint);
    assert b == left + [b[k]] + right;
  }

  lemma SameLength(a: seq<Observation>, b: seq<Observation>)
    requires multiset(a) == multiset(b)
    ensures |a| == |b|
  {
    assert |multiset(a)| == |multiset(b)|;
  }

  lemma RemovingOne(a: seq<Observation>, b: seq<Observation>, k: nat)
    requires a != [] && multiset(a) == multiset(b) && k < |b| && b[k] == Last(a)
    ensures multiset(Init(a)) == multiset(b[..k] + b[k + 1..])
  {
    assert a == Init(a) + [Last(a)];
    assert multiset(Init(a)) == multiset(a) - multiset{Last(a)};
    var left, right := b[..k], b[k + 1..];
    assert b == left + ([b[k]] + right);
    assert multiset(left + right) == multiset(b) - multiset{b[k]};
  }

  lemma ChosenIgnoresOrder(registry: Registry, a: seq<Observation>, b: seq<Observation>, mint: string)
    requires multiset(a) == multiset(b)
    ensures IsChosen(registry, a, mint) <==> IsChosen(registry, b, mint)
  {
    forall m
      ensures Count(registry, a, m) == Count(registry, b, m)
      ensures Outranks(registry, a, mint, m) <==> Outranks(registry, b, mint, m)
    {
      TallyIgnoresOrder(registry, a, b, m);
      TallyIgnoresOrder(registry, a, b, mint);
    }
  }

  /** The terms are fixed by which movements were seen, in any order. */
  lemma TermsIgnoreOrder(registry: Registry, a: seq<Observation>, b: seq<Observation>, s: Terms, t: Terms)
    requires multiset(a) == multiset(b)
    requires AreTerms(registry, a, s) && AreTerms(registry, b, t)
    ensures s == t
  {
    forall m ensures Count(registry, a, m) == Count(registry, b, m) {
      TallyIgnoresOrder(registry, a, b, m);
    }
    forall m ensures IsChosen(registry, a, m) <==> IsChosen(registry, b, m) {
      ChosenIgnoresOrder(registry, a, b, m);
    }
    if m, n :|
      && IsChosen(registry, a, m) && HasFeed(registry, m) && s == TermsFor(registry, a, m)
      && IsChosen(registry, b, n) && HasFeed(registry, n) && t == TermsFor(registry, b, n)
    {
      ChosenIsUnique(registry, a, m, n);
      TallyIgnoresOrder(registry, a, b, m);
    }
  }

  /** One more movement of the chosen mint keeps it chosen, and moves the bound to
      five times the larger of the old largest and the new movement. */
  lemma OneMoreKeepsChosen(registry: Registry, moved: seq<Observation>, mint: string, o: Observation)
    requires IsChosen(registry, moved, mint) && Moves(registry, o, mint)
    ensures IsChosen(registry, moved + [o], mint)
    ensures TermsFor(registry, moved + [o], mint)
         == TermsFor(registry, moved, mint).(
              maxQuantity := Max(TermsFor(registry, moved, mint).maxQuantity, CAP_HEADROOM_MULTIPLE * o.amount))
  {
    assert Init(moved + [o]) == moved;
    forall m | Count(registry, moved + [o], m) > 0 ensures Outranks(registry, moved + [o], mint, m) {
      if m == mint {
        NoLaterIsOrder(m, m, m);
      }
    }
  }

  /** A movement of another mint displaces the chosen one exactly when it makes
      that mint as frequent and it comes first, or more frequent. */
  lemma RivalTakesOverIff(
    registry: Registry, moved: seq<Observation>, mint: string, rival: string, o: Observation)
    requires IsChosen(registry, moved, mint) && Moves(registry, o, rival) && rival != mint
    ensures IsChosen(registry, moved + [o], rival)
       <==> Count(registry, moved, rival) + 1 > Count(registry, moved, mint)
            || (Count(registry, moved, rival) + 1 == Count(registry, moved, mint) && Before(rival, mint))
    ensures IsChosen(registry, moved + [o], rival) || IsChosen(registry, moved + [o], mint)
  {
    assert Init(moved + [o]) == moved;
    NoLaterIsOrder(rival, mint, rival);
    NoLaterIsOrder(rival, rival, rival);
    NoLaterIsOrder(mint, rival, mint);
    forall m | Count(registry, moved, m) > 0 && m != rival
      ensures Outranks(registry, moved + [o], rival, mint) ==> Outranks(registry, moved + [o], rival, m)
      ensures Outranks(registry, moved + [o], mint, m)
    {
      NoLaterIsOrder(rival, mint, m);
      assert Outranks(registry, moved, mint, m);
    }
  }
}
