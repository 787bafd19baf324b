/** Token balance changes per account, rebuilt from the balances a transaction
    lists before and after it. */
module TokenChanges {
  import opened ClaimTypes
  import NativeTransfers
  import opened Arithmetic

  /** One listed token balance. A missing amount is read as zero, a missing
      owner as the empty string. */
  datatype Balance = Balance(index: nat, mint: string, owner: string, amount: nat, decimals: Option<nat>)
  datatype Change = Change(mint: string, owner: string, amount: int, decimals: nat)
  datatype Account = Account(address: string, nativeChange: int, tokenChanges: seq<Change>)

  /** The entry for an account, the last one winning. */
  function Latest(balances: seq<Balance>, index: nat): (entry: Option<Balance>)
    ensures entry.Some? ==> entry.value in balances && entry.value.index == index
    ensures entry.None? ==> forall b | b in balances :: b.index != index
  {
    if balances == [] then None
    else if Last(balances).index == index then Some(Last(balances))
    else Latest(Init(balances), index)
  }

  function AmountOf(entry: Option<Balance>): nat {
    if entry.Some? then entry.value.amount else 0
  }

  function DecimalsOf(entry: Option<Balance>): nat {
    if entry.Some? && entry.value.decimals.Some? then entry.value.decimals.value else 0
  }

  // ---------------------------------------------------------------------------
  // What is recorded
  // ---------------------------------------------------------------------------

  function OpenChange(before: Option<Balance>, entry: Balance): seq<Change> {
    var delta := entry.amount - AmountOf(before);
    if delta == 0 || entry.owner == "" then []
    else
      var decimals := if entry.decimals.Some? then entry.decimals.value else DecimalsOf(before);
      [Change(entry.mint, entry.owner, delta, decimals)]
  }

  function ClosedChange(post: seq<Balance>, entry: Balance): seq<Change> {
    if Latest(post, entry.index).Some? || entry.amount == 0 || entry.owner == "" then []
    else [Change(entry.mint, entry.owner, 0 - entry.amount, DecimalsOf(Some(entry)))]
  }

  function OpenChanges(pre: seq<Balance>, post: seq<Balance>, index: nat): seq<Change> {
    if post == [] then []
    else
      OpenChanges(pre, Init(post), index)
      + (if Last(post).index == index then OpenChange(Latest(pre, Last(post).index), Last(post)) else [])
  }

  function ClosedChanges(pre: seq<Balance>, post: seq<Balance>, index: nat): seq<Change> {
    if pre == [] then []
    else
      ClosedChanges(Init(pre), post, index)
      + (if Last(pre).index == index then ClosedChange(post, Last(pre)) else [])
  }

  /** What is recorded for one account index. */
  function ChangesAt(pre: seq<Balance>, post: seq<Balance>, index: nat): seq<Change> {
    OpenChanges(pre, post, index) + ClosedChanges(pre, post, index)
  }

  // ---------------------------------------------------------------------------
  // The loops
  // ---------------------------------------------------------------------------

  function Listed(changes: map<nat, seq<Change>>, index: nat): seq<Change> {
    if index in changes then changes[index] else []
  }

  function Adding(changes: map<nat, seq<Change>>, index: nat, more: seq<Change>): map<nat, seq<Change>> {
    if more == [] then changes else changes[index := Listed(changes, index) + more]
  }

  ghost predicate RecordsOpen(changes: map<nat, seq<Change>>, pre: seq<Balance>, post: seq<Balance>) {
    forall i: nat :: Listed(changes, i) == OpenChanges(pre, post, i)
  }

  ghost predicate RecordsBoth(
    changes: map<nat, seq<Change>>, open: map<nat, seq<Change>>, pre: seq<Balance>, post: seq<Balance>) {
    forall i: nat :: Listed(changes, i) == Listed(open, i) + ClosedChanges(pre, post, i)
  }

  ghost predicate Indexes(byIndex: map<nat, Balance>, balances: seq<Balance>) {
    forall i: nat :: Latest(balances, i) == if i in byIndex then Some(byIndex[i]) else None
  }

  ghost predicate Marks(seen: set<nat>, balances: seq<Balance>) {
    forall i: nat :: i in seen <==> Latest(balances, i).Some?
  }

  lemma MarkStep(seen: set<nat>, balances: seq<Balance>)
    requires balances != [] && Marks(seen, Init(balances))
    ensures Marks(seen + {Last(balances).index}, balances)
  {
  }

  lemma OpenStep(changes: map<nat, seq<Change>>, pre: seq<Balance>, post: seq<Balance>)
    requires post != [] && RecordsOpen(changes, pre, Init(post))
    ensures
      var more := OpenChange(Latest(pre, Last(post).index), Last(post));
      RecordsOpen(Adding(changes, Last(post).index, more), pre, post)
  {
  }

  lemma ClosedStep(
    changes: map<nat, seq<Change>>, open: map<nat, seq<Change>>, pre: seq<Balance>, post: seq<Balance>)
    requires pre != [] && RecordsBoth(changes, open, Init(pre), post)
    ensures RecordsBoth(Adding(changes, Last(pre).index, ClosedChange(post, Last(pre))), open, pre, post)
  {
    var more := ClosedChange(post, Last(pre));
    forall i: nat
      ensures Listed(Adding(changes, Last(pre).index, more), i) == Listed(open, i) + ClosedChanges(pre, post, i)
    {
      ConcatAssociates(Listed(open, i), ClosedChanges(Init(pre), post, i), if i == Last(pre).index then more else []);
    }
  }

  method IndexByAccount(balances: seq<Balance>) returns (byIndex: map<nat, Balance>)
    ensures Indexes(byIndex, balances)
  {
    byIndex := map[];
    for k := 0 to |balances|
      invariant Indexes(byIndex, balances[..k])
    {
      assert Init(balances[..k + 1]) == balances[..k];
      byIndex := byIndex[balances[k].index := balances[k]];
    }
    assert balances[..|balances|] == balances;
  }

  method RecordOpen(pre: seq<Balance>, post: seq<Balance>)
    returns (changes: map<nat, seq<Change>>, seen: set<nat>)
    ensures RecordsOpen(changes, pre, post)
    ensures Marks(seen, post)
  {
    var preByIndex := IndexByAccount(pre);
    changes, seen := map[], {};
    for k := 0 to |post|
      invariant RecordsOpen(changes, pre, post[..k])
      invariant Marks(seen, post[..k])
    {
      var entry := post[k];
      assert Init(post[..k + 1]) == post[..k];
      OpenStep(changes, pre, post[..k + 1]);
      MarkStep(seen, post[..k + 1]);
      seen := seen + {entry.index};
      var before := if entry.index in preByIndex then Some(preByIndex[entry.index]) else None;
      assert before == Latest(pre, entry.index);
      changes := Adding(changes, entry.index, OpenChange(before, entry));
    }
    assert post[..|post|] == post;
  }

  method RecordClosed(pre: seq<Balance>, post: seq<Balance>, seen: set<nat>, open: map<nat, seq<Change>>)
    returns (changes: map<nat, seq<Change>>)
    requires Marks(seen, post)
    ensures RecordsBoth(changes, open, pre, post)
  {
    changes := open;
    for k := 0 to |pre|
      invariant RecordsBoth(changes, open, pre[..k], post)
    {
      var entry := pre[k];
      assert Init(pre[..k + 1]) == pre[..k];
      ClosedStep(changes, open, pre[..k + 1], post);
      var more := [];
      if entry.index !in seen && entry.amount != 0 && entry.owner != "" {
        more := [Change(entry.mint, entry.owner, 0 - entry.amount, DecimalsOf(Some(entry)))];
      }
      assert more == ClosedChange(post, entry);
      changes := Adding(changes, entry.index, more);
    }
    assert pre[..|pre|] == pre;
  }

  /** The whole extraction, one record per account key; a change listed for an
      index beyond the keys is dropped. */
  method ExtractAccountData(
    keys: seq<string>, preBalances: seq<nat>, postBalances: seq<nat>, pre: seq<Balance>, post: seq<Balance>)
    returns (accounts: seq<Account>)
    ensures |accounts| == |keys|
    ensures forall i | 0 <= i < |keys| ::
      && accounts[i].address == keys[i]
      && accounts[i].nativeChange + (if i < |preBalances| then preBalances[i] else 0)
         == (if i < |postBalances| then postBalances[i] else 0)
      && accounts[i].tokenChanges == ChangesAt(pre, post, i)
  {
    var open, seen := RecordOpen(pre, post);
    var changes := RecordClosed(pre, post, seen, open);
    accounts := seq(|keys|, i requires 0 <= i < |keys| =>
      Account(keys[i], NativeTransfers.BalanceAt(postBalances, i) - NativeTransfers.BalanceAt(preBalances, i),
              Listed(changes, i)));
  }

  // ---------------------------------------------------------------------------
  // What it means
  // ---------------------------------------------------------------------------

  predicate Unique(balances: seq<Balance>) {
    forall j, k | 0 <= j < k < |balances| :: balances[j].index != balances[k].index
  }

  /** What the changes of one account say of one mint. */
  function Moved(changes: seq<Change>, mint: string): int {
    if changes == [] then 0
    else (if changes[0].mint == mint then changes[0].amount else 0) + Moved(changes[1..], mint)
  }

  /** What the listing holds of a mint at one index, and in all. */
  function HeldAt(balances: seq<Balance>, index: nat, mint: string): nat {
    if balances == [] then 0
    else
      HeldAt(Init(balances), index, mint)
      + if Last(balances).index == index && Last(balances).mint == mint then Last(balances).amount else 0
  }

  function Held(balances: seq<Balance>, mint: string): nat {
    if balances == [] then 0
    else Held(Init(balances), mint) + if Last(balances).mint == mint then Last(balances).amount else 0
  }

  /** What the changes at the first `n` indices say of one mint. */
  function MovedBelow(pre: seq<Balance>, post: seq<Balance>, n: nat, mint: string): int {
    if n == 0 then 0 else MovedBelow(pre, post, n - 1, mint) + Moved(ChangesAt(pre, post, n - 1), mint)
  }

  function HeldBelow(balances: seq<Balance>, n: nat, mint: string): nat {
    if n == 0 then 0 else HeldBelow(balances, n - 1, mint) + HeldAt(balances, n - 1, mint)
  }

  /** The amount listed for an account, zero where it is not listed. */
  function AmountAt(balances: seq<Balance>, index: nat): nat {
    AmountOf(Latest(balances, index))
  }

  /** The entry that names an account's mint and owner: the later listing's
      where it has one. */
  function Naming(pre: seq<Balance>, post: seq<Balance>, index: nat): Option<Balance> {
    if Latest(post, index).Some? then Latest(post, index) else Latest(pre, index)
  }

  /** The decimals of the later listing where it gives them, else of the earlier, else
      none. */
  function DecimalsAt(pre: seq<Balance>, post: seq<Balance>, index: nat): nat {
    match (Latest(post, index), Latest(pre, index))
    case (Some(Balance(_, _, _, _, Some(decimals))), _) => decimals
    case (_, Some(Balance(_, _, _, _, Some(decimals)))) => decimals
    case _ => 0
  }

  lemma LastIsNew(balances: seq<Balance>)
    requires Unique(balances) && balances != []
    ensures Latest(Init(balances), Last(balances).index).None?
  {
    forall b | b in Init(balances) ensures b.index != Last(balances).index {
      var k :| 0 <= k < |Init(balances)| && Init(balances)[k] == b;
      assert balances[k] == b;
    }
  }

  lemma {:induction false} OpenChangesAreOne(pre: seq<Balance>, post: seq<Balance>, index: nat)
    requires Unique(post)
    ensures OpenChanges(pre, post, index)
         == if Latest(post, index).Some? then OpenChange(Latest(pre, index), Latest(post, index).value) else []
    decreases |post|
  {
    if post != [] {
      OpenChangesAreOne(pre, Init(post), index);
      LastIsNew(post);
    }
  }

  lemma {:induction false} ClosedChangesAreOne(pre: seq<Balance>, post: seq<Balance>, index: nat)
    requires Unique(pre)
    ensures ClosedChanges(pre, post, index)
         == if Latest(pre, index).Some? then ClosedChange(post, Latest(pre, index).value) else []
    decreases |pre|
  {
    if pre != [] {
      ClosedChangesAreOne(Init(pre), post, index);
      LastIsNew(pre);
    }
  }

  /** The recorded change is after minus before, an unlisted side counting as
      zero: one entry where they differ and the owner is known, none otherwise. */
  lemma ChangeIsPostMinusPre(pre: seq<Balance>, post: seq<Balance>, index: nat)
    requires Unique(pre) && Unique(post)
    ensures
      var changes := ChangesAt(pre, post, index);
      var naming := Naming(pre, post, index);
      var delta := AmountAt(post, index) - AmountAt(pre, index);
      if delta == 0 || naming.value.owner == "" then changes == []
      else
        |changes| == 1 && changes[0].amount == delta
        && changes[0].mint == naming.value.mint && changes[0].owner == naming.value.owner
        && changes[0].decimals == DecimalsAt(pre, post, index)
  {
    OpenChangesAreOne(pre, post, index);
    ClosedChangesAreOne(pre, post, index);
  }

  /** Every account that changed has a known owner, and no account that held
      something comes back under another mint. */
  predicate Attributable(pre: seq<Balance>, post: seq<Balance>, index: nat) {
    var before, after := Latest(pre, index), Latest(post, index);
    && (AmountOf(before) != AmountOf(after) ==> Naming(pre, post, index).value.owner != "")
    && (before.Some? && after.Some? && before.value.amount != 0 ==> before.value.mint == after.value.mint)
  }

  lemma {:induction false} HeldAtIsLatest(balances: seq<Balance>, index: nat, mint: string)
    requires Unique(balances)
    ensures HeldAt(balances, index, mint)
         == var entry := Latest(balances, index);
            if entry.Some? && entry.value.mint == mint then entry.value.amount else 0
    decreases |balances|
  {
    if balances != [] {
      HeldAtIsLatest(Init(balances), index, mint);
      LastIsNew(balances);
    }
  }

  function Net(pre: seq<Balance>, post: seq<Balance>, index: nat, mint: string): int {
    HeldAt(post, index, mint) - HeldAt(pre, index, mint)
  }

  /** An account's changes account for what it held of every mint exactly when
      it is attributable. */
  lemma ChangesBalanceIffAttributable(pre: seq<Balance>, post: seq<Balance>, index: nat)
    requires Unique(pre) && Unique(post)
    ensures (forall mint :: Moved(ChangesAt(pre, post, index), mint) == Net(pre, post, index, mint))
        <==> Attributable(pre, post, index)
  {
    ChangeIsPostMinusPre(pre, post, index);
    forall mint ensures
      && HeldAt(post, index, mint)
         == (var entry := Latest(post, index);
             if entry.Some? && entry.value.mint == mint then entry.value.amount else 0)
      && HeldAt(pre, index, mint)
         == (var entry := Latest(pre, index);
             if entry.Some? && entry.value.mint == mint then entry.value.amount else 0)
    {
      HeldAtIsLatest(pre, index, mint);
      HeldAtIsLatest(post, index, mint);
    }
    var changes := ChangesAt(pre, post, index);
    if !Attributable(pre, post, index) {
      var before, after := Latest(pre, index), Latest(post, index);
      var mint := if before.Some? && before.value.amount != 0 then before.value.mint else after.value.mint;
      assert Moved(changes, mint) != Net(pre, post, index, mint);
    }
  }

  lemma {:induction false} HeldIsSumOverIndices(balances: seq<Balance>, n: nat, mint: string)
    requires forall b | b in balances :: b.index < n
    ensures HeldBelow(balances, n, mint) == Held(balances, mint)
    decreases |balances|
  {
    if balances == [] {
      NothingHeld(n, mint);
    } else {
      HeldIsSumOverIndices(Init(balances), n, mint);
      LastAddsOnce(balances, n, mint);
    }
  }

  lemma {:induction false} NothingHeld(n: nat, mint: string)
    ensures HeldBelow([], n, mint) == 0
  {
    if n > 0 {
      NothingHeld(n - 1, mint);
    }
  }

  lemma {:induction false} LastAddsOnce(balances: seq<Balance>, n: nat, mint: string)
    requires balances != []
    ensures HeldBelow(balances, n, mint)
         == HeldBelow(Init(balances), n, mint)
            + if Last(balances).index < n && Last(balances).mint == mint then Last(balances).amount else 0
    decreases n
  {
    if n > 0 {
      LastAddsOnce(balances, n - 1, mint);
    }
  }

  /** Mint by mint the recorded changes sum to the balances after less the
      balances before, when every account is attributable. */
  lemma {:induction false} ChangesConserveMint(pre: seq<Balance>, post: seq<Balance>, n: nat, mint: string)
    requires Unique(pre) && Unique(post)
    requires forall b | b in pre + post :: b.index < n
    requires forall i: nat | i < n :: Attributable(pre, post, i)
    ensures MovedBelow(pre, post, n, mint) == Held(post, mint) - Held(pre, mint)
  {
    MovedIsNet(pre, post, n, mint);
    HeldIsSumOverIndices(pre, n, mint);
    HeldIsSumOverIndices(post, n, mint);
  }

  lemma {:induction false} MovedIsNet(pre: seq<Balance>, post: seq<Balance>, n: nat, mint: string)
    requires Unique(pre) && Unique(post)
    requires forall i: nat | i < n :: Attributable(pre, post, i)
    ensures MovedBelow(pre, post, n, mint) == HeldBelow(post, n, mint) - HeldBelow(pre, n, mint)
    decreases n
  {
    if n > 0 {
      MovedIsNet(pre, post, n - 1, mint);
      ChangesBalanceIffAttributable(pre, post, n - 1);
      assert Moved(ChangesAt(pre, post, n - 1), mint) == Net(pre, post, n - 1, mint);
    }
  }

  /** An account listed under two mints is charged to the later one alone, so
      neither mint's changes add up. */
  lemma RelabelledAccountMisstatesBothMints()
    ensures
      var pre, post := [Balance(0, "A", "owner", 5, None)], [Balance(0, "B", "owner", 7, None)];
      && Unique(pre) && Unique(post) && !Attributable(pre, post, 0)
      && Moved(ChangesAt(pre, post, 0), "A") == 0 && Net(pre, post, 0, "A") == -5
      && Moved(ChangesAt(pre, post, 0), "B") == 2 && Net(pre, post, 0, "B") == 7
  {
    var pre, post := [Balance(0, "A", "owner", 5, None)], [Balance(0, "B", "owner", 7, None)];
    assert Latest(pre, 0) == Some(pre[0]) && Latest(post, 0) == Some(post[0]);
    ChangeIsPostMinusPre(pre, post, 0);
    HeldAtIsLatest(pre, 0, "A");
    HeldAtIsLatest(pre, 0, "B");
    HeldAtIsLatest(post, 0, "A");
    HeldAtIsLatest(post, 0, "B");
  }
}
