/** The indexer that mirrors the chain's policies, and the claims their holders
    filed themselves, from listings that may arrive late. */
module PolicyIndexer {
  import opened ClaimTypes
  import opened KeeperModel
  import KeeperSafety
  import opened VerificationRecord
  import opened Arithmetic

  /** What a listing says of one policy account. */
  datatype Account = Account(
    policyId: nat, pda: string, holder: string, agent: string, coverage: nat, premium: nat, tier: nat,
    start: int, expiry: int, claimSubmittedAt: int, state: ChainState, trigger: Trigger,
    triggerSignature: string, payout: nat)

  /** What the mirror keeps of it. */
  datatype View = View(
    pda: string, holder: string, agent: string, coverage: nat, premium: nat, tier: nat,
    start: int, expiry: int, claimSubmittedAt: Option<int>, state: ChainState, trigger: Trigger,
    triggerSignature: Option<string>, payout: nat)

  datatype PolicyRow = PolicyRow(view: View, createdAt: int)

  datatype Listing = Listing(slot: nat, accounts: seq<Account>)

  datatype Mirror = Mirror(rows: map<nat, PolicyRow>, claims: seq<Row>, lastSlot: nat, lastCount: nat)

  function ViewOf(account: Account): View {
    View(
      account.pda, account.holder, account.agent, account.coverage, account.premium, account.tier,
      account.start, account.expiry,
      if account.claimSubmittedAt > 0 then Some(account.claimSubmittedAt) else None,
      account.state, account.trigger,
      if account.triggerSignature == "" then None else Some(account.triggerSignature),
      account.payout)
  }

  /** A view shows an account field by field; a time that is not positive and a
      signature that is empty are shown as none. */
  predicate Shows(view: View, account: Account) {
    && view.pda == account.pda && view.holder == account.holder && view.agent == account.agent
    && view.coverage == account.coverage && view.premium == account.premium && view.tier == account.tier
    && view.start == account.start && view.expiry == account.expiry
    && view.state == account.state && view.trigger == account.trigger && view.payout == account.payout
    && (match view.claimSubmittedAt
        case Some(time) => account.claimSubmittedAt == time > 0
        case None => account.claimSubmittedAt <= 0)
    && (match view.triggerSignature
        case Some(signature) => account.triggerSignature == signature && |signature| > 0
        case None => account.triggerSignature == [])
  }

  // ---------------------------------------------------------------------------
  // What a listing does
  // ---------------------------------------------------------------------------

  /** Overwrite everything but the time the policy was first seen. */
  function Upserted(rows: map<nat, PolicyRow>, account: Account): map<nat, PolicyRow> {
    var createdAt := if account.policyId in rows then rows[account.policyId].createdAt else account.start;
    rows[account.policyId := PolicyRow(ViewOf(account), createdAt)]
  }

  function UpsertedAll(rows: map<nat, PolicyRow>, accounts: seq<Account>): map<nat, PolicyRow> {
    if accounts == [] then rows
    else Upserted(UpsertedAll(rows, accounts[..|accounts| - 1]), accounts[|accounts| - 1])
  }

  ghost predicate IsFirst(accounts: seq<Account>, policyId: nat, account: Account) {
    exists k :: 0 <= k < |accounts| && accounts[k] == account && account.policyId == policyId
      && forall j | 0 <= j < k :: accounts[j].policyId != policyId
  }

  function FirstListed(accounts: seq<Account>, policyId: nat): (account: Account)
    requires exists a | a in accounts :: a.policyId == policyId
    ensures account in accounts && account.policyId == policyId
    ensures IsFirst(accounts, policyId, account)
  {
    if accounts[0].policyId == policyId then accounts[0] else FirstListed(accounts[1..], policyId)
  }

  /** A claim row for a policy the chain has pending, unless one is open. */
  function Mirrored(claims: seq<Row>, accounts: seq<Account>, policyId: nat): seq<Row>
    requires exists a | a in accounts :: a.policyId == policyId
  {
    if HoldsOpenClaim(claims, policyId) then claims
    else
      var account := FirstListed(accounts, policyId);
      var signature := if account.triggerSignature == "" then "onchain" else account.triggerSignature;
      claims + [MirroredRow(policyId, account.trigger, signature)]
  }

  /** The first `n` listed accounts, in turn. */
  function MirroredAll(claims: seq<Row>, accounts: seq<Account>, n: nat): seq<Row>
    requires n <= |accounts|
  {
    if n == 0 then claims
    else
      var before := MirroredAll(claims, accounts, n - 1);
      if accounts[n - 1].state.ChainClaimPending? then Mirrored(before, accounts, accounts[n - 1].policyId)
      else before
  }

  /** A listing older than the newest applied is refused, unless it names no slot. */
  predicate Applies(lastSlot: nat, listing: Listing) {
    !(listing.slot > 0 && listing.slot < lastSlot)
  }

  function Reconciled(mirror: Mirror, listing: Listing): Mirror {
    if !Applies(mirror.lastSlot, listing) then mirror
    else
      var lastSlot := Max(mirror.lastSlot, listing.slot);
      if listing.accounts == [] then mirror.(lastSlot := lastSlot)
      else
        Mirror(
          UpsertedAll(mirror.rows, listing.accounts),
          MirroredAll(mirror.claims, listing.accounts, |listing.accounts|),
          lastSlot, |listing.accounts|)
  }

  class Indexer {
    var lastIndexedSlot: nat
    var lastIndexedCount: nat
    var policies: map<nat, PolicyRow>
    var claims: seq<Row>

    ghost function Contents(): Mirror
      reads this
    {
      Mirror(policies, claims, lastIndexedSlot, lastIndexedCount)
    }

    constructor (policies: map<nat, PolicyRow>, claims: seq<Row>)
      ensures Contents() == Mirror(policies, claims, 0, 0)
    {
      lastIndexedSlot, lastIndexedCount := 0, 0;
      this.policies, this.claims := policies, claims;
    }

    method ReconcilePolicies(listing: Listing)
      modifies this
      ensures Contents() == Reconciled(old(Contents()), listing)
    {
      if listing.slot > 0 && listing.slot < lastIndexedSlot {
        return;
      }
      lastIndexedSlot := Max(lastIndexedSlot, listing.slot);
      if |listing.accounts| == 0 {
        return;
      }
      lastIndexedCount := |listing.accounts|;
      var pending := UpsertPolicies(listing.accounts);
      MirrorPendingClaims(listing.accounts, pending);
    }

    method UpsertPolicies(accounts: seq<Account>) returns (pending: seq<nat>)
      modifies this`policies
      ensures policies == UpsertedAll(old(policies), accounts)
      ensures pending == PendingOf(accounts)
    {
      pending := [];
      for i := 0 to |accounts|
        invariant policies == UpsertedAll(old(policies), accounts[..i])
        invariant pending == PendingOf(accounts[..i])
      {
        var account := accounts[i];
        assert accounts[..i + 1][..i] == accounts[..i];
        if account.state.ChainClaimPending? {
          pending := pending + [account.policyId];
        }
        var createdAt := if account.policyId in policies then policies[account.policyId].createdAt else account.start;
        policies := policies[account.policyId := PolicyRow(ViewOf(account), createdAt)];
      }
      assert accounts[..|accounts|] == accounts;
    }

    method MirrorPendingClaims(accounts: seq<Account>, pending: seq<nat>)
      requires pending == PendingOf(accounts)
      modifies this`claims
      ensures claims == MirroredAll(old(claims), accounts, |accounts|)
    {
      var covered := CoveredBy(claims, pending);
      MirroringSkipsOpen(claims, accounts, |accounts|);
      assert accounts[..|accounts|] == accounts;
      for i := 0 to |pending|
        invariant claims == MirroredIds(old(claims), accounts, pending, i)
        invariant KeepsOpen(old(claims), claims)
      {
        var policyId := pending[i];
        PendingIsListed(accounts, i);
        if policyId in covered {
          continue;
        }
        if !HoldsOpenClaim(claims, policyId) {
          var account := FirstListed(accounts, policyId);
          var signature := if account.triggerSignature == "" then "onchain" else account.triggerSignature;
          AppendingKeepsOpen(old(claims), claims, MirroredRow(policyId, account.trigger, signature));
          claims := claims + [MirroredRow(policyId, account.trigger, signature)];
        }
      }
    }
  }

  function PendingOf(accounts: seq<Account>): seq<nat> {
    if accounts == [] then []
    else
      PendingOf(accounts[..|accounts| - 1])
      + (if accounts[|accounts| - 1].state.ChainClaimPending? then [accounts[|accounts| - 1].policyId] else [])
  }

  /** The policies with a claim something automated is working on. */
  function CoveredBy(claims: seq<Row>, pending: seq<nat>): set<nat> {
    set row | row in claims && IsOpen(row.status) && !IsParked(row.status) && row.policyId in pending :: row.policyId
  }

  ghost predicate KeepsOpen(before: seq<Row>, after: seq<Row>) {
    forall policyId :: HoldsOpenClaim(before, policyId) ==> HoldsOpenClaim(after, policyId)
  }

  lemma AppendingKeepsOpen(before: seq<Row>, after: seq<Row>, row: Row)
    requires KeepsOpen(before, after)
    ensures KeepsOpen(before, after + [row])
  {
    forall p | HoldsOpenClaim(after, p) ensures HoldsOpenClaim(after + [row], p) {
      OpenSurvives(after, after + [row], p);
    }
  }

  lemma {:induction false} PendingIsListed(accounts: seq<Account>, i: nat)
    requires i < |PendingOf(accounts)|
    ensures exists a | a in accounts :: a.policyId == PendingOf(accounts)[i]
    decreases |accounts|
  {
    var init := accounts[..|accounts| - 1];
    if i < |PendingOf(init)| {
      PendingIsListed(init, i);
    } else {
      assert accounts[|accounts| - 1] in accounts;
    }
  }

  /** The same claims, going by the list of pending policies. */
  function MirroredIds(claims: seq<Row>, accounts: seq<Account>, pending: seq<nat>, n: nat): seq<Row>
    requires n <= |pending|
  {
    if n == 0 then claims
    else
      var before := MirroredIds(claims, accounts, pending, n - 1);
      if exists a | a in accounts :: a.policyId == pending[n - 1] then Mirrored(before, accounts, pending[n - 1])
      else before
  }

  lemma {:induction false} MirroredIdsOfPrefix(
    claims: seq<Row>, accounts: seq<Account>, pending: seq<nat>, more: seq<nat>, n: nat)
    requires n <= |pending|
    ensures MirroredIds(claims, accounts, pending + more, n) == MirroredIds(claims, accounts, pending, n)
    decreases n
  {
    if n > 0 {
      MirroredIdsOfPrefix(claims, accounts, pending, more, n - 1);
    }
  }

  lemma {:induction false} MirroringSkipsOpen(claims: seq<Row>, accounts: seq<Account>, n: nat)
    requires n <= |accounts|
    ensures MirroredAll(claims, accounts, n)
         == MirroredIds(claims, accounts, PendingOf(accounts[..n]), |PendingOf(accounts[..n])|)
    decreases n
  {
    if n > 0 {
      MirroringSkipsOpen(claims, accounts, n - 1);
      assert accounts[..n][..n - 1] == accounts[..n - 1];
      var pending := PendingOf(accounts[..n - 1]);
      if accounts[n - 1].state.ChainClaimPending? {
        var all := pending + [accounts[n - 1].policyId];
        assert PendingOf(accounts[..n]) == all && all[|all| - 1] == accounts[n - 1].policyId;
        MirroredIdsOfPrefix(claims, accounts, pending, [accounts[n - 1].policyId], |pending|);
        assert accounts[n - 1] in accounts;
      } else {
        assert PendingOf(accounts[..n]) == pending;
      }
    }
  }

  // ---------------------------------------------------------------------------
  // Runs of truthful listings
  // ---------------------------------------------------------------------------

  /** What the chain holds at each slot. */
  type History = nat -> map<nat, Account>

  /** A listing tells the truth about its slot, and may leave accounts out. */
  ghost predicate Truthful(history: History, listing: Listing) {
    && listing.slot > 0
    && (forall a | a in listing.accounts ::
          a.policyId in history(listing.slot) && history(listing.slot)[a.policyId] == a)
  }

  function Run(start: Mirror, listings: seq<Listing>): Mirror {
    if listings == [] then start
    else Reconciled(Run(start, listings[..|listings| - 1]), listings[|listings| - 1])
  }

  predicate Lists(listing: Listing, policyId: nat) {
    exists a | a in listing.accounts :: a.policyId == policyId
  }

  function NewestSlot(listings: seq<Listing>): nat {
    if listings == [] then 0
    else Max(NewestSlot(listings[..|listings| - 1]), listings[|listings| - 1].slot)
  }

  /** Whether listing `k` of a run that began with nothing was applied. */
  predicate WasApplied(listings: seq<Listing>, k: nat)
    requires k < |listings|
  {
    Applies(NewestSlot(listings[..k]), listings[k])
  }

  /** The slot of the newest applied listing that named a policy. */
  function SourceSlot(listings: seq<Listing>, policyId: nat): Option<nat> {
    if listings == [] then None
    else
      var before, last := listings[..|listings| - 1], listings[|listings| - 1];
      if Applies(NewestSlot(before), last) && Lists(last, policyId) then Some(last.slot)
      else SourceSlot(before, policyId)
  }

  lemma {:induction false} SlotIsNewest(start: Mirror, listings: seq<Listing>)
    requires start.lastSlot == 0
    ensures Run(start, listings).lastSlot == NewestSlot(listings)
    ensures forall k | 0 <= k < |listings| :: listings[k].slot <= NewestSlot(listings)
    decreases |listings|
  {
    if listings != [] {
      SlotIsNewest(start, listings[..|listings| - 1]);
    }
  }

  /** The source slot is the greatest among the applied listings that named the
      policy. */
  lemma {:induction false} SourceIsNewest(listings: seq<Listing>, policyId: nat)
    requires forall l | l in listings :: l.slot > 0
    ensures forall k | 0 <= k < |listings| && WasApplied(listings, k) && Lists(listings[k], policyId) ::
      SourceSlot(listings, policyId).Some? && listings[k].slot <= SourceSlot(listings, policyId).value
    ensures SourceSlot(listings, policyId).Some? ==>
      exists k :: 0 <= k < |listings| && WasApplied(listings, k) && Lists(listings[k], policyId)
                  && listings[k].slot == SourceSlot(listings, policyId).value
    decreases |listings|
  {
    if listings != [] {
      var before, last := listings[..|listings| - 1], |listings| - 1;
      SourceIsNewest(before, policyId);
      forall k | 0 <= k < last ensures WasApplied(listings, k) <==> WasApplied(before, k) {
        assert listings[..k] == before[..k];
      }
      assert listings[..last] == before;
      BoundedByNewest(before);
    }
  }

  lemma {:induction false} BoundedByNewest(listings: seq<Listing>)
    ensures forall k | 0 <= k < |listings| :: listings[k].slot <= NewestSlot(listings)
    decreases |listings|
  {
    if listings != [] {
      BoundedByNewest(listings[..|listings| - 1]);
    }
  }

  lemma {:induction false} UpsertsAreTrue(
    history: History, rows: map<nat, PolicyRow>, slot: nat, accounts: seq<Account>, policyId: nat)
    requires Truthful(history, Listing(slot, accounts))
    ensures
      var after := UpsertedAll(rows, accounts);
      if Lists(Listing(slot, accounts), policyId)
      then policyId in after && policyId in history(slot) && after[policyId].view == ViewOf(history(slot)[policyId])
      else policyId in after <==> policyId in rows
    ensures
      var after := UpsertedAll(rows, accounts);
      policyId in rows ==> policyId in after && after[policyId].createdAt == rows[policyId].createdAt
    ensures Lists(Listing(slot, accounts), policyId) && policyId !in rows ==>
      policyId in UpsertedAll(rows, accounts) && policyId in history(slot)
      && UpsertedAll(rows, accounts)[policyId].createdAt == history(slot)[policyId].start
    ensures !Lists(Listing(slot, accounts), policyId) && policyId in rows
        ==> UpsertedAll(rows, accounts)[policyId] == rows[policyId]
    decreases |accounts|
  {
    if accounts != [] {
      var before, last := accounts[..|accounts| - 1], accounts[|accounts| - 1];
      assert accounts == before + [last];
      UpsertsAreTrue(history, rows, slot, before, policyId);
      assert last in accounts;
      assert forall a | a in before :: a in accounts;
    }
  }

  /** After any run of truthful listings, in any order and with accounts missing,
      each row is the chain's own account at the newest applied listing that
      named it, and there are no other rows. */
  lemma {:induction false} RowsFollowChain(
    history: History, claims: seq<Row>, listings: seq<Listing>, policyId: nat)
    requires forall l | l in listings :: Truthful(history, l)
    ensures
      var rows := Run(Mirror(map[], claims, 0, 0), listings).rows;
      var source := SourceSlot(listings, policyId);
      && (policyId in rows <==> source.Some?)
      && (source.Some? ==>
            && policyId in history(source.value)
            && rows[policyId].view == ViewOf(history(source.value)[policyId])
            && Shows(rows[policyId].view, history(source.value)[policyId]))
    decreases |listings|
  {
    if listings != [] {
      var start := Mirror(map[], claims, 0, 0);
      var before, last := listings[..|listings| - 1], listings[|listings| - 1];
      RowsFollowChain(history, claims, before, policyId);
      SlotIsNewest(start, before);
      assert last in listings && Truthful(history, Listing(last.slot, last.accounts));
      UpsertsAreTrue(history, Run(start, before).rows, last.slot, last.accounts, policyId);
    }
  }

  /** One more listing never moves a row back along the chain's history, nor
      forgets it, nor changes when it was first seen: whatever the chain only
      ever raises, the mirror only ever raises. */
  lemma MirrorNeverMovesBack(
    history: History, claims: seq<Row>, listings: seq<Listing>, next: Listing, policyId: nat, rank: View -> int)
    requires forall l | l in listings + [next] :: Truthful(history, l)
    requires forall s: nat, t: nat | s <= t && policyId in history(s) && policyId in history(t) ::
      rank(ViewOf(history(s)[policyId])) <= rank(ViewOf(history(t)[policyId]))
    requires policyId in Run(Mirror(map[], claims, 0, 0), listings).rows
    ensures
      var before := Run(Mirror(map[], claims, 0, 0), listings).rows;
      var after := Run(Mirror(map[], claims, 0, 0), listings + [next]).rows;
      && policyId in after
      && rank(before[policyId].view) <= rank(after[policyId].view)
      && before[policyId].createdAt == after[policyId].createdAt
  {
    var start := Mirror(map[], claims, 0, 0);
    var all := listings + [next];
    assert all[..|listings|] == listings;
    assert forall l | l in listings :: l in all;
    RowsFollowChain(history, claims, listings, policyId);
    RowsFollowChain(history, claims, all, policyId);
    SourceMovesOn(history, listings, next, policyId);
    assert next in all && Truthful(history, Listing(next.slot, next.accounts));
    UpsertsAreTrue(history, Run(start, listings).rows, next.slot, next.accounts, policyId);
  }

  lemma SourceMovesOn(history: History, listings: seq<Listing>, next: Listing, policyId: nat)
    requires forall l | l in listings + [next] :: Truthful(history, l)
    requires SourceSlot(listings, policyId).Some?
    ensures SourceSlot(listings + [next], policyId).Some?
    ensures SourceSlot(listings, policyId).value <= SourceSlot(listings + [next], policyId).value
  {
    var all := listings + [next];
    assert all[..|listings|] == listings;
    assert next in all;
    forall l | l in listings ensures l.slot > 0 {
      assert l in all;
    }
    SourceIsNewest(listings, policyId);
    BoundedByNewest(listings);
  }

  /** A policy seen for the first time is dated from its start. */
  lemma FirstSightIsItsStart(history: History, mirror: Mirror, listing: Listing, policyId: nat)
    requires Truthful(history, listing) && Lists(listing, policyId)
    requires policyId !in mirror.rows && listing.slot >= mirror.lastSlot
    ensures
      var rows := Reconciled(mirror, listing).rows;
      && policyId in rows && policyId in history(listing.slot)
      && rows[policyId].createdAt == history(listing.slot)[policyId].start
  {
    UpsertsAreTrue(history, mirror.rows, listing.slot, listing.accounts, policyId);
    assert listing.accounts != [];
  }

  /** A view of the chain at `seen`, older than the newest applied, is put back
      exactly when its listing names no slot - or when the newest applied has been
      forgotten, as it is by a restart. */
  lemma OlderViewIsPutBackIff(
    history: History, mirror: Mirror, seen: nat, slot: nat, accounts: seq<Account>, policyId: nat)
    requires Truthful(history, Listing(seen, accounts)) && Lists(Listing(seen, accounts), policyId)
    requires policyId in mirror.rows && slot in {0, seen}
    ensures
      var after := Reconciled(mirror, Listing(slot, accounts)).rows;
      && policyId in after && policyId in history(seen)
      && after[policyId].view ==
         (if slot == 0 || seen >= mirror.lastSlot then ViewOf(history(seen)[policyId])
          else mirror.rows[policyId].view)
    ensures
      var restarted := Reconciled(mirror.(lastSlot := 0), Listing(slot, accounts)).rows;
      policyId in restarted && restarted[policyId].view == ViewOf(history(seen)[policyId])
  {
    assert accounts != [];
    UpsertsAreTrue(history, mirror.rows, seen, accounts, policyId);
  }

  /** The guard is read before the writes it guards. Of two passes that overlap, an
      older one that read it first passes it, and when its writes come last they put
      the older view back; read after the newer pass, it would have been refused. */
  lemma OverlappingPassesPutBack(
    history: History, mirror: Mirror, older: Listing, newer: Listing, policyId: nat)
    requires Truthful(history, older) && Truthful(history, newer)
    requires mirror.lastSlot <= older.slot < newer.slot
    requires Lists(older, policyId) && Lists(newer, policyId)
    ensures Applies(mirror.lastSlot, older) && Applies(Max(mirror.lastSlot, older.slot), newer)
    ensures
      var after := UpsertedAll(UpsertedAll(mirror.rows, newer.accounts), older.accounts);
      && policyId in after && policyId in history(older.slot)
      && after[policyId].view == ViewOf(history(older.slot)[policyId])
    ensures
      var inTurn := Reconciled(Reconciled(mirror, newer), older).rows;
      && policyId in inTurn && policyId in history(newer.slot)
      && inTurn[policyId].view == ViewOf(history(newer.slot)[policyId])
  {
    UpsertsAreTrue(history, mirror.rows, newer.slot, newer.accounts, policyId);
    UpsertsAreTrue(history, UpsertedAll(mirror.rows, newer.accounts), older.slot, older.accounts, policyId);
    assert newer.accounts != [];
  }

  // ---------------------------------------------------------------------------
  // The claims that are mirrored
  // ---------------------------------------------------------------------------

  /** An approved row that repeats what the policy's first listing says of the claim,
      with no verdict and no amount behind it. */
  ghost predicate IsMirrored(row: Row, accounts: seq<Account>) {
    && row.status == Approved && row.reviewReason == None && row.verifyAttempts == 0
    && row.lossAmount == None && row.payoutAmount == None && row.proofKind == None
    && row.data == JObj(map[
         "source" := JStr("policy-indexer"), "note" := JStr("mirrored from on-chain ClaimPending")])
    && exists k :: 0 <= k < |accounts| && accounts[k].policyId == row.policyId
         && (forall j | 0 <= j < k :: accounts[j].policyId != row.policyId)
         && row.trigger == accounts[k].trigger
         && row.txSignature == if accounts[k].triggerSignature == "" then "onchain" else accounts[k].triggerSignature
  }

  /** Mirroring only appends approved rows for listed pending policies, never a
      second open claim, and leaves every one of those policies with an open
      claim. */
  lemma {:induction false} MirroringCoversPending(claims: seq<Row>, accounts: seq<Account>, n: nat)
    requires n <= |accounts| && KeeperSafety.OneOpenClaimPerPolicy(claims)
    ensures
      var after := MirroredAll(claims, accounts, n);
      && |claims| <= |after| && after[..|claims|] == claims
      && KeeperSafety.OneOpenClaimPerPolicy(after)
      && (forall i | |claims| <= i < |after| ::
            && IsMirrored(after[i], accounts)
            && !HoldsOpenClaim(claims, after[i].policyId)
            && exists k ::
                 0 <= k < n && accounts[k].policyId == after[i].policyId && accounts[k].state.ChainClaimPending?)
      && (forall k | 0 <= k < n && accounts[k].state.ChainClaimPending? ::
            HoldsOpenClaim(after, accounts[k].policyId))
    decreases n
  {
    if n > 0 {
      MirroringCoversPending(claims, accounts, n - 1);
      var before := MirroredAll(claims, accounts, n - 1);
      var account := accounts[n - 1];
      if account.state.ChainClaimPending? {
        assert account in accounts;
        var after := Mirrored(before, accounts, account.policyId);
        MirroredOnce(before, accounts, account.policyId);
        forall p | HoldsOpenClaim(claims, p) ensures HoldsOpenClaim(before, p) {
          OpenSurvives(claims, before, p);
        }
        forall p | HoldsOpenClaim(before, p) ensures HoldsOpenClaim(after, p) {
          OpenSurvives(before, after, p);
        }
      }
    }
  }

  lemma OpenSurvives(before: seq<Row>, after: seq<Row>, policyId: nat)
    requires |before| <= |after| && after[..|before|] == before && HoldsOpenClaim(before, policyId)
    ensures HoldsOpenClaim(after, policyId)
  {
    var i :| 0 <= i < |before| && before[i].policyId == policyId && IsOpen(before[i].status);
    assert after[i] == before[i];
  }

  lemma MirroredOnce(claims: seq<Row>, accounts: seq<Account>, policyId: nat)
    requires KeeperSafety.OneOpenClaimPerPolicy(claims) && exists a | a in accounts :: a.policyId == policyId
    ensures
      var after := Mirrored(claims, accounts, policyId);
      && KeeperSafety.OneOpenClaimPerPolicy(after) && HoldsOpenClaim(after, policyId)
      && |claims| <= |after| && after[..|claims|] == claims
      && (|after| > |claims| ==>
            && |after| == |claims| + 1 && !HoldsOpenClaim(claims, policyId)
            && after[|claims|].policyId == policyId && IsMirrored(after[|claims|], accounts))
  {
    var after := Mirrored(claims, accounts, policyId);
    if |after| > |claims| {
      assert IsFirst(accounts, policyId, FirstListed(accounts, policyId));
      assert after[|claims|].policyId == policyId && IsOpen(after[|claims|].status);
    }
  }

  /** The keeper's step that mirrors a pending policy. */
  function StepFor(accounts: seq<Account>, policyId: nat): (step: Step)
    requires exists a | a in accounts :: a.policyId == policyId
    ensures step.MirrorStep?
  {
    var first := FirstListed(accounts, policyId);
    var signature := if first.triggerSignature == "" then "onchain" else first.triggerSignature;
    MirrorStep(policyId, first.trigger, signature)
  }

  lemma MirroringOneIsAStep(world: World, config: Settlement.Config, accounts: seq<Account>, n: nat)
    requires 0 < n <= |accounts| && accounts[n - 1].state.ChainClaimPending? && accounts[n - 1] in accounts
    ensures
      Apply(world.(claims := MirroredAll(world.claims, accounts, n - 1)), config,
            StepFor(accounts, accounts[n - 1].policyId))
      == world.(claims := MirroredAll(world.claims, accounts, n))
  {
  }

  lemma RunExtends(world: World, config: Settlement.Config, steps: seq<Step>, step: Step)
    ensures KeeperModel.Run(world, config, steps + [step]) == Apply(KeeperModel.Run(world, config, steps), config, step)
  {
    assert (steps + [step])[..|steps|] == steps;
  }

  /** What one listing does to the claims, the keeper's own mirror steps do. */
  lemma {:induction false} MirroringIsKeeperSteps(
    world: World, config: Settlement.Config, accounts: seq<Account>, n: nat) returns (steps: seq<Step>)
    requires n <= |accounts|
    ensures forall s | s in steps :: s.MirrorStep?
    ensures KeeperModel.Run(world, config, steps)
         == world.(claims := MirroredAll(world.claims, accounts, n))
    decreases n
  {
    if n == 0 {
      steps := [];
    } else {
      steps := MirroringIsKeeperSteps(world, config, accounts, n - 1);
      if accounts[n - 1].state.ChainClaimPending? {
        assert accounts[n - 1] in accounts;
        var step := StepFor(accounts, accounts[n - 1].policyId);
        RunExtends(world, config, steps, step);
        MirroringOneIsAStep(world, config, accounts, n);
        steps := steps + [step];
      }
    }
  }
}
