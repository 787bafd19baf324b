/** Native transfers rebuilt from balance changes by pairing the largest senders
    with the largest receivers. */
module NativeTransfers {
  import opened Arithmetic

  datatype Party = Party(address: string, amount: int)
  datatype Transfer = Transfer(payer: string, payee: string, amount: int)

  const FEE_PAYER_NOISE := 10_000_000

  predicate Positive(parties: seq<Party>) {
    forall k | 0 <= k < |parties| :: parties[k].amount > 0
  }

  function Total(parties: seq<Party>): int {
    if parties == [] then 0 else parties[0].amount + Total(parties[1..])
  }

  /** What an address holds across a list. */
  function Held(parties: seq<Party>, address: string): int {
    if parties == [] then 0
    else (if parties[0].address == address then parties[0].amount else 0) + Held(parties[1..], address)
  }

  // ---------------------------------------------------------------------------
  // The pairing as a walk down both lists
  // ---------------------------------------------------------------------------

  function Spend(parties: seq<Party>, amount: int): (rest: seq<Party>)
    requires parties != []
    ensures |rest| <= |parties|
    ensures Positive(parties) ==> Positive(rest)
  {
    if parties[0].amount > amount then [parties[0].(amount := parties[0].amount - amount)] + parties[1..]
    else parties[1..]
  }

  /** Pay the first receiver from the first sender what both can bear, drop
      whoever is used up, and go on. */
  function Pair(senders: seq<Party>, receivers: seq<Party>): seq<Transfer>
    requires Positive(senders) && Positive(receivers)
    decreases |senders| + |receivers|
  {
    if senders == [] || receivers == [] then []
    else
      var amount := Min(senders[0].amount, receivers[0].amount);
      [Transfer(senders[0].address, receivers[0].address, amount)]
      + Pair(Spend(senders, amount), Spend(receivers, amount))
  }

  function Moved(transfers: seq<Transfer>): int {
    if transfers == [] then 0 else transfers[0].amount + Moved(transfers[1..])
  }

  function Sent(transfers: seq<Transfer>, address: string): int {
    if transfers == [] then 0
    else (if transfers[0].payer == address then transfers[0].amount else 0) + Sent(transfers[1..], address)
  }

  function Received(transfers: seq<Transfer>, address: string): int {
    if transfers == [] then 0
    else (if transfers[0].payee == address then transfers[0].amount else 0) + Received(transfers[1..], address)
  }

  lemma SpendTakesAmount(parties: seq<Party>, amount: int, address: string)
    requires parties != [] && amount <= parties[0].amount
    ensures Total(Spend(parties, amount)) == Total(parties) - amount
    ensures Held(Spend(parties, amount), address)
         == Held(parties, address) - (if parties[0].address == address then amount else 0)
  {
  }

  lemma {:induction false} PositiveHoldings(parties: seq<Party>, address: string)
    requires Positive(parties)
    ensures 0 <= Held(parties, address) <= Total(parties)
    ensures Total(parties) == 0 <==> parties == []
    decreases |parties|
  {
    if parties != [] {
      PositiveHoldings(parties[1..], address);
    }
  }

  /** The pairing moves all either side can: the smaller total, in positive
      transfers, fewer than the parties on both sides. */
  lemma {:induction false} PairingConserves(senders: seq<Party>, receivers: seq<Party>)
    requires Positive(senders) && Positive(receivers)
    ensures Moved(Pair(senders, receivers)) == Min(Total(senders), Total(receivers))
    ensures forall k | 0 <= k < |Pair(senders, receivers)| :: Pair(senders, receivers)[k].amount > 0
    ensures senders != [] && receivers != [] ==> |Pair(senders, receivers)| <= |senders| + |receivers| - 1
    ensures senders == [] || receivers == [] ==> Pair(senders, receivers) == []
    decreases |senders| + |receivers|
  {
    PositiveHoldings(senders, "");
    PositiveHoldings(receivers, "");
    if senders != [] && receivers != [] {
      var amount := Min(senders[0].amount, receivers[0].amount);
      PairingConserves(Spend(senders, amount), Spend(receivers, amount));
      SpendTakesAmount(senders, amount, "");
      SpendTakesAmount(receivers, amount, "");
    }
  }

  /** No address pays or is paid more than it holds on its side, and the side
      with the smaller total is used up exactly. */
  lemma {:induction false} PairingUsesHoldings(senders: seq<Party>, receivers: seq<Party>, address: string)
    requires Positive(senders) && Positive(receivers)
    ensures 0 <= Sent(Pair(senders, receivers), address) <= Held(senders, address)
    ensures 0 <= Received(Pair(senders, receivers), address) <= Held(receivers, address)
    ensures Total(senders) <= Total(receivers) ==> Sent(Pair(senders, receivers), address) == Held(senders, address)
    ensures Total(receivers) <= Total(senders)
        ==> Received(Pair(senders, receivers), address) == Held(receivers, address)
    decreases |senders| + |receivers|
  {
    PositiveHoldings(senders, address);
    PositiveHoldings(receivers, address);
    if senders != [] && receivers != [] {
      var amount := Min(senders[0].amount, receivers[0].amount);
      PairingUsesHoldings(Spend(senders, amount), Spend(receivers, amount), address);
      SpendTakesAmount(senders, amount, address);
      SpendTakesAmount(receivers, amount, address);
    }
  }

  // ---------------------------------------------------------------------------
  // The nested loops
  // ---------------------------------------------------------------------------

  /** The receivers that still have something to take. */
  function Live(receivers: seq<Party>, left: seq<int>): (live: seq<Party>)
    requires |receivers| == |left|
    ensures Positive(live)
  {
    if receivers == [] then []
    else
      (if left[0] > 0 then [Party(receivers[0].address, left[0])] else []) + Live(receivers[1..], left[1..])
  }

  /** The first `j` receivers have nothing left to take. */
  predicate Filled(left: seq<int>, j: nat)
    requires j <= |left|
  {
    forall k | 0 <= k < j :: left[k] <= 0
  }

  lemma {:induction false} LiveSkipsSpent(receivers: seq<Party>, left: seq<int>, j: nat)
    requires |receivers| == |left| && j <= |left|
    requires Filled(left, j)
    ensures Live(receivers, left) == Live(receivers[j..], left[j..])
    decreases j
  {
    if j == 0 {
      assert receivers[0..] == receivers && left[0..] == left;
    } else {
      LiveSkipsSpent(receivers[1..], left[1..], j - 1);
      assert receivers[1..][j - 1..] == receivers[j..] && left[1..][j - 1..] == left[j..];
    }
  }

  lemma {:induction false} LiveAtStart(receivers: seq<Party>, left: seq<int>)
    requires Positive(receivers) && |left| == |receivers|
    requires forall k | 0 <= k < |receivers| :: left[k] == receivers[k].amount
    ensures Live(receivers, left) == receivers
    decreases |receivers|
  {
    if receivers != [] {
      LiveAtStart(receivers[1..], left[1..]);
      assert receivers == [receivers[0]] + receivers[1..];
    }
  }

  /** Taking from the first live receiver spends the head of the live list. */
  lemma TakingSpendsHead(receivers: seq<Party>, left: seq<int>, j: nat, amount: int)
    requires |receivers| == |left| && j < |left| && 0 < amount <= left[j]
    requires Filled(left, j)
    ensures Live(receivers, left) != []
    ensures Live(receivers, left)[0] == Party(receivers[j].address, left[j])
    ensures Live(receivers, left[j := left[j] - amount]) == Spend(Live(receivers, left), amount)
  {
    LiveSkipsSpent(receivers, left, j);
    LiveSkipsSpent(receivers, left[j := left[j] - amount], j);
    assert left[j := left[j] - amount][j..][1..] == left[j..][1..];
    assert left[j..][0] == left[j] && receivers[j..][0] == receivers[j];
  }

  function Paid(sender: Party, amount: int): Party {
    sender.(amount := sender.amount - amount)
  }

  /** Who is still to pay once `payer` has handed over `amount`. */
  function Payers(payer: Party, rest: seq<Party>, amount: int): seq<Party> {
    Queue(Paid(payer, amount), rest)
  }

  /** A sender is in the queue while it has something left to pay. */
  function Queue(payer: Party, rest: seq<Party>): (queue: seq<Party>)
    ensures Positive(rest) ==> Positive(queue)
  {
    if payer.amount > 0 then [payer] + rest else rest
  }

  /** One pass of the inner loop is one step of the walk. */
  lemma PairStep(
    payer: Party, rest: seq<Party>, receivers: seq<Party>, left: seq<int>, j: nat, amount: int)
    requires payer.amount > 0 && Positive(rest) && |receivers| == |left| && j < |left| && left[j] > 0
    requires Filled(left, j)
    requires amount == Min(payer.amount, left[j])
    ensures
      Pair([payer] + rest, Live(receivers, left))
      == [Transfer(payer.address, receivers[j].address, amount)]
         + Pair(Payers(payer, rest, amount), Live(receivers, left[j := left[j] - amount]))
  {
    TakingSpendsHead(receivers, left, j, amount);
    SpendingPayers(payer, rest, amount);
    PairUnfolds([payer] + rest, Live(receivers, left));
  }

  lemma SpendingPayers(payer: Party, rest: seq<Party>, amount: int)
    ensures Spend([payer] + rest, amount) == Payers(payer, rest, amount)
  {
    assert ([payer] + rest)[1..] == rest;
  }

  lemma PairUnfolds(senders: seq<Party>, receivers: seq<Party>)
    requires Positive(senders) && Positive(receivers) && senders != [] && receivers != []
    ensures
      var amount := Min(senders[0].amount, receivers[0].amount);
      Pair(senders, receivers)
      == [Transfer(senders[0].address, receivers[0].address, amount)]
         + Pair(Spend(senders, amount), Spend(receivers, amount))
  {
  }

  /** What has been transferred, and what the walk has yet to transfer. */
  function Outlook(
    done: seq<Transfer>, queue: seq<Party>, receivers: seq<Party>, left: seq<int>): seq<Transfer>
    requires Positive(queue) && |receivers| == |left|
  {
    done + Pair(queue, Live(receivers, left))
  }

  /** Paying the receiver at `j` carries out the next transfer of the walk. */
  lemma PayingKeepsOutlook(
    done: seq<Transfer>, payer: Party, rest: seq<Party>, receivers: seq<Party>, left: seq<int>, j: nat,
    amount: int, after: seq<int>)
    requires payer.amount > 0 && Positive(rest) && |receivers| == |left| && j < |left| && left[j] > 0
    requires Filled(left, j) && amount == Min(payer.amount, left[j]) && after == left[j := left[j] - amount]
    ensures Outlook(done + [Transfer(payer.address, receivers[j].address, amount)],
                    Queue(Paid(payer, amount), rest), receivers, after)
         == Outlook(done, Queue(payer, rest), receivers, left)
    ensures Paid(payer, amount).amount > 0 ==> Filled(after, j + 1)
  {
    PairStep(payer, rest, receivers, left, j, amount);
    FillingKeepsFilled(left, j, amount);
    Regroup(done, Transfer(payer.address, receivers[j].address, amount),
            Pair(Queue(Paid(payer, amount), rest), Live(receivers, after)));
  }

  /** A sender done with, or with no live receiver left, drops out of the walk. */
  lemma DroppingKeepsOutlook(
    done: seq<Transfer>, payer: Party, rest: seq<Party>, receivers: seq<Party>, left: seq<int>)
    requires Positive(rest) && |receivers| == |left|
    requires payer.amount > 0 ==> Filled(left, |left|)
    ensures Outlook(done, rest, receivers, left) == Outlook(done, Queue(payer, rest), receivers, left)
  {
    if payer.amount > 0 {
      LiveSkipsSpent(receivers, left, |left|);
    }
  }

  /** The pairing loops: each sender in turn walks the receivers from the start,
      passing over those already filled. */
  method PairGreedily(senders: seq<Party>, receivers: seq<Party>) returns (transfers: seq<Transfer>)
    requires Positive(senders) && Positive(receivers)
    ensures transfers == Pair(senders, receivers)
  {
    var n := |receivers|;
    var left := new int[n](k requires 0 <= k < n => receivers[k].amount);
    transfers := [];
    ghost var now := left[..];
    OutlookAtStart(senders, receivers, now);
    for i := 0 to |senders|
      invariant now == left[..] && |now| == n
      invariant Outlook(transfers, senders[i..], receivers, now) == Pair(senders, receivers)
    {
      SenderSteps(senders, i);
      transfers, now := DrainSender(senders[i], senders[i + 1..], receivers, left, now, transfers);
    }
    OutlookAtEnd(transfers, senders[|senders|..], receivers, now);
  }

  lemma OutlookAtStart(senders: seq<Party>, receivers: seq<Party>, left: seq<int>)
    requires Positive(senders) && Positive(receivers) && |left| == |receivers|
    requires forall k | 0 <= k < |receivers| :: left[k] == receivers[k].amount
    ensures Outlook([], senders[0..], receivers, left) == Pair(senders, receivers)
  {
    LiveAtStart(receivers, left);
    assert senders[0..] == senders;
  }

  lemma OutlookAtEnd(done: seq<Transfer>, queue: seq<Party>, receivers: seq<Party>, left: seq<int>)
    requires queue == [] && |receivers| == |left|
    ensures Outlook(done, queue, receivers, left) == done
  {
  }

  lemma SenderSteps(senders: seq<Party>, i: nat)
    requires Positive(senders) && i < |senders|
    ensures Queue(senders[i], senders[i + 1..]) == senders[i..]
  {
  }

  /** The inner loop for one sender; `rest` are the senders after it, `was` and
      `now` what the receivers can take before and after. */
  method DrainSender(
    sender: Party, ghost rest: seq<Party>, receivers: seq<Party>, left: array<int>, ghost was: seq<int>,
    before: seq<Transfer>)
    returns (transfers: seq<Transfer>, ghost now: seq<int>)
    requires sender.amount > 0 && Positive(rest) && left.Length == |receivers| && was == left[..]
    modifies left
    ensures now == left[..]
    ensures Outlook(transfers, rest, receivers, now) == Outlook(before, Queue(sender, rest), receivers, was)
  {
    transfers, now := before, was;
    var payer := sender;
    var j := 0;
    while j < |receivers| && payer.amount > 0
      invariant 0 <= j <= |receivers| == |now| && payer.amount >= 0
      invariant now == left[..]
      invariant payer.amount > 0 ==> Filled(now, j)
      invariant Outlook(transfers, Queue(payer, rest), receivers, now)
             == Outlook(before, Queue(sender, rest), receivers, was)
    {
      var amount := Min(payer.amount, left[j]);
      assert left[j] == now[j];
      if left[j] > 0 {
        ghost var could := now;
        now := Take(left, j, amount, now);
        PayingKeepsOutlook(transfers, payer, rest, receivers, could, j, amount, now);
        transfers := transfers + [Transfer(payer.address, receivers[j].address, amount)];
        payer := Paid(payer, amount);
      } else {
        FilledGrows(now, j);
      }
      j := j + 1;
    }
    DroppingKeepsOutlook(transfers, payer, rest, receivers, now);
  }

  method Take(left: array<int>, j: nat, amount: int, ghost now: seq<int>) returns (ghost after: seq<int>)
    requires j < left.Length && now == left[..]
    modifies left
    ensures after == left[..] && after == now[j := now[j] - amount]
  {
    left[j] := left[j] - amount;
    after := left[..];
  }

  lemma FilledGrows(left: seq<int>, j: nat)
    requires j < |left| && left[j] <= 0
    ensures Filled(left, j) ==> Filled(left, j + 1)
  {
  }

  lemma FillingKeepsFilled(left: seq<int>, j: nat, amount: int)
    requires j < |left| && Filled(left, j)
    ensures Filled(left[j := left[j] - amount], j)
    ensures left[j] <= amount ==> Filled(left[j := left[j] - amount], j + 1)
  {
  }

  lemma Regroup(done: seq<Transfer>, next: Transfer, ahead: seq<Transfer>)
    ensures done + ([next] + ahead) == (done + [next]) + ahead
  {
  }

  // ---------------------------------------------------------------------------
  // From balances to parties
  // ---------------------------------------------------------------------------

  /** A balance the listing leaves out is zero. */
  function BalanceAt(balances: seq<nat>, i: nat): (balance: nat)
    ensures i < |balances| ==> balance == balances[i]
    ensures i >= |balances| ==> balance == 0
  {
    if i < |balances| then balances[i] else 0
  }

  /** What an account gave up, a small decrease of the fee payer not counting. */
  function Debit(pre: seq<nat>, post: seq<nat>, i: nat): (debit: int)
    ensures debit >= 0
    ensures debit > 0 <==> Fell(pre, post, i)
    ensures i < |pre| && i < |post| && Fell(pre, post, i) ==> debit == pre[i] - post[i]
    ensures |post| <= i < |pre| && Fell(pre, post, i) ==> debit == pre[i]
  {
    var diff := BalanceAt(post, i) - BalanceAt(pre, i);
    if diff >= 0 || (i == 0 && -diff < FEE_PAYER_NOISE) then 0 else -diff
  }

  function Credit(pre: seq<nat>, post: seq<nat>, i: nat): (credit: int)
    ensures credit >= 0
    ensures credit > 0 <==> Rose(pre, post, i)
    ensures i < |pre| && i < |post| && Rose(pre, post, i) ==> credit == post[i] - pre[i]
    ensures |pre| <= i < |post| && Rose(pre, post, i) ==> credit == post[i]
  {
    var diff := BalanceAt(post, i) - BalanceAt(pre, i);
    if diff > 0 then diff else 0
  }

  /** The account ended with less than it began with; the fee payer, which every
      transaction charges, with at least 0.01 SOL less. */
  ghost predicate Fell(pre: seq<nat>, post: seq<nat>, i: nat) {
    && i < |pre|
    && (i < |post| ==> post[i] < pre[i])
    && 0 < pre[i]
    && (i == 0 ==> pre[0] >= 10_000_000 + if post == [] then 0 else post[0])
  }

  ghost predicate Rose(pre: seq<nat>, post: seq<nat>, i: nat) {
    && i < |post|
    && (i < |pre| ==> pre[i] < post[i])
    && 0 < post[i]
  }

  function Debits(pre: seq<nat>, post: seq<nat>, n: nat): int {
    if n == 0 then 0 else Debits(pre, post, n - 1) + Debit(pre, post, n - 1)
  }

  function Credits(pre: seq<nat>, post: seq<nat>, n: nat): int {
    if n == 0 then 0 else Credits(pre, post, n - 1) + Credit(pre, post, n - 1)
  }

  /** Only a party with something to its name joins a list. */
  function Joined(parties: seq<Party>, party: Party): (joined: seq<Party>)
    ensures Positive(parties) ==> Positive(joined)
  {
    if party.amount > 0 then parties + [party] else parties
  }

  lemma JoiningAdds(parties: seq<Party>, party: Party, address: string)
    requires party.amount >= 0
    ensures Total(Joined(parties, party)) == Total(parties) + party.amount
    ensures Held(Joined(parties, party), address)
         == Held(parties, address) + (if party.address == address then party.amount else 0)
    ensures |Joined(parties, party)| == |parties| + (if party.amount > 0 then 1 else 0)
  {
    TotalAppends(parties, party);
    HeldAppends(parties, party, address);
  }

  /** The accounts that gave something up, in account order. */
  function SendersOf(accounts: seq<string>, pre: seq<nat>, post: seq<nat>, n: nat): (senders: seq<Party>)
    requires n <= |accounts|
    ensures Positive(senders)
  {
    if n == 0 then []
    else
      Joined(SendersOf(accounts, pre, post, n - 1), Party(accounts[n - 1], Debit(pre, post, n - 1)))
  }

  function ReceiversOf(accounts: seq<string>, pre: seq<nat>, post: seq<nat>, n: nat): (receivers: seq<Party>)
    requires n <= |accounts|
    ensures Positive(receivers)
  {
    if n == 0 then []
    else
      Joined(ReceiversOf(accounts, pre, post, n - 1), Party(accounts[n - 1], Credit(pre, post, n - 1)))
  }

  /** The debits of the accounts listed under one address. */
  function DebitsOf(accounts: seq<string>, pre: seq<nat>, post: seq<nat>, n: nat, address: string): int
    requires n <= |accounts|
  {
    if n == 0 then 0
    else
      DebitsOf(accounts, pre, post, n - 1, address)
      + (if accounts[n - 1] == address then Debit(pre, post, n - 1) else 0)
  }

  function CreditsOf(accounts: seq<string>, pre: seq<nat>, post: seq<nat>, n: nat, address: string): int
    requires n <= |accounts|
  {
    if n == 0 then 0
    else
      CreditsOf(accounts, pre, post, n - 1, address)
      + (if accounts[n - 1] == address then Credit(pre, post, n - 1) else 0)
  }

  lemma {:induction false} TotalAppends(parties: seq<Party>, last: Party)
    ensures Total(parties + [last]) == Total(parties) + last.amount
    decreases |parties|
  {
    if parties != [] {
      TotalAppends(parties[1..], last);
      assert (parties + [last])[1..] == parties[1..] + [last];
    }
  }

  lemma {:induction false} HeldAppends(parties: seq<Party>, last: Party, address: string)
    ensures Held(parties + [last], address)
         == Held(parties, address) + (if last.address == address then last.amount else 0)
    decreases |parties|
  {
    if parties != [] {
      HeldAppends(parties[1..], last, address);
      assert (parties + [last])[1..] == parties[1..] + [last];
    }
  }

  /** The two lists hold exactly what the accounts gave up and took in, in all and
      address by address. */
  lemma {:induction false} PartiesHoldChanges(
    accounts: seq<string>, pre: seq<nat>, post: seq<nat>, n: nat, address: string)
    requires n <= |accounts|
    ensures Total(SendersOf(accounts, pre, post, n)) == Debits(pre, post, n)
    ensures Total(ReceiversOf(accounts, pre, post, n)) == Credits(pre, post, n)
    ensures Held(SendersOf(accounts, pre, post, n), address) == DebitsOf(accounts, pre, post, n, address)
    ensures Held(ReceiversOf(accounts, pre, post, n), address) == CreditsOf(accounts, pre, post, n, address)
    ensures |SendersOf(accounts, pre, post, n)| + |ReceiversOf(accounts, pre, post, n)| <= n
    decreases n
  {
    if n > 0 {
      PartiesHoldChanges(accounts, pre, post, n - 1, address);
      JoiningAdds(SendersOf(accounts, pre, post, n - 1), Party(accounts[n - 1], Debit(pre, post, n - 1)), address);
      JoiningAdds(ReceiversOf(accounts, pre, post, n - 1), Party(accounts[n - 1], Credit(pre, post, n - 1)), address);
      OneSideOnly(pre, post, n - 1);
    }
  }

  lemma OneSideOnly(pre: seq<nat>, post: seq<nat>, i: nat)
    ensures Debit(pre, post, i) == 0 || Credit(pre, post, i) == 0
  {
  }

  /** What one account adds to either list. */
  lemma AccountJoins(pre: seq<nat>, post: seq<nat>, i: nat)
    ensures
      var before: int := if i < |pre| then pre[i] else 0;
      var after: int := if i < |post| then post[i] else 0;
      var diff := after - before;
      if diff > 0 then Credit(pre, post, i) == diff && Debit(pre, post, i) == 0
      else if diff < 0 && !(i == 0 && -diff < FEE_PAYER_NOISE) then
        Credit(pre, post, i) == 0 && Debit(pre, post, i) == -diff
      else Credit(pre, post, i) == 0 && Debit(pre, post, i) == 0
  {
  }

  /** Only an account that fell pays, and only one that rose is paid. */
  lemma {:induction false} HoldersMoved(
    accounts: seq<string>, pre: seq<nat>, post: seq<nat>, n: nat, address: string)
    requires n <= |accounts|
    ensures DebitsOf(accounts, pre, post, n, address) > 0
        ==> exists i :: 0 <= i < n && accounts[i] == address && Fell(pre, post, i)
    ensures CreditsOf(accounts, pre, post, n, address) > 0
        ==> exists i :: 0 <= i < n && accounts[i] == address && Rose(pre, post, i)
    decreases n
  {
    if n > 0 {
      HoldersMoved(accounts, pre, post, n - 1, address);
      assert Debit(pre, post, n - 1) > 0 ==> Fell(pre, post, n - 1);
      assert Credit(pre, post, n - 1) > 0 ==> Rose(pre, post, n - 1);
    }
  }

  method CollectParties(accounts: seq<string>, pre: seq<nat>, post: seq<nat>)
    returns (senders: seq<Party>, receivers: seq<Party>)
    ensures senders == SendersOf(accounts, pre, post, |accounts|)
    ensures receivers == ReceiversOf(accounts, pre, post, |accounts|)
  {
    senders, receivers := [], [];
    for i := 0 to |accounts|
      invariant senders == SendersOf(accounts, pre, post, i)
      invariant receivers == ReceiversOf(accounts, pre, post, i)
    {
      AccountJoins(pre, post, i);
      var before: int := if i < |pre| then pre[i] else 0;
      var after: int := if i < |post| then post[i] else 0;
      var diff := after - before;
      if diff > 0 {
        receivers := receivers + [Party(accounts[i], diff)];
      } else if diff < 0 && !(i == 0 && -diff < FEE_PAYER_NOISE) {
        senders := senders + [Party(accounts[i], -diff)];
      }
    }
  }

  function InsertByAmount(party: Party, parties: seq<Party>): (ordered: seq<Party>)
    ensures party.amount > 0 && Positive(parties) ==> Positive(ordered)
  {
    if parties == [] then [party]
    else if party.amount >= parties[0].amount then [party] + parties
    else [parties[0]] + InsertByAmount(party, parties[1..])
  }

  /** Largest first, equals in their original order. */
  function LargestFirst(parties: seq<Party>): (ordered: seq<Party>)
    ensures Positive(parties) ==> Positive(ordered)
  {
    if parties == [] then [] else InsertByAmount(parties[0], LargestFirst(parties[1..]))
  }

  predicate Descending(parties: seq<Party>) {
    forall i, j | 0 <= i < j < |parties| :: parties[i].amount >= parties[j].amount
  }

  lemma {:induction false} InsertKeepsTotal(party: Party, parties: seq<Party>, address: string)
    ensures Total(InsertByAmount(party, parties)) == Total(parties) + party.amount
    ensures Held(InsertByAmount(party, parties), address)
         == Held(parties, address) + (if party.address == address then party.amount else 0)
    ensures |InsertByAmount(party, parties)| == |parties| + 1
    decreases |parties|
  {
    if parties != [] && party.amount < parties[0].amount {
      InsertKeepsTotal(party, parties[1..], address);
      var rest := InsertByAmount(party, parties[1..]);
      assert ([parties[0]] + rest)[1..] == rest;
    } else {
      assert ([party] + parties)[1..] == parties;
    }
  }

  lemma {:induction false} InsertAddsParty(party: Party, parties: seq<Party>)
    ensures multiset(InsertByAmount(party, parties)) == multiset(parties) + multiset{party}
    decreases |parties|
  {
    if parties != [] {
      assert parties == [parties[0]] + parties[1..];
      InsertAddsParty(party, parties[1..]);
    }
  }

  lemma {:induction false} InsertKeepsOrder(party: Party, parties: seq<Party>)
    requires Descending(parties)
    ensures Descending(InsertByAmount(party, parties))
    decreases |parties|
  {
    if parties != [] && party.amount < parties[0].amount {
      InsertKeepsOrder(party, parties[1..]);
      InsertAddsParty(party, parties[1..]);
      var rest := InsertByAmount(party, parties[1..]);
      forall j | 0 <= j < |rest| ensures parties[0].amount >= rest[j].amount {
        assert rest[j] in multiset(rest);
        assert rest[j] in multiset(parties[1..]) || rest[j] == party;
      }
    }
  }

  lemma {:induction false} OrderingSorts(parties: seq<Party>)
    ensures Descending(LargestFirst(parties))
    ensures multiset(LargestFirst(parties)) == multiset(parties)
    decreases |parties|
  {
    if parties != [] {
      OrderingSorts(parties[1..]);
      InsertKeepsOrder(parties[0], LargestFirst(parties[1..]));
      InsertAddsParty(parties[0], LargestFirst(parties[1..]));
      assert parties == [parties[0]] + parties[1..];
    }
  }

  lemma {:induction false} OrderingKeepsTotal(parties: seq<Party>, address: string)
    ensures |LargestFirst(parties)| == |parties| && Total(LargestFirst(parties)) == Total(parties)
    ensures Held(LargestFirst(parties), address) == Held(parties, address)
    decreases |parties|
  {
    if parties != [] {
      OrderingKeepsTotal(parties[1..], address);
      InsertKeepsTotal(parties[0], LargestFirst(parties[1..]), address);
    }
  }

  /** Ordering rearranges the parties, largest first, and nothing more. */
  lemma OrderingKeepsParties(parties: seq<Party>)
    ensures Descending(LargestFirst(parties))
    ensures multiset(LargestFirst(parties)) == multiset(parties)
    ensures |LargestFirst(parties)| == |parties| && Total(LargestFirst(parties)) == Total(parties)
    ensures forall a :: Held(LargestFirst(parties), a) == Held(parties, a)
  {
    OrderingSorts(parties);
    OrderingKeepsTotal(parties, "");
    forall a ensures Held(LargestFirst(parties), a) == Held(parties, a) {
      OrderingKeepsTotal(parties, a);
    }
  }

  /** The whole extraction: the transfers move exactly the smaller of all debits
      and all credits, each is positive, no address sends or receives more than
      its accounts lost or gained, nor anything unless one of them fell or rose,
      and they are fewer than the accounts. */
  method ExtractNativeTransfers(accounts: seq<string>, pre: seq<nat>, post: seq<nat>)
    returns (transfers: seq<Transfer>)
    ensures transfers == Pair(
      LargestFirst(SendersOf(accounts, pre, post, |accounts|)),
      LargestFirst(ReceiversOf(accounts, pre, post, |accounts|)))
    ensures Moved(transfers) == Min(Debits(pre, post, |accounts|), Credits(pre, post, |accounts|))
    ensures forall k | 0 <= k < |transfers| :: transfers[k].amount > 0
    ensures forall a :: 0 <= Sent(transfers, a) <= DebitsOf(accounts, pre, post, |accounts|, a)
    ensures forall a :: 0 <= Received(transfers, a) <= CreditsOf(accounts, pre, post, |accounts|, a)
    ensures forall a | Sent(transfers, a) > 0 ::
      exists i :: 0 <= i < |accounts| && accounts[i] == a && Fell(pre, post, i)
    ensures forall a | Received(transfers, a) > 0 ::
      exists i :: 0 <= i < |accounts| && accounts[i] == a && Rose(pre, post, i)
    ensures transfers != [] ==> |transfers| < |accounts|
  {
    var senders, receivers := CollectParties(accounts, pre, post);
    PartiesHoldChanges(accounts, pre, post, |accounts|, "");
    OrderingKeepsParties(senders);
    OrderingKeepsParties(receivers);
    senders, receivers := LargestFirst(senders), LargestFirst(receivers);
    transfers := PairGreedily(senders, receivers);
    PairingConserves(senders, receivers);
    forall a
      ensures 0 <= Sent(transfers, a) <= DebitsOf(accounts, pre, post, |accounts|, a)
      ensures 0 <= Received(transfers, a) <= CreditsOf(accounts, pre, post, |accounts|, a)
    {
      PartiesHoldChanges(accounts, pre, post, |accounts|, a);
      PairingUsesHoldings(senders, receivers, a);
    }
    forall a
      ensures DebitsOf(accounts, pre, post, |accounts|, a) > 0
          ==> exists i :: 0 <= i < |accounts| && accounts[i] == a && Fell(pre, post, i)
      ensures CreditsOf(accounts, pre, post, |accounts|, a) > 0
          ==> exists i :: 0 <= i < |accounts| && accounts[i] == a && Rose(pre, post, i)
    {
      HoldersMoved(accounts, pre, post, |accounts|, a);
    }
  }
}
