/** What a staker's stored principal is worth after the vault's losses. */
module LossRevaluation {
  import opened ClaimTypes
  import opened Lexicographic
  import opened ByteLayout
  import opened Arithmetic

  const DISCRIMINATOR := 8
  const LOSS_INDEX_SNAPSHOT := 92
  const STAKER_SIZE_WITH_LOSS := 108
  const VAULT_LOSS_INDEX := 112
  const VAULT_SIZE_WITH_LOSS := 128

  /** Two 64-bit halves, the low one first; nothing where the buffer ends first. */
  function ReadU128(buffer: Bytes, offset: nat): Option<nat> {
    if offset + 16 > |buffer| then None
    else
      var low := FromLittleEndian(buffer[offset..offset + 8]);
      var high := FromLittleEndian(buffer[offset + 8..offset + 16]);
      Some(high * TWO64 + low)
  }

  /** A principal written down from one index to a lower one. A zero snapshot
      stands for the current index. */
  function WrittenDown(amount: nat, snapshot: nat, index: nat): nat {
    if snapshot == 0 || index == 0 || index >= snapshot then amount else amount * index / snapshot
  }

  /** The principal a position is shown at, read from both accounts as stored;
      nothing where a read runs past the end of an account. */
  function RevalueForLosses(amount: nat, staker: Bytes, vault: Option<Bytes>): Option<nat> {
    if |staker| < STAKER_SIZE_WITH_LOSS then Some(amount)
    else if vault.None? || |vault.value| < DISCRIMINATOR + VAULT_SIZE_WITH_LOSS then Some(amount)
    else
      var snapshot := ReadU128(staker[DISCRIMINATOR..], LOSS_INDEX_SNAPSHOT);
      var index := ReadU128(vault.value[DISCRIMINATOR..], VAULT_LOSS_INDEX);
      if snapshot.None? || index.None? then None
      else Some(WrittenDown(amount, snapshot.value, index.value))
  }

  // ---------------------------------------------------------------------------
  // Reading the accounts
  // ---------------------------------------------------------------------------

  lemma CarryOver(first: int, rest: int, power: int, high: int)
    ensures first + 256 * (rest + power * high) == first + 256 * rest + (256 * power) * high
  {
    Commutes(256, power, high);
  }

  lemma {:induction false} LittleEndianConcatenates(low: Bytes, high: Bytes)
    ensures FromLittleEndian(low + high) == FromLittleEndian(low) + Pow256(|low|) * FromLittleEndian(high)
    decreases |low|
  {
    if low == [] {
      assert low + high == high;
    } else {
      LittleEndianConcatenates(low[1..], high);
      assert (low + high)[1..] == low[1..] + high;
      CarryOver(low[0], FromLittleEndian(low[1..]), Pow256(|low| - 1), FromLittleEndian(high));
    }
  }

  lemma HalvesAreWhole(bytes: Bytes)
    requires |bytes| == 16
    ensures FromLittleEndian(bytes)
         == FromLittleEndian(bytes[8..]) * TWO64 + FromLittleEndian(bytes[..8])
  {
    assert bytes == bytes[..8] + bytes[8..];
    LittleEndianConcatenates(bytes[..8], bytes[8..]);
    EightBytes();
  }

  /** Reading the halves reads the sixteen bytes as one number. */
  lemma ReadU128ReadsWhole(before: Bytes, bytes: Bytes, after: Bytes)
    requires |bytes| == 16
    ensures ReadU128(before + bytes + after, |before|) == Some(FromLittleEndian(bytes))
  {
    SlicesOf(before, bytes, after);
    HalvesAreWhole(bytes);
  }

  lemma SlicesOf(before: Bytes, bytes: Bytes, after: Bytes)
    requires |bytes| == 16
    ensures
      var buffer, n := before + bytes + after, |before|;
      && n + 16 <= |buffer|
      && buffer[n..n + 8] == bytes[..8]
      && buffer[n + 8..n + 16] == bytes[8..]
  {
  }

  /** The size the staker account is held to leaves out its discriminator: the
      read runs past the end exactly for the eight lengths between. */
  lemma ReadFailsIff(amount: nat, staker: Bytes, vault: Option<Bytes>)
    ensures RevalueForLosses(amount, staker, vault).None?
       <==> vault.Some? && |vault.value| >= 136 && 108 <= |staker| < 116
  {
  }

  /** With both readings there - the snapshot in the staker's bytes 100 to 115, the
      index in the vault's 120 to 135 - an index under a snapshot writes the principal
      down in proportion, to the base unit below; any other pair of readings shows it
      whole. */
  lemma ShownInProportion(amount: nat, staker: Bytes, vault: Bytes)
    requires |staker| >= 116 && |vault| >= 136
    ensures
      var snapshot, index := FromLittleEndian(staker[100..116]), FromLittleEndian(vault[120..136]);
      var shown := RevalueForLosses(amount, staker, Some(vault));
      && shown.Some?
      && (if 0 < index < snapshot then
            shown.value * snapshot <= amount * index < (shown.value + 1) * snapshot
          else shown.value == amount)
  {
    ReadsAt(staker, 92);
    ReadsAt(vault, 112);
    var snapshot, index := FromLittleEndian(staker[100..116]), FromLittleEndian(vault[120..136]);
    if 0 < index < snapshot {
      WriteDownBounds(amount, snapshot, index);
      Distributes(WrittenDown(amount, snapshot, index), 1, snapshot);
    }
  }

  /** An account too short for the migration shows the principal whole. */
  lemma ShortAccountsShowPrincipal(amount: nat, staker: Bytes, vault: Option<Bytes>)
    requires |staker| < 108 || vault.None? || |vault.value| < 136
    ensures RevalueForLosses(amount, staker, vault) == Some(amount)
  {
  }

  lemma ReadsAt(account: Bytes, offset: nat)
    requires offset + 24 <= |account|
    ensures ReadU128(account[8..], offset) == Some(FromLittleEndian(account[offset + 8..offset + 24]))
  {
    var body, bytes := account[8..], account[offset + 8..offset + 24];
    assert body == body[..offset] + bytes + body[offset + 16..];
    ReadU128ReadsWhole(body[..offset], bytes, body[offset + 16..]);
  }

  // ---------------------------------------------------------------------------
  // Settling in steps
  // ---------------------------------------------------------------------------

  /** Where a principal stands after the index has moved through `indices`, the
      snapshot following it. */
  function InSteps(amount: nat, snapshot: nat, indices: seq<nat>): nat
    decreases |indices|
  {
    if indices == [] then amount
    else InSteps(WrittenDown(amount, snapshot, indices[0]), indices[0], indices[1..])
  }

  /** An index that was set and has only fallen since. */
  predicate Falling(snapshot: nat, indices: seq<nat>) {
    indices != [] ==> 0 < indices[0] <= snapshot && Falling(indices[0], indices[1..])
  }

  function Final(snapshot: nat, indices: seq<nat>): nat
    decreases |indices|
  {
    if indices == [] then snapshot else Final(indices[0], indices[1..])
  }

  /** The written-down principal is the exact one, rounded down. */
  lemma WriteDownBounds(amount: nat, snapshot: nat, index: nat)
    requires 0 < index <= snapshot
    ensures WrittenDown(amount, snapshot, index) * snapshot <= amount * index
    ensures amount * index < WrittenDown(amount, snapshot, index) * snapshot + snapshot
    ensures WrittenDown(amount, snapshot, index) <= amount
  {
    if index < snapshot {
      DivisionBounds(amount * index, snapshot);
      MulMono(index, snapshot, amount);
      MulCancels(WrittenDown(amount, snapshot, index), amount, snapshot);
    }
  }

  lemma DivisionBounds(a: nat, b: nat)
    requires b > 0
    ensures a / b * b <= a < a / b * b + b
  {
  }

  /** What the steps have lost so far to rounding, in units of `base`. */
  lemma StepLosesLessThanOne(first: nat, base: nat, amount: nat, snapshot: nat, index: nat)
    requires 0 < index <= snapshot && base > 0
    requires amount * base <= first * snapshot
    ensures
      var next := WrittenDown(amount, snapshot, index);
      && next * base <= first * index
      && first * index - next * base < first * snapshot - amount * base + base
  {
    var next := WrittenDown(amount, snapshot, index);
    WriteDownBounds(amount, snapshot, index);
    var loss := first * snapshot - amount * base;
    // In units of `snapshot`: the loss scales with the index, and rounding adds less than one.
    MulMono(next * snapshot, amount * index, base);
    MulMono(amount * base, first * snapshot, index);
    Rearranged(next, snapshot, base, amount, index, first);
    MulCancels(next * base, first * index, snapshot);
    MulMono(index, snapshot, loss);
    Scaled(first, snapshot, index, amount, base, next);
    MulCancels(first * index - next * base, loss + base, snapshot);
  }

  lemma Rearranged(next: int, snapshot: int, base: int, amount: int, index: int, first: int)
    ensures (next * base) * snapshot == (next * snapshot) * base
    ensures (amount * index) * base == (amount * base) * index
    ensures (first * snapshot) * index == (first * index) * snapshot
  {
    Commutes(next, base, snapshot);
    Commutes(amount, index, base);
    Commutes(first, snapshot, index);
  }

  lemma Commutes(a: int, b: int, c: int)
    ensures (a * b) * c == (a * c) * b
  {
  }

  lemma Scaled(first: int, snapshot: int, index: int, amount: int, base: int, next: int)
    requires amount * index < next * snapshot + snapshot && base > 0
    requires (first * snapshot - amount * base) * index <= (first * snapshot - amount * base) * snapshot
    ensures (first * index - next * base) * snapshot < (first * snapshot - amount * base + base) * snapshot
  {
    var loss := first * snapshot - amount * base;
    Distributes(first * index, next * base, snapshot);
    Distributes(first * snapshot, amount * base, index);
    Distributes(loss, base, snapshot);
    Rearranged(next, snapshot, base, amount, index, first);
    MulMono(amount * index + 1, next * snapshot + snapshot, base);
    Distributes(amount * index, 1, base);
    Distributes(next * snapshot, snapshot, base);
    Commutes(1, snapshot, base);
  }

  lemma {:induction false} StepsLoseLessThanEach(
    first: nat, base: nat, amount: nat, snapshot: nat, indices: seq<nat>)
    requires snapshot > 0 && base > 0 && Falling(snapshot, indices)
    requires amount * base <= first * snapshot
    ensures
      var last, final := InSteps(amount, snapshot, indices), Final(snapshot, indices);
      && 0 < final <= snapshot
      && last * base <= first * final
      && first * final - last * base <= first * snapshot - amount * base + |indices| * base
      && (indices != [] ==>
            first * final - last * base < first * snapshot - amount * base + |indices| * base)
    decreases |indices|
  {
    if indices != [] {
      var next := WrittenDown(amount, snapshot, indices[0]);
      StepLosesLessThanOne(first, base, amount, snapshot, indices[0]);
      StepsLoseLessThanEach(first, base, next, indices[0], indices[1..]);
      Distributes(|indices| - 1, 1, base);
    }
  }

  /** Settling step by step never pays more than settling once, and at most one
      base unit less for every step after the first. */
  lemma SettlingInStepsFallsShortByLittle(amount: nat, snapshot: nat, indices: seq<nat>)
    requires snapshot > 0 && indices != [] && Falling(snapshot, indices)
    ensures
      var once := WrittenDown(amount, snapshot, Final(snapshot, indices));
      once - (|indices| - 1) <= InSteps(amount, snapshot, indices) <= once
  {
    var final, last := Final(snapshot, indices), InSteps(amount, snapshot, indices);
    var once := WrittenDown(amount, snapshot, final);
    StepsLoseLessThanEach(amount, snapshot, amount, snapshot, indices);
    WriteDownBounds(amount, snapshot, final);
    Distributes(once, 1, snapshot);
    MulCancels(last, once + 1, snapshot);
    Distributes(once, last, snapshot);
    MulCancels(once - last, |indices|, snapshot);
  }

  /** Two steps can fall one base unit short. */
  lemma TwoStepsCanLoseAUnit()
    ensures Falling(10, [9, 8]) && InSteps(5, 10, [9, 8]) == 3 && WrittenDown(5, 10, 8) == 4
  {
    assert [9, 8][1..] == [8];
    assert InSteps(4, 9, [8]) == 3;
    assert Falling(9, [8]);
  }

  // ---------------------------------------------------------------------------
  // Positions side by side
  // ---------------------------------------------------------------------------

  function Sum(amounts: seq<nat>): nat {
    if amounts == [] then 0 else amounts[0] + Sum(amounts[1..])
  }

  function SumWrittenDown(amounts: seq<nat>, snapshot: nat, index: nat): nat {
    if amounts == [] then 0
    else WrittenDown(amounts[0], snapshot, index) + SumWrittenDown(amounts[1..], snapshot, index)
  }

  /** Positions that share a snapshot are together worth no more than their total
      written down at once, and less by under one base unit each. */
  lemma {:induction false} PositionsFitTheVault(amounts: seq<nat>, snapshot: nat, index: nat)
    ensures SumWrittenDown(amounts, snapshot, index) <= WrittenDown(Sum(amounts), snapshot, index) <= Sum(amounts)
    ensures amounts != [] ==>
      WrittenDown(Sum(amounts), snapshot, index) <= SumWrittenDown(amounts, snapshot, index) + |amounts| - 1
    decreases |amounts|
  {
    if 0 < index <= snapshot {
      WriteDownBounds(Sum(amounts), snapshot, index);
    }
    if amounts != [] {
      PositionsFitTheVault(amounts[1..], snapshot, index);
      if 0 < index <= snapshot {
        TwoPositions(amounts[0], Sum(amounts[1..]), snapshot, index);
      }
    }
  }

  lemma TwoPositions(a: nat, b: nat, snapshot: nat, index: nat)
    requires 0 < index <= snapshot
    ensures WrittenDown(a, snapshot, index) + WrittenDown(b, snapshot, index)
         <= WrittenDown(a + b, snapshot, index)
         <= WrittenDown(a, snapshot, index) + WrittenDown(b, snapshot, index) + 1
  {
    var x, y := WrittenDown(a, snapshot, index), WrittenDown(b, snapshot, index);
    var z := WrittenDown(a + b, snapshot, index);
    WriteDownBounds(a, snapshot, index);
    WriteDownBounds(b, snapshot, index);
    WriteDownBounds(a + b, snapshot, index);
    Distributes(a, b, index);
    Distributes(x, y, snapshot);
    Distributes(z, 1, snapshot);
    Distributes(x + y, 2, snapshot);
    MulCancels(x + y, z + 1, snapshot);
    MulCancels(z, x + y + 2, snapshot);
  }
}
