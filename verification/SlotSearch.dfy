/** Binary search for the slot at a given time, over slots some of which have no
    time. */
module SlotSearch {
  import opened ClaimTypes

  const PROBES := 8

  /** The block time of each slot; a skipped slot has none. */
  type BlockTimes = int -> Option<int>

  /** What each call for a slot's time comes back with. */
  type Answers = (nat, int) -> Option<int>

  /** The first slot from `s` on that has a time, within the probes. */
  predicate FirstAnswer(times: BlockTimes, s: int, p: int) {
    && s <= p < s + PROBES
    && times(p).Some?
    && forall q | s <= q < p :: times(q).None?
  }

  /** The next slot with a time is at or after the target. */
  ghost predicate Late(times: BlockTimes, target: int, s: int) {
    exists p :: FirstAnswer(times, s, p) && times(p).value >= target
  }

  ghost predicate NonDecreasing(times: BlockTimes) {
    forall p, q | p <= q && times(p).Some? && times(q).Some? :: times(p).value <= times(q).value
  }

  ghost predicate Answered(times: BlockTimes, s: int) {
    exists p :: FirstAnswer(times, s, p)
  }

  /** Of any eight slots in a row that begin below the head, one has a time. */
  ghost predicate Dense(times: BlockTimes, head: int) {
    forall s | 1 <= s < head :: HasOneOfEight(times, s)
  }

  ghost predicate HasOneOfEight(times: BlockTimes, s: int) {
    exists p :: s <= p < s + 8 && times(p).Some?
  }

  lemma OneOfEightAnswers(times: BlockTimes, s: int)
    ensures HasOneOfEight(times, s) <==> Answered(times, s)
  {
    if p :| s <= p < s + 8 && times(p).Some? {
      FirstOf(times, s, p);
    }
  }

  lemma FirstOf(times: BlockTimes, s: int, p: int)
    requires s <= p < s + 8 && times(p).Some?
    ensures Answered(times, s)
    decreases p - s
  {
    if q :| s <= q < p && times(q).Some? {
      FirstOf(times, s, q);
    } else {
      assert FirstAnswer(times, s, p);
    }
  }

  lemma DenseAnswers(times: BlockTimes, head: int)
    requires Dense(times, head)
    ensures forall s | 1 <= s < head :: Answered(times, s)
  {
    forall s | 1 <= s < head ensures Answered(times, s) {
      OneOfEightAnswers(times, s);
    }
  }

  /** The least slot up to the head that is late, the head itself if none is. */
  ghost predicate IsLeastLate(times: BlockTimes, target: int, head: int, slot: int) {
    && 1 <= slot <= head
    && (slot == head || Late(times, target, slot))
    && forall s | 1 <= s < slot :: !Late(times, target, s)
  }

  /** Every call tells what the slot's time is. */
  ghost predicate Faithful(answer: Answers, times: BlockTimes) {
    forall call, slot :: answer(call, slot) == times(slot)
  }

  /** If the slot answering for `mid` is early, every slot up to `mid` is. */
  lemma EarlyBelow(times: BlockTimes, target: int, mid: int, p: int)
    requires NonDecreasing(times) && FirstAnswer(times, mid, p) && times(p).value < target
    ensures forall s | s <= mid :: !Late(times, target, s)
  {
    forall s, q | s <= mid && FirstAnswer(times, s, q) ensures times(q).value < target {
      assert q <= p;
    }
  }

  /** Whatever the calls come back with, the search ends at a slot no further
      than the probes past the head. When they tell the truth, times never fall
      and no gap outlasts the probes, it ends at the least late slot. */
  method SlotAtTime(target: int, head: nat, answer: Answers, ghost times: BlockTimes) returns (slot: int)
    ensures 1 <= slot && (head >= 1 ==> slot < head + 8) && (head < 1 ==> slot == 1)
    ensures head >= 1 && Faithful(answer, times) && NonDecreasing(times) && Dense(times, head)
        ==> IsLeastLate(times, target, head, slot)
  {
    var lo: int, hi: int, calls := 1, head, 0;
    ghost var sound := head >= 1 && Faithful(answer, times) && NonDecreasing(times) && Dense(times, head);
    if sound {
      DenseAnswers(times, head);
    }
    while lo < hi
      invariant 1 <= lo && hi <= head && (head >= 1 ==> lo < head + PROBES) && (head < 1 ==> lo == 1)
      invariant sound ==> lo <= hi && (hi == head || Late(times, target, hi))
      invariant sound ==> forall s | 1 <= s < lo :: !Late(times, target, s)
      decreases hi - lo
    {
      var mid := (lo + hi) / 2;
      var time: Option<int>, probe: int := None, mid;
      while probe < mid + PROBES && time.None?
        invariant mid <= probe <= mid + PROBES
        invariant sound && time.None? ==> forall q | mid <= q < probe :: times(q).None?
        invariant sound && time.Some? ==> FirstAnswer(times, mid, probe - 1) && times(probe - 1) == time
      {
        time := answer(calls, probe);
        calls := calls + 1;
        probe := probe + 1;
      }
      if time.None? {
        assert sound ==> Answered(times, mid);
        lo := mid + PROBES;
        continue;
      }
      if time.value < target {
        if sound {
          EarlyBelow(times, target, mid, probe - 1);
        }
        lo := mid + 1;
      } else {
        hi := mid;
      }
    }
    slot := lo;
  }

  // ---------------------------------------------------------------------------
  // Against what the search is documented to return
  // ---------------------------------------------------------------------------

  predicate Early(times: BlockTimes, target: int, q: int) {
    times(q).Some? && times(q).value < target
  }

  /** The first slot held at or after the target. */
  ghost predicate IsFirstHeldLate(times: BlockTimes, target: int, p: int) {
    && p >= 1 && times(p).Some? && times(p).value >= target
    && forall q | 1 <= q < p && times(q).Some? :: times(q).value < target
  }

  /** The last early slot below `n`, zero where there is none. */
  function LastEarly(times: BlockTimes, target: int, n: nat): (last: nat)
    ensures last == 0 || (last < n && Early(times, target, last))
    ensures forall q | 1 <= q < n && Early(times, target, q) :: q <= last
  {
    if n <= 1 then 0
    else if Early(times, target, n - 1) then n - 1
    else LastEarly(times, target, n - 1)
  }

  /** A slot is late exactly when no slot from it on is early. */
  lemma LateIff(times: BlockTimes, target: int, s: int)
    requires NonDecreasing(times) && Answered(times, s)
    ensures Late(times, target, s) <==> forall q | q >= s :: !Early(times, target, q)
  {
    var p :| FirstAnswer(times, s, p);
    forall q, a | q >= s && Early(times, target, q) && FirstAnswer(times, s, a) ensures times(a).value < target {
      assert a <= q;
    }
    if forall q | q >= s :: !Early(times, target, q) {
      assert !Early(times, target, p);
    }
  }

  /** The search returns one past the last early slot below the head, or the head
      when an early slot is at it or beyond. */
  lemma LeastLateFollowsLastEarly(times: BlockTimes, target: int, head: nat, slot: int)
    requires NonDecreasing(times) && Dense(times, head) && IsLeastLate(times, target, head, slot)
    ensures slot == if exists q :: q >= head && Early(times, target, q) then head
                    else LastEarly(times, target, head) + 1
  {
    var last := LastEarly(times, target, head);
    DenseAnswers(times, head);
    if q :| q >= head && Early(times, target, q) {
      if slot < head {
        LateIff(times, target, slot);
      }
    } else {
      if slot < head {
        LateIff(times, target, slot);
      }
      if last + 1 < head {
        LateIff(times, target, last + 1);
        assert forall q | q >= last + 1 :: !Early(times, target, q);
      }
    }
  }

  /** What is documented, the first slot held at or after the target, is what comes
      back exactly when no early slot is at the head or beyond and the slot after
      the last early one is held. */
  lemma SearchKeepsPromiseIff(times: BlockTimes, target: int, head: nat, slot: int)
    requires NonDecreasing(times) && Dense(times, head) && IsLeastLate(times, target, head, slot)
    ensures IsFirstHeldLate(times, target, slot) <==>
      && (forall q | q >= head :: !Early(times, target, q))
      && times(LastEarly(times, target, head) + 1).Some?
  {
    LeastLateFollowsLastEarly(times, target, head, slot);
    var last := LastEarly(times, target, head);
    if q :| q >= head && Early(times, target, q) {
      assert slot == head;
      assert times(slot).Some? ==> times(slot).value <= times(q).value;
    } else {
      assert slot == last + 1;
      assert !Early(times, target, slot) by {
        assert slot < head ==> forall q | 1 <= q < head && Early(times, target, q) :: q <= last;
      }
      forall q | 1 <= q < slot && times(q).Some? ensures times(q).value < target {
        assert times(last).Some?;
      }
    }
  }

  /** With the slot before the target's block skipped, the search stops on the
      skipped one. */
  lemma SkippedSlotIsReturned()
    ensures
      var times: BlockTimes := s => if s == 2 then None else Some(s);
      && NonDecreasing(times) && Dense(times, 5)
      && IsLeastLate(times, 3, 5, 2) && times(2).None?
  {
    var times: BlockTimes := s => if s == 2 then None else Some(s);
    forall s | 1 <= s < 5 ensures HasOneOfEight(times, s) {
      assert times(s + 2).Some? || times(s).Some?;
    }
    assert FirstAnswer(times, 2, 3);
    EarlyBelow(times, 3, 1, 1);
  }
}
