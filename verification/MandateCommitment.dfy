/** The bytes an operating envelope is hashed as: one layout for every order the
    addresses may be listed in, and nothing else in common. */
module MandateCommitment {
  import opened ClaimTypes
  import opened Lexicographic
  import opened ByteLayout

  datatype Envelope = Envelope(
    maxSingleOutflow: int,
    maxWindowOutflow: int,
    windowSeconds: int,
    minRetainedBalance: int,
    counterparties: seq<Bytes>,
    programs: seq<Bytes>)

  /** The parts handed to the concatenation, in order. */
  function Parts(e: Envelope): seq<Bytes> {
    [LittleEndian(e.maxSingleOutflow, 8)]
    + ([LittleEndian(e.maxWindowOutflow, 8)]
    + ([LittleEndian(e.windowSeconds, 8)]
    + ([LittleEndian(e.minRetainedBalance, 8)]
    + (KeyParts(SortedKeys(e.counterparties))
    + (KeyParts(SortedKeys(e.programs)) + [])))))
  }

  /** What is hashed. The hash itself is not part of this model. */
  function Preimage(e: Envelope): Bytes {
    Flatten(Parts(e))
  }

  method BuildPreimage(e: Envelope) returns (out: array<Byte>)
    ensures fresh(out) && out[..] == Preimage(e)
  {
    out := Concat(Parts(e));
  }

  predicate WellFormed(e: Envelope) {
    && AllKeys(e.counterparties) && |e.counterparties| < 256
    && AllKeys(e.programs) && |e.programs| < 256
  }

  function AsSigned64(u: nat): int {
    if u < TWO64 / 2 then u else u - TWO64
  }

  /** The record the bytes stand for: truncated fields, sorted keys. */
  function Canonical(e: Envelope): Envelope {
    Envelope(
      e.maxSingleOutflow % TWO64,
      e.maxWindowOutflow % TWO64,
      AsSigned64(e.windowSeconds % TWO64),
      e.minRetainedBalance % TWO64,
      SortedKeys(e.counterparties),
      SortedKeys(e.programs))
  }

  /** Field by field, without the sort. */
  function Layout(e: Envelope): Bytes {
    LittleEndian(e.maxSingleOutflow, 8)
    + (LittleEndian(e.maxWindowOutflow, 8)
    + (LittleEndian(e.windowSeconds, 8)
    + (LittleEndian(e.minRetainedBalance, 8)
    + (KeyList(e.counterparties)
    + (KeyList(e.programs) + [])))))
  }

  function Decode(bytes: Bytes): Option<Envelope> {
    var single := TakeNumber(bytes, 8);
    if single.Nothing? then None else
    var window := TakeNumber(single.rest, 8);
    if window.Nothing? then None else
    var seconds := TakeNumber(window.rest, 8);
    if seconds.Nothing? then None else
    var retained := TakeNumber(seconds.rest, 8);
    if retained.Nothing? then None else
    var counterparties := TakeKeyList(retained.rest);
    if counterparties.Nothing? then None else
    var programs := TakeKeyList(counterparties.rest);
    if programs.Nothing? || programs.rest != [] then None
    else Some(Envelope(single.value, window.value, AsSigned64(seconds.value), retained.value,
                       counterparties.value, programs.value))
  }

  function InOrder(e: Envelope): Envelope {
    e.(counterparties := SortedKeys(e.counterparties), programs := SortedKeys(e.programs))
  }

  lemma PreimageIsLayout(e: Envelope)
    ensures Preimage(e) == Layout(InOrder(e))
  {
    var keys2 := KeyParts(SortedKeys(e.programs)) + [];
    var keys1 := KeyParts(SortedKeys(e.counterparties)) + keys2;
    var tail3 := [LittleEndian(e.minRetainedBalance, 8)] + keys1;
    var tail2 := [LittleEndian(e.windowSeconds, 8)] + tail3;
    KeyPartsFlatten(SortedKeys(e.programs), []);
    KeyPartsFlatten(SortedKeys(e.counterparties), keys2);
    FlattenCons(LittleEndian(e.minRetainedBalance, 8), keys1);
    FlattenCons(LittleEndian(e.windowSeconds, 8), tail3);
    FlattenCons(LittleEndian(e.maxWindowOutflow, 8), tail2);
    FlattenCons(LittleEndian(e.maxSingleOutflow, 8), [LittleEndian(e.maxWindowOutflow, 8)] + tail2);
  }

  /** Where each field lies: four eight-byte amounts, the low byte first, then each
      sorted list behind its count. */
  lemma FieldsLieInOrder(e: Envelope)
    ensures
      var bytes := Preimage(e);
      && |bytes| >= 34
      && FromLittleEndian(bytes[0..8]) == e.maxSingleOutflow % 0x1_0000_0000_0000_0000
      && FromLittleEndian(bytes[8..16]) == e.maxWindowOutflow % 0x1_0000_0000_0000_0000
      && FromLittleEndian(bytes[16..24]) == e.windowSeconds % 0x1_0000_0000_0000_0000
      && FromLittleEndian(bytes[24..32]) == e.minRetainedBalance % 0x1_0000_0000_0000_0000
      && bytes[0] == e.maxSingleOutflow % 256
      && bytes[32..] ==
           ([|e.counterparties| % 256] + Flatten(SortedKeys(e.counterparties)))
           + ([|e.programs| % 256] + Flatten(SortedKeys(e.programs)))
  {
    var a, b := LittleEndian(e.maxSingleOutflow, 8), LittleEndian(e.maxWindowOutflow, 8);
    var c, d := LittleEndian(e.windowSeconds, 8), LittleEndian(e.minRetainedBalance, 8);
    var lists := KeyList(SortedKeys(e.counterparties)) + (KeyList(SortedKeys(e.programs)) + []);
    PreimageIsLayout(e);
    SortingSorts(e.counterparties);
    SortingSorts(e.programs);
    assert Preimage(e) == a + (b + (c + (d + lists)));
    EightBytes();
    LittleEndianTruncates(e.maxSingleOutflow, 8);
    LittleEndianTruncates(e.maxWindowOutflow, 8);
    LittleEndianTruncates(e.windowSeconds, 8);
    LittleEndianTruncates(e.minRetainedBalance, 8);
    FourFronts(a, b, c, d, lists);
  }

  lemma FourFronts(a: Bytes, b: Bytes, c: Bytes, d: Bytes, rest: Bytes)
    requires |a| == |b| == |c| == |d| == 8
    ensures
      var bytes := a + (b + (c + (d + rest)));
      bytes[0..8] == a && bytes[8..16] == b && bytes[16..24] == c && bytes[24..32] == d && bytes[32..] == rest
  {
  }

  /** Decoding the bytes gives the canonical record back. */
  lemma RoundTrip(e: Envelope)
    requires WellFormed(e)
    ensures Decode(Preimage(e)) == Some(Canonical(e))
  {
    var cs, ps := SortedKeys(e.counterparties), SortedKeys(e.programs);
    PreimageIsLayout(e);
    EightBytes();
    SortingSorts(e.counterparties);
    SortingSorts(e.programs);
    SortingKeepsWidth(e.counterparties);
    SortingKeepsWidth(e.programs);
    KeyListReadsBack(ps, []);
    var tail5 := KeyList(ps) + [];
    KeyListReadsBack(cs, tail5);
    var tail4 := KeyList(cs) + tail5;
    NumberReadsBack(e.minRetainedBalance, 8, tail4);
    var tail3 := LittleEndian(e.minRetainedBalance, 8) + tail4;
    NumberReadsBack(e.windowSeconds, 8, tail3);
    var tail2 := LittleEndian(e.windowSeconds, 8) + tail3;
    NumberReadsBack(e.maxWindowOutflow, 8, tail2);
    NumberReadsBack(e.maxSingleOutflow, 8, LittleEndian(e.maxWindowOutflow, 8) + tail2);
  }

  /** The decoder accepts nothing else: whatever it reads lays out as those very
      bytes again, so it inverts the encoder on every record in key order. */
  lemma DecodedWritesBack(bytes: Bytes)
    requires Decode(bytes).Some?
    ensures
      var e := Decode(bytes).value;
      && WellFormed(e)
      && Layout(e) == bytes
      && (Sorted(e.counterparties) && Sorted(e.programs) ==> Preimage(e) == bytes)
  {
    EightBytes();
    var e := Decode(bytes).value;
    var single := TakeNumber(bytes, 8);
    var window := TakeNumber(single.rest, 8);
    var seconds := TakeNumber(window.rest, 8);
    var retained := TakeNumber(seconds.rest, 8);
    var counterparties := TakeKeyList(retained.rest);
    KeyListWritesBack(counterparties.rest);
    KeyListWritesBack(retained.rest);
    NumberWritesBack(seconds.rest, 8);
    NumberWritesBack(window.rest, 8);
    SignedSameBytes(seconds.value);
    NumberWritesBack(single.rest, 8);
    NumberWritesBack(bytes, 8);
    if Sorted(e.counterparties) && Sorted(e.programs) {
      SortedStaysPut(e.counterparties);
      SortedStaysPut(e.programs);
      PreimageIsLayout(e);
    }
  }

  lemma CongruentSameBytes(v: int, w: int)
    ensures LittleEndian(v, 8) == LittleEndian(w, 8) <==> v % TWO64 == w % TWO64
  {
    EightBytes();
    LittleEndianTruncates(v, 8);
    LittleEndianTruncates(w, 8);
    LittleEndianRestores(LittleEndian(v, 8));
    LittleEndianRestores(LittleEndian(w, 8));
  }

  lemma SignedSameBytes(u: nat)
    requires u < TWO64
    ensures LittleEndian(AsSigned64(u), 8) == LittleEndian(u, 8)
    ensures AsSigned64(u) % TWO64 == u
  {
    if u >= TWO64 / 2 {
      RemainderIsUnique(u - TWO64, TWO64, -1, u);
    }
    RemainderIsUnique(u, TWO64, 0, u);
    CongruentSameBytes(AsSigned64(u), u);
  }

  /** The keys are keys, and the first count fits its byte. The second needs no
      bound: what is left of the bytes tells how many programs there are. */
  predicate TellsApart(e: Envelope) {
    AllKeys(e.counterparties) && AllKeys(e.programs) && |e.counterparties| < 256
  }

  /** The key lists that follow the amounts, as they are laid out. */
  function Lists(counterparties: seq<Bytes>, programs: seq<Bytes>): Bytes {
    KeyList(counterparties) + (KeyList(programs) + [])
  }

  lemma SameListsSameKeys(c: seq<Bytes>, p: seq<Bytes>, c': seq<Bytes>, p': seq<Bytes>)
    requires AllKeys(c) && AllKeys(p) && AllKeys(c') && AllKeys(p') && |c| < 256 && |c'| < 256
    requires Lists(c, p) == Lists(c', p')
    ensures c == c' && p == p'
  {
    assert Lists(c, p)[0] == |c| && Lists(c', p')[0] == |c'|;
    FlattenLength(c);
    FlattenLength(c');
    FrontsAgree(KeyList(c), KeyList(c'), KeyList(p) + [], KeyList(p') + []);
    FrontsAgree([|c|], [|c'|], Flatten(c), Flatten(c'));
    FlattenIsInjective(c, c');
    assert KeyList(p) == KeyList(p) + [] && KeyList(p') == KeyList(p') + [];
    FrontsAgree([|p| % 256], [|p'| % 256], Flatten(p), Flatten(p'));
    FlattenIsInjective(p, p');
  }

  lemma SameLayoutSameFields(a: Envelope, b: Envelope)
    requires TellsApart(a) && TellsApart(b) && Layout(a) == Layout(b)
    ensures LittleEndian(a.maxSingleOutflow, 8) == LittleEndian(b.maxSingleOutflow, 8)
    ensures LittleEndian(a.maxWindowOutflow, 8) == LittleEndian(b.maxWindowOutflow, 8)
    ensures LittleEndian(a.windowSeconds, 8) == LittleEndian(b.windowSeconds, 8)
    ensures LittleEndian(a.minRetainedBalance, 8) == LittleEndian(b.minRetainedBalance, 8)
    ensures a.counterparties == b.counterparties && a.programs == b.programs
  {
    var a4, b4 := Lists(a.counterparties, a.programs), Lists(b.counterparties, b.programs);
    var a3, b3 := LittleEndian(a.minRetainedBalance, 8) + a4, LittleEndian(b.minRetainedBalance, 8) + b4;
    var a2, b2 := LittleEndian(a.windowSeconds, 8) + a3, LittleEndian(b.windowSeconds, 8) + b3;
    var a1, b1 := LittleEndian(a.maxWindowOutflow, 8) + a2, LittleEndian(b.maxWindowOutflow, 8) + b2;
    FrontsAgree(LittleEndian(a.maxSingleOutflow, 8), LittleEndian(b.maxSingleOutflow, 8), a1, b1);
    FrontsAgree(LittleEndian(a.maxWindowOutflow, 8), LittleEndian(b.maxWindowOutflow, 8), a2, b2);
    FrontsAgree(LittleEndian(a.windowSeconds, 8), LittleEndian(b.windowSeconds, 8), a3, b3);
    FrontsAgree(LittleEndian(a.minRetainedBalance, 8), LittleEndian(b.minRetainedBalance, 8), a4, b4);
    SameListsSameKeys(a.counterparties, a.programs, b.counterparties, b.programs);
  }

  lemma InOrderTellsApart(e: Envelope)
    requires TellsApart(e)
    ensures TellsApart(InOrder(e))
  {
    SortingSorts(e.counterparties);
    SortingKeepsWidth(e.counterparties);
    SortingKeepsWidth(e.programs);
  }

  /** Same bytes exactly when every amount agrees modulo 2^64 and each key list
      is a permutation of the other's. */
  lemma SameBytesSameEnvelope(a: Envelope, b: Envelope)
    requires TellsApart(a) && TellsApart(b)
    ensures Preimage(a) == Preimage(b) <==>
      && a.maxSingleOutflow % TWO64 == b.maxSingleOutflow % TWO64
      && a.maxWindowOutflow % TWO64 == b.maxWindowOutflow % TWO64
      && a.windowSeconds % TWO64 == b.windowSeconds % TWO64
      && a.minRetainedBalance % TWO64 == b.minRetainedBalance % TWO64
      && multiset(a.counterparties) == multiset(b.counterparties)
      && multiset(a.programs) == multiset(b.programs)
  {
    PreimageIsLayout(a);
    PreimageIsLayout(b);
    SortForgetsOrder(a.counterparties, b.counterparties);
    SortForgetsOrder(a.programs, b.programs);
    if Preimage(a) == Preimage(b) {
      InOrderTellsApart(a);
      InOrderTellsApart(b);
      SameLayoutSameFields(InOrder(a), InOrder(b));
    }
    CongruentSameBytes(a.maxSingleOutflow, b.maxSingleOutflow);
    CongruentSameBytes(a.maxWindowOutflow, b.maxWindowOutflow);
    CongruentSameBytes(a.windowSeconds, b.windowSeconds);
    CongruentSameBytes(a.minRetainedBalance, b.minRetainedBalance);
  }

  /** Amounts the program accepts: unsigned fields and a signed window. */
  predicate InRange(e: Envelope) {
    && 0 <= e.maxSingleOutflow < TWO64
    && 0 <= e.maxWindowOutflow < TWO64
    && -(TWO64 / 2) <= e.windowSeconds < TWO64 / 2
    && 0 <= e.minRetainedBalance < TWO64
  }

  /** Exactly inside the fields' ranges nothing is truncated, and decoding returns every
      amount as it was. */
  lemma InRangeIsExact(e: Envelope)
    requires WellFormed(e)
    ensures Decode(Preimage(e)) == Some(InOrder(e)) <==> InRange(e)
  {
    RoundTrip(e);
    UnsignedFits(e.maxSingleOutflow);
    UnsignedFits(e.maxWindowOutflow);
    UnsignedFits(e.minRetainedBalance);
    SignedFits(e.windowSeconds);
    assert Canonical(e) == InOrder(e) <==>
      && e.maxSingleOutflow % TWO64 == e.maxSingleOutflow
      && e.maxWindowOutflow % TWO64 == e.maxWindowOutflow
      && AsSigned64(e.windowSeconds % TWO64) == e.windowSeconds
      && e.minRetainedBalance % TWO64 == e.minRetainedBalance;
  }

  lemma UnsignedFits(v: int)
    ensures v % TWO64 == v <==> 0 <= v < TWO64
  {
    if 0 <= v < TWO64 {
      RemainderIsUnique(v, TWO64, 0, v);
    }
  }

  lemma SignedFits(v: int)
    ensures AsSigned64(v % TWO64) == v <==> -(TWO64 / 2) <= v < TWO64 / 2
  {
    if 0 <= v < TWO64 / 2 {
      RemainderIsUnique(v, TWO64, 0, v);
    } else if -(TWO64 / 2) <= v < 0 {
      RemainderIsUnique(v, TWO64, -1, v + TWO64);
    }
  }

  /** Nothing checks a key's width here, and without it two different envelopes
      share their bytes: a two-byte destination reads as an empty one and a
      one-byte-shorter program list. */
  lemma ShortKeysCollide()
    ensures
      var a := Envelope(0, 0, 0, 0, [[1, 7]], []);
      var b := Envelope(0, 0, 0, 0, [[]], [[7, 0]]);
      Preimage(a) == Preimage(b) && multiset(a.counterparties) != multiset(b.counterparties)
  {
    var a := Envelope(0, 0, 0, 0, [[1, 7]], []);
    var b := Envelope(0, 0, 0, 0, [[]], [[7, 0]]);
    var z := LittleEndian(0, 8);
    PreimageIsLayout(a);
    PreimageIsLayout(b);
    assert InOrder(a) == a && InOrder(b) == b;
    ShortListsMeet();
    assert Layout(a) == z + (z + (z + (z + (KeyList([[1, 7]]) + (KeyList([]) + [])))));
    assert Layout(b) == z + (z + (z + (z + (KeyList([[]]) + (KeyList([[7, 0]]) + [])))));
    assert [1, 7] in multiset(a.counterparties) && [1, 7] !in multiset(b.counterparties);
  }

  lemma ShortListsMeet()
    ensures KeyList([[1, 7]]) + (KeyList([]) + []) == KeyList([[]]) + (KeyList([[7, 0]]) + [])
  {
    assert KeyList([[1, 7]]) + (KeyList([]) + []) == [1, 1, 7, 0];
    assert KeyList([[]]) + (KeyList([[7, 0]]) + []) == [1, 1, 7, 0];
  }

  /** Any envelope whatever shares its bytes with another: one that lists 256 more
      destinations, or any multiple of it, all of them empty. The count wraps back
      to what it was and the empty keys sort to the front, where they write
      nothing. */
  lemma EveryEnvelopeCollides(e: Envelope, n: nat)
    requires n > 0 && n % 256 == 0
    ensures
      var more := e.(counterparties := e.counterparties + Blanks(n));
      more != e && Preimage(more) == Preimage(e)
  {
    var more := e.(counterparties := e.counterparties + Blanks(n));
    assert |more.counterparties| != |e.counterparties|;
    BlanksLeaveKeyList(e.counterparties, n);
    PreimageIsLayout(e);
    PreimageIsLayout(more);
  }

  lemma BlanksLeaveKeyList(keys: seq<Bytes>, n: nat)
    requires n % 256 == 0
    ensures KeyList(SortedKeys(keys + Blanks(n))) == KeyList(SortedKeys(keys))
  {
    BlanksSortFirst(keys, n);
    BlanksFlatten(n);
    PrefixWritesNothing(Blanks(n), SortedKeys(keys));
  }

  lemma PrefixWritesNothing(blanks: seq<Bytes>, keys: seq<Bytes>)
    requires |blanks| % 256 == 0 && Flatten(blanks) == []
    ensures KeyList(blanks + keys) == KeyList(keys)
  {
    FlattenAppends(blanks, keys);
    WrapsBack(|blanks|, |keys|);
  }

  lemma WrapsBack(n: nat, k: nat)
    requires n % 256 == 0
    ensures (n + k) % 256 == k % 256
  {
    RemainderIsUnique(n + k, 256, n / 256 + k / 256, k % 256);
  }

  function Blanks(n: nat): (blanks: seq<Bytes>)
    ensures |blanks| == n
  {
    seq(n, i => [])
  }

  lemma BlanksSortFirst(keys: seq<Bytes>, n: nat)
    ensures SortedKeys(keys + Blanks(n)) == Blanks(n) + SortedKeys(keys)
  {
    var sorted := Blanks(n) + SortedKeys(keys);
    SortingSorts(keys);
    SortingSorts(keys + Blanks(n));
    SortedIsUnique(SortedKeys(keys + Blanks(n)), sorted);
  }

  lemma {:induction false} BlanksFlatten(n: nat)
    ensures Flatten(Blanks(n)) == []
  {
    if n > 0 {
      BlanksFlatten(n - 1);
      assert Blanks(n)[1..] == Blanks(n - 1);
    }
  }

  /** Nor does anything check the counts, which wrap at a byte: 256 destinations
      and no programs read as no destinations and 256 programs. */
  lemma WrappedCountsCollide()
    ensures
      var zeros: seq<Bytes> := seq(256, i => ZeroKey());
      var a := Envelope(0, 0, 0, 0, zeros, []);
      var b := Envelope(0, 0, 0, 0, [], zeros);
      AllKeys(zeros) && Preimage(a) == Preimage(b) && a.counterparties != b.counterparties
  {
    var zeros: seq<Bytes> := seq(256, i => ZeroKey());
    AtMostIsTotal(ZeroKey(), ZeroKey());
    SortedStaysPut(zeros);
    ZerosFlatten(zeros);
    PreimageIsLayout(Envelope(0, 0, 0, 0, zeros, []));
    PreimageIsLayout(Envelope(0, 0, 0, 0, [], zeros));
    ZeroListsSwap(zeros);
  }

  lemma ZeroListsSwap(zeros: seq<Bytes>)
    requires |zeros| == 256
    requires forall i | 0 <= i < |Flatten(zeros)| :: Flatten(zeros)[i] == 0
    ensures KeyList(zeros) + (KeyList([]) + []) == KeyList([]) + (KeyList(zeros) + [])
  {
    var flat := Flatten(zeros);
    assert KeyList(zeros) == [0] + flat && KeyList([]) == [0];
    assert flat + [0] == [0] + flat;
    assert ([0] + flat) + ([0] + []) == [0] + (flat + [0]);
    assert [0] + (([0] + flat) + []) == [0] + ([0] + flat);
  }

  function ZeroKey(): Bytes {
    seq(32, i => 0)
  }

  lemma ZerosFlatten(keys: seq<Bytes>)
    requires forall k | 0 <= k < |keys| :: keys[k] == ZeroKey()
    ensures forall i | 0 <= i < |Flatten(keys)| :: Flatten(keys)[i] == 0
  {
    if keys != [] {
      ZerosFlatten(keys[1..]);
    }
  }
}
