/** Fixed-width little-endian fields, 32-byte keys and their concatenation, each
    with the reader that takes it off the front of a byte string. */
module ByteLayout {
  import opened ClaimTypes
  import opened Lexicographic
  import opened Arithmetic

  function Pow256(n: nat): (p: nat)
    ensures p > 0
  {
    if n == 0 then 1 else 256 * Pow256(n - 1)
  }

  const TWO64: nat := 0x1_0000_0000_0000_0000

  lemma EightBytes()
    ensures Pow256(8) == TWO64
  {
    assert Pow256(4) == 0x1_0000_0000;
    assert Pow256(8) == 256 * (256 * (256 * (256 * Pow256(4))));
  }

  /** `v` truncated to `n` bytes, least significant first; two's complement for
      a negative `v`. */
  function LittleEndian(v: int, n: nat): (bytes: Bytes)
    ensures |bytes| == n
    decreases n
  {
    if n == 0 then [] else [v % 256] + LittleEndian(v / 256, n - 1)
  }

  function FromLittleEndian(bytes: Bytes): nat {
    if bytes == [] then 0 else bytes[0] + 256 * FromLittleEndian(bytes[1..])
  }

  lemma NonzeroMultipleIsFar(m: int, d: int)
    requires m > 0 && d != 0
    ensures m * d >= m || m * d <= -m
  {
    if d >= 1 {
      assert m * d == m + m * (d - 1);
    } else {
      assert m * d == -m - m * (-d - 1);
    }
  }

  lemma RemainderIsUnique(v: int, m: int, k: int, t: int)
    requires 0 <= t < m && v == m * k + t
    ensures v % m == t && v / m == k
  {
    assert m * (v / m - k) == m * (v / m) - m * k;
    if v / m != k {
      NonzeroMultipleIsFar(m, v / m - k);
    }
  }

  /** Truncating to a byte more than `p` keeps the low byte and truncates the rest
      to `p`. */
  lemma TruncateByByte(v: int, p: int)
    requires p > 0
    ensures v % (256 * p) == v % 256 + 256 * ((v / 256) % p)
  {
    var q, r := v / 256, v % 256;
    var k, s := q / p, q % p;
    assert 256 * (p * k) == (256 * p) * k;
    RemainderIsUnique(v, 256 * p, k, 256 * s + r);
  }

  lemma {:induction false} LittleEndianTruncates(v: int, n: nat)
    ensures FromLittleEndian(LittleEndian(v, n)) == v % Pow256(n)
    decreases n
  {
    if n > 0 {
      LittleEndianTruncates(v / 256, n - 1);
      TruncateByByte(v, Pow256(n - 1));
      assert LittleEndian(v, n)[1..] == LittleEndian(v / 256, n - 1);
    }
  }

  lemma {:induction false} LittleEndianRestores(bytes: Bytes)
    ensures LittleEndian(FromLittleEndian(bytes), |bytes|) == bytes
    ensures FromLittleEndian(bytes) < Pow256(|bytes|)
    decreases |bytes|
  {
    if bytes != [] {
      LittleEndianRestores(bytes[1..]);
      RemainderIsUnique(FromLittleEndian(bytes), 256, FromLittleEndian(bytes[1..]), bytes[0]);
      assert bytes == [bytes[0]] + bytes[1..];
    }
  }

  // ---------------------------------------------------------------------------
  // Concatenation
  // ---------------------------------------------------------------------------

  function Flatten(parts: seq<Bytes>): Bytes {
    if parts == [] then [] else parts[0] + Flatten(parts[1..])
  }

  lemma {:induction false} FlattenAppends(first: seq<Bytes>, rest: seq<Bytes>)
    ensures Flatten(first + rest) == Flatten(first) + Flatten(rest)
    decreases |first|
  {
    if first == [] {
      assert first + rest == rest;
    } else {
      FlattenAppends(first[1..], rest);
      assert (first + rest)[1..] == first[1..] + rest;
    }
  }

  function TotalLength(parts: seq<Bytes>): nat {
    if parts == [] then 0 else TotalLength(parts[..|parts| - 1]) + |parts[|parts| - 1]|
  }

  lemma {:induction false} TotalLengthIsFlat(parts: seq<Bytes>)
    ensures TotalLength(parts) == |Flatten(parts)|
    decreases |parts|
  {
    if parts != [] {
      var n := |parts| - 1;
      TotalLengthIsFlat(parts[..n]);
      FlattenAppends(parts[..n], [parts[n]]);
      assert parts == parts[..n] + [parts[n]];
      assert Flatten([parts[n]]) == parts[n];
    }
  }

  /** Lay the parts end to end in one buffer of their total length. */
  method Concat(parts: seq<Bytes>) returns (out: array<Byte>)
    ensures fresh(out)
    ensures out[..] == Flatten(parts)
  {
    var total := 0;
    for i := 0 to |parts|
      invariant total == TotalLength(parts[..i])
    {
      assert parts[..i + 1][..i] == parts[..i];
      total := total + |parts[i]|;
    }
    assert parts[..|parts|] == parts;
    TotalLengthIsFlat(parts);
    out := new Byte[total](_ => 0);
    var at := 0;
    for i := 0 to |parts|
      invariant at == |Flatten(parts[..i])| <= total
      invariant out[..at] == Flatten(parts[..i])
    {
      FlattenUpTo(parts, i);
      CopyAt(out, at, parts[i]);
      at := at + |parts[i]|;
      assert out[..at] == Flatten(parts[..i]) + parts[i];
    }
    assert parts[..|parts|] == parts;
    assert out[..at] == out[..];
  }

  lemma FlattenUpTo(parts: seq<Bytes>, i: nat)
    requires i < |parts|
    ensures Flatten(parts[..i + 1]) == Flatten(parts[..i]) + parts[i]
    ensures |Flatten(parts[..i + 1])| <= |Flatten(parts)|
  {
    FlattenAppends(parts[..i], [parts[i]]);
    assert parts[..i + 1] == parts[..i] + [parts[i]];
    assert Flatten([parts[i]]) == parts[i];
    FlattenAppends(parts[..i + 1], parts[i + 1..]);
    assert parts == parts[..i + 1] + parts[i + 1..];
  }

  method CopyAt(out: array<Byte>, at: nat, part: Bytes)
    requires at + |part| <= out.Length
    modifies out
    ensures out[..at + |part|] == old(out[..at]) + part
  {
    for j := 0 to |part|
      invariant out[..at + j] == old(out[..at]) + part[..j]
    {
      out[at + j] := part[j];
      assert out[..at + j + 1] == out[..at + j] + [part[j]];
    }
  }

  // ---------------------------------------------------------------------------
  // Readers
  // ---------------------------------------------------------------------------

  datatype Taken<T> = Nothing | Taken(value: T, rest: Bytes)

  function TakeNumber(bytes: Bytes, n: nat): Taken<nat> {
    if |bytes| < n then Nothing else Taken(FromLittleEndian(bytes[..n]), bytes[n..])
  }

  function TakeKey(bytes: Bytes): Taken<Bytes> {
    if |bytes| < 32 then Nothing else Taken(bytes[..32], bytes[32..])
  }

  function TakeKeys(bytes: Bytes, count: nat): Taken<seq<Bytes>> {
    if count == 0 then Taken([], bytes)
    else
      match TakeKey(bytes)
      case Nothing => Nothing
      case Taken(key, rest) =>
        match TakeKeys(rest, count - 1)
        case Nothing => Nothing
        case Taken(keys, remaining) => Taken([key] + keys, remaining)
  }

  function TakeOptionalKey(bytes: Bytes): Taken<Option<Bytes>> {
    if bytes == [] then Nothing
    else if bytes[0] == 0 then Taken(None, bytes[1..])
    else if bytes[0] == 1 then
      match TakeKey(bytes[1..])
      case Nothing => Nothing
      case Taken(key, rest) => Taken(Some(key), rest)
    else Nothing
  }

  /** A one-byte count, then that many keys. */
  function TakeKeyList(bytes: Bytes): Taken<seq<Bytes>> {
    if bytes == [] then Nothing else TakeKeys(bytes[1..], bytes[0])
  }

  predicate AllKeys(keys: seq<Bytes>) {
    forall k | 0 <= k < |keys| :: |keys[k]| == 32
  }

  lemma SortingKeepsWidth(keys: seq<Bytes>)
    requires AllKeys(keys)
    ensures AllKeys(SortedKeys(keys))
  {
    SortingSorts(keys);
    forall k | 0 <= k < |SortedKeys(keys)| ensures |SortedKeys(keys)[k]| == 32 {
      assert SortedKeys(keys)[k] in multiset(keys);
    }
  }

  /** Parts of one width at the front agree, and so does what follows. */
  lemma FrontsAgree(x: Bytes, y: Bytes, s: Bytes, t: Bytes)
    requires |x| == |y| && x + s == y + t
    ensures x == y && s == t
  {
    assert (x + s)[..|x|] == x && (y + t)[..|x|] == y;
    assert (x + s)[|x|..] == s && (y + t)[|x|..] == t;
  }

  lemma {:induction false} FlattenLength(keys: seq<Bytes>)
    requires AllKeys(keys)
    ensures |Flatten(keys)| == 32 * |keys|
    decreases |keys|
  {
    if keys != [] {
      FlattenLength(keys[1..]);
    }
  }

  /** Laid end to end, keys of one width can be told apart again without a count. */
  lemma {:induction false} FlattenIsInjective(a: seq<Bytes>, b: seq<Bytes>)
    requires AllKeys(a) && AllKeys(b) && Flatten(a) == Flatten(b)
    ensures a == b
    decreases |a|
  {
    FlattenLength(a);
    FlattenLength(b);
    if a != [] {
      FrontsAgree(a[0], b[0], Flatten(a[1..]), Flatten(b[1..]));
      FlattenIsInjective(a[1..], b[1..]);
      assert a == [a[0]] + a[1..] && b == [b[0]] + b[1..];
    }
  }

  function OptionalKey(key: Option<Bytes>): Bytes {
    if key.None? then [0] else [1] + key.value
  }

  function KeyList(keys: seq<Bytes>): Bytes {
    [|keys| % 256] + Flatten(keys)
  }

  lemma FlattenCons(part: Bytes, rest: seq<Bytes>)
    ensures Flatten([part] + rest) == part + Flatten(rest)
  {
    assert ([part] + rest)[1..] == rest;
  }

  /** The parts a key list contributes: its count, then each key. */
  function KeyParts(keys: seq<Bytes>): seq<Bytes> {
    [[|keys| % 256]] + keys
  }

  lemma KeyPartsFlatten(keys: seq<Bytes>, rest: seq<Bytes>)
    ensures Flatten(KeyParts(keys) + rest) == KeyList(keys) + Flatten(rest)
  {
    FlattenCons([|keys| % 256], keys);
    FlattenAppends(KeyParts(keys), rest);
  }

  lemma NumberReadsBack(v: int, n: nat, rest: Bytes)
    ensures TakeNumber(LittleEndian(v, n) + rest, n) == Taken(v % Pow256(n), rest)
  {
    LittleEndianTruncates(v, n);
    assert (LittleEndian(v, n) + rest)[..n] == LittleEndian(v, n);
    assert (LittleEndian(v, n) + rest)[n..] == rest;
  }

  lemma NumberWritesBack(bytes: Bytes, n: nat)
    requires TakeNumber(bytes, n).Taken?
    ensures
      var Taken(v, rest) := TakeNumber(bytes, n);
      bytes == LittleEndian(v, n) + rest && v < Pow256(n)
  {
    LittleEndianRestores(bytes[..n]);
  }

  lemma {:induction false} KeysReadBack(keys: seq<Bytes>, rest: Bytes)
    requires AllKeys(keys)
    ensures TakeKeys(Flatten(keys) + rest, |keys|) == Taken(keys, rest)
    decreases |keys|
  {
    if keys == [] {
      assert Flatten(keys) + rest == rest;
    } else {
      var tail := Flatten(keys[1..]) + rest;
      assert Flatten(keys) + rest == keys[0] + tail;
      assert (keys[0] + tail)[..32] == keys[0] && (keys[0] + tail)[32..] == tail;
      KeysReadBack(keys[1..], rest);
      assert keys == [keys[0]] + keys[1..];
    }
  }

  lemma {:induction false} KeysWriteBack(bytes: Bytes, count: nat)
    requires TakeKeys(bytes, count).Taken?
    ensures
      var Taken(keys, rest) := TakeKeys(bytes, count);
      |keys| == count && AllKeys(keys) && bytes == Flatten(keys) + rest
    decreases count
  {
    if count > 0 {
      var key, rest := bytes[..32], bytes[32..];
      KeysWriteBack(rest, count - 1);
      var Taken(keys, remaining) := TakeKeys(rest, count - 1);
      assert ([key] + keys)[1..] == keys;
      assert bytes == key + rest;
    }
  }

  lemma KeyListReadsBack(keys: seq<Bytes>, rest: Bytes)
    requires AllKeys(keys) && |keys| < 256
    ensures TakeKeyList(KeyList(keys) + rest) == Taken(keys, rest)
  {
    KeysReadBack(keys, rest);
    assert (KeyList(keys) + rest)[1..] == Flatten(keys) + rest;
  }

  lemma KeyListWritesBack(bytes: Bytes)
    requires TakeKeyList(bytes).Taken?
    ensures
      var Taken(keys, rest) := TakeKeyList(bytes);
      |keys| < 256 && AllKeys(keys) && bytes == KeyList(keys) + rest
  {
    var count: nat := bytes[0];
    KeysWriteBack(bytes[1..], count);
    var Taken(keys, rest) := TakeKeys(bytes[1..], count);
    assert [count] + bytes[1..] == bytes;
    ConcatAssociates([count], Flatten(keys), rest);
  }

  lemma KeyReadsBack(key: Bytes, rest: Bytes)
    requires |key| == 32
    ensures TakeKey(key + rest) == Taken(key, rest)
  {
    assert (key + rest)[..32] == key && (key + rest)[32..] == rest;
  }

  lemma OptionalKeyReadsBack(key: Option<Bytes>, rest: Bytes)
    requires key.Some? ==> |key.value| == 32
    ensures TakeOptionalKey(OptionalKey(key) + rest) == Taken(key, rest)
  {
    if key.Some? {
      KeyReadsBack(key.value, rest);
      assert (OptionalKey(key) + rest)[1..] == key.value + rest;
    } else {
      assert (OptionalKey(key) + rest)[1..] == rest;
    }
  }

  lemma OptionalKeyWritesBack(bytes: Bytes)
    requires TakeOptionalKey(bytes).Taken?
    ensures
      var Taken(key, rest) := TakeOptionalKey(bytes);
      bytes == OptionalKey(key) + rest && (key.Some? ==> |key.value| == 32)
  {
  }
}
