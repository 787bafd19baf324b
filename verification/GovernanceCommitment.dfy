/** The bytes a governance declaration is hashed as, with the checks that refuse
    to lay out a malformed one. */
module GovernanceCommitment {
  import opened ClaimTypes
  import opened Lexicographic
  import opened ByteLayout

  datatype Manifest = Manifest(
    tokenOwner: Bytes,
    delegate: Option<Bytes>,
    closeAuthority: Option<Bytes>,
    upgradeAuthority: Option<Bytes>,
    controller: Option<Bytes>,
    minThreshold: real,
    extras: seq<Bytes>,
    extensionHash: Option<Bytes>)

  datatype Layout =
    | Laid(bytes: Bytes)
    | ExtraNot32(index: nat)
    | TooManyExtras
    | KeyNot32(field: string)
    | ThresholdNotU16

  function Ascii(text: string): Bytes
    requires forall i | 0 <= i < |text| :: text[i] < 128 as char
  {
    seq(|text|, i requires 0 <= i < |text| => text[i] as int)
  }

  const DOMAIN: Bytes := Ascii("covantic-governance-manifest/v1")

  /** 32 zero bytes when there is no off-chain document. */
  function Extension(m: Manifest): Bytes {
    if m.extensionHash.Some? then m.extensionHash.value else seq(32, i => 0)
  }

  predicate BadOptional(key: Option<Bytes>) {
    key.Some? && |key.value| != 32
  }

  predicate IsU16(threshold: real) {
    threshold.Floor as real == threshold && 0 <= threshold.Floor <= 0xffff
  }

  function Parts(m: Manifest): seq<Bytes> {
    [DOMAIN]
    + ([m.tokenOwner]
    + ([OptionalKey(m.delegate)]
    + ([OptionalKey(m.closeAuthority)]
    + ([OptionalKey(m.upgradeAuthority)]
    + ([OptionalKey(m.controller)]
    + ([LittleEndian(m.minThreshold.Floor, 2)]
    + (KeyParts(SortedKeys(m.extras))
    + ([Extension(m)] + []))))))))
  }

  /** The position of the first key of another width, the length if there is none. */
  function FirstMisfit(keys: seq<Bytes>): (index: nat)
    ensures index <= |keys|
    ensures forall k | 0 <= k < index :: |keys[k]| == 32
    ensures index < |keys| ==> |keys[index]| != 32
  {
    if keys == [] || |keys[0]| != 32 then 0 else 1 + FirstMisfit(keys[1..])
  }

  /** The first check that fails names itself; the hash is not part of this model. */
  function Preimage(m: Manifest): Layout {
    if FirstMisfit(m.extras) < |m.extras| then ExtraNot32(FirstMisfit(m.extras))
    else if |m.extras| > 255 then TooManyExtras
    else if |m.tokenOwner| != 32 then KeyNot32("tokenOwner")
    else if BadOptional(m.delegate) then KeyNot32("expectedDelegate")
    else if BadOptional(m.closeAuthority) then KeyNot32("expectedCloseAuthority")
    else if BadOptional(m.upgradeAuthority) then KeyNot32("programUpgradeAuthority")
    else if BadOptional(m.controller) then KeyNot32("controller")
    else if !IsU16(m.minThreshold) then ThresholdNotU16
    else if |Extension(m)| != 32 then KeyNot32("extensionHash")
    else Laid(Flatten(Parts(m)))
  }

  /** Something in place of a key that is not one. */
  predicate IsMisfit(key: Option<Bytes>) {
    match key
    case None => false
    case Some(bytes) => |bytes| != 32
  }

  /** The first field that is not a key, going down the record as it is laid out; the
      threshold is checked between the controller and the extension. */
  predicate IsFirstMisfit(m: Manifest, field: string) {
    if |m.tokenOwner| != 32 then field == "tokenOwner"
    else if IsMisfit(m.delegate) then field == "expectedDelegate"
    else if IsMisfit(m.closeAuthority) then field == "expectedCloseAuthority"
    else if IsMisfit(m.upgradeAuthority) then field == "programUpgradeAuthority"
    else if IsMisfit(m.controller) then field == "controller"
    else IsMisfit(m.extensionHash) && field == "extensionHash"
  }

  predicate Equals(threshold: real, whole: int) {
    whole as real == threshold
  }

  /** A refusal names what is wrong, and nothing that is checked before it is. */
  lemma RefusalNamesFirstFailure(m: Manifest)
    ensures
      match Preimage(m)
      case ExtraNot32(i) => i < |m.extras| && |m.extras[i]| != 32 && AllKeys(m.extras[..i])
      case TooManyExtras => AllKeys(m.extras) && |m.extras| > 255
      case KeyNot32(field) =>
        && AllKeys(m.extras) && |m.extras| <= 255 && IsFirstMisfit(m, field)
        && (field == "extensionHash" ==> exists t :: 0 <= t < 65_536 && Equals(m.minThreshold, t))
      case ThresholdNotU16 =>
        && AllKeys(m.extras) && |m.extras| <= 255
        && (forall field :: IsFirstMisfit(m, field) ==> field == "extensionHash")
        && !exists t :: 0 <= t < 65_536 && Equals(m.minThreshold, t)
      case Laid(_) => true
  {
    assert m.minThreshold.Floor as real == m.minThreshold <==> Equals(m.minThreshold, m.minThreshold.Floor);
  }

  /** Everything the checks ask for. */
  predicate WellFormed(m: Manifest) {
    && AllKeys(m.extras) && |m.extras| <= 255
    && |m.tokenOwner| == 32
    && !BadOptional(m.delegate) && !BadOptional(m.closeAuthority)
    && !BadOptional(m.upgradeAuthority) && !BadOptional(m.controller)
    && IsU16(m.minThreshold)
    && |Extension(m)| == 32
  }

  /** The key as it is, or its field's name when it has another width. */
  method CheckKey(key: Bytes, field: string) returns (failed: Option<Layout>)
    ensures failed == if |key| == 32 then None else Some(KeyNot32(field))
  {
    return if |key| != 32 then Some(KeyNot32(field)) else None;
  }

  method CheckOptional(key: Option<Bytes>, field: string) returns (failed: Option<Layout>)
    ensures failed == if BadOptional(key) then Some(KeyNot32(field)) else None
  {
    failed := None;
    if key.Some? {
      failed := CheckKey(key.value, field);
    }
  }

  method CheckExtras(extras: seq<Bytes>) returns (failed: Option<Layout>)
    ensures failed == if FirstMisfit(extras) < |extras| then Some(ExtraNot32(FirstMisfit(extras)))
                      else if |extras| > 255 then Some(TooManyExtras) else None
  {
    for i := 0 to |extras|
      invariant forall k | 0 <= k < i :: |extras[k]| == 32
    {
      if |extras[i]| != 32 {
        return Some(ExtraNot32(i));
      }
    }
    return if |extras| > 255 then Some(TooManyExtras) else None;
  }

  /** The checks in the order the source makes them, then the bytes. */
  method BuildPreimage(m: Manifest) returns (layout: Layout)
    ensures layout == Preimage(m)
  {
    var failed := CheckExtras(m.extras);
    if failed.Some? { return failed.value; }
    failed := CheckKey(m.tokenOwner, "tokenOwner");
    if failed.Some? { return failed.value; }
    failed := CheckOptional(m.delegate, "expectedDelegate");
    if failed.Some? { return failed.value; }
    failed := CheckOptional(m.closeAuthority, "expectedCloseAuthority");
    if failed.Some? { return failed.value; }
    failed := CheckOptional(m.upgradeAuthority, "programUpgradeAuthority");
    if failed.Some? { return failed.value; }
    failed := CheckOptional(m.controller, "controller");
    if failed.Some? { return failed.value; }
    if !IsU16(m.minThreshold) { return ThresholdNotU16; }
    failed := CheckKey(Extension(m), "extensionHash");
    if failed.Some? { return failed.value; }
    var out := Concat(Parts(m));
    return Laid(out[..]);
  }

  /** The record the bytes stand for: keys in order, the extension always present. */
  function Canonical(m: Manifest): Manifest {
    m.(extras := SortedKeys(m.extras), extensionHash := Some(Extension(m)))
  }

  function Fields(m: Manifest): Bytes {
    DOMAIN + Body(m)
  }

  function Body(m: Manifest): Bytes {
    m.tokenOwner
    + (OptionalKey(m.delegate)
    + (OptionalKey(m.closeAuthority)
    + (OptionalKey(m.upgradeAuthority)
    + (OptionalKey(m.controller)
    + Terms(m.minThreshold.Floor, m.extras, Extension(m))))))
  }

  /** The three fields after the named authorities. */
  function Terms(threshold: int, extras: seq<Bytes>, extension: Bytes): Bytes {
    LittleEndian(threshold, 2) + (KeyList(extras) + (extension + []))
  }

  function DecodeTerms(bytes: Bytes): Option<(nat, seq<Bytes>, Bytes)> {
    var threshold := TakeNumber(bytes, 2);
    if threshold.Nothing? then None else
    var extras := TakeKeyList(threshold.rest);
    if extras.Nothing? then None else
    var extension := TakeKey(extras.rest);
    if extension.Nothing? || extension.rest != [] then None
    else Some((threshold.value, extras.value, extension.value))
  }

  function Decode(bytes: Bytes): Option<Manifest> {
    if DOMAIN <= bytes then DecodeBody(bytes[|DOMAIN|..]) else None
  }

  function DecodeBody(bytes: Bytes): Option<Manifest> {
    var owner := TakeKey(bytes);
    if owner.Nothing? then None else
    var delegate := TakeOptionalKey(owner.rest);
    if delegate.Nothing? then None else
    var close := TakeOptionalKey(delegate.rest);
    if close.Nothing? then None else
    var upgrade := TakeOptionalKey(close.rest);
    if upgrade.Nothing? then None else
    var controller := TakeOptionalKey(upgrade.rest);
    if controller.Nothing? then None else
    var terms := DecodeTerms(controller.rest);
    if terms.None? then None
    else Some(Manifest(owner.value, delegate.value, close.value, upgrade.value, controller.value,
                       terms.value.0 as real, terms.value.1, Some(terms.value.2)))
  }

  lemma TermsReadBack(threshold: int, extras: seq<Bytes>, extension: Bytes)
    requires 0 <= threshold <= 0xffff && AllKeys(extras) && |extras| < 256 && |extension| == 32
    ensures DecodeTerms(Terms(threshold, extras, extension)) == Some((threshold, extras, extension))
  {
    KeyReadsBack(extension, []);
    KeyListReadsBack(extras, extension + []);
    NumberReadsBack(threshold, 2, KeyList(extras) + (extension + []));
    U16Fits(threshold);
  }

  lemma TermsWriteBack(bytes: Bytes)
    requires DecodeTerms(bytes).Some?
    ensures
      var (threshold, extras, extension) := DecodeTerms(bytes).value;
      && bytes == Terms(threshold, extras, extension)
      && threshold <= 0xffff && AllKeys(extras) && |extras| < 256 && |extension| == 32
  {
    var threshold := TakeNumber(bytes, 2);
    var extras := TakeKeyList(threshold.rest);
    var extension := TakeKey(extras.rest);
    assert extras.rest == extension.value + [];
    KeyListWritesBack(threshold.rest);
    NumberWritesBack(bytes, 2);
    assert Pow256(2) == 0x10000;
  }

  lemma PartsAreFields(m: Manifest)
    ensures Flatten(Parts(m)) == Fields(m.(extras := SortedKeys(m.extras)))
  {
    var p9: seq<Bytes> := [Extension(m)] + [];
    var p8 := KeyParts(SortedKeys(m.extras)) + p9;
    var p7 := [LittleEndian(m.minThreshold.Floor, 2)] + p8;
    var p6 := [OptionalKey(m.controller)] + p7;
    var p5 := [OptionalKey(m.upgradeAuthority)] + p6;
    var p4 := [OptionalKey(m.closeAuthority)] + p5;
    var p3 := [OptionalKey(m.delegate)] + p4;
    FlattenCons(Extension(m), []);
    KeyPartsFlatten(SortedKeys(m.extras), p9);
    FlattenCons(LittleEndian(m.minThreshold.Floor, 2), p8);
    FlattenCons(OptionalKey(m.controller), p7);
    FlattenCons(OptionalKey(m.upgradeAuthority), p6);
    FlattenCons(OptionalKey(m.closeAuthority), p5);
    FlattenCons(OptionalKey(m.delegate), p4);
    FlattenCons(m.tokenOwner, p3);
    FlattenCons(DOMAIN, [m.tokenOwner] + p3);
  }

  /** The owner and the four named authorities, each behind a byte that says whether
      it is there, and then `rest`. */
  function Named(m: Manifest, rest: Bytes): Bytes {
    m.tokenOwner
    + ((match m.delegate case None => [0] case Some(key) => [1] + key)
    + ((match m.closeAuthority case None => [0] case Some(key) => [1] + key)
    + ((match m.upgradeAuthority case None => [0] case Some(key) => [1] + key)
    + ((match m.controller case None => [0] case Some(key) => [1] + key)
    + rest))))
  }

  /** The layout, spelled out: the domain, the named authorities, the threshold low
      byte first, the sorted authorities behind their count, and the extension or 32
      zero bytes. */
  lemma FieldsLieInOrder(m: Manifest)
    requires Preimage(m).Laid?
    ensures
      var bytes := Preimage(m).bytes;
      var threshold := m.minThreshold.Floor;
      var extension := match m.extensionHash case None => seq(32, i => 0) case Some(hash) => hash;
      && |bytes| >= 31
      && (forall i | 0 <= i < 31 :: bytes[i] == "covantic-governance-manifest/v1"[i] as int)
      && bytes[31..] == Named(m,
           [threshold % 256, threshold / 256] + ([|m.extras|] + Flatten(SortedKeys(m.extras)) + extension))
  {
    var threshold := m.minThreshold.Floor;
    var terms := [threshold % 256, threshold / 256] + ([|m.extras|] + Flatten(SortedKeys(m.extras)) + Extension(m));
    BytesAreNamed(m);
    DomainIsText();
    FrontIsDomain(DOMAIN, Named(m, terms));
  }

  lemma BytesAreNamed(m: Manifest)
    requires Preimage(m).Laid?
    ensures
      var threshold := m.minThreshold.Floor;
      Preimage(m).bytes == DOMAIN + Named(m,
        [threshold % 256, threshold / 256] + ([|m.extras|] + Flatten(SortedKeys(m.extras)) + Extension(m)))
  {
    PartsAreFields(m);
    FieldsAreNamed(m, m.(extras := SortedKeys(m.extras)));
  }

  lemma FieldsAreNamed(m: Manifest, sorted: Manifest)
    requires 0 <= m.minThreshold.Floor <= 0xffff && |m.extras| <= 255
    requires sorted == m.(extras := SortedKeys(m.extras))
    ensures
      var threshold := m.minThreshold.Floor;
      Fields(sorted) == DOMAIN + Named(m,
        [threshold % 256, threshold / 256] + ([|m.extras|] + Flatten(SortedKeys(m.extras)) + Extension(m)))
  {
    SortingSorts(m.extras);
    var terms := Terms(m.minThreshold.Floor, sorted.extras, Extension(m));
    TermsAreSpelled(m.minThreshold.Floor, sorted.extras, Extension(m));
    BodyIsNamed(sorted, terms);
    assert Named(sorted, terms) == Named(m, terms);
  }

  lemma BodyIsNamed(m: Manifest, terms: Bytes)
    requires terms == Terms(m.minThreshold.Floor, m.extras, Extension(m))
    ensures Body(m) == Named(m, terms)
  {
    assert OptionalKey(m.delegate) == match m.delegate case None => [0] case Some(key) => [1] + key;
    assert OptionalKey(m.closeAuthority) == match m.closeAuthority case None => [0] case Some(key) => [1] + key;
    assert OptionalKey(m.upgradeAuthority) == match m.upgradeAuthority case None => [0] case Some(key) => [1] + key;
    assert OptionalKey(m.controller) == match m.controller case None => [0] case Some(key) => [1] + key;
  }

  lemma DomainIsText()
    ensures |DOMAIN| == 31
    ensures forall i | 0 <= i < 31 :: DOMAIN[i] == "covantic-governance-manifest/v1"[i] as int
  {
  }

  lemma FrontIsDomain(domain: Bytes, body: Bytes)
    requires |domain| == 31
    ensures |domain + body| >= 31 && (domain + body)[31..] == body
    ensures forall i | 0 <= i < 31 :: (domain + body)[i] == domain[i]
  {
  }

  /** The three fields after the named authorities, byte by byte. */
  lemma TermsAreSpelled(threshold: int, extras: seq<Bytes>, extension: Bytes)
    requires 0 <= threshold <= 0xffff && |extras| <= 255
    ensures Terms(threshold, extras, extension)
         == [threshold % 256, threshold / 256] + ([|extras|] + Flatten(extras) + extension)
  {
    ThresholdIsSpelled(threshold);
    RemainderIsUnique(|extras|, 256, 0, |extras|);
    TermsRegroup([threshold % 256, threshold / 256], [|extras|], Flatten(extras), extension);
  }

  lemma TermsRegroup(threshold: Bytes, count: Bytes, extras: Bytes, extension: Bytes)
    ensures threshold + ((count + extras) + (extension + [])) == threshold + (count + extras + extension)
  {
  }

  lemma ThresholdIsSpelled(threshold: int)
    requires 0 <= threshold <= 0xffff
    ensures LittleEndian(threshold, 2) == [threshold % 256, threshold / 256]
  {
    RemainderIsUnique(threshold / 256, 256, 0, threshold / 256);
    assert LittleEndian(threshold / 256, 1) == [threshold / 256];
  }

  lemma BodyReadsBack(m: Manifest)
    requires WellFormed(m)
    ensures DecodeBody(Body(m)) == Some(m.(extensionHash := Some(Extension(m))))
  {
    var t7 := Terms(m.minThreshold.Floor, m.extras, Extension(m));
    TermsReadBack(m.minThreshold.Floor, m.extras, Extension(m));
    OptionalKeyReadsBack(m.controller, t7);
    var t6 := OptionalKey(m.controller) + t7;
    OptionalKeyReadsBack(m.upgradeAuthority, t6);
    var t5 := OptionalKey(m.upgradeAuthority) + t6;
    OptionalKeyReadsBack(m.closeAuthority, t5);
    var t4 := OptionalKey(m.closeAuthority) + t5;
    OptionalKeyReadsBack(m.delegate, t4);
    KeyReadsBack(m.tokenOwner, OptionalKey(m.delegate) + t4);
  }

  lemma SortedReadsBack(m: Manifest)
    requires WellFormed(m)
    ensures Decode(DOMAIN + Body(m.(extras := SortedKeys(m.extras)))) == Some(Canonical(m))
  {
    SortingSorts(m.extras);
    SortingKeepsWidth(m.extras);
    var sorted := m.(extras := SortedKeys(m.extras));
    BodyReadsBack(sorted);
    SkipDomain(Body(sorted));
  }

  /** Exactly the well-formed declarations lay out, and each reads back as its
      canonical record. */
  lemma RoundTrip(m: Manifest)
    ensures Preimage(m).Laid? <==> WellFormed(m)
    ensures Preimage(m).Laid? ==> Decode(Preimage(m).bytes) == Some(Canonical(m))
  {
    if WellFormed(m) {
      PartsAreFields(m);
      SortedReadsBack(m);
    }
  }

  lemma SkipDomain(rest: Bytes)
    ensures DOMAIN <= DOMAIN + rest && (DOMAIN + rest)[|DOMAIN|..] == rest
  {
  }

  lemma U16Fits(v: int)
    requires 0 <= v <= 0xffff
    ensures v % Pow256(2) == v
  {
    assert Pow256(2) == 0x10000;
  }

  /** The bytes after the domain are the fields that were read from them. */
  lemma BodyWritesBack(body: Bytes)
    requires DecodeBody(body).Some?
    ensures
      var m := DecodeBody(body).value;
      Body(m) == body && WellFormed(m) && m.extensionHash.Some?
  {
    var owner := TakeKey(body);
    var delegate := TakeOptionalKey(owner.rest);
    var close := TakeOptionalKey(delegate.rest);
    var upgrade := TakeOptionalKey(close.rest);
    var controller := TakeOptionalKey(upgrade.rest);
    TermsWriteBack(controller.rest);
    OptionalKeyWritesBack(upgrade.rest);
    OptionalKeyWritesBack(close.rest);
    OptionalKeyWritesBack(delegate.rest);
    OptionalKeyWritesBack(owner.rest);
    assert body == owner.value + owner.rest;
    var (threshold, extras, extension) := DecodeTerms(controller.rest).value;
    assert (threshold as real).Floor == threshold;
  }

  /** Whatever the decoder accepts lays out, and as those very bytes when its
      authorities are in order. */
  lemma DecodedWritesBack(bytes: Bytes)
    requires Decode(bytes).Some?
    ensures
      var m := Decode(bytes).value;
      && Fields(m) == bytes
      && Preimage(m).Laid?
      && (Sorted(m.extras) ==> Preimage(m) == Laid(bytes) && Canonical(m) == m)
  {
    var m, body := Decode(bytes).value, bytes[|DOMAIN|..];
    BodyWritesBack(body);
    assert bytes == DOMAIN + body;
    RoundTrip(m);
    if Sorted(m.extras) {
      SortedStaysPut(m.extras);
      PartsAreFields(m);
      assert Canonical(m) == m;
    }
  }

  /** Among declarations that lay out, the bytes agree exactly when every field
      does - an absent extension being the zero one - and the extra authorities
      are permutations of each other. */
  lemma SameBytesSameManifest(a: Manifest, b: Manifest)
    requires Preimage(a).Laid? && Preimage(b).Laid?
    ensures Preimage(a) == Preimage(b) <==>
      && a.(extras := [], extensionHash := None) == b.(extras := [], extensionHash := None)
      && Extension(a) == Extension(b)
      && multiset(a.extras) == multiset(b.extras)
  {
    SortForgetsOrder(a.extras, b.extras);
    if Preimage(a) == Preimage(b) {
      RoundTrip(a);
      RoundTrip(b);
      assert Canonical(a).(extras := [], extensionHash := None) == a.(extras := [], extensionHash := None);
      assert Canonical(b).(extras := [], extensionHash := None) == b.(extras := [], extensionHash := None);
    }
  }
}
