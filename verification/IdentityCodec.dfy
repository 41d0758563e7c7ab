/**
 Public identities and init envelopes on the wire, where every key, signature
 and ciphertext is its bytes.
 */
module IdentityCodec {
  import opened Wrappers
  import opened Bytes
  import opened Limits

  const V9_VERSION: byte := 0x09
  const SIG_PK_LEN: nat := 2592
  const SIGNATURE_LEN: nat := 4627
  const BUNDLE_LEN: nat := 1 + 2 * KEM_PK_LEN + 2 * X25519_PK_LEN + SIG_PK_LEN + SIGNATURE_LEN

  const ENVELOPE_FRONT_LEN: nat := 2 + BUNDLE_LEN + 2 * KEM_CT_LEN

  datatype WireBundle = WireBundle(ikKem: bytes, ikX: bytes, sigPk: bytes, spkKem: bytes, spkX: bytes, spkSig: bytes)
  {
    predicate IsV9() { ikX != [] && spkKem != [] && spkX != [] && spkSig != [] }

    predicate WellSized() {
      && |ikKem| == KEM_PK_LEN && |ikX| == X25519_PK_LEN && |sigPk| == SIG_PK_LEN
      && |spkKem| == KEM_PK_LEN && |spkX| == X25519_PK_LEN && |spkSig| == SIGNATURE_LEN
    }
  }

  datatype WireError = TooShort | NoSigningHeader | SigningKeyCut | BundleTruncated
    | EnvelopeTruncated | EnvelopeBundleTruncated | CiphertextsTruncated | NoPackage

  // ── Writing ───────────────────────────────────────────────────────

  function LegacyBytes(kem: bytes, sig: bytes): bytes { LE(|kem|, 2) + (kem + (LE(|sig|, 2) + sig)) }

  function BundleBytes(b: WireBundle): bytes {
    [V9_VERSION] + (b.ikKem + (b.ikX + (b.sigPk + (b.spkKem + (b.spkX + b.spkSig)))))
  }

  datatype Init = Init(bundle: WireBundle, ctSpk: bytes, ctIk: bytes, package: bytes)

  function InitBytes(i: Init): bytes {
    var enc := BundleBytes(i.bundle);
    LE(|enc|, 2) + (enc + (i.ctSpk + (i.ctIk + i.package)))
  }

  // ── Reading ───────────────────────────────────────────────────────

  function FieldAt(data: bytes, p: nat, len: nat): bytes
    requires p + len <= |data|
  {
    data[p..p + len]
  }

  function ReadLegacy(data: bytes): Result<(bytes, bytes), WireError> {
    if |data| < 2 then Err(TooShort)
    else
      var kemEnd := 2 + FromLE(data[..2]);
      if |data| < kemEnd + 2 then Err(NoSigningHeader)
      else
        var sigLen := FromLE(data[kemEnd..kemEnd + 2]);
        if |data| < kemEnd + 2 + sigLen then Err(SigningKeyCut)
        else Ok((data[2..kemEnd], data[kemEnd + 2..kemEnd + 2 + sigLen]))
  }

  function ReadBundle(data: bytes): Result<WireBundle, WireError> {
    if |data| == 0 || data[0] != V9_VERSION then
      match ReadLegacy(data)
      case Ok((kem, sig)) => Ok(WireBundle(kem, [], sig, [], [], []))
      case Err(e) => Err(e)
    else if |data| < BUNDLE_LEN then Err(BundleTruncated)
    else
      var ikX := 1 + KEM_PK_LEN;
      var sigPk := ikX + X25519_PK_LEN;
      var spkKem := sigPk + SIG_PK_LEN;
      var spkX := spkKem + KEM_PK_LEN;
      var spkSig := spkX + X25519_PK_LEN;
      Ok(WireBundle(FieldAt(data, 1, KEM_PK_LEN), FieldAt(data, ikX, X25519_PK_LEN), FieldAt(data, sigPk, SIG_PK_LEN),
                    FieldAt(data, spkKem, KEM_PK_LEN), FieldAt(data, spkX, X25519_PK_LEN),
                    FieldAt(data, spkSig, SIGNATURE_LEN)))
  }

  /** The bytes of the bundle's slot in an envelope. */
  function SlotOf(data: bytes): Result<bytes, WireError> {
    if |data| < 2 then Err(EnvelopeTruncated)
    else
      var len := FromLE(data[..2]);
      if |data| < 2 + len then Err(EnvelopeBundleTruncated) else Ok(data[2..2 + len])
  }

  function ReadInit(data: bytes): Result<Init, WireError> {
    match SlotOf(data)
    case Err(e) => Err(e)
    case Ok(slot) =>
      match ReadBundle(slot)
      case Err(e) => Err(e)
      case Ok(bundle) =>
        var rest := data[2 + |slot|..];
        if |rest| < 2 * KEM_CT_LEN then Err(CiphertextsTruncated)
        else if |rest| == 2 * KEM_CT_LEN then Err(NoPackage)
        else Ok(Init(bundle, rest[..KEM_CT_LEN], rest[KEM_CT_LEN..2 * KEM_CT_LEN], rest[2 * KEM_CT_LEN..]))
  }

  // ── The buffers and cursors that do it ────────────────────────────

  method EncodeBundle(b: WireBundle) returns (out: bytes)
    ensures out == BundleBytes(b)
  {
    out := [V9_VERSION];
    out := out + b.ikKem;
    out := out + b.ikX;
    out := out + b.sigPk;
    out := out + b.spkKem;
    out := out + b.spkX;
    out := out + b.spkSig;
  }

  method DecodeBundle(data: bytes) returns (r: Result<WireBundle, WireError>)
    ensures r == ReadBundle(data)
  {
    if |data| == 0 || data[0] != V9_VERSION {
      var legacy := ReadLegacy(data);
      if legacy.Err? {
        return Err(legacy.error);
      }
      return Ok(WireBundle(legacy.value.0, [], legacy.value.1, [], [], []));
    }
    if |data| < BUNDLE_LEN {
      return Err(BundleTruncated);
    }
    var ikKem, p := Take(data, 1, KEM_PK_LEN);
    var ikX, sigPk, spkKem, spkX, spkSig;
    ikX, p := Take(data, p, X25519_PK_LEN);
    sigPk, p := Take(data, p, SIG_PK_LEN);
    spkKem, p := Take(data, p, KEM_PK_LEN);
    spkX, p := Take(data, p, X25519_PK_LEN);
    spkSig, p := Take(data, p, SIGNATURE_LEN);
    return Ok(WireBundle(ikKem, ikX, sigPk, spkKem, spkX, spkSig));
  }

  method Take(data: bytes, p: nat, n: nat) returns (s: bytes, p': nat)
    requires p + n <= |data|
    ensures s == FieldAt(data, p, n) && p' == p + n
  {
    s, p' := data[p..p + n], p + n;
  }

  method BuildInitEnvelope(bundle: WireBundle, ctSpk: bytes, ctIk: bytes, package: bytes) returns (out: bytes)
    ensures out == InitBytes(Init(bundle, ctSpk, ctIk, package))
  {
    var enc := EncodeBundle(bundle);
    out := LE(|enc|, 2);
    out := out + enc;
    out := out + ctSpk;
    out := out + ctIk;
    out := out + package;
  }

  method ParseInitEnvelope(data: bytes) returns (r: Result<Init, WireError>)
    ensures r == ReadInit(data)
  {
    if |data| < 2 {
      return Err(EnvelopeTruncated);
    }
    var len, pos := FromLE(data[..2]), 2;
    if |data| < pos + len {
      return Err(EnvelopeBundleTruncated);
    }
    var bundle := DecodeBundle(data[pos..pos + len]);
    if bundle.Err? {
      return Err(bundle.error);
    }
    pos := pos + len;
    ghost var rest := data[pos..];
    if |data| < pos + KEM_CT_LEN * 2 {
      return Err(CiphertextsTruncated);
    }
    var ctSpk := data[pos..pos + KEM_CT_LEN];
    pos := pos + KEM_CT_LEN;
    var ctIk := data[pos..pos + KEM_CT_LEN];
    pos := pos + KEM_CT_LEN;
    var package := data[pos..];
    assert ctSpk == rest[..KEM_CT_LEN] && ctIk == rest[KEM_CT_LEN..2 * KEM_CT_LEN] && package == rest[2 * KEM_CT_LEN..];
    if |package| == 0 {
      return Err(NoPackage);
    }
    return Ok(Init(bundle.value, ctSpk, ctIk, package));
  }

  // ── Round trips ───────────────────────────────────────────────────

  lemma NextField(before: bytes, field: bytes, after: bytes, p: nat, len: nat)
    requires |before| == p && |field| == len
    ensures FieldAt(before + (field + after), p, len) == field
  {
  }

  /** Every well-sized bundle is read back, whatever follows it. */
  lemma BundleRoundTrip(b: WireBundle, extra: bytes)
    requires b.WellSized()
    ensures |BundleBytes(b)| == BUNDLE_LEN && ReadBundle(BundleBytes(b) + extra) == Ok(b) && b.IsV9()
  {
    var data := BundleBytes(b) + extra;
    var h0 := [V9_VERSION];
    var h1 := h0 + b.ikKem;
    var h2 := h1 + b.ikX;
    var h3 := h2 + b.sigPk;
    var h4 := h3 + b.spkKem;
    var h5 := h4 + b.spkX;
    var t5 := b.spkSig + extra;
    var t4 := b.spkX + t5;
    var t3 := b.spkKem + t4;
    var t2 := b.sigPk + t3;
    var t1 := b.ikX + t2;
    assert data == h0 + (b.ikKem + t1);
    assert data == h1 + t1;
    assert data == h2 + t2;
    assert data == h3 + t3;
    assert data == h4 + t4;
    assert data == h5 + t5;
    NextField(h0, b.ikKem, t1, 1, KEM_PK_LEN);
    NextField(h1, b.ikX, t2, |h1|, X25519_PK_LEN);
    NextField(h2, b.sigPk, t3, |h2|, SIG_PK_LEN);
    NextField(h3, b.spkKem, t4, |h3|, KEM_PK_LEN);
    NextField(h4, b.spkX, t5, |h4|, X25519_PK_LEN);
    NextField(h5, b.spkSig, extra, |h5|, SIGNATURE_LEN);
  }

  /** Where the keys of an encoded bundle are. */
  lemma BundleLayout(b: WireBundle)
    requires b.WellSized()
    ensures var d := BundleBytes(b);
            && |d| == 10420 && d[0] == 9 && d[1..1569] == b.ikKem && d[1569..1601] == b.ikX && d[1601..4193] == b.sigPk
            && d[4193..5761] == b.spkKem && d[5761..5793] == b.spkX && d[5793..] == b.spkSig
  {
    BundleRoundTrip(b, []);
    var d := BundleBytes(b);
    assert d + [] == d;
    assert FieldAt(d, 5793, SIGNATURE_LEN) == d[5793..];
  }

  /** And where the parts of an envelope are, the ciphertext for the prekey first. */
  lemma InitLayout(i: Init)
    requires i.bundle.WellSized() && |i.ctSpk| == KEM_CT_LEN && |i.ctIk| == KEM_CT_LEN
    ensures var d := InitBytes(i);
            && |d| == 13558 + |i.package| && FromLE(d[..2]) == 10420 && d[2..10422] == BundleBytes(i.bundle)
            && d[10422..11990] == i.ctSpk && d[11990..13558] == i.ctIk && d[13558..] == i.package
  {
    BundleLayout(i.bundle);
    Widths();
    LERoundTrip(10420, 2);
    hide BundleBytes;
    var d := InitBytes(i);
    var enc := BundleBytes(i.bundle);
    assert d == LE(10420, 2) + enc + (i.ctSpk + (i.ctIk + i.package));
    assert d == (LE(10420, 2) + enc + i.ctSpk) + (i.ctIk + i.package);
    assert d == (LE(10420, 2) + enc + i.ctSpk + i.ctIk) + i.package;
  }

  lemma FieldBefore(data: bytes, p: nat, len: nat)
    requires p + len <= |data|
    ensures data[..p + len] == data[..p] + FieldAt(data, p, len)
  {
  }

  lemma BundleInPieces(b: WireBundle)
    ensures BundleBytes(b) == [V9_VERSION] + b.ikKem + b.ikX + b.sigPk + b.spkKem + b.spkX + b.spkSig
  {
    var head := [V9_VERSION] + b.ikKem + b.ikX;
    assert BundleBytes(b) == head + (b.sigPk + (b.spkKem + (b.spkX + b.spkSig)));
  }

  /** What is read as a v0.9 bundle is well sized and was written by the encoder. */
  lemma BundleOfRead(data: bytes)
    requires |data| > 0 && data[0] == V9_VERSION && ReadBundle(data).Ok?
    ensures var b := ReadBundle(data).value;
            b.WellSized() && BundleBytes(b) == data[..BUNDLE_LEN]
  {
    var b := ReadBundle(data).value;
    BundleInPieces(b);
    hide BundleBytes, ReadLegacy;
    var ikX := 1 + KEM_PK_LEN;
    var sigPk := ikX + X25519_PK_LEN;
    var spkKem := sigPk + SIG_PK_LEN;
    var spkX := spkKem + KEM_PK_LEN;
    FieldBefore(data, 1, KEM_PK_LEN);
    FieldBefore(data, ikX, X25519_PK_LEN);
    FieldBefore(data, sigPk, SIG_PK_LEN);
    FieldBefore(data, spkKem, KEM_PK_LEN);
    FieldBefore(data, spkX, X25519_PK_LEN);
    FieldBefore(data, spkX + X25519_PK_LEN, SIGNATURE_LEN);
    assert data[..1] == [V9_VERSION];
  }

  lemma LegacyRoundTrip(kem: bytes, sig: bytes, extra: bytes)
    requires |kem| < U16 && |sig| < U16
    ensures ReadLegacy(LegacyBytes(kem, sig) + extra) == Ok((kem, sig))
  {
    Widths();
    LERoundTrip(|kem|, 2);
    LERoundTrip(|sig|, 2);
    hide LE, FromLE;
    var kemLen, sigLen := LE(|kem|, 2), LE(|sig|, 2);
    var data := LegacyBytes(kem, sig) + extra;
    var kemEnd := 2 + |kem|;
    assert data == kemLen + (kem + (sigLen + (sig + extra)));
    assert data == (kemLen + kem) + (sigLen + (sig + extra));
    assert data == (kemLen + kem + sigLen) + (sig + extra);
    NextField(kemLen, kem, sigLen + (sig + extra), 2, |kem|);
    NextField(kemLen + kem, sigLen, sig + extra, kemEnd, 2);
    NextField(kemLen + kem + sigLen, sig, extra, kemEnd + 2, |sig|);
    assert data[..2] == kemLen;
  }

  /**
   A v0.7 identity comes back as a bundle without prekey, unless the low byte
   of its first length is taken for the version.
   */
  lemma LegacyReadExactly(kem: bytes, sig: bytes, extra: bytes)
    requires |kem| < U16 && |sig| < U16
    ensures ReadBundle(LegacyBytes(kem, sig) + extra) == Ok(WireBundle(kem, [], sig, [], [], [])) <==> |kem| % 256 != 9
  {
    LegacyRoundTrip(kem, sig, extra);
    var data := LegacyBytes(kem, sig) + extra;
    assert data[0] == LE(|kem|, 2)[0] == |kem| % 256;
    if data[0] == V9_VERSION && ReadBundle(data).Ok? {
      BundleOfRead(data);
    }
  }

  /**
   An envelope with a well-sized bundle and ciphertexts is read back field by
   field, just when it carries a package.
   */
  lemma InitRoundTrip(i: Init)
    requires i.bundle.WellSized() && |i.ctSpk| == KEM_CT_LEN && |i.ctIk| == KEM_CT_LEN
    ensures ReadInit(InitBytes(i)) == if |i.package| == 0 then Err(NoPackage) else Ok(i)
  {
    var enc, data := BundleBytes(i.bundle), InitBytes(i);
    var rest := i.ctSpk + (i.ctIk + i.package);
    BundleRoundTrip(i.bundle, []);
    assert enc + [] == enc;
    Widths();
    LERoundTrip(|enc|, 2);
    assert data[..2] == LE(|enc|, 2) && data[2..2 + |enc|] == enc && data[2 + |enc|..] == rest;
    assert rest[..KEM_CT_LEN] == i.ctSpk && rest[KEM_CT_LEN..2 * KEM_CT_LEN] == i.ctIk
           && rest[2 * KEM_CT_LEN..] == i.package;
  }

  lemma SlotDecides(head: bytes, enc: bytes, head': bytes, slot: bytes, rest: bytes)
    requires |head| == |head'| && (enc == slot ==> head == head')
    ensures head + (enc + rest) == head' + (slot + rest) <==> enc == slot
  {
    var one, other := head + (enc + rest), head' + (slot + rest);
    if one == other {
      assert |enc| == |slot|;
      assert one[|head|..|head| + |enc|] == enc && other[|head|..|head| + |enc|] == slot;
    }
  }

  lemma InitInPieces(data: bytes)
    requires ReadInit(data).Ok?
    ensures var i, slot := ReadInit(data).value, SlotOf(data).value;
            data == LE(|slot|, 2) + (slot + (i.ctSpk + (i.ctIk + i.package))) && ReadBundle(slot) == Ok(i.bundle)
  {
    var i, slot := ReadInit(data).value, SlotOf(data).value;
    var rest := data[2 + |slot|..];
    FromLERoundTrip(data[..2]);
    assert rest == i.ctSpk + (i.ctIk + i.package);
    assert data == data[..2] + (slot + rest);
  }

  lemma SlotWasWritten(slot: bytes)
    requires ReadBundle(slot).Ok?
    ensures BundleBytes(ReadBundle(slot).value) == slot <==> slot[..1] == [V9_VERSION] && |slot| == BUNDLE_LEN
  {
    var enc := BundleBytes(ReadBundle(slot).value);
    if slot[0] == V9_VERSION {
      BundleOfRead(slot);
    } else {
      assert enc[0] == V9_VERSION;
    }
  }

  /**
   Writing an accepted envelope again gives the same bytes exactly when its
   slot held a v0.9 bundle and nothing else.
   */
  lemma InitOfRead(data: bytes)
    requires ReadInit(data).Ok?
    ensures var slot := SlotOf(data).value;
            InitBytes(ReadInit(data).value) == data <==> slot[..1] == [V9_VERSION] && |slot| == BUNDLE_LEN
  {
    var i, slot := ReadInit(data).value, SlotOf(data).value;
    var enc := BundleBytes(i.bundle);
    InitInPieces(data);
    SlotWasWritten(slot);
    LERoundTrip(|enc|, 2);
    LERoundTrip(|slot|, 2);
    hide LE, FromLE;
    SlotDecides(LE(|enc|, 2), enc, LE(|slot|, 2), slot, i.ctSpk + (i.ctIk + i.package));
  }

  // ── What is cut off ───────────────────────────────────────────────

  /** A bundle that is cut off anywhere is rejected. */
  lemma BundlePrefix(b: WireBundle, k: nat)
    requires b.WellSized() && k < |BundleBytes(b)|
    ensures ReadBundle(BundleBytes(b)[..k]) == if k == 0 then Err(TooShort) else Err(BundleTruncated)
  {
    BundleRoundTrip(b, []);
    assert BundleBytes(b) + [] == BundleBytes(b);
    if k > 0 {
      assert BundleBytes(b)[..k][0] == BundleBytes(b)[0];
    }
  }

  /** And so is a legacy identity, each time with the error for the part that is not there. */
  lemma LegacyPrefix(kem: bytes, sig: bytes, k: nat)
    requires |kem| < U16 && |sig| < U16 && k < |LegacyBytes(kem, sig)|
    ensures ReadLegacy(LegacyBytes(kem, sig)[..k])
         == Err(if k < 2 then TooShort else if k < |kem| + 4 then NoSigningHeader else SigningKeyCut)
  {
    Widths();
    LERoundTrip(|kem|, 2);
    LERoundTrip(|sig|, 2);
    hide LE, FromLE;
    if k >= 2 {
      CutAfter(LE(|kem|, 2), kem, LE(|sig|, 2) + sig, k);
      if k >= |kem| + 4 {
        CutAfter(LE(|kem|, 2) + kem, LE(|sig|, 2), sig, k);
        assert LegacyBytes(kem, sig) == LE(|kem|, 2) + kem + (LE(|sig|, 2) + sig);
      }
    }
  }

  lemma CutAfter(head: bytes, part: bytes, rest: bytes, k: nat)
    requires |head| <= k <= |head| + |part| + |rest|
    ensures var d, end := (head + (part + rest))[..k], |head| + |part|;
            && d[..|head|] == head
            && (k >= end ==> d[|head|..end] == part && d[end..] == rest[..k - end])
  {
  }

  /** All of an envelope but its package. */
  function EnvelopeFront(i: Init): bytes {
    LE(|BundleBytes(i.bundle)|, 2) + (BundleBytes(i.bundle) + (i.ctSpk + i.ctIk))
  }

  lemma FrontAndPackage(i: Init)
    ensures InitBytes(i) == EnvelopeFront(i) + i.package
  {
    var enc := BundleBytes(i.bundle);
    assert i.ctSpk + (i.ctIk + i.package) == i.ctSpk + i.ctIk + i.package;
    assert enc + (i.ctSpk + i.ctIk + i.package) == enc + (i.ctSpk + i.ctIk) + i.package;
  }

  lemma CutInFront(i: Init, k: nat)
    requires i.bundle.WellSized() && |i.ctSpk| == KEM_CT_LEN && |i.ctIk| == KEM_CT_LEN && k < ENVELOPE_FRONT_LEN
    ensures |EnvelopeFront(i)| == ENVELOPE_FRONT_LEN
    ensures ReadInit(EnvelopeFront(i)[..k])
         == Err(if k < 2 then EnvelopeTruncated
                else if k < 2 + BUNDLE_LEN then EnvelopeBundleTruncated else CiphertextsTruncated)
  {
    BundleRoundTrip(i.bundle, []);
    var enc := BundleBytes(i.bundle);
    assert enc + [] == enc;
    Widths();
    LERoundTrip(|enc|, 2);
    hide BundleBytes, ReadBundle, LE, FromLE;
    if k >= 2 {
      CutAfter(LE(|enc|, 2), enc, i.ctSpk + i.ctIk, k);
    }
  }

  /**
   An envelope that is cut off is rejected with the error for the part where the
   cut is; only a cut inside the package is not seen here.
   */
  lemma InitPrefix(i: Init, k: nat)
    requires i.bundle.WellSized() && |i.ctSpk| == KEM_CT_LEN && |i.ctIk| == KEM_CT_LEN && k <= |InitBytes(i)|
    ensures ReadInit(InitBytes(i)[..k])
         == if k < 2 then Err(EnvelopeTruncated)
            else if k < 2 + BUNDLE_LEN then Err(EnvelopeBundleTruncated)
            else if k < ENVELOPE_FRONT_LEN then Err(CiphertextsTruncated)
            else if k == ENVELOPE_FRONT_LEN then Err(NoPackage)
            else Ok(i.(package := InitBytes(i)[ENVELOPE_FRONT_LEN..k]))
  {
    var front := EnvelopeFront(i);
    FrontAndPackage(i);
    CutInFront(i, 0);
    hide EnvelopeFront, InitBytes, ReadInit, BundleBytes;
    if k < ENVELOPE_FRONT_LEN {
      CutInFront(i, k);
      assert InitBytes(i)[..k] == front[..k];
    } else {
      var less := i.(package := InitBytes(i)[ENVELOPE_FRONT_LEN..k]);
      FrontAndPackage(less);
      SameFront(i, less);
      assert InitBytes(i)[..k] == front + less.package;
      InitRoundTrip(less);
    }
  }

  lemma SameFront(i: Init, j: Init)
    requires j == i.(package := j.package)
    ensures EnvelopeFront(i) == EnvelopeFront(j)
  {
  }
}
