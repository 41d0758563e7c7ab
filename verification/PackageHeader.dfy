/**
 The package header on the wire. The symbolic `Wire` of the ratchet stands for
 these bytes: `Unparsable` where `ParseHeader` fails, the parsed fields and
 the rest where it does not. The header part is also what is authenticated.
 */
module PackageHeader {
  import opened Wrappers
  import opened Bytes
  import opened Limits

  const PKG_VERSION: byte := 0x0A
  const PN_AT: nat := 2
  const N_AT: nat := 6
  const DH_AT: nat := 10
  /** The bytes that every header has. */
  const FIXED_LEN: nat := DH_AT + X25519_PK_LEN
  const AEAD_TAG_LEN: nat := 16

  datatype WireHeader = WireHeader(flags: byte, pn: nat, n: nat, dhPub: bytes, kemPk: Option<bytes>,
                                   kemCt: Option<bytes>)

  predicate HasDh(flags: byte) { flags % 2 == 1 }

  predicate HasKemPk(flags: byte) { flags / 2 % 2 == 1 }

  predicate HasKemCt(flags: byte) { flags / 4 % 2 == 1 }

  predicate FieldOk(present: bool, field: Option<bytes>, len: nat) {
    if present then field.Some? && |field.value| == len else field.None?
  }

  /** The flags say which optional fields there are, and every field has its size. */
  predicate HeaderOk(h: WireHeader) {
    && HasDh(h.flags) && h.pn < U32 && h.n < U32 && |h.dhPub| == X25519_PK_LEN
    && FieldOk(HasKemPk(h.flags), h.kemPk, KEM_PK_LEN)
    && FieldOk(HasKemCt(h.flags), h.kemCt, KEM_CT_LEN)
  }

  function OrEmpty(field: Option<bytes>): bytes { if field.Some? then field.value else [] }

  /** The first `FIXED_LEN` bytes. */
  function FixedPart(flags: byte, pn: nat, n: nat, dhPub: bytes): bytes {
    [PKG_VERSION, flags] + LE(pn, 4) + LE(n, 4) + dhPub
  }

  function BuildHeader(h: WireHeader): bytes {
    FixedPart(h.flags, h.pn, h.n, h.dhPub) + OrEmpty(h.kemPk) + OrEmpty(h.kemCt)
  }

  /** An optional field of `len` bytes at `pos`, and where the next field starts. */
  function TakeField(pkg: bytes, pos: nat, present: bool, len: nat): (r: Option<(Option<bytes>, nat)>)
    ensures r.Some? && pos <= |pkg| ==> r.value.1 <= |pkg|
  {
    if !present then Some((None, pos))
    else if |pkg| < pos + len then None
    else Some((Some(pkg[pos..pos + len]), pos + len))
  }

  /** The header and the bytes after it; None is `Malformed`. */
  function ParseHeader(pkg: bytes): Option<(WireHeader, bytes)> {
    if |pkg| < FIXED_LEN + AEAD_TAG_LEN || pkg[0] != PKG_VERSION || !HasDh(pkg[1]) then None
    else
      match TakeField(pkg, FIXED_LEN, HasKemPk(pkg[1]), KEM_PK_LEN)
      case None => None
      case Some((kemPk, pos)) =>
        match TakeField(pkg, pos, HasKemCt(pkg[1]), KEM_CT_LEN)
        case None => None
        case Some((kemCt, end)) =>
          var pn, n := FromLE(pkg[PN_AT..N_AT]), FromLE(pkg[N_AT..DH_AT]);
          Some((WireHeader(pkg[1], pn, n, pkg[DH_AT..FIXED_LEN], kemPk, kemCt), pkg[end..]))
  }

  /** Where the parts are that every header has. */
  lemma FixedPartFields(flags: byte, pn: nat, n: nat, dhPub: bytes)
    requires pn < U32 && n < U32 && |dhPub| == X25519_PK_LEN
    ensures var b := FixedPart(flags, pn, n, dhPub);
            && |b| == FIXED_LEN && b[0] == PKG_VERSION && b[1] == flags
            && FromLE(b[PN_AT..N_AT]) == pn && FromLE(b[N_AT..DH_AT]) == n && b[DH_AT..FIXED_LEN] == dhPub
  {
    Widths();
    LERoundTrip(pn, 4);
    LERoundTrip(n, 4);
    var b := FixedPart(flags, pn, n, dhPub);
    assert b[PN_AT..N_AT] == LE(pn, 4) && b[N_AT..DH_AT] == LE(n, 4) && b[DH_AT..FIXED_LEN] == dhPub;
  }

  lemma FixedPartOf(b: bytes)
    requires |b| == FIXED_LEN && b[0] == PKG_VERSION
    ensures FixedPart(b[1], FromLE(b[PN_AT..N_AT]), FromLE(b[N_AT..DH_AT]), b[DH_AT..FIXED_LEN]) == b
    ensures FromLE(b[PN_AT..N_AT]) < U32 && FromLE(b[N_AT..DH_AT]) < U32
  {
    Widths();
    FromLERoundTrip(b[PN_AT..N_AT]);
    FromLERoundTrip(b[N_AT..DH_AT]);
    hide LE, FromLE;
    assert b == [b[0], b[1]] + b[PN_AT..N_AT] + b[N_AT..DH_AT] + b[DH_AT..FIXED_LEN];
  }

  lemma Slices(a: bytes, b: bytes, c: bytes, from: nat, to: nat)
    requires from == |a| && to == |a| + |b|
    ensures (a + b + c)[from..to] == b && (a + b + c)[to..] == c
  {
  }

  /**
   Parsing a built header with a body behind it gives back every field and
   the exact body, and fails just when both together are shorter than the
   smallest package.
   */
  lemma ParseOfBuild(h: WireHeader, body: bytes)
    requires HeaderOk(h)
    ensures ParseHeader(BuildHeader(h) + body)
         == if |BuildHeader(h)| + |body| < FIXED_LEN + AEAD_TAG_LEN then None else Some((h, body))
  {
    var fixed, kemPk, kemCt := FixedPart(h.flags, h.pn, h.n, h.dhPub), OrEmpty(h.kemPk), OrEmpty(h.kemCt);
    FixedPartFields(h.flags, h.pn, h.n, h.dhPub);
    var pkg := BuildHeader(h) + body;
    assert pkg[..FIXED_LEN] == fixed;
    assert pkg[PN_AT..N_AT] == fixed[PN_AT..N_AT] && pkg[N_AT..DH_AT] == fixed[N_AT..DH_AT];
    assert pkg[DH_AT..FIXED_LEN] == fixed[DH_AT..FIXED_LEN];
    var pos := FIXED_LEN + |kemPk|;
    assert pkg == fixed + kemPk + (kemCt + body);
    Slices(fixed, kemPk, kemCt + body, FIXED_LEN, pos);
    assert pkg == (fixed + kemPk) + kemCt + body;
    Slices(fixed + kemPk, kemCt, body, pos, pos + |kemCt|);
  }

  lemma SliceOfFront(b: bytes, n: nat, from: nat, to: nat)
    requires from <= to <= n <= |b|
    ensures b[..n][from..to] == b[from..to]
  {
  }

  lemma InFour(b: bytes, i: nat, j: nat, k: nat)
    requires i <= j <= k <= |b|
    ensures b == b[..i] + b[i..j] + b[j..k] + b[k..] && b[..k] == b[..i] + b[i..j] + b[j..k]
  {
  }

  /** Every accepted package is the header built from its parsed fields, and then the rest. */
  lemma BuildOfParse(pkg: bytes)
    requires ParseHeader(pkg).Some?
    ensures var (h, rest) := ParseHeader(pkg).value;
            HeaderOk(h) && pkg == BuildHeader(h) + rest && pkg[..|pkg| - |rest|] == BuildHeader(h)
  {
    hide LE, FromLE, FixedPart;
    var (h, rest) := ParseHeader(pkg).value;
    var fixed := pkg[..FIXED_LEN];
    SliceOfFront(pkg, FIXED_LEN, PN_AT, N_AT);
    SliceOfFront(pkg, FIXED_LEN, N_AT, DH_AT);
    SliceOfFront(pkg, FIXED_LEN, DH_AT, FIXED_LEN);
    FixedPartOf(fixed);
    assert BuildHeader(h) == fixed + OrEmpty(h.kemPk) + OrEmpty(h.kemCt);
    var pos := FIXED_LEN + |OrEmpty(h.kemPk)|;
    var end := pos + |OrEmpty(h.kemCt)|;
    assert pkg[FIXED_LEN..pos] == OrEmpty(h.kemPk) && pkg[pos..end] == OrEmpty(h.kemCt) && pkg[end..] == rest;
    InFour(pkg, FIXED_LEN, pos, end);
  }
}
