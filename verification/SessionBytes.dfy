/**
 The stored form of a session: `to_bytes` and `from_bytes`. Here every key is
 its bytes. The skipped-key store is its entries in key order, which is what
 a B-tree map is to its readers.
 */
module SessionBytes {
  import opened Wrappers
  import opened Bytes
  import opened Limits

  const SESSION_VERSION: byte := 0x0B
  const LEGACY_VERSION: byte := 0x0A

  datatype Keys = Keys(sessionId: bytes, rk: bytes, dhPub: bytes, dhSec: bytes)

  datatype Chains = Chains(dhR: Option<bytes>, ckS: Option<bytes>, ckR: Option<bytes>)

  datatype Counters = Counters(nS: nat, nR: nat, pn: nat)

  datatype Kem = Kem(pk: bytes, sk: bytes)

  datatype Kems = Kems(peer: Option<bytes>, advertised: seq<Kem>)

  datatype Flags = Flags(advertiseKemNext: bool, initialized: bool)

  datatype Entry = Entry(dh: bytes, n: nat, mk: bytes)

  datatype Image = Image(keys: Keys, chains: Chains, counters: Counters, kems: Kems, flags: Flags, skipped: seq<Entry>)

  datatype DecodeError = Truncated | UnsupportedVersion | TooManySkipped

  // ── The store as a B-tree map ─────────────────────────────────────

  predicate Before(a: Entry, b: Entry) {
    if a.dh == b.dh then a.n < b.n else AtMost(a.dh, b.dh)
  }

  predicate SameKey(a: Entry, b: Entry) { a.dh == b.dh && a.n == b.n }

  ghost predicate InOrder(es: seq<Entry>) {
    forall i, j | 0 <= i < j < |es| :: Before(es[i], es[j])
  }

  function Insert(es: seq<Entry>, e: Entry): seq<Entry> {
    if |es| == 0 then [e]
    else if SameKey(e, es[0]) then [e] + es[1..]
    else if Before(e, es[0]) then [e] + es
    else [es[0]] + Insert(es[1..], e)
  }

  lemma BeforeIsStrictOrder(a: Entry, b: Entry, c: Entry)
    ensures Before(a, b) ==> !Before(b, a) && !SameKey(a, b)
    ensures Before(a, b) || Before(b, a) || SameKey(a, b)
    ensures Before(a, b) && Before(b, c) ==> Before(a, c)
  {
    AtMostIsTotal(a.dh, b.dh);
    if AtMost(a.dh, b.dh) && AtMost(b.dh, c.dh) {
      AtMostIsTransitive(a.dh, b.dh, c.dh);
      AtMostIsTotal(b.dh, c.dh);
    }
  }

  /** An entry beyond all others goes to the end. */
  lemma {:induction false} InsertLast(es: seq<Entry>, e: Entry)
    requires forall i | 0 <= i < |es| :: Before(es[i], e)
    ensures Insert(es, e) == es + [e]
  {
    if |es| == 0 {
    } else {
      BeforeIsStrictOrder(es[0], e, e);
      InsertLast(es[1..], e);
    }
  }

  lemma {:induction false} InsertInOrder(es: seq<Entry>, e: Entry)
    requires InOrder(es)
    ensures InOrder(Insert(es, e)) && |Insert(es, e)| <= |es| + 1
    ensures forall f | f in Insert(es, e) :: f == e || f in es
  {
    if |es| == 0 {
    } else {
      var rest := es[1..];
      InsertInOrder(rest, e);
      forall f ensures Before(e, es[0]) && Before(es[0], f) ==> Before(e, f) {
        BeforeIsStrictOrder(e, es[0], f);
      }
      BeforeIsStrictOrder(e, es[0], e);
      assert forall f | f in rest :: Before(es[0], f);
      assert SameKey(e, es[0]) ==> forall f | f in rest :: Before(e, f);
    }
  }

  /** Insertion drops nothing but an entry of the same key. */
  lemma {:induction false} InsertKeeps(es: seq<Entry>, e: Entry, f: Entry)
    requires f == e || (f in es && !SameKey(e, f))
    ensures f in Insert(es, e)
  {
    if |es| == 0 || SameKey(e, es[0]) || Before(e, es[0]) {
    } else {
      if f != es[0] {
        InsertKeeps(es[1..], e, f);
      }
    }
  }

  // ── Writing ───────────────────────────────────────────────────────

  function Optional(o: Option<bytes>): bytes { if o.Some? then [1] + o.value else [0] }

  function Sized(b: bytes): bytes { LE(|b|, 2) + b }

  function OptionalSized(o: Option<bytes>): bytes { if o.Some? then [1] + Sized(o.value) else [0] }

  function Flag(b: bool): bytes { if b then [1] else [0] }

  function EncodeKeys(k: Keys): bytes { k.sessionId + k.rk + k.dhPub + k.dhSec }

  function EncodeChains(c: Chains): bytes { Optional(c.dhR) + Optional(c.ckS) + Optional(c.ckR) }

  function EncodeCounters(c: Counters): bytes { LE(c.nS, 4) + LE(c.nR, 4) + LE(c.pn, 4) }

  function EncodeKem(k: Kem): bytes { Sized(k.pk) + Sized(k.sk) }

  function EncodeKemList(ks: seq<Kem>): bytes {
    if |ks| == 0 then [] else EncodeKem(ks[0]) + EncodeKemList(ks[1..])
  }

  function EncodeKems(k: Kems): bytes { OptionalSized(k.peer) + ([|k.advertised| % 256] + EncodeKemList(k.advertised)) }

  function EncodeFlags(f: Flags): bytes { Flag(f.advertiseKemNext) + Flag(f.initialized) }

  function EncodeEntry(e: Entry): bytes { e.dh + LE(e.n, 4) + e.mk }

  function EncodeEntries(es: seq<Entry>): bytes {
    if |es| == 0 then [] else EncodeEntry(es[0]) + EncodeEntries(es[1..])
  }

  function EncodeStore(es: seq<Entry>): bytes { LE(|es|, 4) + EncodeEntries(es) }

  /** Everything between the version byte and the skipped-key store. */
  function EncodeBody(i: Image): bytes {
    EncodeKeys(i.keys)
    + (EncodeChains(i.chains) + (EncodeCounters(i.counters) + (EncodeKems(i.kems) + EncodeFlags(i.flags))))
  }

  function ToBytes(i: Image): bytes { [SESSION_VERSION] + (EncodeBody(i) + EncodeStore(i.skipped)) }

  /** What builds before the store existed wrote. */
  function ToLegacyBytes(i: Image): bytes { [LEGACY_VERSION] + EncodeBody(i) }

  // ── Reading ───────────────────────────────────────────────────────

  /** A value and the bytes after it; None when the bytes run out. */
  type Got<T> = Option<(T, bytes)>

  function TakeBytes(d: bytes, n: nat): Got<bytes> {
    if |d| < n then None else Some((d[..n], d[n..]))
  }

  function TakeInt(d: bytes, width: nat): Got<nat> {
    if |d| < width then None else Some((FromLE(d[..width]), d[width..]))
  }

  function TakeByte(d: bytes): Got<byte> {
    if |d| == 0 then None else Some((d[0], d[1..]))
  }

  function TakeFlag(d: bytes): Got<bool> {
    var (mark, d) :- TakeByte(d);
    Some((mark != 0, d))
  }

  function TakeSized(d: bytes): Got<bytes> {
    var (len, d) :- TakeInt(d, 2);
    TakeBytes(d, len)
  }

  /** The peer key counts as present only under the mark 1. */
  function TakePeerKey(d: bytes): Got<Option<bytes>> {
    var (mark, d) :- TakeByte(d);
    if mark != 1 then Some((None, d))
    else
      var (v, d) :- TakeBytes(d, 32);
      Some((Some(v), d))
  }

  /** A chain key counts as present under every mark but 0. */
  function TakeChainKey(d: bytes): Got<Option<bytes>> {
    var (mark, d) :- TakeByte(d);
    if mark == 0 then Some((None, d))
    else
      var (v, d) :- TakeBytes(d, 32);
      Some((Some(v), d))
  }

  function TakeKemPeer(d: bytes): Got<Option<bytes>> {
    var (mark, d) :- TakeByte(d);
    if mark != 1 then Some((None, d))
    else
      var (v, d) :- TakeSized(d);
      Some((Some(v), d))
  }

  function TakeKeys(d: bytes): Got<Keys> {
    var (sessionId, d) :- TakeBytes(d, 32);
    var (rk, d) :- TakeBytes(d, 32);
    var (dhPub, d) :- TakeBytes(d, 32);
    var (dhSec, d) :- TakeBytes(d, 32);
    Some((Keys(sessionId, rk, dhPub, dhSec), d))
  }

  function TakeChains(d: bytes): Got<Chains> {
    var (dhR, d) :- TakePeerKey(d);
    var (ckS, d) :- TakeChainKey(d);
    var (ckR, d) :- TakeChainKey(d);
    Some((Chains(dhR, ckS, ckR), d))
  }

  function TakeCounters(d: bytes): Got<Counters> {
    var (nS, d) :- TakeInt(d, 4);
    var (nR, d) :- TakeInt(d, 4);
    var (pn, d) :- TakeInt(d, 4);
    Some((Counters(nS, nR, pn), d))
  }

  function TakeKem(d: bytes): Got<Kem> {
    var (pk, d) :- TakeSized(d);
    var (sk, d) :- TakeSized(d);
    Some((Kem(pk, sk), d))
  }

  function TakeKemList(d: bytes, count: nat): Got<seq<Kem>> {
    if count == 0 then Some(([], d))
    else
      var (k, d) :- TakeKem(d);
      var (ks, d) :- TakeKemList(d, count - 1);
      Some(([k] + ks, d))
  }

  function TakeKems(d: bytes): Got<Kems> {
    var (peer, d) :- TakeKemPeer(d);
    var (count, d) :- TakeByte(d);
    var (advertised, d) :- TakeKemList(d, count);
    Some((Kems(peer, advertised), d))
  }

  function TakeFlags(d: bytes): Got<Flags> {
    var (advertiseKemNext, d) :- TakeFlag(d);
    var (initialized, d) :- TakeFlag(d);
    Some((Flags(advertiseKemNext, initialized), d))
  }

  function TakeEntry(d: bytes): Got<Entry> {
    var (dh, d) :- TakeBytes(d, 32);
    var (n, d) :- TakeInt(d, 4);
    var (mk, d) :- TakeBytes(d, 32);
    Some((Entry(dh, n, mk), d))
  }

  /** Reads `count` entries into the store `es`. */
  function TakeEntries(d: bytes, count: nat, es: seq<Entry>): Got<seq<Entry>>
    decreases count
  {
    if count == 0 then Some((es, d))
    else
      var (e, d) :- TakeEntry(d);
      TakeEntries(d, count - 1, Insert(es, e))
  }

  function TakeBody(d: bytes): Got<Image> {
    var (keys, d) :- TakeKeys(d);
    var (chains, d) :- TakeChains(d);
    var (counters, d) :- TakeCounters(d);
    var (kems, d) :- TakeKems(d);
    var (flags, d) :- TakeFlags(d);
    Some((Image(keys, chains, counters, kems, flags, []), d))
  }

  /** The store section; what follows it is ignored. */
  function ReadStore(d: bytes): Result<seq<Entry>, DecodeError> {
    match TakeInt(d, 4)
    case None => Err(Truncated)
    case Some((count, d)) =>
      if count > MAX_SKIPPED_TOTAL then Err(TooManySkipped)
      else
        match TakeEntries(d, count, [])
        case None => Err(Truncated)
        case Some((es, _)) => Ok(es)
  }

  function FromBytes(data: bytes): Result<Image, DecodeError> {
    if |data| == 0 then Err(Truncated)
    else if data[0] != SESSION_VERSION && data[0] != LEGACY_VERSION then Err(UnsupportedVersion)
    else
      match TakeBody(data[1..])
      case None => Err(Truncated)
      case Some((image, d)) =>
        if data[0] == LEGACY_VERSION then Ok(image)
        else
          match ReadStore(d)
          case Err(e) => Err(e)
          case Ok(es) => Ok(image.(skipped := es))
  }

  // ── What is written can be read back ──────────────────────────────

  ghost predicate OptionOk(o: Option<bytes>) { o.Some? ==> |o.value| == 32 }

  ghost predicate EntryOk(e: Entry) { |e.dh| == 32 && e.n < U32 && |e.mk| == 32 }

  ghost predicate KemOk(k: Kem) { |k.pk| < U16 && |k.sk| < U16 }

  /** Keys of 32 bytes, counters of four, KEM keys that a two-byte length can state, and a store within its bound. */
  ghost predicate ImageOk(i: Image) {
    && |i.keys.sessionId| == |i.keys.rk| == |i.keys.dhPub| == |i.keys.dhSec| == 32
    && OptionOk(i.chains.dhR) && OptionOk(i.chains.ckS) && OptionOk(i.chains.ckR)
    && i.counters.nS < U32 && i.counters.nR < U32 && i.counters.pn < U32
    && (i.kems.peer.Some? ==> |i.kems.peer.value| < U16) && |i.kems.advertised| < U8
    && (forall k | k in i.kems.advertised :: KemOk(k))
    && |i.skipped| <= MAX_SKIPPED_TOTAL && InOrder(i.skipped) && (forall e | e in i.skipped :: EntryOk(e))
  }

  lemma {:induction false} EntriesLength(es: seq<Entry>)
    requires forall e | e in es :: EntryOk(e)
    ensures |EncodeEntries(es)| == 68 * |es|
  {
    if |es| == 0 {
    } else {
      assert es[0] in es;
      LERoundTrip(es[0].n, 4);
      EntriesLength(es[1..]);
    }
  }

  lemma KeysLayout(k: Keys, tail: bytes)
    requires |k.sessionId| == |k.rk| == |k.dhPub| == |k.dhSec| == 32
    ensures var d := [SESSION_VERSION] + (EncodeKeys(k) + tail);
            && d[1..33] == k.sessionId && d[33..65] == k.rk && d[65..97] == k.dhPub && d[97..129] == k.dhSec
            && d[129..] == tail
  {
    var d := [SESSION_VERSION] + (EncodeKeys(k) + tail);
    assert d == [SESSION_VERSION] + k.sessionId + k.rk + k.dhPub + k.dhSec + tail;
  }

  /** The counters, in four bytes each, and which of the three keys is which. */
  lemma ChainsAndCountersLayout(chains: Chains, counters: Counters)
    requires counters.nS < U32 && counters.nR < U32 && counters.pn < U32
    ensures var d := EncodeCounters(counters);
            && |d| == 12 && FromLE(d[..4]) == counters.nS
            && FromLE(d[4..8]) == counters.nR && FromLE(d[8..]) == counters.pn
    ensures var d := EncodeChains(chains);
            var ckS, ckR := |Optional(chains.dhR)|, |d| - |Optional(chains.ckR)|;
            d[..ckS] == Optional(chains.dhR) && ckS <= ckR && d[ckS..ckR] == Optional(chains.ckS)
            && d[ckR..] == Optional(chains.ckR)
  {
    Widths();
    LERoundTrip(counters.nS, 4);
    LERoundTrip(counters.nR, 4);
    LERoundTrip(counters.pn, 4);
    hide LE, FromLE;
    var d := EncodeCounters(counters);
    assert d[..4] == LE(counters.nS, 4) && d[4..8] == LE(counters.nR, 4) && d[8..] == LE(counters.pn, 4);
  }

  lemma StoreLayout(front: bytes, es: seq<Entry>)
    requires (forall e | e in es :: EntryOk(e)) && |es| < U32
    ensures var d := front + EncodeStore(es);
            && |d| == |front| + 4 + 68 * |es| && FromLE(d[|front|..|front| + 4]) == |es|
            && d[|front| + 4..] == EncodeEntries(es)
  {
    EntriesLength(es);
    Widths();
    LERoundTrip(|es|, 4);
    var d := front + EncodeStore(es);
    assert d[|front|..|front| + 4] == LE(|es|, 4);
    hide LE, FromLE, EncodeEntries;
  }

  /** Where the fields are that do not move: the keys in front, and the store with its count at the end. */
  lemma Layout(i: Image)
    requires ImageOk(i)
    ensures var d := ToBytes(i);
            var store := |d| - 68 * |i.skipped|;
            && store >= 133 && d[0] == 0x0B
            && d[1..33] == i.keys.sessionId && d[33..65] == i.keys.rk
            && d[65..97] == i.keys.dhPub && d[97..129] == i.keys.dhSec
            && FromLE(d[store - 4..store]) == |i.skipped| && d[store..] == EncodeEntries(i.skipped)
  {
    hide EncodeKeys, EncodeChains, EncodeCounters, EncodeKems, EncodeFlags, EncodeStore, EncodeEntries, LE, FromLE,
         InOrder, EntryOk, KemOk;
    var tail := EncodeChains(i.chains) + (EncodeCounters(i.counters) + (EncodeKems(i.kems) + EncodeFlags(i.flags)));
    BodyAndStore(EncodeKeys(i.keys), tail, EncodeStore(i.skipped));
    KeysLayout(i.keys, tail + EncodeStore(i.skipped));
    StoreLayout([SESSION_VERSION] + (EncodeKeys(i.keys) + tail), i.skipped);
    KeysLength(i.keys);
  }

  lemma BodyAndStore(keys: bytes, tail: bytes, store: bytes)
    ensures var d := [SESSION_VERSION] + ((keys + tail) + store);
            d == [SESSION_VERSION] + (keys + tail) + store && d == [SESSION_VERSION] + (keys + (tail + store))
  {
  }

  lemma KeysLength(k: Keys)
    requires |k.sessionId| == |k.rk| == |k.dhPub| == |k.dhSec| == 32
    ensures |EncodeKeys(k)| == 128
  {
  }

  lemma Split(a: bytes, b: bytes)
    ensures (a + b)[..|a|] == a && (a + b)[|a|..] == b
  {
  }

  lemma TakeBytesBack(b: bytes, rest: bytes)
    ensures TakeBytes(b + rest, |b|) == Some((b, rest))
  {
    Split(b, rest);
  }

  lemma TakeIntBack(v: nat, width: nat, rest: bytes)
    requires v < Pow256(width)
    ensures TakeInt(LE(v, width) + rest, width) == Some((v, rest))
  {
    LERoundTrip(v, width);
    Split(LE(v, width), rest);
  }

  lemma TakeSizedBack(b: bytes, rest: bytes)
    requires |b| < U16
    ensures TakeSized(Sized(b) + rest) == Some((b, rest))
  {
    Widths();
    assert Sized(b) + rest == LE(|b|, 2) + (b + rest);
    TakeIntBack(|b|, 2, b + rest);
    TakeBytesBack(b, rest);
  }

  lemma TakeMarkBack(mark: byte, b: bytes, rest: bytes)
    ensures TakeByte([mark] + b + rest) == Some((mark, b + rest))
  {
    assert [mark] + b + rest == [mark] + (b + rest);
  }

  lemma TakeOptionBack(o: Option<bytes>, rest: bytes)
    requires OptionOk(o)
    ensures TakePeerKey(Optional(o) + rest) == Some((o, rest)) && TakeChainKey(Optional(o) + rest) == Some((o, rest))
  {
    if o.Some? {
      TakeMarkBack(1, o.value, rest);
      TakeBytesBack(o.value, rest);
    }
  }

  lemma TakeKemPeerBack(o: Option<bytes>, rest: bytes)
    requires o.Some? ==> |o.value| < U16
    ensures TakeKemPeer(OptionalSized(o) + rest) == Some((o, rest))
  {
    if o.Some? {
      TakeMarkBack(1, Sized(o.value), rest);
      TakeSizedBack(o.value, rest);
    }
  }

  lemma TakeKeysBack(k: Keys, rest: bytes)
    requires |k.sessionId| == |k.rk| == |k.dhPub| == |k.dhSec| == 32
    ensures TakeKeys(EncodeKeys(k) + rest) == Some((k, rest))
  {
    assert EncodeKeys(k) + rest == k.sessionId + (k.rk + (k.dhPub + (k.dhSec + rest)));
    TakeBytesBack(k.sessionId, k.rk + (k.dhPub + (k.dhSec + rest)));
    TakeBytesBack(k.rk, k.dhPub + (k.dhSec + rest));
    TakeBytesBack(k.dhPub, k.dhSec + rest);
    TakeBytesBack(k.dhSec, rest);
  }

  lemma TakeChainsBack(c: Chains, rest: bytes)
    requires OptionOk(c.dhR) && OptionOk(c.ckS) && OptionOk(c.ckR)
    ensures TakeChains(EncodeChains(c) + rest) == Some((c, rest))
  {
    assert EncodeChains(c) + rest == Optional(c.dhR) + (Optional(c.ckS) + (Optional(c.ckR) + rest));
    TakeOptionBack(c.dhR, Optional(c.ckS) + (Optional(c.ckR) + rest));
    TakeOptionBack(c.ckS, Optional(c.ckR) + rest);
    TakeOptionBack(c.ckR, rest);
  }

  lemma TakeCountersBack(c: Counters, rest: bytes)
    requires c.nS < U32 && c.nR < U32 && c.pn < U32
    ensures TakeCounters(EncodeCounters(c) + rest) == Some((c, rest))
  {
    Widths();
    assert EncodeCounters(c) + rest == LE(c.nS, 4) + (LE(c.nR, 4) + (LE(c.pn, 4) + rest));
    TakeIntBack(c.nS, 4, LE(c.nR, 4) + (LE(c.pn, 4) + rest));
    TakeIntBack(c.nR, 4, LE(c.pn, 4) + rest);
    TakeIntBack(c.pn, 4, rest);
  }

  lemma TakeKemBack(k: Kem, rest: bytes)
    requires KemOk(k)
    ensures TakeKem(EncodeKem(k) + rest) == Some((k, rest))
  {
    assert EncodeKem(k) + rest == Sized(k.pk) + (Sized(k.sk) + rest);
    TakeSizedBack(k.pk, Sized(k.sk) + rest);
    TakeSizedBack(k.sk, rest);
  }

  lemma {:induction false} TakeKemListBack(ks: seq<Kem>, rest: bytes)
    requires forall k | k in ks :: KemOk(k)
    ensures TakeKemList(EncodeKemList(ks) + rest, |ks|) == Some((ks, rest))
  {
    if |ks| == 0 {
      assert EncodeKemList(ks) + rest == rest;
    } else {
      var tail := EncodeKemList(ks[1..]) + rest;
      assert EncodeKemList(ks) + rest == EncodeKem(ks[0]) + tail;
      TakeKemBack(ks[0], tail);
      TakeKemListBack(ks[1..], rest);
      assert ks == [ks[0]] + ks[1..];
    }
  }

  lemma TakeKemsBack(k: Kems, rest: bytes)
    requires (k.peer.Some? ==> |k.peer.value| < U16) && |k.advertised| < U8
    requires forall a | a in k.advertised :: KemOk(a)
    ensures TakeKems(EncodeKems(k) + rest) == Some((k, rest))
  {
    var count: byte := |k.advertised|;
    var list := EncodeKemList(k.advertised) + rest;
    KemsSplit(k, rest);
    TakeKemPeerBack(k.peer, [count] + list);
    assert TakeByte([count] + list) == Some((count, list));
    TakeKemListBack(k.advertised, rest);
  }

  lemma KemsSplit(k: Kems, rest: bytes)
    requires |k.advertised| < U8
    ensures EncodeKems(k) + rest == OptionalSized(k.peer) + ([|k.advertised|] + (EncodeKemList(k.advertised) + rest))
  {
    var peer, list := OptionalSized(k.peer), EncodeKemList(k.advertised);
    assert |k.advertised| % 256 == |k.advertised|;
    assert (peer + ([|k.advertised|] + list)) + rest == peer + ([|k.advertised|] + (list + rest));
  }

  lemma TakeFlagsBack(f: Flags, rest: bytes)
    ensures TakeFlags(EncodeFlags(f) + rest) == Some((f, rest))
  {
    assert EncodeFlags(f) + rest == [if f.advertiseKemNext then 1 else 0] + Flag(f.initialized) + rest;
    TakeMarkBack(if f.advertiseKemNext then 1 else 0, Flag(f.initialized), rest);
  }

  lemma TakeEntryBack(e: Entry, rest: bytes)
    requires EntryOk(e)
    ensures TakeEntry(EncodeEntry(e) + rest) == Some((e, rest))
  {
    Widths();
    assert EncodeEntry(e) + rest == e.dh + (LE(e.n, 4) + (e.mk + rest));
    TakeBytesBack(e.dh, LE(e.n, 4) + (e.mk + rest));
    TakeIntBack(e.n, 4, e.mk + rest);
    TakeBytesBack(e.mk, rest);
  }

  lemma {:induction false} TakeEntriesBack(done: seq<Entry>, es: seq<Entry>, rest: bytes)
    requires InOrder(done + es) && forall e | e in es :: EntryOk(e)
    ensures TakeEntries(EncodeEntries(es) + rest, |es|, done) == Some((done + es, rest))
    decreases |es|
  {
    if |es| == 0 {
      assert EncodeEntries(es) + rest == rest && done + es == done;
    } else {
      var tail := EncodeEntries(es[1..]) + rest;
      assert EncodeEntries(es) + rest == EncodeEntry(es[0]) + tail;
      TakeEntryBack(es[0], tail);
      forall i | 0 <= i < |done| ensures Before(done[i], es[0]) {
        assert Before((done + es)[i], (done + es)[|done|]);
      }
      InsertLast(done, es[0]);
      assert (done + [es[0]]) + es[1..] == done + es;
      TakeEntriesBack(done + [es[0]], es[1..], rest);
    }
  }

  lemma TakeBodyBack(i: Image, rest: bytes)
    requires ImageOk(i)
    ensures TakeBody(EncodeBody(i) + rest) == Some((i.(skipped := []), rest))
  {
    var flags := EncodeFlags(i.flags) + rest;
    var kems := EncodeKems(i.kems) + flags;
    var counters := EncodeCounters(i.counters) + kems;
    var chains := EncodeChains(i.chains) + counters;
    assert EncodeBody(i) + rest == EncodeKeys(i.keys) + chains;
    TakeKeysBack(i.keys, chains);
    TakeChainsBack(i.chains, counters);
    TakeCountersBack(i.counters, kems);
    TakeKemsBack(i.kems, flags);
    TakeFlagsBack(i.flags, rest);
  }

  lemma ReadStoreBack(es: seq<Entry>, rest: bytes)
    requires |es| <= MAX_SKIPPED_TOTAL && InOrder(es) && forall e | e in es :: EntryOk(e)
    ensures ReadStore(EncodeStore(es) + rest) == Ok(es)
  {
    Widths();
    assert EncodeStore(es) + rest == LE(|es|, 4) + (EncodeEntries(es) + rest);
    TakeIntBack(|es|, 4, EncodeEntries(es) + rest);
    assert [] + es == es;
    TakeEntriesBack([], es, rest);
  }

  /** Restoring what was stored gives the same session, its whole store included. */
  lemma RoundTrip(i: Image)
    requires ImageOk(i)
    ensures FromBytes(ToBytes(i)) == Ok(i)
  {
    var data := ToBytes(i);
    assert data[1..] == EncodeBody(i) + EncodeStore(i.skipped);
    TakeBodyBack(i, EncodeStore(i.skipped));
    assert EncodeStore(i.skipped) + [] == EncodeStore(i.skipped);
    ReadStoreBack(i.skipped, []);
  }

  /** The form without a store section restores to the same session with an empty store. */
  lemma LegacyRoundTrip(i: Image)
    requires ImageOk(i)
    ensures FromBytes(ToLegacyBytes(i)) == Ok(i.(skipped := []))
  {
    assert ToLegacyBytes(i)[1..] == EncodeBody(i) + [];
    TakeBodyBack(i, []);
  }

  // ── Nothing shorter can ───────────────────────────────────────────

  /** More bytes behind a value do not change how it is read. */
  ghost predicate Extends<T>(shorter: Got<T>, longer: Got<T>, more: bytes) {
    shorter.Some? ==> longer == Some((shorter.value.0, shorter.value.1 + more))
  }

  lemma BytesExtend(d: bytes, n: nat, more: bytes)
    ensures Extends(TakeBytes(d, n), TakeBytes(d + more, n), more)
    ensures Extends(TakeInt(d, n), TakeInt(d + more, n), more)
  {
    if n <= |d| {
      assert (d + more)[..n] == d[..n] && (d + more)[n..] == d[n..] + more;
    }
  }

  lemma ByteExtends(d: bytes, more: bytes)
    ensures Extends(TakeByte(d), TakeByte(d + more), more) && Extends(TakeFlag(d), TakeFlag(d + more), more)
  {
    if |d| > 0 {
      assert (d + more)[1..] == d[1..] + more;
    }
  }

  lemma SizedExtends(d: bytes, more: bytes)
    ensures Extends(TakeSized(d), TakeSized(d + more), more)
  {
    BytesExtend(d, 2, more);
    if |d| >= 2 {
      BytesExtend(d[2..], FromLE(d[..2]), more);
    }
  }

  lemma OptionsExtend(d: bytes, more: bytes)
    ensures Extends(TakePeerKey(d), TakePeerKey(d + more), more)
    ensures Extends(TakeChainKey(d), TakeChainKey(d + more), more)
    ensures Extends(TakeKemPeer(d), TakeKemPeer(d + more), more)
  {
    ByteExtends(d, more);
    if |d| > 0 {
      BytesExtend(d[1..], 32, more);
      SizedExtends(d[1..], more);
    }
  }

  lemma KeysExtend(d: bytes, more: bytes)
    ensures Extends(TakeKeys(d), TakeKeys(d + more), more)
  {
    if |d| >= 128 {
      BytesExtend(d, 32, more);
      BytesExtend(d[32..], 32, more);
      BytesExtend(d[32..][32..], 32, more);
      BytesExtend(d[32..][32..][32..], 32, more);
    }
  }

  lemma ChainsExtend(d: bytes, more: bytes)
    ensures Extends(TakeChains(d), TakeChains(d + more), more)
  {
    OptionsExtend(d, more);
    if TakePeerKey(d).Some? {
      var d1 := TakePeerKey(d).value.1;
      OptionsExtend(d1, more);
      if TakeChainKey(d1).Some? {
        OptionsExtend(TakeChainKey(d1).value.1, more);
      }
    }
  }

  lemma CountersExtend(d: bytes, more: bytes)
    ensures Extends(TakeCounters(d), TakeCounters(d + more), more)
  {
    if |d| >= 12 {
      BytesExtend(d, 4, more);
      BytesExtend(d[4..], 4, more);
      BytesExtend(d[4..][4..], 4, more);
    }
  }

  lemma KemExtends(d: bytes, more: bytes)
    ensures Extends(TakeKem(d), TakeKem(d + more), more)
  {
    SizedExtends(d, more);
    if TakeSized(d).Some? {
      SizedExtends(TakeSized(d).value.1, more);
    }
  }

  lemma {:induction false} KemListExtends(d: bytes, longer: bytes, count: nat, more: bytes)
    requires longer == d + more
    ensures Extends(TakeKemList(d, count), TakeKemList(longer, count), more)
    decreases count
  {
    hide TakeKem;
    if count == 0 || TakeKemList(d, count).None? {
    } else {
      KemExtends(d, more);
      var (kem, rest) := TakeKem(d).value;
      var rest' := TakeKem(longer).value.1;
      KemListExtends(rest, rest', count - 1, more);
    }
  }

  lemma KemsExtend(d: bytes, more: bytes)
    ensures Extends(TakeKems(d), TakeKems(d + more), more)
  {
    OptionsExtend(d, more);
    if TakeKemPeer(d).Some? {
      var d1 := TakeKemPeer(d).value.1;
      ByteExtends(d1, more);
      if |d1| > 0 {
        KemListExtends(d1[1..], d1[1..] + more, d1[0], more);
      }
    }
  }

  lemma FlagsExtend(d: bytes, more: bytes)
    ensures Extends(TakeFlags(d), TakeFlags(d + more), more)
  {
    ByteExtends(d, more);
    if |d| > 0 {
      ByteExtends(d[1..], more);
    }
  }

  lemma EntryExtends(d: bytes, more: bytes)
    ensures Extends(TakeEntry(d), TakeEntry(d + more), more)
  {
    if |d| >= 68 {
      BytesExtend(d, 32, more);
      BytesExtend(d[32..], 4, more);
      BytesExtend(d[32..][4..], 32, more);
    }
  }

  lemma {:induction false} EntriesExtend(d: bytes, count: nat, es: seq<Entry>, more: bytes)
    ensures Extends(TakeEntries(d, count, es), TakeEntries(d + more, count, es), more)
    decreases count
  {
    if count == 0 {
    } else {
      EntryExtends(d, more);
      if TakeEntry(d).Some? {
        EntriesExtend(TakeEntry(d).value.1, count - 1, Insert(es, TakeEntry(d).value.0), more);
      }
    }
  }

  lemma BodyExtends(d: bytes, more: bytes)
    ensures Extends(TakeBody(d), TakeBody(d + more), more)
  {
    KeysExtend(d, more);
    if TakeKeys(d).Some? {
      var d1 := TakeKeys(d).value.1;
      ChainsExtend(d1, more);
      if TakeChains(d1).Some? {
        var d2 := TakeChains(d1).value.1;
        CountersExtend(d2, more);
        if TakeCounters(d2).Some? {
          var d3 := TakeCounters(d2).value.1;
          KemsExtend(d3, more);
          if TakeKems(d3).Some? {
            FlagsExtend(TakeKems(d3).value.1, more);
          }
        }
      }
    }
  }

  /** A mark other than 0 and 1 means absent for the peer's keys and present for a chain key. */
  lemma ForeignMarks(mark: byte, v: bytes, rest: bytes)
    requires |v| == 32
    ensures TakePeerKey([mark] + (v + rest))
         == Some(if mark == 1 then (Some(v), rest) else (None, v + rest))
    ensures TakeChainKey([mark] + (v + rest))
         == Some(if mark == 0 then (None, v + rest) else (Some(v), rest))
    ensures TakeKemPeer([mark] + (Sized(v) + rest))
         == Some(if mark == 1 then (Some(v), rest) else (None, Sized(v) + rest))
    ensures TakeFlag([mark] + rest) == Some((mark != 0, rest))
  {
    Split([mark], v + rest);
    Split(v, rest);
    Split([mark], Sized(v) + rest);
    Split([mark], rest);
    TakeSizedBack(v, rest);
  }

  /** Which error it is: the version is looked at first, and the size of the store before its entries. */
  lemma DecodeErrorIsExact(data: bytes)
    ensures FromBytes(data) == Err(UnsupportedVersion) <==> |data| > 0 && data[0] != 0x0A && data[0] != 0x0B
    ensures FromBytes(data) == Err(TooManySkipped)
       <==> && |data| > 0 && data[0] == 0x0B && TakeBody(data[1..]).Some?
            && var store := TakeBody(data[1..]).value.1;
               |store| >= 4 && FromLE(store[..4]) > MAX_SKIPPED_TOTAL
  {
    hide TakeBody, TakeEntries;
  }

  lemma StorePrefixFails(es: seq<Entry>, d: bytes, more: bytes)
    requires |es| <= MAX_SKIPPED_TOTAL && InOrder(es) && forall e | e in es :: EntryOk(e)
    requires d + more == EncodeStore(es) && |more| > 0
    ensures ReadStore(d) == Err(Truncated)
  {
    BytesExtend(d, 4, more);
    if |d| >= 4 {
      Widths();
      TakeIntBack(|es|, 4, EncodeEntries(es));
      EntriesExtend(d[4..], |es|, [], more);
      assert [] + es == es && EncodeEntries(es) + [] == EncodeEntries(es);
      TakeEntriesBack([], es, []);
    }
  }

  lemma CutInTwo(first: byte, rest: bytes, k: nat)
    requires 0 < k <= |rest|
    ensures ([first] + rest)[..k] == [first] + rest[..k - 1] && rest[..k - 1] + rest[k - 1..] == rest
  {
  }

  /** No strict prefix of a stored session restores. */
  lemma PrefixRejected(i: Image, k: nat)
    requires ImageOk(i) && k < |ToBytes(i)|
    ensures FromBytes(ToBytes(i)[..k]) == Err(Truncated)
  {
    hide EncodeBody, EncodeStore, TakeBody, ReadStore;
    if k > 0 {
      var rest := EncodeBody(i) + EncodeStore(i.skipped);
      var d, more := rest[..k - 1], rest[k - 1..];
      CutInTwo(SESSION_VERSION, rest, k);
      BodyExtends(d, more);
      TakeBodyBack(i, EncodeStore(i.skipped));
      if TakeBody(d).Some? {
        StorePrefixFails(i.skipped, TakeBody(d).value.1, more);
      }
    }
  }

  // ── Whatever restores can be stored again ─────────────────────────

  lemma TakenKemsOk(d: bytes)
    requires TakeKems(d).Some?
    ensures var k := TakeKems(d).value.0;
            && (k.peer.Some? ==> |k.peer.value| < U16) && |k.advertised| < U8
            && forall a | a in k.advertised :: KemOk(a)
  {
    var (peer, d1) := TakeKemPeer(d).value;
    if peer.Some? { SizedFits(d[1..]); }
    TakenKemListOk(d1[1..], d1[0]);
  }

  lemma SizedFits(d: bytes)
    ensures TakeSized(d).Some? ==> |TakeSized(d).value.0| < U16
  {
    Widths();
    if |d| >= 2 { FromLERoundTrip(d[..2]); }
  }

  lemma {:induction false} TakenKemListOk(d: bytes, count: nat)
    requires TakeKemList(d, count).Some?
    ensures var ks := TakeKemList(d, count).value.0; |ks| == count && forall k | k in ks :: KemOk(k)
  {
    if count == 0 {
    } else {
      SizedFits(d);
      SizedFits(TakeSized(d).value.1);
      TakenKemListOk(TakeKem(d).value.1, count - 1);
    }
  }

  lemma TakenCountersOk(d: bytes)
    requires TakeCounters(d).Some?
    ensures var c := TakeCounters(d).value.0; c.nS < U32 && c.nR < U32 && c.pn < U32
  {
    Widths();
    FromLERoundTrip(d[..4]);
    FromLERoundTrip(d[4..][..4]);
    FromLERoundTrip(d[4..][4..][..4]);
  }

  lemma {:induction false} TakenEntriesOk(d: bytes, count: nat, es: seq<Entry>)
    requires TakeEntries(d, count, es).Some? && InOrder(es) && forall e | e in es :: EntryOk(e)
    ensures var r := TakeEntries(d, count, es).value.0;
            InOrder(r) && |r| <= |es| + count && forall e | e in r :: EntryOk(e)
    decreases count
  {
    if count == 0 {
    } else {
      var (e, d1) := TakeEntry(d).value;
      Widths();
      FromLERoundTrip(d[32..][..4]);
      InsertInOrder(es, e);
      TakenEntriesOk(d1, count - 1, Insert(es, e));
    }
  }

  lemma TakenKeysOk(d: bytes)
    requires TakeKeys(d).Some?
    ensures var k := TakeKeys(d).value.0; |k.sessionId| == |k.rk| == |k.dhPub| == |k.dhSec| == 32
  {
  }

  lemma TakenChainsOk(d: bytes)
    requires TakeChains(d).Some?
    ensures var c := TakeChains(d).value.0; OptionOk(c.dhR) && OptionOk(c.ckS) && OptionOk(c.ckR)
  {
  }

  lemma TakenBodyOk(d: bytes)
    requires TakeBody(d).Some?
    ensures ImageOk(TakeBody(d).value.0)
  {
    hide TakeKeys, TakeChains, TakeCounters, TakeKems, TakeFlags, OptionOk, KemOk;
    var d1 := TakeKeys(d).value.1;
    var d2 := TakeChains(d1).value.1;
    TakenKeysOk(d);
    TakenChainsOk(d1);
    TakenCountersOk(d2);
    TakenKemsOk(TakeCounters(d2).value.1);
  }

  /** Any bytes that restore, give a session whose stored form restores to itself. */
  lemma RestoredIsStable(data: bytes)
    requires FromBytes(data).Ok?
    ensures ImageOk(FromBytes(data).value) && FromBytes(ToBytes(FromBytes(data).value)) == FromBytes(data)
  {
    TakenBodyOk(data[1..]);
    var (image, d) := TakeBody(data[1..]).value;
    if data[0] == SESSION_VERSION {
      var (count, d1) := TakeInt(d, 4).value;
      TakenEntriesOk(d1, count, []);
    }
    RoundTrip(FromBytes(data).value);
  }
}
