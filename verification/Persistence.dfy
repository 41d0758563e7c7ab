/**
 From a session to its stored form: whatever bytes its keys are, every session
 that a run can reach is stored and restored field by field.
 */
module Persistence {
  import opened Wrappers
  import opened Bytes
  import opened Symbolic
  import opened Ratchet
  import opened KeyHistory
  import opened Rejection
  import SessionBytes

  /** The bytes of keys and ids. */
  datatype Encoding = Encoding(
    id: SessionId -> bytes, key: Term -> bytes, dhPub: DhPub -> bytes, dhSec: nat -> bytes,
    kemPk: KemPk -> bytes, kemSk: nat -> bytes)

  /** 32 bytes each, and KEM keys that a two-byte length can state. */
  ghost predicate Fits(enc: Encoding) {
    && (forall x :: |enc.id(x)| == 32) && (forall x :: |enc.key(x)| == 32)
    && (forall x :: |enc.dhPub(x)| == 32) && (forall x :: |enc.dhSec(x)| == 32)
    && (forall x :: |enc.kemPk(x)| < U16) && (forall x :: |enc.kemSk(x)| < U16)
  }

  // ── The store ─────────────────────────────────────────────────────

  function EntryOf(enc: Encoding, at: Slot, mk: Term): SessionBytes.Entry {
    SessionBytes.Entry(enc.dhPub(at.dh), at.n, enc.key(mk))
  }

  /** The entries of the store in key order. */
  ghost function Entries(enc: Encoding, store: SkippedKeys): seq<SessionBytes.Entry>
    decreases |store|
  {
    if |store| == 0 then []
    else
      assert store.Keys != {};
      var at :| at in store;
      RemovalShrinks(store, at);
      SessionBytes.Insert(Entries(enc, store - {at}), EntryOf(enc, at, store[at]))
  }

  /** No two ratchet keys of the store have the same bytes. */
  ghost predicate Apart(enc: Encoding, store: SkippedKeys) {
    forall at, other | at in store && other in store && enc.dhPub(at.dh) == enc.dhPub(other.dh) :: at.dh == other.dh
  }

  lemma {:induction false} EntriesInOrder(enc: Encoding, store: SkippedKeys)
    ensures SessionBytes.InOrder(Entries(enc, store)) && |Entries(enc, store)| <= |store|
    ensures forall e | e in Entries(enc, store) :: exists at :: at in store && e == EntryOf(enc, at, store[at])
    decreases |store|
  {
    if |store| == 0 {
    } else {
      assert store.Keys != {};
      var at :| at in store
        && Entries(enc, store) == SessionBytes.Insert(Entries(enc, store - {at}), EntryOf(enc, at, store[at]));
      RemovalShrinks(store, at);
      EntriesInOrder(enc, store - {at});
      SessionBytes.InsertInOrder(Entries(enc, store - {at}), EntryOf(enc, at, store[at]));
      forall e | e in Entries(enc, store) ensures exists b :: b in store && e == EntryOf(enc, b, store[b]) {
        if e != EntryOf(enc, at, store[at]) {
          var b :| b in store - {at} && e == EntryOf(enc, b, (store - {at})[b]);
          assert b in store;
        }
      }
    }
  }

  /** Every key of the store is among the entries. */
  lemma {:induction false} EntriesAreAll(enc: Encoding, store: SkippedKeys, slot: Slot)
    requires Apart(enc, store) && slot in store
    ensures EntryOf(enc, slot, store[slot]) in Entries(enc, store)
    decreases |store|
  {
    assert store.Keys != {};
    var at :| at in store
      && Entries(enc, store) == SessionBytes.Insert(Entries(enc, store - {at}), EntryOf(enc, at, store[at]));
    RemovalShrinks(store, at);
    var rest := Entries(enc, store - {at});
    if slot == at {
      SessionBytes.InsertKeeps(rest, EntryOf(enc, at, store[at]), EntryOf(enc, at, store[at]));
    } else {
      EntriesAreAll(enc, store - {at}, slot);
      SessionBytes.InsertKeeps(rest, EntryOf(enc, at, store[at]), EntryOf(enc, slot, store[slot]));
    }
  }

  // ── Sessions ──────────────────────────────────────────────────────

  ghost function ImageOf(enc: Encoding, s: State): SessionBytes.Image {
    SessionBytes.Image(
      SessionBytes.Keys(enc.id(s.sessionId), enc.key(s.rk), enc.dhPub(DhPub(s.dhS)), enc.dhSec(s.dhS)),
      SessionBytes.Chains(
        if s.dhR.Some? then Some(enc.dhPub(s.dhR.value)) else None,
        if s.ckS.Some? then Some(enc.key(s.ckS.value)) else None,
        if s.ckR.Some? then Some(enc.key(s.ckR.value)) else None),
      SessionBytes.Counters(s.nS, s.nR, s.pn),
      SessionBytes.Kems(
        if s.kemPeer.Some? then Some(enc.kemPk(s.kemPeer.value)) else None,
        seq(|s.kemAdvertised|, i requires 0 <= i < |s.kemAdvertised| =>
          SessionBytes.Kem(enc.kemPk(KemPk(s.kemAdvertised[i])), enc.kemSk(s.kemAdvertised[i])))),
      SessionBytes.Flags(s.advertiseKemNext, s.initialized),
      Entries(enc, s.skipped))
  }

  /** No counter has overflowed. */
  ghost predicate Counts(s: State) {
    s.nS < U32 && s.nR < U32 && s.pn < U32 && forall at: Slot | at in s.skipped :: at.n < U32
  }

  lemma BoundedIsStorable(enc: Encoding, s: State)
    requires Fits(enc) && Bounded(s) && Counts(s)
    ensures SessionBytes.ImageOk(ImageOf(enc, s))
  {
    EntriesInOrder(enc, s.skipped);
  }

  /** Every reachable session restores from its stored form to the same image, and that image has every skipped key. */
  lemma ReachableRestores(enc: Encoding, start: State, calls: seq<Call>)
    requires Fits(enc) && IsStart(start)
    requires Counts(PerformAll(Trace(start, []), calls).state)
             && Apart(enc, PerformAll(Trace(start, []), calls).state.skipped)
    ensures var s := PerformAll(Trace(start, []), calls).state;
            var image := ImageOf(enc, s);
            && SessionBytes.FromBytes(SessionBytes.ToBytes(image)) == Ok(image)
            && forall e :: e in image.skipped <==> exists at :: at in s.skipped && e == EntryOf(enc, at, s.skipped[at])
  {
    var s := PerformAll(Trace(start, []), calls).state;
    RunStaysBounded(Trace(start, []), calls);
    BoundedIsStorable(enc, s);
    SessionBytes.RoundTrip(ImageOf(enc, s));
    EntriesInOrder(enc, s.skipped);
    forall at | at in s.skipped ensures EntryOf(enc, at, s.skipped[at]) in Entries(enc, s.skipped) {
      EntriesAreAll(enc, s.skipped, at);
    }
  }

  function BytesOf<T>(o: Option<T>, encode: T -> bytes): Option<bytes> {
    if o.Some? then Some(encode(o.value)) else None
  }

  /** The two sessions agree in every field, down to the bytes of their keys. */
  ghost predicate SameSession(enc: Encoding, s: State, t: State) {
    && enc.id(s.sessionId) == enc.id(t.sessionId) && enc.key(s.rk) == enc.key(t.rk)
    && enc.dhPub(DhPub(s.dhS)) == enc.dhPub(DhPub(t.dhS)) && enc.dhSec(s.dhS) == enc.dhSec(t.dhS)
    && BytesOf(s.dhR, enc.dhPub) == BytesOf(t.dhR, enc.dhPub)
    && BytesOf(s.ckS, enc.key) == BytesOf(t.ckS, enc.key) && BytesOf(s.ckR, enc.key) == BytesOf(t.ckR, enc.key)
    && s.nS == t.nS && s.nR == t.nR && s.pn == t.pn
    && |s.kemAdvertised| == |t.kemAdvertised|
    && (forall i | 0 <= i < |s.kemAdvertised| :: enc.kemSk(s.kemAdvertised[i]) == enc.kemSk(t.kemAdvertised[i]))
    && BytesOf(s.kemPeer, enc.kemPk) == BytesOf(t.kemPeer, enc.kemPk)
    && s.advertiseKemNext == t.advertiseKemNext && s.initialized == t.initialized
    && (forall at | at in s.skipped ::
          exists to :: to in t.skipped && EntryOf(enc, at, s.skipped[at]) == EntryOf(enc, to, t.skipped[to]))
  }

  /** The stored form loses nothing: sessions with the same one are the same. */
  lemma NothingIsLost(enc: Encoding, s: State, t: State)
    requires ImageOf(enc, s) == ImageOf(enc, t) && Apart(enc, s.skipped)
    ensures SameSession(enc, s, t)
  {
    var image := ImageOf(enc, s);
    forall i | 0 <= i < |s.kemAdvertised|
      ensures |t.kemAdvertised| == |s.kemAdvertised|
      ensures enc.kemSk(s.kemAdvertised[i]) == enc.kemSk(t.kemAdvertised[i])
    {
      assert image.kems.advertised[i] == ImageOf(enc, t).kems.advertised[i];
    }
    forall at | at in s.skipped
      ensures exists to :: to in t.skipped && EntryOf(enc, at, s.skipped[at]) == EntryOf(enc, to, t.skipped[to])
    {
      EntriesAreAll(enc, s.skipped, at);
      EntriesInOrder(enc, t.skipped);
    }
  }
}
