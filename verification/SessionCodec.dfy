/** `to_bytes` and `from_bytes` as the engine runs them: a growing buffer, and a cursor over the input. */
module SessionCodec {
  import opened Wrappers
  import opened Bytes
  import opened Limits
  import opened SessionBytes

  // ── Writing ───────────────────────────────────────────────────────

  method WriteKems(advertised: seq<Kem>) returns (out: bytes)
    ensures out == EncodeKemList(advertised)
  {
    out := [];
    for i := 0 to |advertised|
      invariant EncodeKemList(advertised) == out + EncodeKemList(advertised[i..])
    {
      assert advertised[i..][1..] == advertised[i + 1..];
      out := out + EncodeKem(advertised[i]);
    }
  }

  method WriteEntries(skipped: seq<Entry>) returns (out: bytes)
    ensures out == EncodeEntries(skipped)
  {
    out := [];
    for i := 0 to |skipped|
      invariant EncodeEntries(skipped) == out + EncodeEntries(skipped[i..])
    {
      assert skipped[i..][1..] == skipped[i + 1..];
      out := out + EncodeEntry(skipped[i]);
    }
  }

  lemma BodyInPieces(keys: bytes, chains: bytes, counters: bytes, kems: bytes, flags: bytes)
    ensures keys + (chains + (counters + (kems + flags))) == keys + chains + counters + kems + flags
  {
  }

  method ToBytes(i: Image) returns (out: bytes)
    ensures out == SessionBytes.ToBytes(i)
  {
    out := EncodeKeys(i.keys) + EncodeChains(i.chains) + EncodeCounters(i.counters);
    var kems := WriteKems(i.kems.advertised);
    out := out + (OptionalSized(i.kems.peer) + ([|i.kems.advertised| % 256] + kems));
    out := out + EncodeFlags(i.flags);
    BodyInPieces(EncodeKeys(i.keys), EncodeChains(i.chains), EncodeCounters(i.counters), EncodeKems(i.kems),
                 EncodeFlags(i.flags));
    var entries := WriteEntries(i.skipped);
    out := [SESSION_VERSION] + (out + (LE(|i.skipped|, 4) + entries));
  }

  // ── Reading ───────────────────────────────────────────────────────

  /** The input, and how much of it has been taken. */
  class Cursor {
    const data: bytes
    var p: nat

    constructor (data: bytes, p: nat)
      requires p <= |data|
      ensures Valid() && Rest() == data[p..]
    {
      this.data, this.p := data, p;
    }

    ghost predicate Valid()
      reads this
    {
      p <= |data|
    }

    ghost function Rest(): bytes
      reads this
      requires Valid()
    {
      data[p..]
    }

    /** `value` is what `got` reads, and the cursor stands behind it. */
    ghost predicate Follows<T>(got: Got<T>, value: Option<T>)
      reads this
    {
      if got.Some? then Valid() && value == Some(got.value.0) && Rest() == got.value.1 else value == None
    }

    method Take(n: nat) returns (value: Option<bytes>)
      requires Valid()
      modifies this
      ensures Valid() && Follows(TakeBytes(old(Rest()), n), value)
    {
      if |data| < p + n {
        return None;
      }
      value := Some(data[p..p + n]);
      p := p + n;
      assert old(Rest())[..n] == value.value && old(Rest())[n..] == Rest();
    }

    method TakeNumber(width: nat) returns (value: Option<nat>)
      requires Valid()
      modifies this
      ensures Valid() && Follows(TakeInt(old(Rest()), width), value)
    {
      var b :- Take(width);
      value := Some(FromLE(b));
    }

    method TakeMark() returns (value: Option<byte>)
      requires Valid()
      modifies this
      ensures Valid() && Follows(TakeByte(old(Rest())), value)
    {
      var b :- Take(1);
      value := Some(b[0]);
    }

    method TakeLengthPrefixed() returns (value: Option<bytes>)
      requires Valid()
      modifies this
      ensures Valid() && Follows(TakeSized(old(Rest())), value)
    {
      var len :- TakeNumber(2);
      value := Take(len);
    }

    method ReadKeys() returns (value: Option<Keys>)
      requires Valid()
      modifies this
      ensures Valid() && Follows(TakeKeys(old(Rest())), value)
    {
      var sessionId :- Take(32);
      var rk :- Take(32);
      var dhPub :- Take(32);
      var dhSec :- Take(32);
      value := Some(Keys(sessionId, rk, dhPub, dhSec));
    }

    method ReadPeerKey() returns (value: Option<Option<bytes>>)
      requires Valid()
      modifies this
      ensures Valid() && Follows(TakePeerKey(old(Rest())), value)
    {
      var mark :- TakeMark();
      if mark != 1 {
        return Some(None);
      }
      var v :- Take(32);
      value := Some(Some(v));
    }

    method ReadChainKey() returns (value: Option<Option<bytes>>)
      requires Valid()
      modifies this
      ensures Valid() && Follows(TakeChainKey(old(Rest())), value)
    {
      var mark :- TakeMark();
      if mark == 0 {
        return Some(None);
      }
      var v :- Take(32);
      value := Some(Some(v));
    }

    method ReadChains() returns (value: Option<Chains>)
      requires Valid()
      modifies this
      ensures Valid() && Follows(TakeChains(old(Rest())), value)
    {
      var dhR :- ReadPeerKey();
      var ckS :- ReadChainKey();
      var ckR :- ReadChainKey();
      value := Some(Chains(dhR, ckS, ckR));
    }

    method ReadCounters() returns (value: Option<Counters>)
      requires Valid()
      modifies this
      ensures Valid() && Follows(TakeCounters(old(Rest())), value)
    {
      var nS :- TakeNumber(4);
      var nR :- TakeNumber(4);
      var pn :- TakeNumber(4);
      value := Some(Counters(nS, nR, pn));
    }

    method ReadKem() returns (value: Option<Kem>)
      requires Valid()
      modifies this
      ensures Valid() && Follows(TakeKem(old(Rest())), value)
    {
      var pk :- TakeLengthPrefixed();
      var sk :- TakeLengthPrefixed();
      value := Some(Kem(pk, sk));
    }

    method ReadKemPeer() returns (value: Option<Option<bytes>>)
      requires Valid()
      modifies this
      ensures Valid() && Follows(TakeKemPeer(old(Rest())), value)
    {
      var mark :- TakeMark();
      if mark != 1 {
        return Some(None);
      }
      var v :- TakeLengthPrefixed();
      value := Some(Some(v));
    }

    method ReadKemList(count: nat) returns (value: Option<seq<Kem>>)
      requires Valid()
      modifies this
      ensures Valid() && Follows(TakeKemList(old(Rest()), count), value)
    {
      ghost var start := Rest();
      var advertised: seq<Kem> := [];
      PrependedNothing(TakeKemList(start, count));
      for i := 0 to count
        invariant Valid()
        invariant TakeKemList(start, count) == Prepended(advertised, TakeKemList(Rest(), count - i))
      {
        ghost var here := Rest();
        PrependedStep(advertised, here, count - i);
        var k :- ReadKem();
        advertised := advertised + [k];
      }
      assert advertised + [] == advertised;
      value := Some(advertised);
    }

    method ReadKems() returns (value: Option<Kems>)
      requires Valid()
      modifies this
      ensures Valid() && Follows(TakeKems(old(Rest())), value)
    {
      var peer :- ReadKemPeer();
      var count :- TakeMark();
      var advertised :- ReadKemList(count);
      value := Some(Kems(peer, advertised));
    }

    method ReadFlags() returns (value: Option<Flags>)
      requires Valid()
      modifies this
      ensures Valid() && Follows(TakeFlags(old(Rest())), value)
    {
      var advertiseKemNext :- TakeMark();
      var initialized :- TakeMark();
      value := Some(Flags(advertiseKemNext != 0, initialized != 0));
    }

    method ReadEntry() returns (value: Option<Entry>)
      requires Valid()
      modifies this
      ensures Valid() && Follows(TakeEntry(old(Rest())), value)
    {
      var dh :- Take(32);
      var n :- TakeNumber(4);
      var mk :- Take(32);
      value := Some(Entry(dh, n, mk));
    }

    method ReadEntries(count: nat) returns (value: Option<seq<Entry>>)
      requires Valid()
      modifies this
      ensures Valid() && Follows(TakeEntries(old(Rest()), count, []), value)
    {
      var es: seq<Entry> := [];
      for i := 0 to count
        invariant Valid()
        invariant TakeEntries(old(Rest()), count, []) == TakeEntries(Rest(), count - i, es)
      {
        var e :- ReadEntry();
        es := Insert(es, e);
      }
      value := Some(es);
    }

    method ReadBody() returns (value: Option<Image>)
      requires Valid()
      modifies this
      ensures Valid() && Follows(TakeBody(old(Rest())), value)
    {
      var keys :- ReadKeys();
      var chains :- ReadChains();
      var counters :- ReadCounters();
      var kems :- ReadKems();
      var flags :- ReadFlags();
      value := Some(Image(keys, chains, counters, kems, flags, []));
    }
  }

  ghost function Prepended(front: seq<Kem>, got: Got<seq<Kem>>): Got<seq<Kem>> {
    if got.None? then None else Some((front + got.value.0, got.value.1))
  }

  lemma PrependedNothing(got: Got<seq<Kem>>)
    ensures Prepended([], got) == got
  {
    if got.Some? { assert [] + got.value.0 == got.value.0; }
  }

  lemma PrependedStep(front: seq<Kem>, d: bytes, count: nat)
    requires count > 0
    ensures Prepended(front, TakeKemList(d, count)) ==
            match TakeKem(d)
            case None => None
            case Some((k, d1)) => Prepended(front + [k], TakeKemList(d1, count - 1))
  {
    if TakeKem(d).Some? {
      var (k, d1) := TakeKem(d).value;
      if TakeKemList(d1, count - 1).Some? {
        assert front + ([k] + TakeKemList(d1, count - 1).value.0) == front + [k] + TakeKemList(d1, count - 1).value.0;
      }
    }
  }

  method FromBytes(data: bytes) returns (answer: Result<Image, DecodeError>)
    ensures answer == SessionBytes.FromBytes(data)
  {
    if |data| == 0 {
      return Err(Truncated);
    }
    if data[0] != SESSION_VERSION && data[0] != LEGACY_VERSION {
      return Err(UnsupportedVersion);
    }
    var cursor := new Cursor(data, 1);
    var image := cursor.ReadBody();
    if image.None? {
      return Err(Truncated);
    }
    if data[0] == LEGACY_VERSION {
      return Ok(image.value);
    }
    var count := cursor.TakeNumber(4);
    if count.None? {
      return Err(Truncated);
    }
    if count.value > MAX_SKIPPED_TOTAL {
      return Err(TooManySkipped);
    }
    var skipped := cursor.ReadEntries(count.value);
    if skipped.None? {
      return Err(Truncated);
    }
    return Ok(image.value.(skipped := skipped.value));
  }
}
