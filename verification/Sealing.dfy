/**
 What a sealed package carries, and who opens it: a session on any history
 seals, and any session receives.
 */
module Sealing {
  import opened Wrappers
  import opened Bytes
  import opened Limits
  import opened Symbolic
  import opened Ratchet
  import opened Conversation
  import opened Delivery
  import KeyHistory
  import PackageHeader

  // ── The header ────────────────────────────────────────────────────

  /** The flags say what the header has, as the parser reads them. */
  lemma FlagsAreExact(s: State, draw: Draw, plain: Plaintext)
    requires Encrypt(s, draw, plain).1.Ok?
    ensures var h := Encrypt(s, draw, plain).1.value.header;
            && PackageHeader.HasDh(h.flags)
            && (PackageHeader.HasKemPk(h.flags) <==> h.kemPk.Some?)
            && (PackageHeader.HasKemCt(h.flags) <==> h.kemCt.Some?)
  {
  }

  /** The bytes of public keys and ciphertexts. */
  datatype Encoding = Encoding(dhPub: DhPub -> bytes, kemPk: KemPk -> bytes, kemCt: KemCt -> bytes)

  ghost predicate Fits(enc: Encoding) {
    && (forall x :: |enc.dhPub(x)| == X25519_PK_LEN)
    && (forall x :: |enc.kemPk(x)| == KEM_PK_LEN) && (forall x :: |enc.kemCt(x)| == KEM_CT_LEN)
  }

  function OnTheWire(enc: Encoding, h: Header): PackageHeader.WireHeader {
    PackageHeader.WireHeader(
      h.flags, h.pn, h.n, enc.dhPub(h.dhPub), if h.kemPk.Some? then Some(enc.kemPk(h.kemPk.value)) else None,
      if h.kemCt.Some? then Some(enc.kemCt(h.kemCt.value)) else None)
  }

  /** So what is sealed arrives as it was sealed: the parser gives back its header and its body. */
  lemma SealedParses(s: State, draw: Draw, plain: Plaintext, enc: Encoding, body: bytes)
    requires Encrypt(s, draw, plain).1.Ok? && Fits(enc) && |body| >= PackageHeader.AEAD_TAG_LEN
    requires var h := Encrypt(s, draw, plain).1.value.header; h.pn < U32 && h.n < U32
    ensures var h := OnTheWire(enc, Encrypt(s, draw, plain).1.value.header);
            PackageHeader.ParseHeader(PackageHeader.BuildHeader(h) + body) == Some((h, body))
  {
    var h := OnTheWire(enc, Encrypt(s, draw, plain).1.value.header);
    FlagsAreExact(s, draw, plain);
    hide Encrypt;
    PackageHeader.ParseOfBuild(h, body);
    Widths();
    PackageHeader.FixedPartFields(h.flags, h.pn, h.n, h.dhPub);
  }

  // ── Who opens it ──────────────────────────────────────────────────

  /** What opens was sealed for this session, under this header, and is what was sealed. */
  lemma {:induction false} OpenedBinds(sessionId: SessionId, package: Package, mk: Term,
                                       candidates: seq<Option<KemSecret>>)
    requires FirstOpened(sessionId, package, mk, candidates).Some?
    ensures var body := package.body;
            && body.Sealed? && body.sessionId == sessionId && body.header == package.header
            && FirstOpened(sessionId, package, mk, candidates) == Some(body.plain)
  {
    if Open(sessionId, package.header, MixKem(mk, candidates[0]), package.body).Some? {
    } else {
      OpenedBinds(sessionId, package, mk, candidates[1..]);
    }
  }

  /** The key of the sending chain that the next package takes. */
  function NextMessageKey(s: State, draw: Draw): Term
    requires OpenSendChain(s, draw.dh).ckS.Some?
  {
    MessageKeyOf(OpenSendChain(s, draw.dh).ckS.value)
  }

  /**
   A sealed package, whatever header it arrives under, opens for a session if
   and only if that is the same conversation, the header is the one it was
   sealed with, the message key is the right one and, where the package
   carries a ciphertext, the KEM key it is for is held.
   */
  lemma OpensExactly(s: State, draw: Draw, plain: Plaintext, t: State, mk: Term, header: Header)
    requires Encrypt(s, draw, plain).1.Ok? && mk.Hmac? && mk.tag.MessageKey?
    ensures OpenSendChain(s, draw.dh).ckS.Some?
    ensures var package := Encrypt(s, draw, plain).1.value;
            OpenAead(t, Package(header, package.body), mk)
            == if t.sessionId == s.sessionId && header == package.header && mk == NextMessageKey(s, draw)
                  && KemHeld(t, header)
               then Some(plain) else None
  {
    var sealed := Encrypt(s, draw, plain).1.value;
    var arrived := Package(header, sealed.body);
    var candidates := Candidates(t.kemAdvertised, header.kemCt);
    if OpenAead(t, arrived, mk).Some? {
      OpenedBinds(t.sessionId, arrived, mk, candidates);
    }
    if t.sessionId == s.sessionId && header == sealed.header {
      var ss := if header.kemCt.Some? then Some(Encapsulated(header.kemCt.value)) else None;
      FirstOpenedHonest(t.sessionId, arrived, mk, candidates, NextMessageKey(s, draw), ss, plain);
      HonestIsCandidate(t, header);
    }
  }

  /** The right secret is among those that are tried just if its key is held. */
  lemma HonestIsCandidate(t: State, h: Header)
    ensures var ss := if h.kemCt.Some? then Some(Encapsulated(h.kemCt.value)) else None;
            ss in Candidates(t.kemAdvertised, h.kemCt) <==> KemHeld(t, h)
  {
    var ss := if h.kemCt.Some? then Some(Encapsulated(h.kemCt.value)) else None;
    var candidates := Candidates(t.kemAdvertised, h.kemCt);
    if KemHeld(t, h) {
      if h.kemCt.Some? {
        var k :| 0 <= k < |t.kemAdvertised| && t.kemAdvertised[k] == h.kemCt.value.to;
        assert candidates[k] == ss;
      } else {
        assert candidates[0] == ss;
      }
    }
  }

  // ── Whether it carries a ciphertext ───────────────────────────────

  /** The advertisement that a call reads in order, if it does; `known` is the one before. */
  function AdvertAfter(s: State, call: KeyHistory.Call, known: Option<KemPk>): Option<KemPk> {
    if call.Receive? && call.wire.Parsed? && Decrypt(s, call.wire).1.Ok? && !InStore(s, call.wire.package.header)
       && call.wire.package.header.kemPk.Some?
    then call.wire.package.header.kemPk
    else known
  }

  /** The last advertisement that was read in order, or `known`. */
  function LastAdvert(t: KeyHistory.Trace, calls: seq<KeyHistory.Call>, known: Option<KemPk>): Option<KemPk>
    decreases |calls|
  {
    if |calls| == 0 then known
    else LastAdvert(KeyHistory.Perform(t, calls[0]), calls[1..], AdvertAfter(t.state, calls[0], known))
  }

  lemma CallNotes(t: KeyHistory.Trace, call: KeyHistory.Call)
    ensures KeyHistory.Perform(t, call).state.kemPeer == AdvertAfter(t.state, call, t.state.kemPeer)
  {
    hide Decrypt;
    if call.Receive? && call.wire.Parsed? {
      DecryptNotes(t.state, call.wire.package);
    } else if call.Receive? {
      UnparsableNotes(t.state);
    }
  }

  lemma UnparsableNotes(s: State)
    ensures Decrypt(s, Unparsable) == (s, Err(Malformed))
  {
  }

  lemma {:induction false} PeerIsLastAdvert(t: KeyHistory.Trace, calls: seq<KeyHistory.Call>)
    ensures KeyHistory.PerformAll(t, calls).state.kemPeer == LastAdvert(t, calls, t.state.kemPeer)
    decreases |calls|
  {
    hide KeyHistory.Perform, AdvertAfter;
    if |calls| == 0 {
    } else {
      CallNotes(t, calls[0]);
      PeerIsLastAdvert(KeyHistory.Perform(t, calls[0]), calls[1..]);
    }
  }

  /**
   Over any run of a session, on any input: what it seals carries a KEM
   ciphertext if and only if it has read an advertisement in order before, and
   then one for the last key so read, with the coin of that very call.
   */
  lemma CiphertextExactly(start: State, calls: seq<KeyHistory.Call>, draw: Draw, plain: Plaintext)
    requires KeyHistory.IsStart(start)
    requires Encrypt(KeyHistory.PerformAll(KeyHistory.Trace(start, []), calls).state, draw, plain).1.Ok?
    ensures var s := KeyHistory.PerformAll(KeyHistory.Trace(start, []), calls).state;
            var advert := LastAdvert(KeyHistory.Trace(start, []), calls, None);
            Encrypt(s, draw, plain).1.value.header.kemCt
            == if advert.Some? then Some(KemCt(advert.value.of, draw.coin)) else None
  {
    PeerIsLastAdvert(KeyHistory.Trace(start, []), calls);
    hide KeyHistory.PerformAll, LastAdvert;
  }
}
