/**
 The PQXDH-lite bootstrap: how two identities arrive at one root key and one
 session id before the first message.
 */
module Bootstrap {
  import opened Wrappers
  import opened Bytes
  import opened Limits
  import opened Symbolic
  import opened Ratchet
  import opened Conversation
  import Runs

  /** An ML-DSA signature by key `signer` over a signed prekey. */
  datatype Signature = Signature(signer: nat, kem: KemPk, x: DhPub)

  /** A public identity. What an older client does not publish is None. */
  datatype Bundle = Bundle(
    ikKem: KemPk, ikX: Option<DhPub>, sigPk: nat,
    spkKem: Option<KemPk>, spkX: Option<DhPub>, spkSig: Option<Signature>)
  {
    predicate IsV9() { ikX.Some? && spkKem.Some? && spkX.Some? && spkSig.Some? }

    predicate VerifyPrekey() { IsV9() && spkSig.value == Signature(sigPk, spkKem.value, spkX.value) }
  }

  /** The secrets behind a bundle. */
  datatype Identity = Identity(ikKem: nat, ikX: nat, sig: nat, spkKem: nat, spkX: nat) {
    function Public(): Bundle {
      Bundle(KemPk(ikKem), Some(DhPub(ikX)), sig, Some(KemPk(spkKem)), Some(DhPub(spkX)),
             Some(Signature(sig, KemPk(spkKem), DhPub(spkX))))
    }
  }

  datatype BootstrapError = NoSignedPrekey | BadPrekeySignature

  // ── Session id ────────────────────────────────────────────────────

  function SessionIdFrom(a: bytes, b: bytes): SessionId {
    if AtMost(a, b) then SessionId(a + b) else SessionId(b + a)
  }

  /** The session id of two keys is theirs whichever comes first. */
  lemma SessionIdIsUnordered(a: bytes, b: bytes)
    ensures SessionIdFrom(a, b) == SessionIdFrom(b, a)
  {
    AtMostIsTotal(a, b);
  }

  /** And it is that of no other two X25519 keys: equal sizes tell where one ends. */
  lemma SessionIdOfPair(a: bytes, b: bytes, c: bytes, d: bytes)
    requires |a| == |b| == |c| == |d| == X25519_PK_LEN
    ensures SessionIdFrom(a, b) == SessionIdFrom(c, d) <==> (a == c && b == d) || (a == d && b == c)
  {
    SessionIdIsUnordered(a, b);
    var (one, two) := if AtMost(a, b) then (a, b) else (b, a);
    var (three, four) := if AtMost(c, d) then (c, d) else (d, c);
    if one + two == three + four {
      assert (one + two)[..X25519_PK_LEN] == one && (three + four)[..X25519_PK_LEN] == three;
      assert (one + two)[X25519_PK_LEN..] == two && (three + four)[X25519_PK_LEN..] == four;
    }
  }

  // ── Root ──────────────────────────────────────────────────────────

  /** HKDF-SHA256 with an empty salt and one output block (sections 2.2 and 2.3 of RFC 5869). */
  function Hkdf(ikm: Input): Term { Hmac(Hmac(EmptyKey, Extract, ikm), Expand, NoInput) }

  datatype InitiatorOutput = InitiatorOutput(root: Term, sessionId: SessionId, ctSpk: KemCt, ctIk: KemCt)

  /**
   `encode` is the 32-byte form of a public key. `coinSpk` and `coinIk` are the
   randomness of the two encapsulations.
   */
  function InitiatorBootstrap(ikX: nat, ekX: nat, peer: Bundle, coinSpk: nat, coinIk: nat, encode: DhPub -> bytes)
    : Result<InitiatorOutput, BootstrapError>
  {
    if !peer.IsV9() then Err(NoSignedPrekey)
    else if !peer.VerifyPrekey() then Err(BadPrekeySignature)
    else
      var dh1 := X25519(ikX, peer.spkX.value);
      var dh2 := X25519(ekX, peer.ikX.value);
      var dh3 := X25519(ekX, peer.spkX.value);
      var ctSpk, ctIk := KemCt(peer.spkKem.value.of, coinSpk), KemCt(peer.ikKem.of, coinIk);
      var root := Hkdf(Ikm(dh1, dh2, dh3, Encapsulated(ctSpk), Encapsulated(ctIk)));
      Ok(InitiatorOutput(root, SessionIdFrom(encode(DhPub(ikX)), encode(peer.ikX.value)), ctSpk, ctIk))
  }

  function ResponderBootstrap(ikX: nat, spkX: nat, ikKem: nat, spkKem: nat, peer: Bundle, ekX: DhPub,
                              ctSpk: KemCt, ctIk: KemCt, encode: DhPub -> bytes)
    : Result<(Term, SessionId), BootstrapError>
  {
    if !peer.IsV9() then Err(NoSignedPrekey)
    else if !peer.VerifyPrekey() then Err(BadPrekeySignature)
    else
      var dh1 := X25519(spkX, peer.ikX.value);
      var dh2 := X25519(ikX, ekX);
      var dh3 := X25519(spkX, ekX);
      var root := Hkdf(Ikm(dh1, dh2, dh3, Decapsulate(spkKem, ctSpk), Decapsulate(ikKem, ctIk)));
      Ok((root, SessionIdFrom(encode(peer.ikX.value), encode(DhPub(ikX)))))
  }

  // ── Agreement ─────────────────────────────────────────────────────

  lemma X25519Commutes(a: nat, b: nat)
    ensures X25519(a, DhPub(b)) == X25519(b, DhPub(a))
  {
  }

  /**
   Whoever tries to answer Alice's first message to Bob, holding any secrets
   at all, gets her root exactly when these are Bob's four; and Bob gets her
   session id with it.
   */
  lemma OnlyTheResponderAgrees(alice: Identity, bob: Identity, ekX: nat, coinSpk: nat, coinIk: nat,
                               ikX: nat, spkX: nat, ikKem: nat, spkKem: nat, encode: DhPub -> bytes)
    ensures InitiatorBootstrap(alice.ikX, ekX, bob.Public(), coinSpk, coinIk, encode).Ok?
    ensures var out := InitiatorBootstrap(alice.ikX, ekX, bob.Public(), coinSpk, coinIk, encode).value;
            var answer := ResponderBootstrap(ikX, spkX, ikKem, spkKem, alice.Public(), DhPub(ekX), out.ctSpk,
                                             out.ctIk, encode);
            && answer.Ok?
            && (answer.value.0 == out.root <==>
                ikX == bob.ikX && spkX == bob.spkX && ikKem == bob.ikKem && spkKem == bob.spkKem)
            && (answer.value.0 == out.root ==> answer.value.1 == out.sessionId)
  {
    X25519Commutes(alice.ikX, bob.spkX);
    X25519Commutes(ekX, bob.ikX);
    X25519Commutes(ekX, bob.spkX);
  }

  /**
   The other way round: the root that Bob computes for Alice's bundle and
   ephemeral is reached by whoever writes to him exactly with Alice's identity
   key, that ephemeral and the coins of both encapsulations.
   */
  lemma OnlyTheInitiatorAgrees(alice: Identity, bob: Identity, ekX: nat, coinSpk: nat, coinIk: nat,
                               ikX': nat, ekX': nat, coinSpk': nat, coinIk': nat, encode: DhPub -> bytes)
    ensures var out := InitiatorBootstrap(alice.ikX, ekX, bob.Public(), coinSpk, coinIk, encode).value;
            var other := InitiatorBootstrap(ikX', ekX', bob.Public(), coinSpk', coinIk', encode);
            var answer := ResponderBootstrap(bob.ikX, bob.spkX, bob.ikKem, bob.spkKem, alice.Public(), DhPub(ekX),
                                             out.ctSpk, out.ctIk, encode);
            && other.Ok? && answer.Ok?
            && (other.value.root == answer.value.0 <==>
                ikX' == alice.ikX && ekX' == ekX && coinSpk' == coinSpk && coinIk' == coinIk)
  {
    OnlyTheResponderAgrees(alice, bob, ekX, coinSpk, coinIk, bob.ikX, bob.spkX, bob.ikKem, bob.spkKem, encode);
  }

  // ── Who can compute it ────────────────────────────────────────────

  /** All public keys and ciphertexts are known, and of the secrets these X25519 and KEM secrets and these coins. */
  datatype Knowledge = Knowledge(dh: set<nat>, kem: set<nat>, coins: set<nat>) {
    predicate HasDh(s: DhSecret) { s.lo in dh || s.hi in dh }

    predicate HasKem(s: KemSecret) { s.Shared? && (s.to in kem || s.coin in coins) }

    ghost predicate HasRoot(root: Term) {
      exists i: Input :: i.Ikm? && root == Hkdf(i)
        && HasDh(i.dh1) && HasDh(i.dh2) && HasDh(i.dh3) && HasKem(i.kem1) && HasKem(i.kem2)
    }
  }

  /**
   The root is out of reach of everybody who has not, for each of the two
   encapsulations, its coin or its key, and Alice's two X25519 secrets, or
   Bob's two, or the ephemeral with the signed prekey. So the two identities
   alone never give it away afterwards.
   */
  lemma RootIsKnownExactly(alice: Identity, bob: Identity, ekX: nat, coinSpk: nat, coinIk: nat,
                           encode: DhPub -> bytes, known: Knowledge)
    ensures known.HasRoot(InitiatorBootstrap(alice.ikX, ekX, bob.Public(), coinSpk, coinIk, encode).value.root)
       <==> && (|| (alice.ikX in known.dh && ekX in known.dh)
                || (bob.ikX in known.dh && bob.spkX in known.dh)
                || (ekX in known.dh && bob.spkX in known.dh))
            && (bob.spkKem in known.kem || coinSpk in known.coins)
            && (bob.ikKem in known.kem || coinIk in known.coins)
  {
    var root := InitiatorBootstrap(alice.ikX, ekX, bob.Public(), coinSpk, coinIk, encode).value.root;
    var ikm := root.key.input;
    assert root == Hkdf(ikm);
    assert known.HasRoot(root) <==>
      known.HasDh(ikm.dh1) && known.HasDh(ikm.dh2) && known.HasDh(ikm.dh3) && known.HasKem(ikm.kem1)
      && known.HasKem(ikm.kem2);
  }

  /** The session id is the same if Bob initiates instead. */
  lemma SessionIdEitherWay(alice: Identity, bob: Identity, ekA: nat, ekB: nat, coins: (nat, nat), coins': (nat, nat),
                           encode: DhPub -> bytes)
    ensures var there := InitiatorBootstrap(alice.ikX, ekA, bob.Public(), coins.0, coins.1, encode);
            var back := InitiatorBootstrap(bob.ikX, ekB, alice.Public(), coins'.0, coins'.1, encode);
            there.Ok? && back.Ok? && there.value.sessionId == back.value.sessionId
  {
    SessionIdIsUnordered(encode(DhPub(alice.ikX)), encode(DhPub(bob.ikX)));
  }

  /** The session id names the pair of identities, whoever initiates with whatever else. */
  lemma SessionIdNamesThePair(a: (nat, nat), b: (nat, nat), alice: Identity, bob: Identity, coins: (nat, nat),
                              coins': (nat, nat), encode: DhPub -> bytes)
    requires forall x :: |encode(x)| == X25519_PK_LEN
    requires forall x, y :: encode(x) == encode(y) ==> x == y
    ensures var here := InitiatorBootstrap(a.0, a.1, bob.Public(), coins.0, coins.1, encode).value.sessionId;
            var there := InitiatorBootstrap(b.0, b.1, alice.Public(), coins'.0, coins'.1, encode).value.sessionId;
            here == there <==> (a.0 == b.0 && bob.ikX == alice.ikX) || (a.0 == alice.ikX && bob.ikX == b.0)
  {
    SessionIdOfPair(encode(DhPub(a.0)), encode(DhPub(bob.ikX)), encode(DhPub(b.0)), encode(DhPub(alice.ikX)));
  }

  /**
   The sessions that both sides start on what the bootstrap gave them are two
   sides of one conversation, in step.
   */
  lemma BootstrapBegins(alice: Identity, bob: Identity, ekX: nat, ourKem: Option<nat>, freshKem: nat,
                        coinSpk: nat, coinIk: nat, encode: DhPub -> bytes, next: nat) returns (c: Convo)
    requires ekX < next && bob.spkX < next && freshKem < next && (ourKem.Some? ==> ourKem.value < next)
    ensures var out := InitiatorBootstrap(alice.ikX, ekX, bob.Public(), coinSpk, coinIk, encode).value;
            var (root, sessionId) := ResponderBootstrap(bob.ikX, bob.spkX, bob.ikKem, bob.spkKem, alice.Public(),
                                                        DhPub(ekX), out.ctSpk, out.ctIk, encode).value;
            && c.alice == StartAlice(Start(out.root, out.sessionId, ekX), bob.Public().spkX.value, ourKem)
            && c.bob == StartBob(Start(root, sessionId, bob.spkX), freshKem)
            && Runs.Begun(c) && InStep(c)
  {
    var out := InitiatorBootstrap(alice.ikX, ekX, bob.Public(), coinSpk, coinIk, encode).value;
    OnlyTheResponderAgrees(alice, bob, ekX, coinSpk, coinIk, bob.ikX, bob.spkX, bob.ikKem, bob.spkKem, encode);
    c := Begin(out.root, out.sessionId, ekX, bob.spkX, ourKem, freshKem, next);
    assert Runs.IsBegin(c, out.root, out.sessionId, ekX, bob.spkX, ourKem, freshKem, next);
    Runs.BegunInStep(c);
  }

  /** A bundle gets past either side exactly when its own identity signed its prekey. */
  lemma PrekeyMustBeSigned(peer: Bundle, ikX: nat, ekX: nat, coinSpk: nat, coinIk: nat,
                           spkX: nat, ikKem: nat, spkKem: nat, peerEk: DhPub, ctSpk: KemCt, ctIk: KemCt,
                           encode: DhPub -> bytes)
    ensures InitiatorBootstrap(ikX, ekX, peer, coinSpk, coinIk, encode).Ok?
       <==> exists signed: Identity :: peer == signed.Public()
    ensures ResponderBootstrap(ikX, spkX, ikKem, spkKem, peer, peerEk, ctSpk, ctIk, encode).Ok?
       <==> exists signed: Identity :: peer == signed.Public()
    ensures InitiatorBootstrap(ikX, ekX, peer, coinSpk, coinIk, encode) == Err(NoSignedPrekey)
       <==> peer.ikX.None? || peer.spkKem.None? || peer.spkX.None? || peer.spkSig.None?
    ensures ResponderBootstrap(ikX, spkX, ikKem, spkKem, peer, peerEk, ctSpk, ctIk, encode) == Err(NoSignedPrekey)
       <==> peer.ikX.None? || peer.spkKem.None? || peer.spkX.None? || peer.spkSig.None?
  {
    if peer.VerifyPrekey() {
      var signed := Identity(peer.ikKem.of, peer.ikX.value.of, peer.sigPk, peer.spkKem.value.of, peer.spkX.value.of);
      assert peer == signed.Public();
    }
  }
}
