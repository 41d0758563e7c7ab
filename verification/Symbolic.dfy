/**
 Symbolic cryptography for the hybrid ratchet.

 Every 32-byte key is a term: `Hmac(key, tag, input)` stands for
 HMAC-SHA256 under `key` of the message that `tag` (the domain-separation
 byte) and `input` spell. Distinct terms stand for distinct keys. An X25519 shared secret is an
 unordered pair of secrets (section 6.1 of RFC 7748), and ML-KEM decapsulation
 under a wrong key returns another secret instead of failing (section 6.3 of
 FIPS 203).
 */
module Symbolic {
  import opened Wrappers
  import opened Bytes

  type Plaintext = bytes

  /** The SHA-256 digest of a byte string. */
  datatype SessionId = SessionId(digested: bytes)

  // ── Terms ─────────────────────────────────────────────────────────

  /** LBL_MK .. LBL_NONCE of the ratchet, and the two HKDF stages of the bootstrap. */
  datatype Label = MessageKey | ChainKey | RootKey | ChainSeed | KemMix | AeadKey | AeadNonce | Extract | Expand

  datatype Input =
    | NoInput
    | DhInput(dh: DhSecret)
    | KemInput(ss: KemSecret)
    | Ikm(dh1: DhSecret, dh2: DhSecret, dh3: DhSecret, kem1: KemSecret, kem2: KemSecret)

  datatype Term =
    | EmptyKey
    | Secret(id: nat)
    | Hmac(key: Term, tag: Label, input: Input)

  // ── X25519 ────────────────────────────────────────────────────────

  /** The public key of the secret `of`. */
  datatype DhPub = DhPub(of: nat)

  /** A shared secret: the unordered pair of the two secrets behind it. */
  datatype DhSecret = DhSecret(lo: nat, hi: nat)

  function X25519(sk: nat, pk: DhPub): DhSecret {
    if sk <= pk.of then DhSecret(sk, pk.of) else DhSecret(pk.of, sk)
  }

  // ── ML-KEM ────────────────────────────────────────────────────────

  datatype KemPk = KemPk(of: nat)

  /** A ciphertext encapsulated to key `to` with randomness `coin`. */
  datatype KemCt = KemCt(to: nat, coin: nat)

  datatype KemSecret = Shared(to: nat, coin: nat) | Rejected(under: nat, ct: KemCt)

  function Encapsulated(ct: KemCt): KemSecret { Shared(ct.to, ct.coin) }

  function Decapsulate(sk: nat, ct: KemCt): KemSecret {
    if sk == ct.to then Encapsulated(ct) else Rejected(sk, ct)
  }

  // ── Key schedule ──────────────────────────────────────────────────

  function MessageKeyOf(ck: Term): Term { Hmac(ck, MessageKey, NoInput) }

  function NextChainKey(ck: Term): Term { Hmac(ck, ChainKey, NoInput) }

  function NextRoot(rk: Term, dh: DhSecret): Term { Hmac(rk, RootKey, DhInput(dh)) }

  function SeedChain(rk: Term, dh: DhSecret): Term { Hmac(rk, ChainSeed, DhInput(dh)) }

  function MixKem(mk: Term, ss: Option<KemSecret>): Term {
    match ss
    case Some(secret) => Hmac(mk, KemMix, KemInput(secret))
    case None => mk
  }

  /** The chain key after `steps` symmetric steps. */
  function ChainPower(ck: Term, steps: nat): Term {
    if steps == 0 then ck else NextChainKey(ChainPower(ck, steps - 1))
  }

  lemma {:induction false} ChainPowerAdds(ck: Term, a: nat, b: nat)
    ensures ChainPower(ChainPower(ck, a), b) == ChainPower(ck, a + b)
  {
    if b == 0 {
    } else {
      ChainPowerAdds(ck, a, b - 1);
    }
  }

  lemma {:induction false} ChainPowerInjective(ck: Term, a: nat, b: nat)
    ensures ChainPower(ck, a) == ChainPower(ck, b) ==> a == b
  {
    TermSizeOfChain(ck, a);
    TermSizeOfChain(ck, b);
  }

  function TermSize(t: Term): nat {
    if t.Hmac? then 1 + TermSize(t.key) else 0
  }

  lemma {:induction false} TermSizeOfChain(ck: Term, steps: nat)
    ensures TermSize(ChainPower(ck, steps)) == TermSize(ck) + steps
  {
    if steps == 0 {
    } else {
      TermSizeOfChain(ck, steps - 1);
    }
  }

  /** How many root steps lie behind a key. */
  function Depth(t: Term): nat {
    if t.Hmac? then (if t.tag.RootKey? then 1 else 0) + Depth(t.key) else 0
  }

  lemma {:induction false} DepthOfChain(ck: Term, steps: nat)
    ensures Depth(ChainPower(ck, steps)) == Depth(ck)
  {
    if steps == 0 {
    } else {
      DepthOfChain(ck, steps - 1);
    }
  }

  // ── Packages ──────────────────────────────────────────────────────

  datatype Header = Header(
    flags: byte, pn: nat, n: nat, dhPub: DhPub, kemPk: Option<KemPk>, kemCt: Option<KemCt>)

  /** An AES-256-GCM ciphertext: it opens under its own key, nonce and associated data only. */
  datatype Sealed =
    | Sealed(key: Term, nonce: Term, sessionId: SessionId, header: Header, plain: Plaintext)
    | Junk(id: nat)

  datatype Package = Package(header: Header, body: Sealed)

  /** Bytes off the wire: `parse_header` rejects them or splits them. */
  datatype Wire = Unparsable | Parsed(package: Package)

  function Seal(sessionId: SessionId, header: Header, finalMk: Term, plain: Plaintext): Sealed {
    Sealed(Hmac(finalMk, AeadKey, NoInput), Hmac(finalMk, AeadNonce, NoInput), sessionId, header, plain)
  }

  function Open(sessionId: SessionId, header: Header, finalMk: Term, body: Sealed): Option<Plaintext> {
    if body.Sealed? && body == Seal(sessionId, header, finalMk, body.plain) then Some(body.plain) else None
  }
}
