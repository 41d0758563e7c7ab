/**
 The hybrid ratchet session on values: the session state and, for each
 operation, the state it leaves and the answer it gives. `Sessions.Session`
 implements these operations on mutable fields.
 */
module Ratchet {
  import opened Wrappers
  import opened Bytes
  import opened Limits
  import opened Symbolic

  const FLAG_DH: byte := 1
  const FLAG_KEM_PK: byte := 2
  const FLAG_KEM_CT: byte := 4

  datatype Error = Malformed | OutOfOrder | NoState | AuthFailed

  /** Where a skipped message key is kept: the sender's ratchet key and the message number. */
  datatype Slot = Slot(dh: DhPub, n: nat)

  type SkippedKeys = map<Slot, Term>

  /** A key pair is represented by its secret. */
  datatype State = State(
    sessionId: SessionId,
    rk: Term,
    dhS: nat,
    dhR: Option<DhPub>,
    ckS: Option<Term>,
    ckR: Option<Term>,
    nS: nat,
    nR: nat,
    pn: nat,
    kemAdvertised: seq<nat>,
    kemPeer: Option<KemPk>,
    advertiseKemNext: bool,
    skipped: SkippedKeys,
    initialized: bool)

  /** What one call may draw from the random source. */
  datatype Draw = Draw(dh: nat, kem: nat, coin: nat)

  /** What `SessionStart` hands to either side. */
  datatype Start = Start(root: Term, sessionId: SessionId, ourDh: nat)

  // ── Starting ──────────────────────────────────────────────────────

  function StartAlice(start: Start, peerDh: DhPub, ourKem: Option<nat>): State {
    var dh := X25519(start.ourDh, peerDh);
    State(start.sessionId, NextRoot(start.root, dh), start.ourDh, Some(peerDh), Some(SeedChain(start.root, dh)), None,
          0, 0, 0, if ourKem.Some? then [ourKem.value] else [], None, true, map[], true)
  }

  function StartBob(start: Start, freshKem: nat): State {
    State(start.sessionId, start.root, start.ourDh, None, None, None,
          0, 0, 0, [freshKem], None, true, map[], false)
  }

  // ── Sending ───────────────────────────────────────────────────────

  function OpenSendChain(s: State, freshDh: nat): State {
    if s.ckS.Some? || s.dhR.None? then s
    else
      var dh := X25519(freshDh, s.dhR.value);
      s.(dhS := freshDh, advertiseKemNext := true,
         rk := NextRoot(s.rk, dh), ckS := Some(SeedChain(s.rk, dh)), nS := 0)
  }

  function Newest2(keys: seq<nat>): seq<nat> {
    if |keys| <= 2 then keys else keys[..2]
  }

  function Encrypt(s: State, draw: Draw, plain: Plaintext): (State, Result<Package, Error>) {
    var o := OpenSendChain(s, draw.dh);
    if o.ckS.None? then (o, Err(NoState))
    else
      var ck := o.ckS.value;
      var adv := o.advertiseKemNext;
      var kemPk := if adv then Some(KemPk(draw.kem)) else None;
      var kemCt := if o.kemPeer.Some? then Some(KemCt(o.kemPeer.value.of, draw.coin)) else None;
      var flags := FLAG_DH + (if adv then FLAG_KEM_PK else 0) + (if kemCt.Some? then FLAG_KEM_CT else 0);
      var header := Header(flags, o.pn, o.nS, DhPub(o.dhS), kemPk, kemCt);
      var finalMk := MixKem(MessageKeyOf(ck), if kemCt.Some? then Some(Encapsulated(kemCt.value)) else None);
      (o.(ckS := Some(NextChainKey(ck)), nS := o.nS + 1,
          kemAdvertised := if adv then Newest2([draw.kem] + o.kemAdvertised) else o.kemAdvertised,
          advertiseKemNext := false),
       Ok(Package(header, Seal(o.sessionId, header, finalMk, plain))))
  }

  // ── Skipping ──────────────────────────────────────────────────────

  /** The gap up to `until` is one that `skip_to` bridges. */
  predicate FitsGap(s: State, until: nat) {
    until <= s.nR || (until - s.nR <= MAX_SKIP && |s.skipped| + (until - s.nR) <= MAX_SKIPPED_TOTAL)
  }

  predicate InGap(at: Slot, dh: DhPub, from: nat, until: nat) { at.dh == dh && from <= at.n < until }

  /**
   The store after it took the message keys of numbers `from..until` of the
   chain under `dh`, whose chain key is `ck` when its number is `from`.
   */
  function StoreGap(store: SkippedKeys, dh: DhPub, ck: Term, from: nat, until: nat): SkippedKeys
    requires from <= until
    decreases until
  {
    if until == from then store
    else StoreGap(store, dh, ck, from, until - 1)[Slot(dh, until - 1) := MessageKeyOf(ChainPower(ck, until - 1 - from))]
  }

  /** What the closed form is: exactly the keys of the gap are added, each at its number of the iterated chain. */
  lemma {:induction false} StoreGapAt(store: SkippedKeys, dh: DhPub, ck: Term, from: nat, until: nat, at: Slot)
    requires from <= until
    ensures var r := StoreGap(store, dh, ck, from, until);
            if InGap(at, dh, from, until)
            then at in r && r[at] == MessageKeyOf(ChainPower(ck, at.n - from))
            else (at in r <==> at in store) && (at in r ==> r[at] == store[at])
    decreases until
  {
    if from == until {
    } else {
      StoreGapAt(store, dh, ck, from, until - 1, at);
    }
  }

  lemma {:induction false} StoreGapSize(store: SkippedKeys, dh: DhPub, ck: Term, from: nat, until: nat)
    requires from <= until
    ensures |StoreGap(store, dh, ck, from, until)| <= |store| + (until - from)
    decreases until
  {
    if from == until {
    } else {
      StoreGapSize(store, dh, ck, from, until - 1);
      var smaller := StoreGap(store, dh, ck, from, until - 1);
      var slot := Slot(dh, until - 1);
      var grown := smaller[slot := MessageKeyOf(ChainPower(ck, until - 1 - from))];
      assert grown.Keys == smaller.Keys + {slot};
    }
  }

  /** `skip_to` in closed form; None is its `OutOfOrder`. */
  function SkipTo(s: State, until: nat): Option<State> {
    if !FitsGap(s, until) then None
    else if until <= s.nR || s.dhR.None? || s.ckR.None? then Some(s)
    else Some(s.(skipped := StoreGap(s.skipped, s.dhR.value, s.ckR.value, s.nR, until),
                 nR := until,
                 ckR := Some(ChainPower(s.ckR.value, until - s.nR))))
  }

  // ── Opening ───────────────────────────────────────────────────────

  /** The KEM secrets a package is tried with, in order. */
  function Candidates(advertised: seq<nat>, kemCt: Option<KemCt>): seq<Option<KemSecret>> {
    if kemCt.None? || |advertised| == 0 then [None]
    else seq(|advertised|, i requires 0 <= i < |advertised| => Some(Decapsulate(advertised[i], kemCt.value)))
  }

  function FirstOpened(sessionId: SessionId, package: Package, mk: Term,
                       candidates: seq<Option<KemSecret>>): Option<Plaintext>
  {
    if |candidates| == 0 then None
    else
      var tried := Open(sessionId, package.header, MixKem(mk, candidates[0]), package.body);
      if tried.Some? then tried else FirstOpened(sessionId, package, mk, candidates[1..])
  }

  function OpenAead(s: State, package: Package, mk: Term): Option<Plaintext> {
    FirstOpened(s.sessionId, package, mk, Candidates(s.kemAdvertised, package.header.kemCt))
  }

  // ── Receiving ─────────────────────────────────────────────────────

  function DeriveInitialReceiveChain(s: State, peerDh: DhPub): State {
    var dh := X25519(s.dhS, peerDh);
    s.(rk := NextRoot(s.rk, dh), ckR := Some(SeedChain(s.rk, dh)), nR := 0, dhR := Some(peerDh), initialized := true)
  }

  function DhRatchet(s: State, peerDh: DhPub): State {
    var dh := X25519(s.dhS, peerDh);
    s.(rk := NextRoot(s.rk, dh), ckR := Some(SeedChain(s.rk, dh)), nR := 0, dhR := Some(peerDh), pn := s.nS,
       ckS := None)
  }

  function SlotOf(h: Header): Slot { Slot(h.dhPub, h.n) }

  predicate InStore(s: State, h: Header) { SlotOf(h) in s.skipped }

  predicate IsNewChain(s: State, h: Header) { s.dhR != Some(h.dhPub) }

  /** The receiving side, ready for the very first header it sees. */
  function Awake(s: State, h: Header): State {
    if s.initialized then s else DeriveInitialReceiveChain(s, h.dhPub)
  }

  /** Moves the receiving chain to the message that `h` announces, or says why not. `s` is awake. */
  function Reach(s: State, h: Header): Result<State, Error> {
    if IsNewChain(s, h) then
      if h.pn < s.nR then Err(OutOfOrder)
      else
        match SkipTo(s, h.pn)
        case None => Err(OutOfOrder)
        case Some(t) => Ok(DhRatchet(t, h.dhPub))
    else if h.n < s.nR then Err(OutOfOrder)
    else
      match SkipTo(s, h.n)
      case None => Err(OutOfOrder)
      case Some(t) => if t.ckR.None? then Err(NoState) else Ok(t)
  }

  /** Takes the next key of the receiving chain, used or not. */
  function StepReceiving(s: State): State
    requires s.ckR.Some?
  {
    s.(ckR := Some(NextChainKey(s.ckR.value)), nR := s.nR + 1)
  }

  function DecryptFromStore(s: State, package: Package): (State, Result<Plaintext, Error>)
    requires InStore(s, package.header)
  {
    var at := SlotOf(package.header);
    match OpenAead(s, package, s.skipped[at])
    case None => (s, Err(AuthFailed))
    case Some(plain) => (s.(skipped := s.skipped - {at}), Ok(plain))
  }

  function DecryptInOrder(s: State, package: Package): (State, Result<Plaintext, Error>)
    requires s.ckR.Some?
  {
    var stepped := StepReceiving(s);
    match OpenAead(stepped, package, MessageKeyOf(s.ckR.value))
    case None => (stepped, Err(AuthFailed))
    case Some(plain) =>
      (if package.header.kemPk.Some? then stepped.(kemPeer := package.header.kemPk) else stepped, Ok(plain))
  }

  function Decrypt(s: State, wire: Wire): (State, Result<Plaintext, Error>) {
    if wire.Unparsable? then (s, Err(Malformed))
    else if InStore(s, wire.package.header) then DecryptFromStore(s, wire.package)
    else
      var awake := Awake(s, wire.package.header);
      match Reach(awake, wire.package.header)
      case Err(e) => (awake, Err(e))
      case Ok(t) => assert t.ckR.Some?; DecryptInOrder(t, wire.package)
  }
}
