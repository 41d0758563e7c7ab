/**
 Two sessions over a network that reorders, delays and loses packages.

 The sending chains of both sides form one sequence 0, 1, 2, ...: Alice, who
 initiates, owns the even ones and Bob the odd ones, and each is opened
 against the key of the one before. Chain -1 stands for Bob's signed prekey.
 A conversation records every chain with what was sent on it, and what of
 that has arrived.
 */
module Conversation {
  import opened Wrappers
  import opened Symbolic
  import opened Ratchet

  datatype Party = Alice | Bob

  datatype Sent = Sent(plain: Plaintext, package: Package)

  /** A sending chain: its ratchet secret, the root after it, its seed, and the KEM key its first message advertises. */
  datatype Chain = Chain(sk: nat, rk: Term, seed: Term, kem: nat, sent: seq<Sent>)

  /** What both sides started from, and everything sent since. */
  datatype Record = Record(root: Term, sessionId: SessionId, prekey: nat, kemAlice: Option<nat>, kemBob: nat,
                           log: seq<Chain>)

  /** Package `index` of chain `chain`. */
  datatype Mark = Mark(chain: nat, index: nat)

  datatype Convo = Convo(
    r: Record,
    alice: State,
    bob: State,
    read: set<Mark>, // what its receiver has read
    gone: set<Mark>, // the numbers whose message key its receiver has used up
    heard: bool,     // whether the receiver of the last chain follows it
    next: nat)   // the next value of the random source

  function Owner(e: int): Party { if e % 2 == 0 then Alice else Bob }

  function Other(p: Party): Party { if p.Alice? then Bob else Alice }

  function Side(c: Convo, p: Party): State { if p.Alice? then c.alice else c.bob }

  function WithSide(c: Convo, p: Party, s: State): Convo { if p.Alice? then c.(alice := s) else c.(bob := s) }

  predicate InLog(r: Record, e: nat, i: nat) { e < |r.log| && i < |r.log[e].sent| }

  /** The last chain that `p` opened, -1 for Bob before his first. */
  function Speaking(r: Record, p: Party): int {
    if Owner(|r.log| - 1) == p then |r.log| - 1 else |r.log| - 2
  }

  /** The chain that `p` is receiving: -1 for Alice before the first reply, -2 for Bob before the first message. */
  function Hearing(r: Record, p: Party, heard: bool): int {
    if Owner(|r.log| - 1) == p then |r.log| - 2 else if heard then |r.log| - 1 else |r.log| - 3
  }

  // ── Steps of a conversation ───────────────────────────────────────

  /** Both sides start from one root, before anything is sent. */
  function Begin(root: Term, sessionId: SessionId, ephemeral: nat, prekey: nat, kemAlice: Option<nat>, kemBob: nat,
                 next: nat): Convo
  {
    var alice := StartAlice(Start(root, sessionId, ephemeral), DhPub(prekey), kemAlice);
    var bob := StartBob(Start(root, sessionId, prekey), kemBob);
    var seed := SeedChain(root, X25519(ephemeral, DhPub(prekey)));
    Convo(Record(root, sessionId, prekey, kemAlice, kemBob, [Chain(ephemeral, alice.rk, seed, next, [])]),
          alice, bob, {}, {}, false, next + 1)
  }

  /** The record after `p` sealed `sent`, on a chain that it opened for it or on its open one. */
  function Recorded(r: Record, p: Party, before: State, after: State, draw: Draw, sent: Sent): Record {
    if before.ckS.None? && before.dhR.Some? then
      var seed := SeedChain(before.rk, X25519(draw.dh, before.dhR.value));
      r.(log := r.log + [Chain(draw.dh, after.rk, seed, draw.kem, [sent])])
    else if 0 <= Speaking(r, p) < |r.log| then
      var chain := r.log[Speaking(r, p)];
      var kem := if sent.package.header.kemPk.Some? then sent.package.header.kemPk.value.of else chain.kem;
      r.(log := r.log[Speaking(r, p) := chain.(kem := kem, sent := chain.sent + [sent])])
    else r
  }

  /** `p` encrypts and hands the package to the network. Nothing happens while `encrypt` answers NoState. */
  function SendStep(c: Convo, p: Party, plain: Plaintext): Convo {
    var s, draw := Side(c, p), Draw(c.next, c.next + 1, c.next + 2);
    var (t, answer) := Encrypt(s, draw, plain);
    if answer.Err? then c
    else
      WithSide(c, p, t).(r := Recorded(c.r, p, s, t, draw, Sent(plain, answer.value)),
                         heard := c.heard && s.ckS.Some?, next := c.next + 3)
  }

  /** The answer to package `i` of chain `e`, if it arrived now. */
  function Receipt(c: Convo, e: nat, i: nat): (State, Result<Plaintext, Error>)
    requires InLog(c.r, e, i)
  {
    Decrypt(Side(c, Other(Owner(e))), Parsed(c.r.log[e].sent[i].package))
  }

  /**
   The number whose message key `s` uses up on a package of chain `e`: that of
   a stored key if the package opens, and the next one of the receiving chain
   if the engine comes to it at all, whether the package opens or not.
   */
  function UsedUp(s: State, h: Header, e: nat, opens: bool): set<Mark> {
    if InStore(s, h) then (if opens then {Mark(e, h.n)} else {})
    else
      match Reach(Awake(s, h), h)
      case Ok(t) => {Mark(e, t.nR)}
      case Err(_) => {}
  }

  /** Package `i` of chain `e` arrives, unchanged, for the first time or again. */
  function DeliverStep(c: Convo, e: nat, i: nat): Convo
    requires InLog(c.r, e, i)
  {
    var p := Other(Owner(e));
    var (t, answer) := Receipt(c, e, i);
    WithSide(c, p, t).(
      read := if answer.Ok? then c.read + {Mark(e, i)} else c.read,
      gone := c.gone + UsedUp(Side(c, p), c.r.log[e].sent[i].package.header, e, answer.Ok?),
      heard := c.heard || (e > Hearing(c.r, p, c.heard) && t != Side(c, p)))
  }

  // ── When a package can be read ────────────────────────────────────

  /** The key that the package was encapsulated to, if any, is one that the receiver still holds. */
  predicate KemHeld(s: State, h: Header) { h.kemCt.Some? ==> h.kemCt.value.to in s.kemAdvertised }

  /** How far into chain `e` a receiver has come that hears chain `h` and expects number `nR` on it. */
  function ReachOf(r: Record, h: int, nR: nat, e: nat): nat
    requires e < |r.log|
  {
    if e == h then nR else if e < h then |r.log[e].sent| else 0
  }

  /**
   What package `i` of chain `e` needs in order to be read now. A package of
   the chain being received, or of an older one, only needs gaps that fit. A
   package of a later chain must be that chain's number 0, unless the
   receiver has not received anything yet.
   */
  predicate Readable(c: Convo, e: nat, i: nat)
    requires InLog(c.r, e, i)
  {
    var p := Other(Owner(e));
    var s, hearing := Side(c, p), Hearing(c.r, p, c.heard);
    var h := c.r.log[e].sent[i].package.header;
    && KemHeld(s, h)
    && (e > hearing && s.initialized ==> i == 0 && FitsGap(s, h.pn))
    && ((e == hearing && i >= s.nR) || !s.initialized ==> FitsGap(s, i))
  }

  // ── The invariant: what was sent ──────────────────────────────────

  function Sk(r: Record, e: int): nat
    requires e < |r.log|
  {
    if e < 0 then r.prekey else r.log[e].sk
  }

  function Len(r: Record, e: int): nat
    requires e < |r.log|
  {
    if e < 0 then 0 else |r.log[e].sent|
  }

  function At(r: Record, e: nat, i: nat): Slot
    requires e < |r.log|
  {
    Slot(DhPub(r.log[e].sk), i)
  }

  function MkAt(r: Record, e: nat, i: nat): Term
    requires e < |r.log|
  {
    MessageKeyOf(ChainPower(r.log[e].seed, i))
  }

  /** `kem` is the KEM key that chain `h`, or an earlier one of the same side, advertises. */
  ghost predicate Advertised(r: Record, h: int, kem: nat)
    requires h < |r.log|
  {
    exists j: nat :: j <= h && Owner(j) == Owner(h) && r.log[j].kem == kem
  }

  ghost predicate SentOk(r: Record, e: nat, i: nat)
    requires InLog(r, e, i)
  {
    var sent := r.log[e].sent[i];
    var h := sent.package.header;
    var ss := if h.kemCt.Some? then Some(Encapsulated(h.kemCt.value)) else None;
    && h.dhPub == DhPub(r.log[e].sk) && h.n == i && h.pn == Len(r, e - 2)
    && h.kemPk == (if i == 0 then Some(KemPk(r.log[e].kem)) else None)
    && (h.kemCt.Some? ==> Advertised(r, e - 1, h.kemCt.value.to))
    && sent.package.body == Seal(r.sessionId, h, MixKem(MkAt(r, e, i), ss), sent.plain)
  }

  ghost predicate ChainOk(r: Record, e: nat, next: nat)
    requires e < |r.log|
  {
    && r.log[e].sk < next && r.log[e].kem < next
    && (e > 0 ==> r.prekey < r.log[e].sk && |r.log[e].sent| > 0)
    && Depth(r.log[e].rk) == Depth(r.root) + e + 1 && Depth(r.log[e].seed) == Depth(r.root) + e
    && r.kemBob < r.log[e].kem && (r.kemAlice.Some? ==> r.kemAlice.value < r.log[e].kem)
  }

  ghost predicate Ordered(r: Record, e: nat, f: nat)
    requires e < |r.log| && f < |r.log|
  {
    e < f ==> r.log[e].sk < r.log[f].sk && r.log[e].kem < r.log[f].kem
  }

  /** The last chain hangs off the one before it. */
  ghost predicate Linked(r: Record)
    requires |r.log| > 0
  {
    var last := |r.log| - 1;
    var rk := if last == 0 then r.root else r.log[last - 1].rk;
    var dh := X25519(Sk(r, last), DhPub(Sk(r, last - 1)));
    r.log[last].rk == NextRoot(rk, dh) && r.log[last].seed == SeedChain(rk, dh)
  }

  ghost predicate LogOk(r: Record, next: nat) {
    match r
    case Record(_, _, prekey, kemAlice, kemBob, log) =>
      && |log| > 0
      && prekey < next && kemBob < next && (kemAlice.Some? ==> kemAlice.value < next)
      && (forall e: nat | e < |log| :: ChainOk(r, e, next))
      && (forall e: nat, f: nat | e < |log| && f < |log| :: Ordered(r, e, f))
      && (forall e: nat, i: nat | InLog(r, e, i) :: SentOk(r, e, i))
      && Linked(r)
  }

  // ── The invariant: where each side stands ─────────────────────────

  ghost predicate HearingAt(r: Record, s: State, h: int)
    requires -1 <= h < |r.log|
  {
    && s.initialized
    && s.dhR == Some(DhPub(Sk(r, h)))
    && (if h < 0 then s.ckR == None && s.nR == 0
        else s.nR <= Len(r, h) && s.ckR == Some(ChainPower(r.log[h].seed, s.nR)))
  }

  /** The last thing `s` did to its root was to open chain `e`. */
  ghost predicate Sending(r: Record, s: State, e: nat)
    requires e < |r.log|
  {
    && s.rk == r.log[e].rk && s.dhS == r.log[e].sk
    && s.ckS == Some(ChainPower(r.log[e].seed, Len(r, e))) && s.nS == Len(r, e)
    && s.pn == Len(r, e - 2)
    && s.advertiseKemNext == (Len(r, e) == 0)
    && HearingAt(r, s, e - 1)
  }

  /** The last thing `s` did to its root was to follow chain `e`. */
  ghost predicate Listening(r: Record, s: State, e: nat)
    requires e < |r.log|
  {
    && s.rk == r.log[e].rk && s.dhS == Sk(r, e - 1)
    && s.ckS == None && s.pn == Len(r, e - 1)
    && HearingAt(r, s, e)
  }

  /** Bob before the first message. */
  ghost predicate Waiting(r: Record, s: State) {
    s == StartBob(Start(r.root, r.sessionId, r.prekey), r.kemBob)
  }

  /** The last thing a side did to its root. */
  datatype Stance = Opened(e: nat) | Followed(e: nat) | NotStarted

  function StanceOf(r: Record, p: Party, heard: bool): Stance
    requires |r.log| > 0
  {
    var last := |r.log| - 1;
    if Owner(last) == p then Opened(last)
    else if heard then Followed(last)
    else if last == 0 then NotStarted
    else Opened(last - 1)
  }

  ghost predicate RootsOk(r: Record, p: Party, s: State, heard: bool)
    requires |r.log| > 0
  {
    match StanceOf(r, p, heard)
    case Opened(e) => Sending(r, s, e)
    case Followed(e) => Listening(r, s, e)
    case NotStarted => Waiting(r, s)
  }

  /** The KEM keys that `p` holds once chain `e` is the last it opened. */
  function Held(r: Record, p: Party, e: int): seq<nat>
    requires e < |r.log|
  {
    var initial := if p.Bob? then [r.kemBob] else if r.kemAlice.Some? then [r.kemAlice.value] else [];
    if Len(r, e) == 0 then initial
    else if e < 2 then [r.log[e].kem] + initial
    else [r.log[e].kem, r.log[e - 2].kem]
  }

  /** The store holds the key of package `i` of chain `e` just when that was passed over and is yet to arrive. */
  ghost predicate SlotOk(r: Record, skipped: SkippedKeys, reach: nat, gone: set<Mark>, e: nat, i: nat)
    requires e < |r.log|
  {
    && (At(r, e, i) in skipped <==> i < reach && Mark(e, i) !in gone)
    && (At(r, e, i) in skipped ==> skipped[At(r, e, i)] == MkAt(r, e, i))
    && (Mark(e, i) in gone ==> i < reach)
  }

  /** A place on one of the chains that `p` receives. */
  ghost predicate FromChain(r: Record, p: Party, at: Slot) {
    exists e: nat :: e < |r.log| && Owner(e) != p && at == At(r, e, at.n)
  }

  ghost predicate StoreOk(r: Record, p: Party, skipped: SkippedKeys, h: int, nR: nat, gone: set<Mark>, next: nat) {
    && (forall e: nat, i: nat | e < |r.log| && Owner(e) != p ::
          SlotOk(r, skipped, ReachOf(r, h, nR, e), gone, e, i))
    && (forall at: Slot | at in skipped :: FromChain(r, p, at) && at.dh.of < next)
  }

  ghost predicate SideOk(r: Record, p: Party, s: State, gone: set<Mark>, heard: bool, next: nat)
    requires |r.log| > 0
  {
    && s.sessionId == r.sessionId
    && RootsOk(r, p, s, heard)
    && s.kemAdvertised == Held(r, p, Speaking(r, p))
    && StoreOk(r, p, s.skipped, Hearing(r, p, heard), s.nR, gone, next)
  }

  ghost predicate Inv(c: Convo) {
    match c
    case Convo(r, alice, bob, _, gone, heard, next) =>
      && LogOk(r, next)
      && (|r.log[0].sent| == 0 ==> |r.log| == 1 && !heard)
      && SideOk(r, Alice, alice, gone, heard, next)
      && SideOk(r, Bob, bob, gone, heard, next)
  }

  /**
   The KEM key to encapsulate to was advertised on the chain being received, or
   on an earlier one if that advertisement was not read in order.
   */
  ghost predicate KemPeerOk(r: Record, s: State, h: int)
    requires h < |r.log|
  {
    s.kemPeer.Some? ==> Advertised(r, h, s.kemPeer.value.of)
  }

  /** What holds between any two steps. */
  ghost predicate InStep(c: Convo) {
    match c
    case Convo(r, alice, bob, read, gone, heard, next) =>
      && Inv(c)
      && read <= gone && (forall m | m in gone :: m.chain < |r.log|)
      && KemPeerOk(r, alice, Hearing(r, Alice, heard))
      && KemPeerOk(r, bob, Hearing(r, Bob, heard))
  }

  lemma BeginOk(root: Term, sessionId: SessionId, ephemeral: nat, prekey: nat, kemAlice: Option<nat>, kemBob: nat,
                next: nat)
    requires ephemeral < next && prekey < next && kemBob < next && (kemAlice.Some? ==> kemAlice.value < next)
    ensures InStep(Begin(root, sessionId, ephemeral, prekey, kemAlice, kemBob, next))
  {
  }
}
