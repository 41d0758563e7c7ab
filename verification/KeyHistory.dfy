/**
 Key uniqueness and key erasure for one session under any input: its own
 sends, mixed with packages that anyone may have made up.

 A key is located by its spine, the keys it was derived from one HMAC after
 the other: how many root steps lie on it, how many chain seeds, and how many
 chain steps end it.
 */
module KeyHistory {
  import opened Wrappers
  import opened Symbolic
  import opened Ratchet

  // ── Locating keys ─────────────────────────────────────────────────

  function Seeds(t: Term): nat {
    if t.Hmac? then (if t.tag.ChainSeed? then 1 else 0) + Seeds(t.key) else 0
  }

  function Steps(t: Term): nat {
    if t.Hmac? && t.tag.ChainKey? then 1 + Steps(t.key) else 0
  }

  predicate IsChainKey(t: Term) {
    t.Hmac? && (t.tag.ChainSeed? || (t.tag.ChainKey? && IsChainKey(t.key)))
  }

  /** `t` is `base`, or comes out of it by applying the KDF forward with any inputs. */
  predicate Descends(base: Term, t: Term) {
    base == t || (t.Hmac? && Descends(base, t.key))
  }

  lemma {:induction false} DescendsRaises(base: Term, t: Term)
    requires Descends(base, t)
    ensures Depth(base) <= Depth(t) && Seeds(base) <= Seeds(t)
  {
    if base == t {
    } else {
      DescendsRaises(base, t.key);
    }
  }

  /** What a chain key descends from, above its root, are the earlier keys of its own chain. */
  lemma {:induction false} AncestorsOfChainKey(base: Term, ck: Term)
    requires IsChainKey(ck) && Descends(base, ck) && Seeds(base) >= Seeds(ck)
    ensures IsChainKey(base) && Depth(base) == Depth(ck) && Steps(base) <= Steps(ck)
  {
    if base == ck {
    } else {
      if ck.tag.ChainKey? {
        AncestorsOfChainKey(base, ck.key);
      } else {
        DescendsRaises(base, ck.key);
      }
    }
  }

  // ── The invariant ─────────────────────────────────────────────────

  ghost predicate ChainOk(s: State, ck: Term) {
    IsChainKey(ck) && Seeds(ck) == Seeds(s.rk) + 1 && Depth(ck) < Depth(s.rk)
  }

  ghost predicate Behind(ck: Option<Term>, mk: Term)
    requires mk.Hmac?
  {
    ck.Some? && Depth(ck.value) == Depth(mk) ==> Steps(mk.key) < Steps(ck.value)
  }

  /** A message key of this session that its chains have moved past. */
  ghost predicate Past(s: State, mk: Term) {
    && mk.Hmac? && mk.tag.MessageKey? && mk == MessageKeyOf(mk.key)
    && ChainOk(s, mk.key)
    && Behind(s.ckS, mk) && Behind(s.ckR, mk)
  }

  ghost predicate ChainsOk(s: State) {
    && (s.ckS.Some? ==> ChainOk(s, s.ckS.value))
    && (s.ckR.Some? ==> ChainOk(s, s.ckR.value))
    && (s.ckS.Some? && s.ckR.Some? ==> Depth(s.ckS.value) != Depth(s.ckR.value))
  }

  ghost predicate StoreOk(s: State) {
    && (forall at: Slot | at in s.skipped :: Past(s, s.skipped[at]))
    && (forall at: Slot, to: Slot | at in s.skipped && to in s.skipped && at != to :: s.skipped[at] != s.skipped[to])
  }

  ghost predicate UsedOk(s: State, used: seq<Term>) {
    && (forall i | 0 <= i < |used| :: Past(s, used[i]))
    && (forall i, j | 0 <= i < j < |used| :: used[i] != used[j])
    && (forall i, at: Slot | 0 <= i < |used| && at in s.skipped :: used[i] != s.skipped[at])
  }

  ghost predicate Inv(s: State, used: seq<Term>) {
    ChainsOk(s) && StoreOk(s) && UsedOk(s, used)
  }

  // ── Every step keeps it ───────────────────────────────────────────

  lemma PastAfterRootStep(s: State, t: State, dh: DhSecret, mk: Term)
    requires Past(s, mk)
    requires t.rk == NextRoot(s.rk, dh)
    requires t.ckS in {s.ckS, None, Some(SeedChain(s.rk, dh))} && t.ckR in {s.ckR, None, Some(SeedChain(s.rk, dh))}
    ensures Past(t, mk)
  {
  }

  lemma RootStepKeeps(s: State, t: State, dh: DhSecret, used: seq<Term>)
    requires Inv(s, used)
    requires t.rk == NextRoot(s.rk, dh) && t.skipped == s.skipped
    requires || (t.ckS == Some(SeedChain(s.rk, dh)) && t.ckR == s.ckR)
             || (t.ckR == Some(SeedChain(s.rk, dh)) && (t.ckS == s.ckS || t.ckS == None))
    ensures Inv(t, used)
  {
    forall mk | Past(s, mk) ensures Past(t, mk) {
      PastAfterRootStep(s, t, dh, mk);
    }
  }

  /** The key of the sending chain leaves it and is used. */
  lemma SendStepKeeps(s: State, t: State, used: seq<Term>)
    requires Inv(s, used) && s.ckS.Some?
    requires t.rk == s.rk && t.skipped == s.skipped && t.ckR == s.ckR && t.ckS == Some(NextChainKey(s.ckS.value))
    ensures Inv(t, used + [MessageKeyOf(s.ckS.value)])
  {
    forall mk | Past(s, mk) ensures Past(t, mk) && mk != MessageKeyOf(s.ckS.value) {
    }
    assert Past(t, MessageKeyOf(s.ckS.value));
  }

  /** The key of the receiving chain leaves it and is stored. */
  lemma StoreStepKeeps(s: State, t: State, at: Slot, used: seq<Term>)
    requires Inv(s, used) && s.ckR.Some?
    requires t.rk == s.rk && t.ckS == s.ckS && t.ckR == Some(NextChainKey(s.ckR.value))
    requires t.skipped == s.skipped[at := MessageKeyOf(s.ckR.value)]
    ensures Inv(t, used)
  {
    forall mk | Past(s, mk) ensures Past(t, mk) && mk != MessageKeyOf(s.ckR.value) {
    }
    assert Past(t, MessageKeyOf(s.ckR.value));
  }

  /** The key of the receiving chain leaves it and is used, or lost when nothing opens under it. */
  lemma ReceiveStepKeeps(s: State, t: State, opens: bool, used: seq<Term>)
    requires Inv(s, used) && s.ckR.Some?
    requires t.rk == s.rk && t.ckS == s.ckS && t.ckR == Some(NextChainKey(s.ckR.value)) && t.skipped == s.skipped
    ensures Inv(t, if opens then used + [MessageKeyOf(s.ckR.value)] else used)
  {
    forall mk | Past(s, mk) ensures Past(t, mk) && mk != MessageKeyOf(s.ckR.value) {
    }
    assert Past(t, MessageKeyOf(s.ckR.value));
  }

  lemma {:induction false} GapKeeps(s: State, until: nat, used: seq<Term>)
    requires Inv(s, used) && s.ckR.Some? && s.dhR.Some? && s.nR <= until
    ensures Inv(s.(skipped := StoreGap(s.skipped, s.dhR.value, s.ckR.value, s.nR, until),
                   nR := until, ckR := Some(ChainPower(s.ckR.value, until - s.nR))), used)
    decreases until
  {
    if s.nR < until {
      GapKeeps(s, until - 1, used);
      var before := s.(skipped := StoreGap(s.skipped, s.dhR.value, s.ckR.value, s.nR, until - 1),
                       nR := until - 1, ckR := Some(ChainPower(s.ckR.value, until - 1 - s.nR)));
      var after := s.(skipped := StoreGap(s.skipped, s.dhR.value, s.ckR.value, s.nR, until),
                      nR := until, ckR := Some(ChainPower(s.ckR.value, until - s.nR)));
      StoreStepKeeps(before, after, Slot(s.dhR.value, until - 1), used);
    } else {
      assert s.(skipped := s.skipped, nR := until, ckR := Some(ChainPower(s.ckR.value, 0))) == s;
    }
  }

  lemma ReachKeeps(s: State, h: Header, used: seq<Term>)
    requires Inv(s, used) && Reach(s, h).Ok?
    ensures Inv(Reach(s, h).value, used)
  {
    var until := if IsNewChain(s, h) then h.pn else h.n;
    var t := SkipTo(s, until).value;
    if t != s {
      GapKeeps(s, until, used);
    }
    if IsNewChain(s, h) {
      RootStepKeeps(t, DhRatchet(t, h.dhPub), X25519(t.dhS, h.dhPub), used);
    }
  }

  // ── What a package was sealed under ───────────────────────────────

  function Unmixed(finalMk: Term): Term {
    if finalMk.Hmac? && finalMk.tag.KemMix? then finalMk.key else finalMk
  }

  /** The message key below the KEM mix and the AEAD derivation. */
  function UnderlyingKey(body: Sealed): Term {
    if body.Sealed? && body.key.Hmac? then Unmixed(body.key.key) else EmptyKey
  }

  ghost predicate SealedUnder(body: Sealed, mk: Term) {
    && body.Sealed?
    && exists ss ::
         body.key == Hmac(MixKem(mk, ss), AeadKey, NoInput) && body.nonce == Hmac(MixKem(mk, ss), AeadNonce, NoInput)
  }

  lemma SealedUnderUnderlying(body: Sealed, mk: Term)
    requires SealedUnder(body, mk) && mk.Hmac? && mk.tag.MessageKey?
    ensures UnderlyingKey(body) == mk
  {
  }

  lemma {:induction false} OpenedUnder(sessionId: SessionId, package: Package, mk: Term,
                                       candidates: seq<Option<KemSecret>>)
    requires FirstOpened(sessionId, package, mk, candidates).Some?
    ensures SealedUnder(package.body, mk)
  {
    if Open(sessionId, package.header, MixKem(mk, candidates[0]), package.body).Some? {
    } else {
      OpenedUnder(sessionId, package, mk, candidates[1..]);
    }
  }

  // ── Runs ──────────────────────────────────────────────────────────

  /** One call on the session: a send, or a receive of anything at all. */
  datatype Call = Send(draw: Draw, plain: Plaintext) | Receive(wire: Wire)

  /** The bodies that the session has sealed or opened, oldest first. */
  datatype Trace = Trace(state: State, bodies: seq<Sealed>)

  function Perform(t: Trace, call: Call): Trace {
    match call
    case Send(draw, plain) =>
      var (s, answer) := Encrypt(t.state, draw, plain);
      Trace(s, if answer.Ok? then t.bodies + [answer.value.body] else t.bodies)
    case Receive(wire) =>
      var (s, answer) := Decrypt(t.state, wire);
      Trace(s, if answer.Ok? then t.bodies + [wire.package.body] else t.bodies)
  }

  function PerformAll(t: Trace, calls: seq<Call>): Trace
    decreases |calls|
  {
    if |calls| == 0 then t else PerformAll(Perform(t, calls[0]), calls[1..])
  }

  ghost predicate IsStart(s: State) {
    || (exists start, peer, kem :: s == StartAlice(start, peer, kem))
    || (exists start, kem :: s == StartBob(start, kem))
  }

  ghost predicate Tracked(t: Trace, used: seq<Term>) {
    && Inv(t.state, used) && |used| == |t.bodies|
    && forall i | 0 <= i < |used| :: SealedUnder(t.bodies[i], used[i])
  }

  lemma StartTracked(s: State)
    requires IsStart(s)
    ensures Tracked(Trace(s, []), [])
  {
  }

  lemma SendTracked(t: Trace, draw: Draw, plain: Plaintext, used: seq<Term>) returns (now: seq<Term>)
    requires Tracked(t, used)
    ensures Tracked(Perform(t, Send(draw, plain)), now)
  {
    var s := t.state;
    var o := OpenSendChain(s, draw.dh);
    if o != s {
      RootStepKeeps(s, o, X25519(draw.dh, s.dhR.value), used);
    }
    now := used;
    if o.ckS.Some? {
      var (after, answer) := Encrypt(s, draw, plain);
      SendStepKeeps(o, after, used);
      now := used + [MessageKeyOf(o.ckS.value)];
      var kemCt := answer.value.header.kemCt;
      var ss := if kemCt.Some? then Some(Encapsulated(kemCt.value)) else None;
      assert answer.value.body.key == Hmac(MixKem(MessageKeyOf(o.ckS.value), ss), AeadKey, NoInput);
    }
  }

  lemma StoreReceiveTracked(t: Trace, package: Package, used: seq<Term>) returns (now: seq<Term>)
    requires Tracked(t, used) && InStore(t.state, package.header)
    ensures Tracked(Perform(t, Receive(Parsed(package))), now)
  {
    var s := t.state;
    var at := SlotOf(package.header);
    now := used;
    if OpenAead(s, package, s.skipped[at]).Some? {
      OpenedUnder(s.sessionId, package, s.skipped[at], Candidates(s.kemAdvertised, package.header.kemCt));
      now := used + [s.skipped[at]];
      var after := s.(skipped := s.skipped - {at});
      StoreTakeKeeps(s, at, used);
      hide Inv;
    }
  }

  lemma StoreTakeKeeps(s: State, at: Slot, used: seq<Term>)
    requires Inv(s, used) && at in s.skipped
    ensures Inv(s.(skipped := s.skipped - {at}), used + [s.skipped[at]])
  {
    var after := s.(skipped := s.skipped - {at});
    forall mk | Past(s, mk) ensures Past(after, mk) {
    }
  }

  lemma ReceiveTracked(t: Trace, wire: Wire, used: seq<Term>) returns (now: seq<Term>)
    requires Tracked(t, used)
    ensures Tracked(Perform(t, Receive(wire)), now)
  {
    var s := t.state;
    now := used;
    if wire.Parsed? {
      var package := wire.package;
      if InStore(s, package.header) {
        now := StoreReceiveTracked(t, package, used);
      } else {
        var awake := Awake(s, package.header);
        if awake != s {
          RootStepKeeps(s, awake, X25519(s.dhS, package.header.dhPub), used);
        }
        if Reach(awake, package.header).Ok? {
          ReachKeeps(awake, package.header, used);
          now := InOrderTracked(Reach(awake, package.header).value, t.bodies, package, used);
        }
      }
    }
  }

  lemma InOrderTracked(s: State, bodies: seq<Sealed>, package: Package, used: seq<Term>) returns (now: seq<Term>)
    requires Tracked(Trace(s, bodies), used) && s.ckR.Some?
    ensures var (after, answer) := DecryptInOrder(s, package);
            Tracked(Trace(after, if answer.Ok? then bodies + [package.body] else bodies), now)
  {
    var stepped := StepReceiving(s);
    var mk := MessageKeyOf(s.ckR.value);
    var opens := OpenAead(stepped, package, mk).Some?;
    var (after, answer) := DecryptInOrder(s, package);
    ReceiveStepKeeps(s, after, opens, used);
    now := used;
    if opens {
      OpenedUnder(s.sessionId, package, mk, Candidates(s.kemAdvertised, package.header.kemCt));
      now := used + [mk];
    }
  }

  lemma {:induction false} RunTracked(t: Trace, calls: seq<Call>, used: seq<Term>) returns (now: seq<Term>)
    requires Tracked(t, used)
    ensures Tracked(PerformAll(t, calls), now)
    decreases |calls|
  {
    now := used;
    if |calls| == 0 {
    } else {
      match calls[0] {
        case Send(draw, plain) => now := SendTracked(t, draw, plain, used);
        case Receive(wire) => now := ReceiveTracked(t, wire, used);
      }
      now := RunTracked(Perform(t, calls[0]), calls[1..], now);
    }
  }

  // ── Results ───────────────────────────────────────────────────────

  /** The keys that a copy of the session state gives away, its X25519 and KEM secrets aside. */
  ghost predicate Exposed(s: State, base: Term) {
    base == s.rk || s.ckS == Some(base) || s.ckR == Some(base)
    || exists at: Slot :: at in s.skipped && s.skipped[at] == base
  }

  ghost predicate Rebuildable(s: State, t: Term) {
    exists base :: Exposed(s, base) && Descends(base, t)
  }

  /**
   Over any run of a session, no two packages that it sealed or opened share a
   message key. So no AEAD key and nonce seal twice, no message key opens
   twice, and the session never opens what it sealed itself.
   */
  lemma KeysAreUnique(s: State, calls: seq<Call>)
    requires IsStart(s)
    ensures var bodies := PerformAll(Trace(s, []), calls).bodies;
            forall i, j | 0 <= i < j < |bodies| ::
              && bodies[i].Sealed? && bodies[j].Sealed?
              && UnderlyingKey(bodies[i]) != UnderlyingKey(bodies[j])
              && bodies[i].key != bodies[j].key && bodies[i].nonce != bodies[j].nonce
  {
    StartTracked(s);
    var used := RunTracked(Trace(s, []), calls, []);
    var bodies := PerformAll(Trace(s, []), calls).bodies;
    forall i, j | 0 <= i < j < |bodies|
      ensures && bodies[i].Sealed? && bodies[j].Sealed?
              && UnderlyingKey(bodies[i]) != UnderlyingKey(bodies[j])
              && bodies[i].key != bodies[j].key && bodies[i].nonce != bodies[j].nonce
    {
      SealedUnderUnderlying(bodies[i], used[i]);
      SealedUnderUnderlying(bodies[j], used[j]);
      assert Unmixed(bodies[i].nonce.key) == used[i];
    }
  }

  lemma PastNotRebuildable(s: State, used: seq<Term>, i: nat, base: Term)
    requires Inv(s, used) && i < |used| && Exposed(s, base)
    ensures !Descends(base, used[i])
  {
    var mk := used[i];
    if Descends(base, mk) {
      DescendsRaises(base, mk);
      if Seeds(base) >= Seeds(mk.key) && base != mk {
        AncestorsOfChainKey(base, mk.key);
      }
      assert false;
    }
  }

  /**
   At the end of any run, no message key that the session sealed or opened
   under, nor the AEAD key or nonce made from it, can be computed forward
   from the keys still in the session state.
   */
  lemma KeysAreErased(s: State, calls: seq<Call>)
    requires IsStart(s)
    ensures var end := PerformAll(Trace(s, []), calls);
            forall i | 0 <= i < |end.bodies| ::
              && end.bodies[i].Sealed?
              && !Rebuildable(end.state, UnderlyingKey(end.bodies[i]))
              && !Rebuildable(end.state, end.bodies[i].key)
              && !Rebuildable(end.state, end.bodies[i].nonce)
  {
    StartTracked(s);
    var used := RunTracked(Trace(s, []), calls, []);
    var end := PerformAll(Trace(s, []), calls);
    forall i | 0 <= i < |end.bodies|
      ensures && end.bodies[i].Sealed?
              && !Rebuildable(end.state, UnderlyingKey(end.bodies[i]))
              && !Rebuildable(end.state, end.bodies[i].key)
              && !Rebuildable(end.state, end.bodies[i].nonce)
    {
      SealedUnderUnderlying(end.bodies[i], used[i]);
      forall base | Exposed(end.state, base)
        ensures !Descends(base, used[i]) && !Descends(base, end.bodies[i].key) && !Descends(base, end.bodies[i].nonce)
      {
        PastNotRebuildable(end.state, used, i, base);
        NotRebuildableAbove(end.state, used, i, base, end.bodies[i]);
      }
    }
  }

  lemma NotRebuildableAbove(s: State, used: seq<Term>, i: nat, base: Term, body: Sealed)
    requires Inv(s, used) && i < |used| && Exposed(s, base) && !Descends(base, used[i]) && SealedUnder(body, used[i])
    ensures !Descends(base, body.key) && !Descends(base, body.nonce)
  {
    var ss :| body.key == Hmac(MixKem(used[i], ss), AeadKey, NoInput)
      && body.nonce == Hmac(MixKem(used[i], ss), AeadNonce, NoInput);
    var finalMk := MixKem(used[i], ss);
    assert Depth(finalMk) == Depth(used[i]);
    assert base != finalMk;
  }
}
