/**
 Sending keeps the two sides in step, whoever sends and whatever is still on
 the way.
 */
module Sending {
  import opened Wrappers
  import opened Symbolic
  import opened Ratchet
  import opened Conversation

  // ── A further package on an open chain ────────────────────────────

  function Appended(r: Record, e: nat, kem: nat, sent: Sent): Record
    requires e < |r.log|
  {
    r.(log := r.log[e := r.log[e].(kem := kem, sent := r.log[e].sent + [sent])])
  }

  /** `s` after it sealed one more package, advertising `kem` if an advertisement was due. */
  function SentOn(s: State, kem: nat): State
    requires s.ckS.Some?
  {
    s.(ckS := Some(NextChainKey(s.ckS.value)), nS := s.nS + 1, advertiseKemNext := false,
       kemAdvertised := if s.advertiseKemNext then Newest2([kem] + s.kemAdvertised) else s.kemAdvertised)
  }

  /** Only the two newest chains can still grow, and only a first package can name a new KEM key. */
  ghost predicate CanGrow(r: Record, e: nat, kem: nat, next: nat) {
    && e < |r.log| <= e + 2
    && next <= kem < next + 3
    && (|r.log[e].sent| == 0 ==> |r.log| == 1)
  }

  function GrownKem(r: Record, e: nat, kem: nat): nat
    requires e < |r.log|
  {
    if |r.log[e].sent| == 0 then kem else r.log[e].kem
  }

  lemma AppendAdvertised(r: Record, e: nat, kem: nat, sent: Sent, h: int, named: nat)
    requires e < |r.log| && h < |r.log| && Advertised(r, h, named) && (h >= e ==> |r.log[e].sent| > 0)
    ensures Advertised(Appended(r, e, GrownKem(r, e, kem), sent), h, named)
  {
    var d := Appended(r, e, GrownKem(r, e, kem), sent);
    var j: nat :| j <= h && Owner(j) == Owner(h) && r.log[j].kem == named;
    assert d.log[j].kem == named;
  }

  lemma AppendLogOk(r: Record, e: nat, kem: nat, sent: Sent, next: nat)
    requires LogOk(r, next) && CanGrow(r, e, kem, next)
    requires SentOk(Appended(r, e, GrownKem(r, e, kem), sent), e, |r.log[e].sent|)
    ensures LogOk(Appended(r, e, GrownKem(r, e, kem), sent), next + 3)
  {
    var d, later := Appended(r, e, GrownKem(r, e, kem), sent), next + 3;
    forall f: nat | f < |d.log| ensures ChainOk(d, f, later) {
      assert ChainOk(r, f, next);
    }
    forall f: nat, g: nat | f < |d.log| && g < |d.log| ensures Ordered(d, f, g) {
      assert Ordered(r, f, g);
    }
    assert Linked(d);
    AppendSentsOk(r, e, kem, sent, next);
    hide ChainOk, SentOk, Ordered, Linked;
  }

  lemma AppendSentsOk(r: Record, e: nat, kem: nat, sent: Sent, next: nat)
    requires (forall f: nat, k: nat | InLog(r, f, k) :: SentOk(r, f, k)) && CanGrow(r, e, kem, next)
    requires SentOk(Appended(r, e, GrownKem(r, e, kem), sent), e, |r.log[e].sent|)
    ensures var d := Appended(r, e, GrownKem(r, e, kem), sent);
            forall f: nat, k: nat | InLog(d, f, k) :: SentOk(d, f, k)
  {
    var d := Appended(r, e, GrownKem(r, e, kem), sent);
    forall f: nat, k: nat | InLog(d, f, k) ensures SentOk(d, f, k) {
      if InLog(r, f, k) {
        assert SentOk(r, f, k);
        var kemCt := r.log[f].sent[k].package.header.kemCt;
        if kemCt.Some? {
          AppendAdvertised(r, e, kem, sent, f - 1, kemCt.value.to);
        }
      }
    }
  }

  lemma AppendStoreOk(r: Record, p: Party, skipped: SkippedKeys, h: int, nR: nat, gone: set<Mark>,
                      e: nat, kem: nat, sent: Sent, next: nat)
    requires e < |r.log| <= e + 2 && h < |r.log| && (Owner(e) != p ==> Owner(h) != p)
    requires StoreOk(r, p, skipped, h, nR, gone, next)
    ensures StoreOk(Appended(r, e, kem, sent), p, skipped, h, nR, gone, next + 3)
  {
    var d := Appended(r, e, kem, sent);
    forall f: nat, k: nat | f < |d.log| && Owner(f) != p
      ensures SlotOk(d, skipped, ReachOf(d, h, nR, f), gone, f, k)
    {
      assert SlotOk(r, skipped, ReachOf(r, h, nR, f), gone, f, k);
    }
    forall at: Slot | at in skipped ensures FromChain(d, p, at) {
      var f: nat :| f < |r.log| && Owner(f) != p && at == At(r, f, at.n);
      assert at == At(d, f, at.n);
    }
  }

  lemma AppendRootsOk(r: Record, q: Party, s: State, heard: bool, e: nat, kem: nat, sent: Sent)
    requires e < |r.log| <= e + 2 && Owner(e) != q && (heard ==> e == |r.log| - 1)
    requires RootsOk(r, q, s, heard)
    ensures RootsOk(Appended(r, e, kem, sent), q, s, heard)
  {
  }

  /** The side that is not sending. */
  lemma AppendOtherOk(r: Record, q: Party, s: State, gone: set<Mark>, heard: bool, e: nat, kem: nat, sent: Sent,
                      next: nat)
    requires CanGrow(r, e, kem, next) && Owner(e) != q && (heard ==> e == |r.log| - 1)
    requires SideOk(r, q, s, gone, heard, next)
    ensures SideOk(Appended(r, e, GrownKem(r, e, kem), sent), q, s, gone, heard, next + 3)
  {
    hide RootsOk, StoreOk;
    AppendRootsOk(r, q, s, heard, e, GrownKem(r, e, kem), sent);
    assert s.kemAdvertised == Held(r, q, Speaking(r, q)) ==
           Held(Appended(r, e, GrownKem(r, e, kem), sent), q, Speaking(r, q));
    AppendStoreOk(r, q, s.skipped, Hearing(r, q, heard), s.nR, gone, e, GrownKem(r, e, kem), sent, next);
  }

  /** The side that sends: its chain moved one step, its first package advertised `kem`. */
  lemma AppendOwnOk(r: Record, p: Party, s: State, t: State, gone: set<Mark>, heard: bool, e: nat, kem: nat,
                    sent: Sent, next: nat)
    requires CanGrow(r, e, kem, next) && Owner(e) == p && e == Speaking(r, p)
    requires SideOk(r, p, s, gone, heard, next) && s.ckS.Some?
    requires t == SentOn(s, kem)
    ensures SideOk(Appended(r, e, GrownKem(r, e, kem), sent), p, t, gone, heard, next + 3)
  {
    hide StoreOk;
    assert Conversation.Sending(r, s, e);
    AppendStoreOk(r, p, s.skipped, Hearing(r, p, heard), s.nR, gone, e, GrownKem(r, e, kem), sent, next);
  }

  lemma AppendKemPeerOk(r: Record, s: State, h: int, e: nat, kem: nat, sent: Sent)
    requires e < |r.log| && h < |r.log| && KemPeerOk(r, s, h) && (h >= e ==> |r.log[e].sent| > 0)
    ensures KemPeerOk(Appended(r, e, GrownKem(r, e, kem), sent), s, h)
  {
    if s.kemPeer.Some? {
      AppendAdvertised(r, e, kem, sent, h, s.kemPeer.value.of);
    }
  }

  // ── The first package of a new chain ──────────────────────────────

  function Extended(r: Record, chain: Chain): Record { r.(log := r.log + [chain]) }

  lemma OpenAdvertised(r: Record, chain: Chain, h: int, named: nat)
    requires h < |r.log| && Advertised(r, h, named)
    ensures Advertised(Extended(r, chain), h, named)
  {
    var j: nat :| j <= h && Owner(j) == Owner(h) && r.log[j].kem == named;
    assert Extended(r, chain).log[j].kem == named;
  }

  lemma OpenLogOk(r: Record, chain: Chain, next: nat)
    requires LogOk(r, next) && chain.sk == next && chain.kem == next + 1 && |chain.sent| == 1
    requires SentOk(Extended(r, chain), |r.log|, 0) && Linked(Extended(r, chain))
    ensures LogOk(Extended(r, chain), next + 3)
  {
    var d, later := Extended(r, chain), next + 3;
    forall f: nat | f < |d.log| ensures ChainOk(d, f, later) {
      assert ChainOk(r, if f < |r.log| then f else f - 1, next);
    }
    forall f: nat, g: nat | f < |d.log| && g < |d.log| ensures Ordered(d, f, g) {
      if f < |r.log| {
        assert ChainOk(r, f, next);
        if g < |r.log| {
          assert Ordered(r, f, g);
        }
      }
    }
    forall f: nat, k: nat | InLog(d, f, k) ensures SentOk(d, f, k) {
      if f < |r.log| {
        assert SentOk(r, f, k);
      }
    }
  }

  lemma OpenStoreOk(r: Record, p: Party, skipped: SkippedKeys, h: int, nR: nat, gone: set<Mark>, chain: Chain,
                    next: nat)
    requires h < |r.log| && chain.sk == next && (forall m | m in gone :: m.chain < |r.log|)
    requires StoreOk(r, p, skipped, h, nR, gone, next)
    ensures StoreOk(Extended(r, chain), p, skipped, h, nR, gone, next + 3)
  {
    var d := Extended(r, chain);
    forall f: nat, k: nat | f < |d.log| && Owner(f) != p
      ensures SlotOk(d, skipped, ReachOf(d, h, nR, f), gone, f, k)
    {
      if f < |r.log| {
        assert SlotOk(r, skipped, ReachOf(r, h, nR, f), gone, f, k);
      }
    }
    forall at: Slot | at in skipped ensures FromChain(d, p, at) {
      var f: nat :| f < |r.log| && Owner(f) != p && at == At(r, f, at.n);
      assert at == At(d, f, at.n);
    }
  }

  lemma OpenOtherOk(r: Record, q: Party, s: State, gone: set<Mark>, chain: Chain, next: nat)
    requires |r.log| > 0 && Owner(|r.log| - 1) == q && SideOk(r, q, s, gone, true, next)
    requires chain.sk == next && (forall m | m in gone :: m.chain < |r.log|)
    ensures SideOk(Extended(r, chain), q, s, gone, false, next + 3)
  {
    hide StoreOk;
    assert Conversation.Sending(r, s, |r.log| - 1);
    OpenStoreOk(r, q, s.skipped, |r.log| - 2, s.nR, gone, chain, next);
    assert Conversation.Sending(Extended(r, chain), s, |r.log| - 1);
  }

  lemma OpenOwnOk(r: Record, p: Party, s: State, t: State, gone: set<Mark>, chain: Chain, next: nat)
    requires LogOk(r, next) && Owner(|r.log| - 1) != p && SideOk(r, p, s, gone, true, next) && |r.log[0].sent| > 0
    requires chain.sk == next && chain.kem == next + 1 && |chain.sent| == 1
    requires (forall m | m in gone :: m.chain < |r.log|)
    requires t == s.(rk := chain.rk, dhS := next, ckS := Some(NextChainKey(chain.seed)), nS := 1,
                     advertiseKemNext := false, kemAdvertised := Newest2([next + 1] + s.kemAdvertised))
    ensures SideOk(Extended(r, chain), p, t, gone, false, next + 3)
  {
    hide StoreOk;
    var d, n := Extended(r, chain), |r.log|;
    assert Listening(r, s, n - 1);
    OpenStoreOk(r, p, s.skipped, n - 1, s.nR, gone, chain, next);
    assert HearingAt(d, t, n - 1);
    assert ChainPower(chain.seed, 1) == NextChainKey(ChainPower(chain.seed, 0));
    assert Conversation.Sending(d, t, n);
    if n >= 2 {
      assert ChainOk(r, n - 2, next);
    }
    assert t.kemAdvertised == Held(d, p, n);
  }

  // ── Encrypting ────────────────────────────────────────────────────

  /** The new package is what its place in the record asks for. */
  lemma AppendSealed(r: Record, s: State, e: nat, draw: Draw, plain: Plaintext)
    requires e < |r.log| && s.sessionId == r.sessionId && Conversation.Sending(r, s, e) && KemPeerOk(r, s, e - 1)
    ensures Encrypt(s, draw, plain).1.Ok?
    ensures var (t, answer) := Encrypt(s, draw, plain);
            && SentOk(Appended(r, e, GrownKem(r, e, draw.kem), Sent(plain, answer.value)), e, |r.log[e].sent|)
            && (answer.value.header.kemPk.Some? <==> |r.log[e].sent| == 0)
            && (answer.value.header.kemPk.Some? ==> answer.value.header.kemPk.value.of == draw.kem)
            && t == SentOn(s, draw.kem)
  {
  }

  lemma OpenSealed(r: Record, s: State, draw: Draw, plain: Plaintext)
    requires |r.log| > 0 && s.sessionId == r.sessionId && Listening(r, s, |r.log| - 1) && KemPeerOk(r, s, |r.log| - 1)
    ensures Encrypt(s, draw, plain).1.Ok?
    ensures var (t, answer) := Encrypt(s, draw, plain);
            var chain := Chain(draw.dh, t.rk, SeedChain(s.rk, X25519(draw.dh, s.dhR.value)), draw.kem,
                               [Sent(plain, answer.value)]);
            && SentOk(Extended(r, chain), |r.log|, 0) && Linked(Extended(r, chain))
            && t == s.(rk := chain.rk, dhS := draw.dh, ckS := Some(NextChainKey(chain.seed)), nS := 1,
                       advertiseKemNext := false, kemAdvertised := Newest2([draw.kem] + s.kemAdvertised))
  {
    assert ChainPower(SeedChain(s.rk, X25519(draw.dh, s.dhR.value)), 0) ==
           SeedChain(s.rk, X25519(draw.dh, s.dhR.value));
  }

  /** Everything the invariant says, on the record `r` with `s` on the side of `p` and `o` on the other. */
  ghost predicate Stands(r: Record, p: Party, s: State, o: State, gone: set<Mark>, heard: bool, next: nat) {
    match r
    case Record(_, _, _, _, _, log) =>
      && |log| > 0 && LogOk(r, next)
      && (|log[0].sent| == 0 ==> |log| == 1 && !heard)
      && SideOk(r, p, s, gone, heard, next) && SideOk(r, Other(p), o, gone, heard, next)
      && KemPeerOk(r, s, Hearing(r, p, heard)) && KemPeerOk(r, o, Hearing(r, Other(p), heard))
      && (forall m | m in gone :: m.chain < |log|)
  }

  ghost predicate StandsIn(c: Convo, p: Party) {
    c.read <= c.gone && Stands(c.r, p, Side(c, p), Side(c, Other(p)), c.gone, c.heard, c.next)
  }

  lemma StandsInStep(c: Convo, p: Party)
    ensures InStep(c) <==> StandsIn(c, p)
  {
  }

  lemma AppendPlace(r: Record, p: Party, s: State, gone: set<Mark>, heard: bool, draw: Draw)
    requires LogOk(r, draw.dh) && SideOk(r, p, s, gone, heard, draw.dh) && s.ckS.Some? && draw.kem == draw.dh + 1
    requires |r.log[0].sent| == 0 ==> |r.log| == 1 && !heard
    ensures Speaking(r, p) >= 0 && Owner(Speaking(r, p)) == p && Hearing(r, p, heard) == Speaking(r, p) - 1
    ensures Conversation.Sending(r, s, Speaking(r, p)) && CanGrow(r, Speaking(r, p), draw.kem, draw.dh)
    ensures (heard ==> Speaking(r, p) == |r.log| - 1) && s.sessionId == r.sessionId
  {
    assert Speaking(r, p) > 0 ==> ChainOk(r, Speaking(r, p), draw.dh);
  }

  lemma AppendRecordOk(r: Record, s: State, e: nat, draw: Draw, plain: Plaintext)
    requires LogOk(r, draw.dh) && CanGrow(r, e, draw.kem, draw.dh) && s.sessionId == r.sessionId
    requires Conversation.Sending(r, s, e) && KemPeerOk(r, s, e - 1)
    ensures var (t, answer) := Encrypt(s, draw, plain);
            && answer.Ok?
            && LogOk(Appended(r, e, GrownKem(r, e, draw.kem), Sent(plain, answer.value)), draw.dh + 3)
            && (answer.value.header.kemPk.Some? <==> |r.log[e].sent| == 0)
            && (answer.value.header.kemPk.Some? ==> answer.value.header.kemPk.value.of == draw.kem)
            && t == SentOn(s, draw.kem)
  {
    AppendSealed(r, s, e, draw, plain);
    AppendLogOk(r, e, draw.kem, Sent(plain, Encrypt(s, draw, plain).1.value), draw.dh);
  }

  lemma AppendSidesOk(r: Record, p: Party, s: State, t: State, o: State, gone: set<Mark>, heard: bool,
                      e: nat, kem: nat, sent: Sent, next: nat)
    requires CanGrow(r, e, kem, next) && Owner(e) == p && e == Speaking(r, p) && (heard ==> e == |r.log| - 1)
    requires (|r.log[e].sent| == 0 ==> !heard) && s.ckS.Some?
    requires SideOk(r, p, s, gone, heard, next) && SideOk(r, Other(p), o, gone, heard, next)
    requires KemPeerOk(r, s, Hearing(r, p, heard)) && KemPeerOk(r, o, Hearing(r, Other(p), heard))
    requires t == SentOn(s, kem)
    ensures var d := Appended(r, e, GrownKem(r, e, kem), sent);
            && SideOk(d, p, t, gone, heard, next + 3) && SideOk(d, Other(p), o, gone, heard, next + 3)
            && KemPeerOk(d, t, Hearing(d, p, heard)) && KemPeerOk(d, o, Hearing(d, Other(p), heard))
  {
    AppendOwnOk(r, p, s, t, gone, heard, e, kem, sent, next);
    AppendOtherOk(r, Other(p), o, gone, heard, e, kem, sent, next);
    AppendKemPeerOk(r, t, Hearing(r, p, heard), e, kem, sent);
    AppendKemPeerOk(r, o, Hearing(r, Other(p), heard), e, kem, sent);
  }

  lemma MakeStands(r: Record, p: Party, s: State, o: State, gone: set<Mark>, heard: bool, next: nat)
    requires LogOk(r, next) && |r.log[0].sent| > 0
    requires SideOk(r, p, s, gone, heard, next) && SideOk(r, Other(p), o, gone, heard, next)
    requires KemPeerOk(r, s, Hearing(r, p, heard)) && KemPeerOk(r, o, Hearing(r, Other(p), heard))
    requires forall m | m in gone :: m.chain < |r.log|
    ensures Stands(r, p, s, o, gone, heard, next)
  {
  }

  lemma AppendDone(r: Record, p: Party, s: State, t: State, o: State, gone: set<Mark>, heard: bool,
                   e: nat, kem: nat, sent: Sent, next: nat)
    requires Stands(r, p, s, o, gone, heard, next) && s.ckS.Some?
    requires CanGrow(r, e, kem, next) && Owner(e) == p && e == Speaking(r, p) && (heard ==> e == |r.log| - 1)
    requires LogOk(Appended(r, e, GrownKem(r, e, kem), sent), next + 3)
    requires t == SentOn(s, kem)
    ensures Stands(Appended(r, e, GrownKem(r, e, kem), sent), p, t, o, gone, heard, next + 3)
  {
    hide LogOk, SideOk, KemPeerOk;
    AppendSidesOk(r, p, s, t, o, gone, heard, e, kem, sent, next);
    MakeStands(Appended(r, e, GrownKem(r, e, kem), sent), p, t, o, gone, heard, next + 3);
  }

  lemma AppendStands(r: Record, p: Party, s: State, o: State, gone: set<Mark>, heard: bool, draw: Draw,
                     plain: Plaintext)
    requires Stands(r, p, s, o, gone, heard, draw.dh) && s.ckS.Some? && draw.kem == draw.dh + 1
    ensures Encrypt(s, draw, plain).1.Ok?
    ensures var (t, answer) := Encrypt(s, draw, plain);
            Stands(Recorded(r, p, s, t, draw, Sent(plain, answer.value)), p, t, o, gone, heard, draw.dh + 3)
  {
    hide LogOk, SideOk, KemPeerOk;
    var e := Speaking(r, p);
    AppendPlace(r, p, s, gone, heard, draw);
    AppendRecordOk(r, s, e, draw, plain);
    var (t, answer) := Encrypt(s, draw, plain);
    var sent := Sent(plain, answer.value);
    assert Recorded(r, p, s, t, draw, sent) == Appended(r, e, GrownKem(r, e, draw.kem), sent);
    AppendDone(r, p, s, t, o, gone, heard, e, draw.kem, sent, draw.dh);
  }

  lemma OpenPlace(r: Record, p: Party, s: State, gone: set<Mark>, heard: bool, next: nat)
    requires |r.log| > 0 && SideOk(r, p, s, gone, heard, next) && s.ckS.None? && s.dhR.Some?
    requires |r.log[0].sent| == 0 ==> |r.log| == 1 && !heard
    ensures heard && Owner(|r.log| - 1) != p && |r.log[0].sent| > 0
    ensures Listening(r, s, |r.log| - 1) && s.sessionId == r.sessionId
  {
  }

  lemma OpenKemPeerOk(r: Record, s: State, t: State, h: int, chain: Chain)
    requires h < |r.log| && KemPeerOk(r, s, h) && t.kemPeer == s.kemPeer
    ensures KemPeerOk(Extended(r, chain), t, h)
  {
  }

  lemma OpenDone(r: Record, p: Party, s: State, t: State, o: State, gone: set<Mark>, chain: Chain, next: nat)
    requires Stands(r, p, s, o, gone, true, next) && Owner(|r.log| - 1) != p && |r.log[0].sent| > 0
    requires LogOk(Extended(r, chain), next + 3) && chain.sk == next && chain.kem == next + 1 && |chain.sent| == 1
    requires t == s.(rk := chain.rk, dhS := next, ckS := Some(NextChainKey(chain.seed)), nS := 1,
                     advertiseKemNext := false, kemAdvertised := Newest2([next + 1] + s.kemAdvertised))
    ensures Stands(Extended(r, chain), p, t, o, gone, false, next + 3)
  {
    hide LogOk, SideOk, KemPeerOk;
    OpenOwnOk(r, p, s, t, gone, chain, next);
    OpenOtherOk(r, Other(p), o, gone, chain, next);
    OpenKemPeerOk(r, s, t, |r.log| - 1, chain);
    OpenKemPeerOk(r, o, o, |r.log| - 2, chain);
    MakeStands(Extended(r, chain), p, t, o, gone, false, next + 3);
  }

  lemma OpenStands(r: Record, p: Party, s: State, o: State, gone: set<Mark>, heard: bool, draw: Draw,
                   plain: Plaintext)
    requires Stands(r, p, s, o, gone, heard, draw.dh)
    requires s.ckS.None? && s.dhR.Some? && draw.kem == draw.dh + 1
    ensures Encrypt(s, draw, plain).1.Ok?
    ensures var (t, answer) := Encrypt(s, draw, plain);
            Stands(Recorded(r, p, s, t, draw, Sent(plain, answer.value)), p, t, o, gone, false, draw.dh + 3)
  {
    hide LogOk, SideOk, KemPeerOk;
    OpenPlace(r, p, s, gone, heard, draw.dh);
    OpenSealed(r, s, draw, plain);
    var (t, answer) := Encrypt(s, draw, plain);
    var chain := Chain(draw.dh, t.rk, SeedChain(s.rk, X25519(draw.dh, s.dhR.value)), draw.kem,
                       [Sent(plain, answer.value)]);
    OpenLogOk(r, chain, draw.dh);
    assert Recorded(r, p, s, t, draw, Sent(plain, answer.value)) == Extended(r, chain);
    OpenDone(r, p, s, t, o, gone, chain, draw.dh);
  }

  lemma SendStepFields(c: Convo, p: Party, plain: Plaintext)
    ensures var s, draw, d := Side(c, p), Draw(c.next, c.next + 1, c.next + 2), SendStep(c, p, plain);
            var (t, answer) := Encrypt(s, draw, plain);
            if answer.Err? then d == c
            else && d.r == Recorded(c.r, p, s, t, draw, Sent(plain, answer.value))
                 && Side(d, p) == t && Side(d, Other(p)) == Side(c, Other(p))
                 && d.read == c.read && d.gone == c.gone && d.heard == (c.heard && s.ckS.Some?) && d.next == c.next + 3
  {
  }

  lemma SendOnOpenChain(c: Convo, p: Party, plain: Plaintext)
    requires StandsIn(c, p) && Side(c, p).ckS.Some?
    ensures StandsIn(SendStep(c, p, plain), p)
  {
    hide Stands, Encrypt, Recorded, SendStep;
    SendStepFields(c, p, plain);
    AppendStands(c.r, p, Side(c, p), Side(c, Other(p)), c.gone, c.heard, Draw(c.next, c.next + 1, c.next + 2),
                 plain);
  }

  lemma SendOnNewChain(c: Convo, p: Party, plain: Plaintext)
    requires StandsIn(c, p) && Side(c, p).ckS.None? && Side(c, p).dhR.Some?
    ensures StandsIn(SendStep(c, p, plain), p)
  {
    hide Stands, Encrypt, Recorded, SendStep;
    SendStepFields(c, p, plain);
    OpenStands(c.r, p, Side(c, p), Side(c, Other(p)), c.gone, c.heard, Draw(c.next, c.next + 1, c.next + 2),
               plain);
  }

  /** Whoever sends next, the two sides stay in step. */
  lemma SendKeeps(c: Convo, p: Party, plain: Plaintext)
    requires InStep(c)
    ensures InStep(SendStep(c, p, plain))
  {
    hide InStep, StandsIn;
    StandsInStep(c, p);
    StandsInStep(SendStep(c, p, plain), p);
    if Side(c, p).ckS.Some? {
      SendOnOpenChain(c, p, plain);
    } else if Side(c, p).dhR.Some? {
      SendOnNewChain(c, p, plain);
    }
  }
}
