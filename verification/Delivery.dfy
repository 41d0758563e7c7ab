/**
 Delivery keeps the two sides in step: a package that arrives for the first
 time is read, with its own plaintext, exactly when `Readable` says so.
 */
module Delivery {
  import opened Wrappers
  import opened Symbolic
  import opened Ratchet
  import opened Conversation

  // ── Opening an honest package ─────────────────────────────────────

  lemma {:induction false} FirstOpenedHonest(sessionId: SessionId, package: Package, mk: Term,
                                             candidates: seq<Option<KemSecret>>, sealedMk: Term, ss: Option<KemSecret>,
                                             plain: Plaintext)
    requires mk.Hmac? && mk.tag.MessageKey? && sealedMk.Hmac? && sealedMk.tag.MessageKey?
    requires package.body == Seal(sessionId, package.header, MixKem(sealedMk, ss), plain)
    ensures FirstOpened(sessionId, package, mk, candidates)
         == if mk == sealedMk && ss in candidates then Some(plain) else None
  {
    if |candidates| == 0 {
    } else {
      FirstOpenedHonest(sessionId, package, mk, candidates[1..], sealedMk, ss, plain);
      assert candidates == [candidates[0]] + candidates[1..];
    }
  }

  /** Only the right message key opens it, and only with its KEM key in hand. */
  lemma OpenHonest(r: Record, s: State, e: nat, i: nat, mk: Term)
    requires InLog(r, e, i) && SentOk(r, e, i) && s.sessionId == r.sessionId
    requires mk.Hmac? && mk.tag.MessageKey?
    ensures OpenAead(s, r.log[e].sent[i].package, mk)
         == if mk == MkAt(r, e, i) && KemHeld(s, r.log[e].sent[i].package.header)
            then Some(r.log[e].sent[i].plain)
            else None
  {
    var sent := r.log[e].sent[i];
    var kemCt := sent.package.header.kemCt;
    var ss := if kemCt.Some? then Some(Encapsulated(kemCt.value)) else None;
    var candidates := Candidates(s.kemAdvertised, kemCt);
    FirstOpenedHonest(s.sessionId, sent.package, mk, candidates, MkAt(r, e, i), ss, sent.plain);
    if kemCt.Some? && |s.kemAdvertised| > 0 {
      if KemHeld(s, sent.package.header) {
        var k :| 0 <= k < |s.kemAdvertised| && s.kemAdvertised[k] == kemCt.value.to;
        assert candidates[k] == ss;
      }
      assert ss in candidates ==> KemHeld(s, sent.package.header);
    }
  }

  // ── Moving the receiver ───────────────────────────────────────────

  /** The receiver's own deliveries and whether it has heard the last chain do not matter to the sender. */
  lemma SenderStays(c: Convo, d: Convo, p: Party)
    requires Inv(c)
    requires d == WithSide(c, p, Side(d, p)).(read := d.read, gone := d.gone, heard := d.heard)
    requires forall m | m in d.gone && m !in c.gone :: Owner(m.chain) != p
    requires c.gone <= d.gone
    requires d.heard == c.heard || Owner(|c.r.log| - 1) == Other(p)
    ensures SideOk(d.r, Other(p), Side(d, Other(p)), d.gone, d.heard, d.next)
  {
    var q, s := Other(p), Side(c, Other(p));
    assert SideOk(c.r, q, s, c.gone, c.heard, c.next);
    assert Hearing(d.r, q, d.heard) == Hearing(c.r, q, c.heard);
    forall e: nat, i: nat | e < |c.r.log| && Owner(e) != q
      ensures SlotOk(c.r, s.skipped, ReachOf(c.r, Hearing(c.r, q, c.heard), s.nR, e), d.gone, e, i)
    {
      assert SlotOk(c.r, s.skipped, ReachOf(c.r, Hearing(c.r, q, c.heard), s.nR, e), c.gone, e, i);
    }
  }

  lemma SkipSlot(r: Record, skipped: SkippedKeys, h: nat, nR: nat, until: nat, gone: set<Mark>, e: nat, i: nat)
    requires e < |r.log| && h < |r.log| && nR <= until && Ordered(r, e, h) && Ordered(r, h, e)
    requires SlotOk(r, skipped, ReachOf(r, h, nR, e), gone, e, i)
    ensures SlotOk(r, StoreGap(skipped, DhPub(r.log[h].sk), ChainPower(r.log[h].seed, nR), nR, until),
                   ReachOf(r, h, until, e), gone, e, i)
  {
    StoreGapAt(skipped, DhPub(r.log[h].sk), ChainPower(r.log[h].seed, nR), nR, until, At(r, e, i));
    if e == h && nR <= i < until {
      ChainPowerAdds(r.log[h].seed, nR, i - nR);
    }
  }

  lemma SkipStoreOk(r: Record, p: Party, skipped: SkippedKeys, h: nat, nR: nat, until: nat, gone: set<Mark>,
                    next: nat)
    requires LogOk(r, next) && h < |r.log| && Owner(h) != p && nR <= until
    requires StoreOk(r, p, skipped, h, nR, gone, next)
    ensures StoreOk(r, p, StoreGap(skipped, DhPub(r.log[h].sk), ChainPower(r.log[h].seed, nR), nR, until),
                    h, until, gone, next)
  {
    var dh, ck := DhPub(r.log[h].sk), ChainPower(r.log[h].seed, nR);
    forall e: nat, i: nat | e < |r.log| && Owner(e) != p
      ensures SlotOk(r, StoreGap(skipped, dh, ck, nR, until), ReachOf(r, h, until, e), gone, e, i)
    {
      assert Ordered(r, e, h) && Ordered(r, h, e);
      SkipSlot(r, skipped, h, nR, until, gone, e, i);
    }
    forall at: Slot | at in StoreGap(skipped, dh, ck, nR, until) ensures FromChain(r, p, at) && at.dh.of < next {
      StoreGapAt(skipped, dh, ck, nR, until, at);
      assert ChainOk(r, h, next);
      assert InGap(at, dh, nR, until) ==> at == At(r, h, at.n);
    }
  }

  /** A receiver that stands well again, and a sender that never moved. */
  lemma ReceiverMoved(c: Convo, d: Convo, p: Party)
    requires Inv(c)
    requires d == WithSide(c, p, Side(d, p)).(read := d.read, gone := d.gone, heard := d.heard)
    requires forall m | m in d.gone && m !in c.gone :: Owner(m.chain) != p
    requires c.gone <= d.gone
    requires d.heard == c.heard || (d.heard && Owner(|c.r.log| - 1) == Other(p) && |c.r.log[0].sent| > 0)
    requires SideOk(d.r, p, Side(d, p), d.gone, d.heard, d.next)
    ensures Inv(d)
  {
    SenderStays(c, d, p);
  }

  lemma SideNow(c: Convo, p: Party)
    ensures Inv(c) ==> SideOk(c.r, p, Side(c, p), c.gone, c.heard, c.next)
  {
  }

  lemma LogNow(c: Convo)
    ensures Inv(c) ==> LogOk(c.r, c.next)
  {
    hide LogOk, SideOk;
  }

  /** Whoever hears a chain has its key. */
  lemma HearerNow(r: Record, p: Party, s: State, heard: bool)
    requires |r.log| > 0 && RootsOk(r, p, s, heard) && 0 <= Hearing(r, p, heard)
    ensures var h := Hearing(r, p, heard);
            h < |r.log| && Owner(h) != p && HearingAt(r, s, h)
  {
  }

  /** What the invariant says of a receiver and of one package to it. */
  lemma PackageNow(c: Convo, p: Party, e: nat, i: nat)
    requires Inv(c) && InLog(c.r, e, i) && Owner(e) != p
    ensures var s := Side(c, p);
            && RootsOk(c.r, p, s, c.heard) && SentOk(c.r, e, i)
            && SlotOk(c.r, s.skipped, ReachOf(c.r, Hearing(c.r, p, c.heard), s.nR, e), c.gone, e, i)
  {
    hide RootsOk, SentOk, SlotOk;
    SideNow(c, p);
  }

  lemma SkipSideOk(r: Record, p: Party, s: State, until: nat, gone: set<Mark>, heard: bool, next: nat)
    requires |r.log| > 0 && SideOk(r, p, s, gone, heard, next)
    requires Hearing(r, p, heard) >= 0 && s.nR < until <= Len(r, Hearing(r, p, heard))
    requires StoreOk(r, p,
                     StoreGap(s.skipped, DhPub(r.log[Hearing(r, p, heard)].sk),
                              ChainPower(r.log[Hearing(r, p, heard)].seed, s.nR), s.nR, until),
                     Hearing(r, p, heard), until, gone, next)
    requires FitsGap(s, until)
    ensures SkipTo(s, until).Some? && SideOk(r, p, SkipTo(s, until).value, gone, heard, next)
    ensures var t := SkipTo(s, until).value; t == s.(nR := until, ckR := t.ckR, skipped := t.skipped)
  {
    hide StoreOk;
    ChainPowerAdds(r.log[Hearing(r, p, heard)].seed, s.nR, until - s.nR);
  }

  /** Skipping ahead inside the chain being received. */
  lemma SkipKeeps(c: Convo, p: Party, until: nat)
    requires Inv(c)
    requires var s, h := Side(c, p), Hearing(c.r, p, c.heard);
             h >= 0 && s.nR <= until <= Len(c.r, h) && FitsGap(s, until)
    ensures SkipTo(Side(c, p), until).Some? && Inv(WithSide(c, p, SkipTo(Side(c, p), until).value))
    ensures var s := Side(c, p);
            var t := SkipTo(s, until).value;
            t == s.(nR := until, ckR := t.ckR, skipped := t.skipped)
  {
    hide Inv, LogOk, StoreOk, RootsOk;
    var s, h := Side(c, p), Hearing(c.r, p, c.heard);
    if s.nR < until {
      SideNow(c, p);
      LogNow(c);
      HearerNow(c.r, p, s, c.heard);
      assert StoreOk(c.r, p, s.skipped, h, s.nR, c.gone, c.next);
      hide SideOk;
      SkipStoreOk(c.r, p, s.skipped, h, s.nR, until, c.gone, c.next);
      SkipSideOk(c.r, p, s, until, c.gone, c.heard, c.next);
      ReceiverMoved(c, WithSide(c, p, SkipTo(s, until).value), p);
    }
  }

  lemma RatchetSideOk(r: Record, p: Party, s: State, gone: set<Mark>, next: nat)
    requires |r.log| >= 2 && Linked(r) && SideOk(r, p, s, gone, false, next) && Owner(|r.log| - 1) == Other(p)
    requires s.nR == Len(r, |r.log| - 3)
    ensures SideOk(r, p, DhRatchet(s, DhPub(r.log[|r.log| - 1].sk)), gone, true, next)
  {
    var last := |r.log| - 1;
    assert Listening(r, DhRatchet(s, DhPub(r.log[last].sk)), last);
    forall e: nat, i: nat | e < |r.log| && Owner(e) != p
      ensures SlotOk(r, s.skipped, ReachOf(r, last, 0, e), gone, e, i)
    {
      assert SlotOk(r, s.skipped, ReachOf(r, last - 2, s.nR, e), gone, e, i);
    }
  }

  /** Following the peer into its next chain, the old one read or skipped to its end. */
  lemma RatchetKeeps(c: Convo, p: Party)
    requires Inv(c) && !c.heard && Owner(|c.r.log| - 1) == Other(p) && |c.r.log| >= 2
    requires Side(c, p).nR == Len(c.r, |c.r.log| - 3)
    ensures Inv(WithSide(c, p, DhRatchet(Side(c, p), DhPub(c.r.log[|c.r.log| - 1].sk))).(heard := true))
  {
    var s, last := Side(c, p), |c.r.log| - 1;
    SideNow(c, p);
    assert ChainOk(c.r, last, c.next) && ChainOk(c.r, 0, c.next);
    RatchetSideOk(c.r, p, s, c.gone, c.next);
    ReceiverMoved(c, WithSide(c, p, DhRatchet(s, DhPub(c.r.log[last].sk))).(heard := true), p);
  }

  /** Bob's first look at Alice's key. */
  lemma WakeKeeps(c: Convo)
    requires Inv(c) && !c.bob.initialized && |c.r.log[0].sent| > 0
    ensures Inv(c.(bob := DeriveInitialReceiveChain(c.bob, DhPub(c.r.log[0].sk)), heard := true))
    ensures |c.r.log| == 1 && !c.heard
  {
    assert |c.r.log| == 1 && !c.heard;
    var t := DeriveInitialReceiveChain(c.bob, DhPub(c.r.log[0].sk));
    var d := c.(bob := t, heard := true);
    SenderStays(c, d, Bob);
    assert Listening(d.r, t, 0);
    forall e: nat, i: nat | e < |c.r.log| && Owner(e) != Bob
      ensures SlotOk(c.r, t.skipped, ReachOf(c.r, 0, 0, e), c.gone, e, i)
    {
      assert SlotOk(c.r, c.bob.skipped, ReachOf(c.r, -2, c.bob.nR, e), c.gone, e, i);
    }
    assert SideOk(d.r, Bob, t, d.gone, d.heard, d.next);
  }

  // ── Reading one package ───────────────────────────────────────────

  lemma TakeStoreOk(r: Record, p: Party, skipped: SkippedKeys, e: nat, i: nat, gone: set<Mark>, next: nat)
    requires e < |r.log| && Owner(e) != p && StoreOk(r, p, skipped, e, i, gone, next)
    ensures StoreOk(r, p, skipped, e, i + 1, gone + {Mark(e, i)}, next)
  {
    var passed := i + 1;
    forall f: nat, k: nat | f < |r.log| && Owner(f) != p
      ensures SlotOk(r, skipped, ReachOf(r, e, passed, f), gone + {Mark(e, i)}, f, k)
    {
      assert SlotOk(r, skipped, ReachOf(r, e, i, f), gone, f, k);
    }
  }

  function Noted(s: State, h: Header): State { if h.kemPk.Some? then s.(kemPeer := h.kemPk) else s }

  lemma TakeSideOk(r: Record, p: Party, s: State, t: State, gone: set<Mark>, taken: set<Mark>, heard: bool, next: nat)
    requires |r.log| > 0 && SideOk(r, p, s, gone, heard, next)
    requires Hearing(r, p, heard) >= 0 && s.nR < Len(r, Hearing(r, p, heard))
    requires StoreOk(r, p, s.skipped, Hearing(r, p, heard), s.nR + 1, taken, next)
    ensures s.ckR == Some(ChainPower(r.log[Hearing(r, p, heard)].seed, s.nR))
    ensures t == StepReceiving(s).(kemPeer := t.kemPeer) ==> SideOk(r, p, t, taken, heard, next)
  {
  }

  /** The receiving chain moves by one, whether the package opens or not. */
  lemma TakeKeeps(c: Convo, p: Party, e: nat, t: State)
    requires Inv(c) && e < |c.r.log| && e == Hearing(c.r, p, c.heard) && Owner(e) != p
    requires Side(c, p).nR < Len(c.r, e)
    ensures Side(c, p).ckR == Some(ChainPower(c.r.log[e].seed, Side(c, p).nR))
    ensures t == StepReceiving(Side(c, p)).(kemPeer := t.kemPeer) ==>
              Inv(WithSide(c, p, t).(gone := c.gone + {Mark(e, Side(c, p).nR)}))
  {
    hide Inv, StoreOk;
    var s := Side(c, p);
    var taken := c.gone + {Mark(e, s.nR)};
    SideNow(c, p);
    TakeStoreOk(c.r, p, s.skipped, e, s.nR, c.gone, c.next);
    TakeSideOk(c.r, p, s, t, c.gone, taken, c.heard, c.next);
    if t == StepReceiving(s).(kemPeer := t.kemPeer) {
      ReceiverMoved(c, WithSide(c, p, t).(gone := taken), p);
    }
  }

  lemma TakeStoredStoreOk(r: Record, p: Party, skipped: SkippedKeys, h: int, nR: nat, e: nat, i: nat,
                          gone: set<Mark>, next: nat)
    requires LogOk(r, next) && e < |r.log| && Owner(e) != p && StoreOk(r, p, skipped, h, nR, gone, next)
    requires At(r, e, i) in skipped
    ensures StoreOk(r, p, skipped - {At(r, e, i)}, h, nR, gone + {Mark(e, i)}, next)
  {
    forall f: nat, k: nat | f < |r.log| && Owner(f) != p
      ensures SlotOk(r, skipped - {At(r, e, i)}, ReachOf(r, h, nR, f), gone + {Mark(e, i)}, f, k)
    {
      assert SlotOk(r, skipped, ReachOf(r, h, nR, f), gone, f, k);
      assert SlotOk(r, skipped, ReachOf(r, h, nR, e), gone, e, i);
      assert Ordered(r, e, f) && Ordered(r, f, e);
    }
  }

  lemma TakeStoredSideOk(r: Record, p: Party, s: State, at: Slot, gone: set<Mark>, taken: set<Mark>, heard: bool,
                         next: nat)
    requires |r.log| > 0 && SideOk(r, p, s, gone, heard, next) && at in s.skipped
    requires StoreOk(r, p, s.skipped - {at}, Hearing(r, p, heard), s.nR, taken, next)
    ensures SideOk(r, p, s.(skipped := s.skipped - {at}), taken, heard, next)
  {
  }

  /** Reading a straggler from the store. */
  lemma TakeStoredKeeps(c: Convo, p: Party, e: nat, i: nat)
    requires Inv(c) && InLog(c.r, e, i) && Owner(e) != p && At(c.r, e, i) in Side(c, p).skipped
    ensures var s := Side(c, p);
            Inv(WithSide(c, p, s.(skipped := s.skipped - {At(c.r, e, i)})).(gone := c.gone + {Mark(e, i)}))
  {
    hide LogOk, StoreOk;
    var s, at := Side(c, p), At(c.r, e, i);
    var taken := c.gone + {Mark(e, i)};
    SideNow(c, p);
    TakeStoredStoreOk(c.r, p, s.skipped, Hearing(c.r, p, c.heard), s.nR, e, i, c.gone, c.next);
    TakeStoredSideOk(c.r, p, s, at, c.gone, taken, c.heard, c.next);
    ReceiverMoved(c, WithSide(c, p, s.(skipped := s.skipped - {at})).(gone := taken), p);
  }

  // ── What decrypt answers ──────────────────────────────────────────

  /** The package would be read, as its own plaintext, just if it is `Readable`; either way both sides stay in step. */
  ghost predicate ArrivesWell(c: Convo, e: nat, i: nat)
    requires InLog(c.r, e, i)
  {
    && InStep(DeliverStep(c, e, i))
    && if Readable(c, e, i) then Receipt(c, e, i).1 == Ok(c.r.log[e].sent[i].plain) else Receipt(c, e, i).1.Err?
  }

  /** A conversation is as much in step with more of its gone packages marked as read. */
  lemma MoreRead(c: Convo, read: set<Mark>)
    requires InStep(c) && read <= c.gone
    ensures InStep(c.(read := read))
  {
  }

  lemma KemPeerAfter(r: Record, s: State, u: State, e: nat, i: nat)
    requires InLog(r, e, i) && SentOk(r, e, i) && KemPeerOk(r, s, e)
    requires u.kemPeer == s.kemPeer || u.kemPeer == r.log[e].sent[i].package.header.kemPk
    ensures KemPeerOk(r, u, e)
  {
    var kemPk := r.log[e].sent[i].package.header.kemPk;
    assert kemPk.Some? ==> Advertised(r, e, kemPk.value.of);
  }

  /**
   The receiver stands at a number of the chain and uses its key on package
   `i`: it opens that number only, if its KEM key is held.
   */
  lemma UseKey(c: Convo, p: Party, e: nat, i: nat)
    requires InStep(c) && InLog(c.r, e, i) && e == Hearing(c.r, p, c.heard) && Owner(e) != p
    requires Side(c, p).nR < Len(c.r, e)
    ensures Side(c, p).ckR.Some?
    ensures var s, sent := Side(c, p), c.r.log[e].sent[i];
            var (u, answer) := DecryptInOrder(s, sent.package);
            && answer == (if i == s.nR && KemHeld(s, sent.package.header) then Ok(sent.plain) else Err(AuthFailed))
            && InStep(WithSide(c, p, u).(gone := c.gone + {Mark(e, s.nR)}))
  {
    hide Inv;
    var s := Side(c, p);
    KeyAnswers(c, p, e, i);
    var u := DecryptInOrder(s, c.r.log[e].sent[i].package).0;
    TakeKeeps(c, p, e, u);
    KemPeerAfter(c.r, s, u, e, i);
    hide DecryptInOrder;
    var d := WithSide(c, p, u).(gone := c.gone + {Mark(e, s.nR)});
    assert d.r == c.r && Side(d, p) == u && Side(d, Other(p)) == Side(c, Other(p));
  }

  lemma KeyAnswers(c: Convo, p: Party, e: nat, i: nat)
    requires Inv(c) && InLog(c.r, e, i) && e == Hearing(c.r, p, c.heard) && Owner(e) != p
    ensures Side(c, p).ckR.Some? && SentOk(c.r, e, i)
    ensures var s, sent := Side(c, p), c.r.log[e].sent[i];
            var (u, answer) := DecryptInOrder(s, sent.package);
            && answer == (if i == s.nR && KemHeld(s, sent.package.header) then Ok(sent.plain) else Err(AuthFailed))
            && u == StepReceiving(s).(kemPeer := u.kemPeer)
            && (u.kemPeer == s.kemPeer || u.kemPeer == sent.package.header.kemPk)
  {
    hide Inv, SentOk;
    var s := Side(c, p);
    HeardNow(c, p, e, i);
    ChainPowerInjective(c.r.log[e].seed, s.nR, i);
    OpenHonest(c.r, StepReceiving(s), e, i, MessageKeyOf(s.ckR.value));
  }

  lemma HeardNow(c: Convo, p: Party, e: nat, i: nat)
    requires Inv(c) && InLog(c.r, e, i) && e == Hearing(c.r, p, c.heard) && Owner(e) != p
    ensures Side(c, p).sessionId == c.r.sessionId && SentOk(c.r, e, i)
    ensures Side(c, p).ckR == Some(ChainPower(c.r.log[e].seed, Side(c, p).nR))
  {
    hide StoreOk, SentOk;
    SideNow(c, p);
  }

  lemma StoredReceipt(c: Convo, p: Party, e: nat, i: nat)
    requires Inv(c) && InLog(c.r, e, i) && p == Other(Owner(e)) && At(c.r, e, i) in Side(c, p).skipped
    ensures var s, sent := Side(c, p), c.r.log[e].sent[i];
            if KemHeld(s, sent.package.header)
            then Receipt(c, e, i) == (s.(skipped := s.skipped - {At(c.r, e, i)}), Ok(sent.plain))
            else Receipt(c, e, i) == (s, Err(AuthFailed))
  {
    var s, sent := Side(c, p), c.r.log[e].sent[i];
    SideNow(c, p);
    assert SentOk(c.r, e, i);
    assert SlotOf(sent.package.header) == At(c.r, e, i);
    assert SlotOk(c.r, s.skipped, ReachOf(c.r, Hearing(c.r, p, c.heard), s.nR, e), c.gone, e, i);
    OpenHonest(c.r, s, e, i, MkAt(c.r, e, i));
  }

  /** A package that is turned away with nothing used up leaves the conversation as it was. */
  lemma NothingHappens(c: Convo, e: nat, i: nat)
    requires InLog(c.r, e, i)
    requires var p := Other(Owner(e));
             Receipt(c, e, i).0 == Side(c, p) && Receipt(c, e, i).1.Err?
             && UsedUp(Side(c, p), c.r.log[e].sent[i].package.header, e, false) == {}
    ensures DeliverStep(c, e, i) == c
  {
    assert c.gone + {} == c.gone;
  }

  /** Moving the receiver of the newest chain to it, or along it, leaves what it knows of KEM keys alone. */
  lemma MovedInStep(c: Convo, p: Party, t: State, heard: bool)
    requires InStep(c) && Inv(WithSide(c, p, t).(heard := heard)) && t.kemPeer == Side(c, p).kemPeer
    requires heard == c.heard || (heard && |c.r.log| > 0 && Owner(|c.r.log| - 1) == Other(p))
    ensures InStep(WithSide(c, p, t).(heard := heard))
  {
    hide Inv;
    var d := WithSide(c, p, t).(heard := heard);
    assert Side(d, p) == t && Side(d, Other(p)) == Side(c, Other(p));
  }

  lemma StoredInStep(c: Convo, p: Party, e: nat, i: nat)
    requires InStep(c) && InLog(c.r, e, i) && Owner(e) != p && At(c.r, e, i) in Side(c, p).skipped
    ensures var s := Side(c, p);
            InStep(WithSide(c, p, s.(skipped := s.skipped - {At(c.r, e, i)})).(gone := c.gone + {Mark(e, i)}))
  {
    hide Inv;
    TakeStoredKeeps(c, p, e, i);
    var s := Side(c, p);
    var d := WithSide(c, p, s.(skipped := s.skipped - {At(c.r, e, i)})).(gone := c.gone + {Mark(e, i)});
    assert d.r == c.r && Side(d, Other(p)) == Side(c, Other(p));
  }

  lemma ReadStored(c: Convo, p: Party, e: nat, i: nat)
    requires InStep(c) && InLog(c.r, e, i) && p == Other(Owner(e)) && At(c.r, e, i) in Side(c, p).skipped
    requires e < Hearing(c.r, p, c.heard) || (e == Hearing(c.r, p, c.heard) && i < Side(c, p).nR)
    requires Side(c, p).initialized
    ensures ArrivesWell(c, e, i)
  {
    hide Inv;
    PackageNow(c, p, e, i);
    assert SlotOf(c.r.log[e].sent[i].package.header) == At(c.r, e, i);
    StoredReceipt(c, p, e, i);
    StoredInStep(c, p, e, i);
    assert c.read <= c.gone;
    hide InStep;
    var s := Side(c, p);
    if KemHeld(s, c.r.log[e].sent[i].package.header) {
      var d := WithSide(c, p, s.(skipped := s.skipped - {At(c.r, e, i)})).(gone := c.gone + {Mark(e, i)});
      MoreRead(d, c.read + {Mark(e, i)});
      assert DeliverStep(c, e, i) == d.(read := c.read + {Mark(e, i)});
    } else {
      NothingHappens(c, e, i);
    }
  }

  /** A package that is not behind the receiver has no key in its store. */
  lemma NotStored(c: Convo, e: nat, i: nat)
    requires Inv(c) && InLog(c.r, e, i) && Side(c, Other(Owner(e))).initialized
    requires var p := Other(Owner(e)); var h := Hearing(c.r, p, c.heard); e > h || (e == h && i >= Side(c, p).nR)
    ensures var s, header := Side(c, Other(Owner(e))), c.r.log[e].sent[i].package.header;
            !InStore(s, header) && header.n == i && header.dhPub == DhPub(c.r.log[e].sk) && header.pn == Len(c.r, e - 2)
  {
    var p := Other(Owner(e));
    var s, h := Side(c, p), Hearing(c.r, p, c.heard);
    SideNow(c, p);
    assert SentOk(c.r, e, i);
    assert SlotOk(c.r, s.skipped, ReachOf(c.r, h, s.nR, e), c.gone, e, i);
    assert SlotOf(c.r.log[e].sent[i].package.header) == At(c.r, e, i);
  }

  lemma AwakeHears(r: Record, p: Party, s: State, heard: bool)
    requires |r.log| > 0 && RootsOk(r, p, s, heard) && s.initialized
    ensures Hearing(r, p, heard) >= -1 && HearingAt(r, s, Hearing(r, p, heard))
  {
  }

  /** A package of another chain belongs to the newest, and the receiver can tell. */
  lemma NewChainSeen(r: Record, p: Party, s: State, heard: bool, e: nat, next: nat)
    requires LogOk(r, next) && RootsOk(r, p, s, heard) && s.initialized
    requires e < |r.log| && p == Other(Owner(e)) && e >= Hearing(r, p, heard)
    ensures var h := Hearing(r, p, heard);
            && (s.dhR != Some(DhPub(r.log[e].sk)) <==> e > h)
            && (e > h ==> e == |r.log| - 1 && !heard && h == e - 2)
            && h >= -1 && (if h < 0 then s.ckR.None? && s.nR == 0 else s.ckR.Some? && s.nR <= Len(r, h))
  {
    var h := Hearing(r, p, heard);
    AwakeHears(r, p, s, heard);
    assert ChainOk(r, e, next);
    if h >= 0 { assert Ordered(r, h, e); }
  }

  /** What the receiver sees in the header of a package of its current chain or of the next. */
  lemma HeaderSeen(c: Convo, e: nat, i: nat)
    requires Inv(c) && InLog(c.r, e, i) && Side(c, Other(Owner(e))).initialized
    requires var p := Other(Owner(e)); var h := Hearing(c.r, p, c.heard); e > h || (e == h && i >= Side(c, p).nR)
    ensures var p := Other(Owner(e));
            var s, h, header := Side(c, p), Hearing(c.r, p, c.heard), c.r.log[e].sent[i].package.header;
            && !InStore(s, header) && header.n == i && header.dhPub == DhPub(c.r.log[e].sk)
            && (IsNewChain(s, header) <==> e > h)
            && (e > h ==> e == |c.r.log| - 1 && !c.heard && h == e - 2 && header.pn == Len(c.r, h))
            && h >= -1 && (if h < 0 then s.ckR.None? && s.nR == 0 else s.ckR.Some? && s.nR <= Len(c.r, h))
  {
    NotStored(c, e, i);
    var p := Other(Owner(e));
    NewChainSeen(c.r, p, Side(c, p), c.heard, e, c.next);
  }

  lemma DecryptByReach(s: State, package: Package)
    requires s.initialized && !InStore(s, package.header)
    ensures Decrypt(s, Parsed(package)) ==
            match Reach(s, package.header)
            case Err(e) => (s, Err(e))
            case Ok(t) => DecryptInOrder(t, package)
  {
  }

  lemma ReachNotesNothing(s: State, h: Header)
    requires Reach(s, h).Ok?
    ensures Reach(s, h).value.kemPeer == s.kemPeer && Reach(s, h).value.ckR.Some?
  {
  }

  /** The peer's KEM key changes when a package that advertises one is read in order, and only then. */
  lemma DecryptNotes(s: State, package: Package)
    ensures var (t, answer) := Decrypt(s, Parsed(package));
            t.kemPeer == if answer.Ok? && !InStore(s, package.header) && package.header.kemPk.Some?
                         then package.header.kemPk else s.kemPeer
  {
    hide Reach, OpenAead;
    var awake := Awake(s, package.header);
    if Reach(awake, package.header).Ok? {
      ReachNotesNothing(awake, package.header);
    }
  }

  /** The receiver, moved up to a package of its current chain. */
  lemma AdvanceKeeps(c: Convo, p: Party, e: nat, i: nat) returns (t: State)
    requires Inv(c) && InLog(c.r, e, i) && p == Other(Owner(e)) && Side(c, p).initialized
    requires e == Hearing(c.r, p, c.heard) && i >= Side(c, p).nR && FitsGap(Side(c, p), i)
    ensures Reach(Side(c, p), c.r.log[e].sent[i].package.header) == Ok(t)
    ensures Inv(WithSide(c, p, t))
    ensures t == Side(c, p).(nR := i, ckR := t.ckR, skipped := t.skipped)
  {
    hide Inv;
    HeaderSeen(c, e, i);
    SkipKeeps(c, p, i);
    t := SkipTo(Side(c, p), i).value;
  }

  /**
   `d` is `c` with the receiver moved up to a number of the package's chain;
   using that key there is what happens in `c`.
   */
  lemma FinishArrival(c: Convo, d: Convo, p: Party, e: nat, i: nat)
    requires InLog(c.r, e, i) && p == Other(Owner(e)) && c.read <= c.gone
    requires d == WithSide(c, p, Side(d, p)).(heard := c.heard || e > Hearing(c.r, p, c.heard))
    requires InStep(d) && e == Hearing(d.r, p, d.heard) && Side(d, p).nR < Len(d.r, e)
    requires e > Hearing(c.r, p, c.heard) ==> Depth(Side(d, p).rk) > Depth(Side(c, p).rk)
    requires var h := c.r.log[e].sent[i].package.header;
             !InStore(Side(c, p), h) && Reach(Awake(Side(c, p), h), h) == Ok(Side(d, p))
    ensures Side(d, p).ckR.Some?
    ensures Receipt(c, e, i).1 == (if i == Side(d, p).nR && KemHeld(Side(d, p), c.r.log[e].sent[i].package.header)
                                   then Ok(c.r.log[e].sent[i].plain) else Err(AuthFailed))
    ensures InStep(DeliverStep(c, e, i))
  {
    hide InStep;
    UseKey(d, p, e, i);
    var s, t, package := Side(c, p), Side(d, p), c.r.log[e].sent[i].package;
    assert Receipt(c, e, i) == DecryptInOrder(t, package);
    var (u, answer) := DecryptInOrder(t, package);
    assert u.rk == t.rk;
    var used := WithSide(d, p, u).(gone := d.gone + {Mark(e, t.nR)});
    var read := if answer.Ok? then c.read + {Mark(e, i)} else c.read;
    MoreRead(used, read);
    assert DeliverStep(c, e, i) == used.(read := read);
  }

  lemma ReadInChain(c: Convo, p: Party, e: nat, i: nat)
    requires InStep(c) && InLog(c.r, e, i) && p == Other(Owner(e)) && Side(c, p).initialized
    requires e == Hearing(c.r, p, c.heard) && i >= Side(c, p).nR
    ensures ArrivesWell(c, e, i)
  {
    hide Inv;
    var s, sent := Side(c, p), c.r.log[e].sent[i];
    HeaderSeen(c, e, i);
    DecryptByReach(s, sent.package);
    if FitsGap(s, i) {
      var t := AdvanceKeeps(c, p, e, i);
      MovedInStep(c, p, t, c.heard);
      hide InStep;
      FinishArrival(c, WithSide(c, p, t), p, e, i);
    } else {
      NothingHappens(c, e, i);
    }
  }

  /** The receiver, moved onto the chain that the peer just opened. */
  lemma FollowKeeps(c: Convo, p: Party, e: nat, i: nat) returns (t: State)
    requires Inv(c) && InLog(c.r, e, i) && p == Other(Owner(e)) && Side(c, p).initialized
    requires e > Hearing(c.r, p, c.heard) && FitsGap(Side(c, p), c.r.log[e].sent[i].package.header.pn)
    ensures Reach(Side(c, p), c.r.log[e].sent[i].package.header) == Ok(t)
    ensures !c.heard && Inv(WithSide(c, p, t).(heard := true))
    ensures t.nR == 0 && Hearing(c.r, p, true) == e && Hearing(c.r, p, c.heard) == e - 2
    ensures t.kemAdvertised == Side(c, p).kemAdvertised && t.kemPeer == Side(c, p).kemPeer
    ensures Depth(t.rk) > Depth(Side(c, p).rk)
  {
    hide Inv;
    var s, header, h := Side(c, p), c.r.log[e].sent[i].package.header, Hearing(c.r, p, c.heard);
    HeaderSeen(c, e, i);
    if h >= 0 { SkipKeeps(c, p, header.pn); }
    var u := SkipTo(s, header.pn).value;
    t := DhRatchet(u, header.dhPub);
    RatchetKeeps(WithSide(c, p, u), p);
  }

  lemma ReadNewChain(c: Convo, p: Party, e: nat, i: nat)
    requires InStep(c) && InLog(c.r, e, i) && p == Other(Owner(e)) && Side(c, p).initialized
    requires e > Hearing(c.r, p, c.heard)
    ensures ArrivesWell(c, e, i)
  {
    hide Inv;
    var s, sent := Side(c, p), c.r.log[e].sent[i];
    HeaderSeen(c, e, i);
    DecryptByReach(s, sent.package);
    if FitsGap(s, sent.package.header.pn) {
      var t := FollowKeeps(c, p, e, i);
      MovedInStep(c, p, t, true);
      hide InStep;
      FinishArrival(c, WithSide(c, p, t).(heard := true), p, e, i);
    } else {
      NothingHappens(c, e, i);
    }
  }

  lemma FirstPlace(c: Convo, e: nat, i: nat)
    requires Inv(c) && InLog(c.r, e, i) && !Side(c, Other(Owner(e))).initialized
    ensures Other(Owner(e)) == Bob && Waiting(c.r, c.bob) && e == 0 && SentOk(c.r, e, i)
  {
    hide StoreOk;
    SideNow(c, Other(Owner(e)));
  }

  lemma ReadFirst(c: Convo, e: nat, i: nat)
    requires InStep(c) && InLog(c.r, e, i) && !Side(c, Other(Owner(e))).initialized
    ensures ArrivesWell(c, e, i)
  {
    hide Inv;
    FirstPlace(c, e, i);
    WakeKeeps(c);
    var s1 := DeriveInitialReceiveChain(c.bob, DhPub(c.r.log[0].sk));
    var c1 := c.(bob := s1, heard := true);
    MovedInStep(c, Bob, s1, true);
    if FitsGap(s1, i) {
      SkipKeeps(c1, Bob, i);
      MovedInStep(c1, Bob, SkipTo(s1, i).value, true);
      hide InStep;
      FinishArrival(c, WithSide(c1, Bob, SkipTo(s1, i).value), Bob, e, i);
    } else {
      hide InStep;
      assert DeliverStep(c, e, i) == c1;
    }
  }

  /**
   A package whose key is not gone is read, as its own plaintext, exactly when
   it is `Readable`; read or not, the two sides stay in step.
   */
  lemma DeliverExactly(c: Convo, e: nat, i: nat)
    requires InStep(c) && InLog(c.r, e, i) && Mark(e, i) !in c.gone
    ensures InStep(DeliverStep(c, e, i))
    ensures if Readable(c, e, i) then Receipt(c, e, i).1 == Ok(c.r.log[e].sent[i].plain) else Receipt(c, e, i).1.Err?
  {
    hide Inv;
    var p := Other(Owner(e));
    var s, h := Side(c, p), Hearing(c.r, p, c.heard);
    PackageNow(c, p, e, i);
    if !s.initialized {
      ReadFirst(c, e, i);
    } else if e > h {
      ReadNewChain(c, p, e, i);
    } else if e == h && i >= s.nR {
      ReadInChain(c, p, e, i);
    } else {
      ReadStored(c, p, e, i);
    }
  }
}
