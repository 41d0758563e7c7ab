/**
 Two sessions after one of them made a false root step: whatever either of them
 is given from then on, their roots stay different and neither reads what the
 other seals.
 */
module Separation {
  import opened Wrappers
  import opened Symbolic
  import opened Ratchet
  import opened Conversation
  import opened Delivery
  import opened Replays
  import KeyHistory

  // ── Keys that come from the false step ────────────────────────────

  /** The step was taken from root `rk` with the shared secret of `a` and `b`. */
  datatype FalseStep = FalseStep(rk: Term, a: nat, b: nat)

  predicate Tainted(f: FalseStep, t: Term) {
    var dh := X25519(f.a, DhPub(f.b));
    KeyHistory.Descends(NextRoot(f.rk, dh), t) || KeyHistory.Descends(SeedChain(f.rk, dh), t)
  }

  lemma {:induction false} DescendsIsBigger(base: Term, t: Term)
    requires KeyHistory.Descends(base, t)
    ensures TermSize(base) <= TermSize(t)
  {
    if base == t {
    } else {
      DescendsIsBigger(base, t.key);
    }
  }

  lemma ShallowIsUntainted(f: FalseStep, t: Term)
    requires Depth(t) < Depth(f.rk) || t == f.rk
    ensures !Tainted(f, t)
  {
    var dh := X25519(f.a, DhPub(f.b));
    if KeyHistory.Descends(NextRoot(f.rk, dh), t) {
      KeyHistory.DescendsRaises(NextRoot(f.rk, dh), t);
      DescendsIsBigger(NextRoot(f.rk, dh), t);
    }
    if KeyHistory.Descends(SeedChain(f.rk, dh), t) {
      KeyHistory.DescendsRaises(SeedChain(f.rk, dh), t);
      DescendsIsBigger(SeedChain(f.rk, dh), t);
    }
  }

  lemma {:induction false} ChainKeepsTaint(f: FalseStep, ck: Term, steps: nat)
    ensures Tainted(f, ChainPower(ck, steps)) <==> Tainted(f, ck)
  {
    if steps == 0 {
    } else {
      ChainKeepsTaint(f, ck, steps - 1);
    }
  }

  lemma SealedTaint(f: FalseStep, body: Sealed, mk: Term)
    requires KeyHistory.SealedUnder(body, mk) && mk.Hmac? && mk.tag.MessageKey?
    ensures Tainted(f, body.key) <==> Tainted(f, mk)
  {
    var ss :| body.key == Hmac(MixKem(mk, ss), AeadKey, NoInput)
      && body.nonce == Hmac(MixKem(mk, ss), AeadNonce, NoInput);
    assert Tainted(f, MixKem(mk, ss)) <==> Tainted(f, mk);
  }

  // ── Either side, whatever it is given ─────────────────────────────

  /** A key of the side that took the step comes from it, one of the other side does not. */
  predicate Fits(f: FalseStep, strayed: bool, key: Term) { Tainted(f, key) <==> strayed }

  /** The other side cannot take the same step. */
  predicate FreshFor(f: FalseStep, strayed: bool, sk: nat) { !strayed ==> sk != f.a && sk != f.b }

  /** A message key of its side, or one that was in the store before. */
  predicate SlotFits(f: FalseStep, strayed: bool, kept: set<Term>, mk: Term) {
    mk.Hmac? && mk.tag.MessageKey? && (Fits(f, strayed, mk) || mk in kept)
  }

  /** All keys of one side, the skipped ones in `kept` aside. */
  ghost predicate OnSide(f: FalseStep, strayed: bool, kept: set<Term>, s: State) {
    && Fits(f, strayed, s.rk) && FreshFor(f, strayed, s.dhS)
    && (s.ckS.Some? ==> Fits(f, strayed, s.ckS.value)) && (s.ckR.Some? ==> Fits(f, strayed, s.ckR.value))
    && forall at: Slot | at in s.skipped :: SlotFits(f, strayed, kept, s.skipped[at])
  }

  lemma RootStepFits(f: FalseStep, strayed: bool, rk: Term, sk: nat, pk: DhPub)
    requires Fits(f, strayed, rk) && FreshFor(f, strayed, sk)
    ensures Fits(f, strayed, NextRoot(rk, X25519(sk, pk))) && Fits(f, strayed, SeedChain(rk, X25519(sk, pk)))
  {
  }

  lemma KeyStepFits(f: FalseStep, strayed: bool, ck: Term)
    requires Fits(f, strayed, ck)
    ensures Fits(f, strayed, MessageKeyOf(ck)) && Fits(f, strayed, NextChainKey(ck))
  {
  }

  lemma SealsUnder(s: State, draw: Draw, plain: Plaintext)
    requires OpenSendChain(s, draw.dh).ckS.Some?
    ensures var answer := Encrypt(s, draw, plain).1;
            answer.Ok? && KeyHistory.SealedUnder(answer.value.body, MessageKeyOf(OpenSendChain(s, draw.dh).ckS.value))
  {
    var kemCt := Encrypt(s, draw, plain).1.value.header.kemCt;
    var ss := if kemCt.Some? then Some(Encapsulated(kemCt.value)) else None;
    var mk := MessageKeyOf(OpenSendChain(s, draw.dh).ckS.value);
    assert Encrypt(s, draw, plain).1.value.body.key == Hmac(MixKem(mk, ss), AeadKey, NoInput);
  }

  lemma SendStaysOnSide(f: FalseStep, strayed: bool, kept: set<Term>, s: State, draw: Draw, plain: Plaintext)
    requires OnSide(f, strayed, kept, s) && FreshFor(f, strayed, draw.dh)
    ensures var (t, answer) := Encrypt(s, draw, plain);
            && OnSide(f, strayed, kept, t)
            && (answer.Ok? ==> answer.value.body.Sealed? && Fits(f, strayed, answer.value.body.key))
  {
    hide Tainted;
    var o := OpenSendChain(s, draw.dh);
    if s.dhR.Some? {
      RootStepFits(f, strayed, s.rk, draw.dh, s.dhR.value);
    }
    if o.ckS.Some? {
      SealsUnder(s, draw, plain);
      SealedTaint(f, Encrypt(s, draw, plain).1.value.body, MessageKeyOf(o.ckS.value));
      KeyStepFits(f, strayed, o.ckS.value);
    }
  }

  lemma SkipStaysOnSide(f: FalseStep, strayed: bool, kept: set<Term>, s: State, until: nat)
    requires OnSide(f, strayed, kept, s) && SkipTo(s, until).Some?
    ensures OnSide(f, strayed, kept, SkipTo(s, until).value)
  {
    hide Tainted;
    if s.dhR.Some? && s.ckR.Some? && s.nR < until {
      var t := SkipTo(s, until).value;
      ChainKeepsTaint(f, s.ckR.value, until - s.nR);
      forall at: Slot | at in t.skipped ensures SlotFits(f, strayed, kept, t.skipped[at]) {
        StoreGapAt(s.skipped, s.dhR.value, s.ckR.value, s.nR, until, at);
        if InGap(at, s.dhR.value, s.nR, until) {
          ChainKeepsTaint(f, s.ckR.value, at.n - s.nR);
          KeyStepFits(f, strayed, ChainPower(s.ckR.value, at.n - s.nR));
        }
      }
    }
  }

  lemma ReachStaysOnSide(f: FalseStep, strayed: bool, kept: set<Term>, s: State, h: Header)
    requires OnSide(f, strayed, kept, s) && Reach(s, h).Ok?
    ensures OnSide(f, strayed, kept, Reach(s, h).value) && Reach(s, h).value.ckR.Some?
  {
    hide Tainted;
    SkipStaysOnSide(f, strayed, kept, s, if IsNewChain(s, h) then h.pn else h.n);
    RootStepFits(f, strayed, s.rk, s.dhS, h.dhPub);
  }

  lemma OpensUnder(f: FalseStep, s: State, package: Package, mk: Term)
    requires mk.Hmac? && mk.tag.MessageKey? && OpenAead(s, package, mk).Some?
    ensures package.body.Sealed? && KeyHistory.UnderlyingKey(package.body) == mk
    ensures Tainted(f, package.body.key) <==> Tainted(f, mk)
  {
    KeyHistory.OpenedUnder(s.sessionId, package, mk, Candidates(s.kemAdvertised, package.header.kemCt));
    KeyHistory.SealedUnderUnderlying(package.body, mk);
    SealedTaint(f, package.body, mk);
  }

  /** What is opened was sealed under a key of the same side, or under a kept one. */
  predicate OpenedOnSide(f: FalseStep, strayed: bool, kept: set<Term>, body: Sealed) {
    body.Sealed? && (Fits(f, strayed, body.key) || KeyHistory.UnderlyingKey(body) in kept)
  }

  lemma InOrderStaysOnSide(f: FalseStep, strayed: bool, kept: set<Term>, s: State, package: Package)
    requires OnSide(f, strayed, kept, s) && s.ckR.Some?
    ensures var (t, answer) := DecryptInOrder(s, package);
            OnSide(f, strayed, kept, t) && (answer.Ok? ==> OpenedOnSide(f, strayed, kept, package.body))
  {
    hide Tainted;
    var mk := MessageKeyOf(s.ckR.value);
    KeyStepFits(f, strayed, s.ckR.value);
    if OpenAead(StepReceiving(s), package, mk).Some? {
      OpensUnder(f, StepReceiving(s), package, mk);
    }
  }

  lemma ReceiveStaysOnSide(f: FalseStep, strayed: bool, kept: set<Term>, s: State, wire: Wire)
    requires OnSide(f, strayed, kept, s)
    ensures var (t, answer) := Decrypt(s, wire);
            OnSide(f, strayed, kept, t) && (answer.Ok? ==> OpenedOnSide(f, strayed, kept, wire.package.body))
  {
    hide Tainted, Reach, DecryptInOrder;
    if wire.Parsed? {
      var package := wire.package;
      var h, awake := package.header, Awake(s, package.header);
      if InStore(s, h) {
        if OpenAead(s, package, s.skipped[SlotOf(h)]).Some? {
          OpensUnder(f, s, package, s.skipped[SlotOf(h)]);
        }
      } else {
        RootStepFits(f, strayed, s.rk, s.dhS, h.dhPub);
        if Reach(awake, h).Ok? {
          ReachStaysOnSide(f, strayed, kept, awake, h);
          InOrderStaysOnSide(f, strayed, kept, Reach(awake, h).value, package);
        }
      }
    }
  }

  /** The session after any calls, whatever it was given to receive. */
  function AfterCalls(s: State, calls: seq<KeyHistory.Call>): State {
    KeyHistory.PerformAll(KeyHistory.Trace(s, []), calls).state
  }

  ghost predicate AllFresh(f: FalseStep, strayed: bool, calls: seq<KeyHistory.Call>) {
    forall k | 0 <= k < |calls| && calls[k].Send? :: FreshFor(f, strayed, calls[k].draw.dh)
  }

  lemma {:induction false} RunStaysOnSide(f: FalseStep, strayed: bool, kept: set<Term>, t: KeyHistory.Trace,
                                          calls: seq<KeyHistory.Call>)
    requires OnSide(f, strayed, kept, t.state) && AllFresh(f, strayed, calls)
    ensures OnSide(f, strayed, kept, KeyHistory.PerformAll(t, calls).state)
    decreases |calls|
  {
    hide OnSide;
    if |calls| == 0 {
    } else {
      match calls[0] {
        case Send(draw, plain) => SendStaysOnSide(f, strayed, kept, t.state, draw, plain);
        case Receive(wire) => ReceiveStaysOnSide(f, strayed, kept, t.state, wire);
      }
      RunStaysOnSide(f, strayed, kept, KeyHistory.Perform(t, calls[0]), calls[1..]);
    }
  }

  // ── From the arrival on ───────────────────────────────────────────

  /** Package `i` of chain `e` makes its receiver take a root step with the secret of that old chain. */
  function StepOf(c: Convo, e: nat): FalseStep
    requires e < |c.r.log|
  {
    var s := Side(c, Other(Owner(e)));
    FalseStep(s.rk, s.dhS, c.r.log[e].sk)
  }

  lemma StoredKey(c: Convo, p: Party, at: Slot) returns (e: nat)
    requires Inv(c) && at in Side(c, p).skipped
    ensures e < |c.r.log| && Owner(e) != p && at == At(c.r, e, at.n) && Side(c, p).skipped[at] == MkAt(c.r, e, at.n)
  {
    hide RootsOk, LogOk;
    var s := Side(c, p);
    SideNow(c, p);
    assert FromChain(c.r, p, at);
    e :| e < |c.r.log| && Owner(e) != p && at == At(c.r, e, at.n);
    assert SlotOk(c.r, s.skipped, ReachOf(c.r, Hearing(c.r, p, c.heard), s.nR, e), c.gone, e, at.n);
  }

  lemma StrayedKeys(s: State, h: Header)
    requires IsNewChain(s, h) && h.pn >= s.nR && FitsGap(s, h.pn)
    requires forall at: Slot | at in s.skipped :: s.skipped[at].Hmac? && s.skipped[at].tag.MessageKey?
    ensures Reach(s, h).Ok?
    ensures var t := StepReceiving(Reach(s, h).value);
            OnSide(FalseStep(s.rk, s.dhS, h.dhPub.of), true, t.skipped.Values, t)
  {
    var f, t := FalseStep(s.rk, s.dhS, h.dhPub.of), StepReceiving(Reach(s, h).value);
    var dh := X25519(s.dhS, h.dhPub);
    assert Tainted(f, t.rk) && Tainted(f, SeedChain(s.rk, dh));
    KeyStepFits(f, true, SeedChain(s.rk, dh));
    hide Tainted;
    forall at: Slot | at in t.skipped ensures SlotFits(f, true, t.skipped.Values, t.skipped[at]) {
      if s.dhR.Some? && s.ckR.Some? {
        StoreGapAt(s.skipped, s.dhR.value, s.ckR.value, s.nR, h.pn, at);
      }
    }
  }

  lemma ReceiverStrays(c: Convo, e: nat, i: nat)
    requires InStep(c) && InLog(c.r, e, i) && Mark(e, i) in c.gone && !IsCaught(c, e, i)
    ensures OnSide(StepOf(c, e), true, Receipt(c, e, i).0.skipped.Values, Receipt(c, e, i).0)
  {
    hide Inv, OnSide;
    var p := Other(Owner(e));
    var s, package := Side(c, p), c.r.log[e].sent[i].package;
    ReplaySeen(c, p, e, i);
    hide InStep;
    DecryptByReach(s, package);
    StrangerChain(c, p, e, i, s);
    FalseRatchet(c.r, s, e, i);
    forall at: Slot | at in s.skipped ensures s.skipped[at].Hmac? && s.skipped[at].tag.MessageKey? {
      var from := StoredKey(c, p, at);
    }
    StrayedKeys(s, package.header);
  }

  /**
   The step is taken with a secret that its side still uses and one that the
   other side no longer does, either from the last root or, if the last chain
   was not heard, from the root that it hangs off.
   */
  predicate Starts(r: Record, f: FalseStep, e: nat, heard: bool) {
    var n := |r.log|;
    && n >= e + 3 && f.b == r.log[e].sk
    && (if Owner(n - 1) == Owner(e) then f.a == r.log[n - 2].sk else f.a == r.log[n - 1].sk && n >= e + 4)
    && f.rk == if Owner(n - 1) == Owner(e) && !heard then r.log[n - 2].rk else r.log[n - 1].rk
  }

  lemma ItStarts(c: Convo, e: nat)
    requires Inv(c) && e < Hearing(c.r, Other(Owner(e)), c.heard) < |c.r.log|
    ensures Starts(c.r, StepOf(c, e), e, c.heard)
  {
    hide LogOk, StoreOk;
    SideNow(c, Other(Owner(e)));
  }

  lemma SecretsDiffer(r: Record, f: FalseStep, e: nat, heard: bool, next: nat, k: nat)
    requires LogOk(r, next) && Starts(r, f, e, heard) && |r.log| - 2 <= k < |r.log| && Owner(k) == Owner(e)
    ensures FreshFor(f, false, r.log[k].sk)
  {
    var n := |r.log|;
    assert Ordered(r, e, k) && Ordered(r, n - 2, n - 1);
  }

  /** No chain, and neither of the two roots in use, comes from the step. */
  lemma RecordIsClean(r: Record, f: FalseStep, e: nat, heard: bool, next: nat)
    requires LogOk(r, next) && Starts(r, f, e, heard)
    ensures forall k: nat | k < |r.log| :: !Tainted(f, r.log[k].seed)
    ensures !Tainted(f, r.log[|r.log| - 1].rk) && !Tainted(f, r.log[|r.log| - 2].rk)
  {
    var n := |r.log|;
    assert ChainOk(r, n - 1, next) && ChainOk(r, n - 2, next);
    ShallowIsUntainted(f, f.rk);
    if Owner(n - 1) == Owner(e) && !heard {
      SecretsDiffer(r, f, e, heard, next, n - 1);
      RootStepFits(f, false, f.rk, r.log[n - 1].sk, DhPub(r.log[n - 2].sk));
    } else {
      ShallowIsUntainted(f, r.log[n - 2].rk);
    }
    forall k: nat | k < n ensures !Tainted(f, r.log[k].seed) {
      assert ChainOk(r, k, next);
      if Depth(r.log[k].seed) < Depth(f.rk) {
        ShallowIsUntainted(f, r.log[k].seed);
      }
    }
  }

  lemma CleanStance(r: Record, f: FalseStep, q: Party, o: State, heard: bool)
    requires |r.log| >= 2 && RootsOk(r, q, o, heard)
    requires forall k: nat | k < |r.log| :: !Tainted(f, r.log[k].seed)
    requires !Tainted(f, r.log[|r.log| - 1].rk) && !Tainted(f, r.log[|r.log| - 2].rk)
    requires FreshFor(f, false, r.log[if Owner(|r.log| - 1) == q then |r.log| - 1 else |r.log| - 2].sk)
    ensures Fits(f, false, o.rk) && FreshFor(f, false, o.dhS)
    ensures o.ckS.Some? ==> Fits(f, false, o.ckS.value)
    ensures o.ckR.Some? ==> Fits(f, false, o.ckR.value)
  {
    hide Tainted;
    forall k: nat, steps: nat | k < |r.log| ensures !Tainted(f, ChainPower(r.log[k].seed, steps)) {
      ChainKeepsTaint(f, r.log[k].seed, steps);
    }
  }

  lemma SenderIsClean(c: Convo, e: nat)
    requires Inv(c) && e < Hearing(c.r, Other(Owner(e)), c.heard) < |c.r.log|
    ensures OnSide(StepOf(c, e), false, {}, Side(c, Owner(e)))
    ensures forall k: nat, i: nat | InLog(c.r, k, i) :: !Tainted(StepOf(c, e), MkAt(c.r, k, i))
  {
    hide StoreOk, RootsOk, LogOk, Tainted, StepOf, Starts;
    var q, f, n := Owner(e), StepOf(c, e), |c.r.log|;
    var o := Side(c, q);
    ItStarts(c, e);
    RecordIsClean(c.r, f, e, c.heard, c.next);
    SecretsDiffer(c.r, f, e, c.heard, c.next, if Owner(n - 1) == q then n - 1 else n - 2);
    SideNow(c, q);
    CleanStance(c.r, f, q, o, c.heard);
    forall k: nat, i: nat | k < n ensures !Tainted(f, MkAt(c.r, k, i)) {
      ChainKeepsTaint(f, c.r.log[k].seed, i);
      KeyStepFits(f, false, ChainPower(c.r.log[k].seed, i));
    }
    forall at: Slot | at in o.skipped ensures SlotFits(f, false, {}, o.skipped[at]) {
      var k := StoredKey(c, q, at);
    }
  }

  // ── Results ───────────────────────────────────────────────────────

  /** The draws of the calls come from the random source that the conversation has not used yet. */
  predicate DrawnLater(calls: seq<KeyHistory.Call>, next: nat) {
    forall k | 0 <= k < |calls| && calls[k].Send? :: calls[k].draw.dh >= next
  }

  lemma StepIsOld(c: Convo, e: nat, calls: seq<KeyHistory.Call>)
    requires Inv(c) && e < Hearing(c.r, Other(Owner(e)), c.heard) < |c.r.log| && DrawnLater(calls, c.next)
    ensures StepOf(c, e).a < c.next && StepOf(c, e).b < c.next && AllFresh(StepOf(c, e), false, calls)
  {
    ItStarts(c, e);
    var n := |c.r.log|;
    assert LogOk(c.r, c.next);
    assert ChainOk(c.r, n - 1, c.next) && ChainOk(c.r, n - 2, c.next) && ChainOk(c.r, e, c.next);
  }

  /** Both sides after any calls, once package `i` of chain `e` has slipped through. */
  lemma SidesApart(c: Convo, e: nat, i: nat, ours: seq<KeyHistory.Call>, theirs: seq<KeyHistory.Call>)
    requires InStep(c) && InLog(c.r, e, i) && Mark(e, i) in c.gone && !IsCaught(c, e, i)
    requires DrawnLater(theirs, c.next)
    ensures var f, strayed := StepOf(c, e), Receipt(c, e, i).0;
            && OnSide(f, true, strayed.skipped.Values, AfterCalls(strayed, ours))
            && OnSide(f, false, {}, AfterCalls(Side(c, Owner(e)), theirs))
            && (forall sk | sk >= c.next :: FreshFor(f, false, sk))
            && (forall k: nat, j: nat | InLog(c.r, k, j) :: !Tainted(f, MkAt(c.r, k, j)))
  {
    var f, strayed := StepOf(c, e), Receipt(c, e, i).0;
    UncaughtMovesTheRoot(c, e, i);
    ReceiverStrays(c, e, i);
    assert Inv(c);
    hide InStep, Inv, OnSide, Decrypt;
    SenderIsClean(c, e);
    StepIsOld(c, e, theirs);
    RunStaysOnSide(f, true, strayed.skipped.Values, KeyHistory.Trace(strayed, []), ours);
    RunStaysOnSide(f, false, {}, KeyHistory.Trace(Side(c, Owner(e)), []), theirs);
  }

  /**
   Once a package that slips through has made its receiver take a false root
   step, the two roots are never equal again, and nothing that this side seals
   from then on is ever read by the other. That holds whatever the two do and
   are given afterwards: `ours` and `theirs` are any calls on any input.
   */
  lemma NeverTogetherAgain(c: Convo, e: nat, i: nat, ours: seq<KeyHistory.Call>, theirs: seq<KeyHistory.Call>,
                           draw: Draw, plain: Plaintext)
    requires InStep(c) && InLog(c.r, e, i) && Mark(e, i) in c.gone && !IsCaught(c, e, i)
    requires DrawnLater(theirs, c.next)
    ensures var strayed := AfterCalls(Receipt(c, e, i).0, ours);
            var other := AfterCalls(Side(c, Owner(e)), theirs);
            var answer := Encrypt(strayed, draw, plain).1;
            && strayed.rk != other.rk
            && (answer.Ok? ==> Decrypt(other, Parsed(answer.value)).1.Err?)
  {
    SidesApart(c, e, i, ours, theirs);
    hide InStep, Tainted, Encrypt, Decrypt, AfterCalls;
    var f, start := StepOf(c, e), Receipt(c, e, i).0;
    var strayed, other := AfterCalls(start, ours), AfterCalls(Side(c, Owner(e)), theirs);
    SendStaysOnSide(f, true, start.skipped.Values, strayed, draw, plain);
    var answer := Encrypt(strayed, draw, plain).1;
    if answer.Ok? {
      ReceiveStaysOnSide(f, false, {}, other, Parsed(answer.value));
    }
  }

  lemma UnderItsKey(c: Convo, k: nat, j: nat)
    requires Inv(c) && InLog(c.r, k, j)
    ensures var body := c.r.log[k].sent[j].package.body;
            KeyHistory.SealedUnder(body, MkAt(c.r, k, j)) && KeyHistory.UnderlyingKey(body) == MkAt(c.r, k, j)
  {
    assert SentOk(c.r, k, j);
    hide Inv;
    var sent := c.r.log[k].sent[j];
    var kemCt := sent.package.header.kemCt;
    var ss := if kemCt.Some? then Some(Encapsulated(kemCt.value)) else None;
    assert sent.package.body.key == Hmac(MixKem(MkAt(c.r, k, j), ss), AeadKey, NoInput);
    KeyHistory.SealedUnderUnderlying(sent.package.body, MkAt(c.r, k, j));
  }

  /**
   In the other direction nothing is read any more either, sealed before or
   after, but for packages whose keys the false step left in the store.
   */
  lemma OnlyStoredKeysRead(c: Convo, e: nat, i: nat, ours: seq<KeyHistory.Call>, theirs: seq<KeyHistory.Call>,
                           draw: Draw, plain: Plaintext, k: nat, j: nat)
    requires InStep(c) && InLog(c.r, e, i) && Mark(e, i) in c.gone && !IsCaught(c, e, i)
    requires DrawnLater(theirs, c.next) && draw.dh >= c.next && InLog(c.r, k, j)
    ensures var stored := Receipt(c, e, i).0.skipped.Values;
            var strayed := AfterCalls(Receipt(c, e, i).0, ours);
            var answer := Encrypt(AfterCalls(Side(c, Owner(e)), theirs), draw, plain).1;
            && (answer.Ok? && KeyHistory.UnderlyingKey(answer.value.body) !in stored ==>
                  Decrypt(strayed, Parsed(answer.value)).1.Err?)
            && (MkAt(c.r, k, j) !in stored ==> Decrypt(strayed, Parsed(c.r.log[k].sent[j].package)).1.Err?)
  {
    SidesApart(c, e, i, ours, theirs);
    UnderItsKey(c, k, j);
    hide InStep, Inv, Tainted, Encrypt, Decrypt, AfterCalls;
    var f, start := StepOf(c, e), Receipt(c, e, i).0;
    var strayed, other := AfterCalls(start, ours), AfterCalls(Side(c, Owner(e)), theirs);
    SendStaysOnSide(f, false, {}, other, draw, plain);
    var answer := Encrypt(other, draw, plain).1;
    if answer.Ok? {
      ReceiveStaysOnSide(f, true, start.skipped.Values, strayed, Parsed(answer.value));
    }
    SealedTaint(f, c.r.log[k].sent[j].package.body, MkAt(c.r, k, j));
    ReceiveStaysOnSide(f, true, start.skipped.Values, strayed, Parsed(c.r.log[k].sent[j].package));
  }
}
