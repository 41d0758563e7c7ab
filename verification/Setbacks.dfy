/**
 Conversations in which the engine loses its synchronisation: by a replay, and
 without one.
 */
module Setbacks {
  import opened Wrappers
  import opened Symbolic
  import opened Ratchet
  import opened Conversation
  import opened Delivery
  import opened Synchrony
  import opened Replays
  import opened Runs
  import opened Advertising
  import opened Fifo
  import opened Rejection
  import Sending

  // ── Where a replay does harm ──────────────────────────────────────

  /** A conversation in strict alternation, one package a turn, all of it read, `n` chains long. */
  ghost predicate PingPong(c: Convo, n: nat) {
    && NothingSkipped(c) && |c.r.log| == n && c.heard
    && Side(c, Other(Owner(n - 1))).nR == 1
    && forall e: nat | e < n :: |c.r.log[e].sent| == 1 && Mark(e, 0) in c.read
  }

  lemma FirstExchange(c: Convo, plain: Plaintext)
    requires Begun(c)
    ensures PingPong(AfterTurns(c, [Speak(Alice, plain), Read(Bob)], 2), 1)
  {
    hide InStep, KemCurrent;
    BegunSkipsNothing(c);
    var spoken := TakeTurn(c, Speak(Alice, plain));
    TurnKeeps(c, Speak(Alice, plain));
    TurnKeeps(spoken, Read(Bob));
    var read := TakeTurn(spoken, Read(Bob));
    assert AfterTurns(c, [Speak(Alice, plain), Read(Bob)], 2) == read;
  }

  /** A new chain whose number 0 is all that its listener has not read. */
  ghost predicate AllButTheReply(c: Convo, q: Party, n: nat) {
    && NothingSkipped(c) && n > 0 && |c.r.log| == n + 1 && !c.heard && q == Other(Owner(n)) && |c.r.log[n].sent| == 1
    && forall e: nat | e < n :: |c.r.log[e].sent| == 1 && Mark(e, 0) in c.read
  }

  /** A side without a sending chain opens one with its package. */
  lemma SendOpens(c: Convo, p: Party, plain: Plaintext)
    requires Side(c, p).ckS.None? && Side(c, p).dhR.Some?
    ensures var d := SendStep(c, p, plain);
            && |d.r.log| == |c.r.log| + 1 && d.r.log[..|c.r.log|] == c.r.log && |d.r.log[|c.r.log|].sent| == 1
            && !d.heard && d.read == c.read && d.gone == c.gone
            && d.alice.skipped == c.alice.skipped && d.bob.skipped == c.bob.skipped
  {
  }

  lemma ListenerIsSilent(r: Record, p: Party, s: State)
    requires |r.log| > 0 && Owner(|r.log| - 1) == Other(p) && RootsOk(r, p, s, true)
    ensures s.ckS.None? && s.dhR.Some?
  {
  }

  lemma Replied(c: Convo, n: nat, plain: Plaintext)
    requires n > 0 && PingPong(c, n)
    ensures var p := Other(Owner(n - 1));
            AllButTheReply(TakeTurn(c, Speak(p, plain)), Other(p), n)
  {
    var p := Other(Owner(n - 1));
    hide RootsOk, StoreOk, LogOk, KemPeerOk;
    SideNow(c, p);
    hide Inv, SideOk;
    ListenerIsSilent(c.r, p, Side(c, p));
    SendOpens(c, p, plain);
    TurnKeeps(c, Speak(p, plain));
    hide InStep, SendStep;
    var d := TakeTurn(c, Speak(p, plain));
    assert forall e: nat | e < n :: d.r.log[e] == d.r.log[..n][e] == c.r.log[e];
  }

  lemma ReplyIsNext(c: Convo, q: Party, n: nat)
    requires AllButTheReply(c, q, n)
    ensures NextChain(c, q) == n && NextIndex(c, q) == 0
  {
    hide Inv;
    PackageNow(c, q, n, 0);
    if n >= 2 {
      PackageNow(c, q, n - 2, 0);
    }
  }

  lemma ReaderMovesOn(c: Convo, q: Party, n: nat)
    requires AllButTheReply(c, q, n)
    ensures PingPong(TakeTurn(c, Read(q)), n + 1)
  {
    hide InStep;
    ReplyIsNext(c, q, n);
    TurnKeeps(c, Read(q));
    ReplyIsCounted(c, q, n);
    var d := TakeTurn(c, Read(q));
    assert d.r == c.r && d.heard && d.read == c.read + {Mark(n, 0)} && Side(d, q).nR == 1;
  }

  lemma ReplyIsCounted(c: Convo, q: Party, n: nat)
    requires AllButTheReply(c, q, n) && Receipt(c, n, 0).1.Ok?
    ensures Receipt(c, n, 0).0.nR == 1 && n > Hearing(c.r, q, c.heard)
  {
    assert Side(c, q).initialized by {
      SideNow(c, q);
    }
    hide Inv;
    HeaderSeen(c, n, 0);
    DecryptByReach(Side(c, q), c.r.log[n].sent[0].package);
  }

  lemma NextExchange(c: Convo, n: nat, plain: Plaintext)
    requires n > 0 && PingPong(c, n)
    ensures var p := Other(Owner(n - 1));
            PingPong(TakeTurn(TakeTurn(c, Speak(p, plain)), Read(Other(p))), n + 1)
  {
    hide PingPong, AllButTheReply, TakeTurn;
    var p := Other(Owner(n - 1));
    Replied(c, n, plain);
    ReaderMovesOn(TakeTurn(c, Speak(p, plain)), Other(p), n);
  }

  /** Such a conversation can be as long as one likes. */
  lemma {:induction false} Alternation(c: Convo, n: nat, plain: Plaintext) returns (turns: seq<Turn>)
    requires Begun(c) && n > 0
    ensures |turns| == 2 * n && PingPong(AfterTurns(c, turns, 2 * n), n)
  {
    hide PingPong, TakeTurn;
    if n == 1 {
      FirstExchange(c, plain);
      turns := [Speak(Alice, plain), Read(Bob)];
    } else {
      var before := Alternation(c, n - 1, plain);
      var now := AfterTurns(c, before, 2 * n - 2);
      NextExchange(now, n - 1, plain);
      var p := Other(Owner(n - 2));
      turns := before + [Speak(p, plain), Read(Other(p))];
      TurnsAppend(c, before, [Speak(p, plain), Read(Other(p))]);
    }
  }

  lemma {:induction false} TurnsAppend(c: Convo, a: seq<Turn>, b: seq<Turn>)
    ensures AfterTurns(c, a + b, |a + b|) == AfterTurns(AfterTurns(c, a, |a|), b, |b|)
    decreases |a|
  {
    if |a| > 0 {
      assert (a + b)[1..] == a[1..] + b && (a + b)[0] == a[0];
      TurnsAppend(TakeTurn(c, a[0]), a[1..], b);
    } else {
      assert a + b == b;
    }
  }

  /**
   The engine's documentation calls a replay a hard OutOfOrder. From the fifth
   chain on that is not so for the chain before the one being received: its
   package, delivered once more, is taken for a new chain, fails to open, and
   separates the roots.
   */
  lemma OldReplayMovesTheRoot(c: Convo, n: nat)
    requires n >= 5 && PingPong(c, n)
    ensures Receipt(c, n - 3, 0).1 == Err(AuthFailed) && !RootsAgree(DeliverStep(c, n - 3, 0))
  {
    hide Inv, KemCurrent, RootsAgree;
    var e := n - 3;
    assert Owner(n - 2) == Other(Owner(e));
    PackageNow(c, Owner(n - 2), e, 0);
    assert !IsCaught(c, e, 0);
    ReplayExactly(c, e, 0);
    UncaughtSeparatesRoots(c, e, 0);
  }

  // ── Where overtaking does ─────────────────────────────────────────

  lemma SpeakerSpeaks(r: Record, p: Party, s: State, heard: bool)
    requires |r.log| > 0 && Owner(|r.log| - 1) == p && RootsOk(r, p, s, heard)
    ensures s.ckS.Some?
  {
  }

  /** One more package on the last chain. */
  lemma SaysMore(c: Convo, p: Party, plain: Plaintext)
    requires InStep(c) && |c.r.log| > 0 && Owner(|c.r.log| - 1) == p && |c.r.log[|c.r.log| - 1].sent| > 0
    ensures var d, last := SendStep(c, p, plain), |c.r.log| - 1;
            && InStep(d) && d.read == c.read && d.gone == c.gone && d.heard == c.heard
            && d.alice.skipped == c.alice.skipped && d.bob.skipped == c.bob.skipped
            && |d.r.log| == |c.r.log| && d.r.log[..last] == c.r.log[..last]
            && |d.r.log[last].sent| == |c.r.log[last].sent| + 1
  {
    Sending.SendKeeps(c, p, plain);
    hide RootsOk, StoreOk, LogOk, KemPeerOk;
    SideNow(c, p);
    hide Inv, SideOk, InStep;
    SpeakerSpeaks(c.r, p, Side(c, p), c.heard);
  }

  /** The first package of a chain, on a conversation heard to its end. */
  lemma Answers(c: Convo, p: Party, plain: Plaintext)
    requires InStep(c) && |c.r.log| > 0 && Owner(|c.r.log| - 1) == Other(p) && c.heard
    ensures var d := SendStep(c, p, plain);
            && InStep(d) && d.read == c.read && d.gone == c.gone && !d.heard
            && d.alice.skipped == c.alice.skipped && d.bob.skipped == c.bob.skipped
            && |d.r.log| == |c.r.log| + 1 && d.r.log[..|c.r.log|] == c.r.log && |d.r.log[|c.r.log|].sent| == 1
  {
    Sending.SendKeeps(c, p, plain);
    hide RootsOk, StoreOk, LogOk, KemPeerOk;
    SideNow(c, p);
    hide Inv, SideOk, InStep;
    ListenerIsSilent(c.r, p, Side(c, p));
    SendOpens(c, p, plain);
  }

  lemma ReachGrows(s: State, h: Header)
    requires Reach(s, h).Ok?
    ensures |Reach(s, h).value.skipped| <= |s.skipped| + if h.pn > h.n then h.pn else h.n
  {
    var until := if IsNewChain(s, h) then h.pn else h.n;
    if s.dhR.Some? && s.ckR.Some? && s.nR <= until {
      StoreGapSize(s.skipped, s.dhR.value, s.ckR.value, s.nR, until);
    }
    hide StoreGap;
  }

  lemma SkippedGrow(s: State, package: Package)
    requires s.initialized
    ensures |Decrypt(s, Parsed(package)).0.skipped|
            <= |s.skipped| + if package.header.pn > package.header.n then package.header.pn else package.header.n
  {
    hide Reach;
    var h := package.header;
    if InStore(s, h) {
      RemovalShrinks(s.skipped, SlotOf(h));
    } else if Reach(s, h).Ok? {
      ReachGrows(s, h);
      DecryptByReach(s, package);
      hide Decrypt;
    } else {
      DecryptByReach(s, package);
      hide Decrypt;
    }
  }

  /** The first arrival of any package of a chain that its receiver does not follow yet. */
  lemma Follows(c: Convo, e: nat, i: nat)
    requires InStep(c) && InLog(c.r, e, i) && e > 0 && e == |c.r.log| - 1 && !c.heard
    requires i <= 1 && Len(c.r, e - 2) <= 2 && |Side(c, Other(Owner(e))).skipped| <= 100
    requires forall m | m in c.gone :: m.chain < e
    ensures var d, p := DeliverStep(c, e, i), Other(Owner(e));
            && InStep(d) && d.r == c.r && d.heard && d.gone == c.gone + {Mark(e, 0)}
            && d.read <= c.read + {Mark(e, i)} && (i > 0 ==> d.read == c.read)
            && |Side(d, p).skipped| <= |Side(c, p).skipped| + 2 && Side(d, Other(p)) == Side(c, Other(p))
  {
    var d, p := DeliverStep(c, e, i), Other(Owner(e));
    DeliverExactly(c, e, i);
    PackageNow(c, p, e, i);
    assert Inv(c) && Inv(d);
    hide Inv, InStep;
    assert Side(c, p).initialized && e > Hearing(c.r, p, c.heard);
    CostIsExact(c, e, i);
    SkippedGrow(Side(c, p), c.r.log[e].sent[i].package);
    hide Decrypt, UsedUp;
    assert Cost(c, e, i) == {Mark(e, 0)};
    assert d.r == c.r && Side(d, Other(p)) == Side(c, Other(p));
    GoneIsHeard(d, p, e, 0);
  }

  lemma {:induction false} OneMoreStep(c: Convo, steps: seq<Step>, step: Step)
    requires AllAllowed(c, steps) && Allowed(After(c, steps, |steps|), step)
    ensures AllAllowed(c, steps + [step])
    ensures After(c, steps + [step], |steps| + 1) == Take(After(c, steps, |steps|), step)
    decreases |steps|
  {
    hide Allowed, Take;
    if |steps| == 0 {
    } else {
      assert (steps + [step])[1..] == steps[1..] + [step];
      OneMoreStep(Take(c, steps[0]), steps[1..], step);
    }
  }

  /** The last chain has two packages, and the second has overtaken the first. */
  ghost predicate Overtaken(c: Convo, n: nat) {
    && InStep(c) && n >= 2 && |c.r.log| == n + 1 && c.heard && Mark(n, 0) in c.gone && Mark(n, 0) !in c.read
    && |c.r.log[n - 2].sent| == 1 && |c.r.log[n - 1].sent| == 1 && |c.r.log[n].sent| == 2
    && |c.alice.skipped| <= 10 && |c.bob.skipped| <= 10
  }

  lemma Overtakes(c: Convo, n: nat, plain: Plaintext) returns (now: Convo, steps: seq<Step>)
    requires n >= 2 && PingPong(c, n)
    ensures AllAllowed(c, steps) && now == After(c, steps, |steps|) && Deliver(n, 0) !in steps && Overtaken(now, n)
  {
    hide Inv, KemCurrent, SendStep, DeliverStep, Receipt;
    var p := Other(Owner(n - 1));
    Answers(c, p, plain);
    var one := SendStep(c, p, plain);
    SaysMore(one, p, plain);
    var two := SendStep(one, p, plain);
    assert two.r.log[..n] == c.r.log;
    assert forall e: nat | e < n :: two.r.log[e] == two.r.log[..n][e];
    Follows(two, n, 1);
    now := DeliverStep(two, n, 1);
    steps := [Send(p, plain), Send(p, plain), Deliver(n, 1)];
    hide InStep;
    OneMoreStep(c, [], Send(p, plain));
    OneMoreStep(c, [Send(p, plain)], Send(p, plain));
    OneMoreStep(c, [Send(p, plain), Send(p, plain)], Deliver(n, 1));
  }

  lemma {:induction false} RunsAppend(c: Convo, a: seq<Step>, b: seq<Step>)
    requires AllAllowed(c, a) && AllAllowed(After(c, a, |a|), b)
    ensures AllAllowed(c, a + b) && After(c, a + b, |a + b|) == After(After(c, a, |a|), b, |b|)
    decreases |a|
  {
    hide Allowed, Take;
    if |a| == 0 {
      assert a + b == b;
    } else {
      assert (a + b)[1..] == a[1..] + b && (a + b)[0] == a[0];
      RunsAppend(Take(c, a[0]), a[1..], b);
    }
  }

  /** On a conversation heard to its end the other side opens a chain, and is heard. */
  lemma Exchange(c: Convo, p: Party, plain: Plaintext) returns (now: Convo, steps: seq<Step>)
    requires InStep(c) && |c.r.log| > 0 && c.heard && p == Owner(|c.r.log|) && Len(c.r, |c.r.log| - 2) <= 2
    requires |c.alice.skipped| <= 50 && |c.bob.skipped| <= 50
    ensures AllAllowed(c, steps) && now == After(c, steps, |steps|)
    ensures var n := |c.r.log|;
            && steps == [Send(p, plain), Deliver(n, 0)] && InStep(now) && now.heard
            && |now.r.log| == n + 1 && now.r.log[..n] == c.r.log && |now.r.log[n].sent| == 1
            && c.gone <= now.gone && now.read <= c.read + {Mark(n, 0)}
            && |now.alice.skipped| <= |c.alice.skipped| + 2 && |now.bob.skipped| <= |c.bob.skipped| + 2
  {
    hide Inv, SendStep, DeliverStep, Receipt;
    var n := |c.r.log|;
    Answers(c, p, plain);
    var one := SendStep(c, p, plain);
    assert n >= 2 ==> one.r.log[n - 2] == one.r.log[..n][n - 2];
    Follows(one, n, 0);
    now := DeliverStep(one, n, 0);
    hide InStep;
    var first := [Send(p, plain)];
    OneMoreStep(c, [], Send(p, plain));
    assert [] + first == first && After(c, first, 1) == one;
    steps := first + [Deliver(n, 0)];
    OneMoreStep(c, first, Deliver(n, 0));
  }

  lemma PrefixStays(a: seq<Chain>, b: seq<Chain>, e: nat)
    requires e < |a| <= |b| && b[..|a|] == a
    ensures b[e] == a[e]
  {
    assert b[..|a|][e] == b[e];
  }

  /** Both sides write once more. */
  lemma GoesOn(c: Convo, n: nat, plain: Plaintext) returns (now: Convo, steps: seq<Step>)
    requires Overtaken(c, n)
    ensures AllAllowed(c, steps) && now == After(c, steps, |steps|) && Deliver(n, 0) !in steps
    ensures InStep(now) && |now.r.log| == n + 3 && now.heard && Mark(n, 0) in now.gone && Mark(n, 0) !in now.read
    ensures |now.r.log[n - 2].sent| == 1 && |now.r.log[n].sent| == 2 && |now.r.log[n + 2].sent| == 1
    ensures |now.alice.skipped| <= 20 && |now.bob.skipped| <= 20
  {
    hide InStep, After, AllAllowed;
    var mid, first := Exchange(c, Owner(n + 1), plain);
    PrefixStays(c.r.log, mid.r.log, n);
    PrefixStays(c.r.log, mid.r.log, n - 2);
    var end, second := Exchange(mid, Owner(n + 2), plain);
    PrefixStays(mid.r.log, end.r.log, n);
    PrefixStays(mid.r.log, end.r.log, n - 2);
    now, steps := end, first + second;
    RunsAppend(c, first, second);
  }

  lemma SlipsThrough(c: Convo, q: Party, n: nat)
    requires InStep(c) && n >= 2 && |c.r.log| == n + 3 && c.heard && q == Other(Owner(n)) && InLog(c.r, n, 0)
    requires |c.r.log[n - 2].sent| == 1 && |c.r.log[n + 2].sent| == 1 && |Side(c, q).skipped| <= 20
    ensures !IsCaught(c, n, 0)
  {
    hide Inv;
    PackageNow(c, q, n, 0);
    hide InStep;
  }

  /**
   The engine's documentation says that loss, and so delay, only costs the
   messages concerned. An alternating conversation can go on in such a way
   that number 0 of a chain is overtaken by number 1 and arrives, for the
   first time and unchanged, when its receiver is on the chain after: then it
   is taken for a new chain and separates the roots, for good
   (`Separation.NeverTogetherAgain`).
   */
  lemma LateNumberZeroMovesTheRoot(c: Convo, n: nat, plain: Plaintext) returns (now: Convo, steps: seq<Step>)
    requires n >= 2 && PingPong(c, n)
    ensures AllAllowed(c, steps) && now == After(c, steps, |steps|)
    ensures InLog(now.r, n, 0) && Mark(n, 0) !in now.read && Deliver(n, 0) !in steps
    ensures Receipt(now, n, 0).1 == Err(AuthFailed) && !RootsAgree(DeliverStep(now, n, 0))
  {
    hide Inv, RootsAgree, DeliverStep, Receipt, PingPong;
    var mid, first := Overtakes(c, n, plain);
    var end, second := GoesOn(mid, n, plain);
    now := end;
    steps := first + second;
    RunsAppend(c, first, second);
    var q := Other(Owner(n));
    SlipsThrough(now, q, n);
    ReplayExactly(now, n, 0);
    UncaughtSeparatesRoots(now, n, 0);
  }
}
