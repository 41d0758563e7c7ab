/**
 What happens when a package arrives whose message key is gone: it was read
 before, or its key was used up on another package. And so exactly which
 arrivals keep the two sides in step.
 */
module Replays {
  import opened Wrappers
  import opened Symbolic
  import opened Ratchet
  import opened Conversation
  import opened Delivery
  import opened Synchrony

  /** What of such a package the engine checks before it takes it for the first of a new chain. */
  predicate IsCaught(c: Convo, e: nat, i: nat)
    requires InLog(c.r, e, i)
  {
    var p := Other(Owner(e));
    var s, h := Side(c, p), c.r.log[e].sent[i].package.header;
    e == Hearing(c.r, p, c.heard) || h.pn < s.nR || !FitsGap(s, h.pn)
  }

  /**
   A package whose key is gone is not read, again or at all. It is answered
   with OutOfOrder and leaves the conversation as it was exactly when it
   belongs to the chain being received, or its `pn` is behind the receiver's
   counter, or announces a gap that does not fit; otherwise the engine takes
   it for a new chain, moves its root and answers AuthFailed.
   */
  lemma ReplayExactly(c: Convo, e: nat, i: nat)
    requires InStep(c) && InLog(c.r, e, i) && Mark(e, i) in c.gone
    ensures Receipt(c, e, i).1 == Err(if IsCaught(c, e, i) then OutOfOrder else AuthFailed)
    ensures Receipt(c, e, i).0 == Side(c, Other(Owner(e))) <==> IsCaught(c, e, i)
    ensures DeliverStep(c, e, i) == c <==> IsCaught(c, e, i)
  {
    hide Inv;
    var p := Other(Owner(e));
    var s, package := Side(c, p), c.r.log[e].sent[i].package;
    ReplaySeen(c, p, e, i);
    DecryptByReach(s, package);
    if IsNewChain(s, package.header) && package.header.pn >= s.nR && FitsGap(s, package.header.pn) {
      StrangerChain(c, p, e, i, s);
      FalseRatchet(c.r, s, e, i);
      assert Side(DeliverStep(c, e, i), p) == Receipt(c, e, i).0;
    } else {
      NothingHappens(c, e, i);
    }
  }

  lemma ReplaySeen(c: Convo, p: Party, e: nat, i: nat)
    requires Inv(c) && InLog(c.r, e, i) && Mark(e, i) in c.gone && p == Other(Owner(e))
    ensures var s, h, header := Side(c, p), Hearing(c.r, p, c.heard), c.r.log[e].sent[i].package.header;
            && SentOk(c.r, e, i) && s.sessionId == c.r.sessionId && s.initialized
            && !InStore(s, header) && header.n == i && header.dhPub == DhPub(c.r.log[e].sk)
            && e <= h && (IsNewChain(s, header) <==> e < h)
            && (e == h ==> i < s.nR)
  {
    hide RootsOk, SentOk, SlotOk, StoreOk;
    SideNow(c, p);
    var h := Hearing(c.r, p, c.heard);
    assert 0 <= h < |c.r.log| ==> Ordered(c.r, e, h);
    PackageNow(c, p, e, i);
    hide Inv, LogOk, SideOk;
    ReplayPlace(c.r, p, Side(c, p), c.heard, c.gone, e, i);
  }

  lemma ReplayPlace(r: Record, p: Party, s: State, heard: bool, gone: set<Mark>, e: nat, i: nat)
    requires InLog(r, e, i) && p == Other(Owner(e)) && Mark(e, i) in gone
    requires RootsOk(r, p, s, heard) && SentOk(r, e, i)
    requires var h := Hearing(r, p, heard);
             SlotOk(r, s.skipped, ReachOf(r, h, s.nR, e), gone, e, i) && (0 <= h < |r.log| ==> Ordered(r, e, h))
    ensures var h, header := Hearing(r, p, heard), r.log[e].sent[i].package.header;
            && s.initialized && !InStore(s, header) && header.n == i && header.dhPub == DhPub(r.log[e].sk)
            && e <= h && (IsNewChain(s, header) <==> e < h)
            && (e == h ==> i < s.nR)
  {
    assert SlotOf(r.log[e].sent[i].package.header) == At(r, e, i);
  }

  lemma FalseRatchet(r: Record, s: State, e: nat, i: nat)
    requires InLog(r, e, i) && SentOk(r, e, i) && s.sessionId == r.sessionId
    requires var header := r.log[e].sent[i].package.header;
             && IsNewChain(s, header) && header.pn >= s.nR && FitsGap(s, header.pn)
             && MessageKeyOf(SeedChain(s.rk, X25519(s.dhS, header.dhPub))) != MkAt(r, e, i)
    ensures var package := r.log[e].sent[i].package;
            && Reach(s, package.header).Ok?
            && DecryptInOrder(Reach(s, package.header).value, package).1 == Err(AuthFailed)
            && DecryptInOrder(Reach(s, package.header).value, package).0.rk
               == NextRoot(s.rk, X25519(s.dhS, package.header.dhPub)) != s.rk
  {
    var package := r.log[e].sent[i].package;
    var t := Reach(s, package.header).value;
    OpenHonest(r, StepReceiving(t), e, i, MessageKeyOf(t.ckR.value));
    assert Depth(StepReceiving(t).rk) > Depth(s.rk);
  }

  /** A chain seeded from a later root never gives the key of an earlier package. */
  lemma StrangerChain(c: Convo, p: Party, e: nat, i: nat, u: State)
    requires Inv(c) && InLog(c.r, e, i) && p == Other(Owner(e)) && e < Hearing(c.r, p, c.heard)
    requires u.rk == Side(c, p).rk
    ensures MessageKeyOf(SeedChain(u.rk, X25519(u.dhS, DhPub(c.r.log[e].sk)))) != MkAt(c.r, e, i)
  {
    hide StoreOk, SentOk;
    SideNow(c, p);
    var n := |c.r.log|;
    assert u.rk == c.r.log[n - 1].rk || u.rk == c.r.log[n - 2].rk;
    assert ChainOk(c.r, n - 1, c.next) && ChainOk(c.r, n - 2, c.next) && ChainOk(c.r, e, c.next);
    DepthOfChain(c.r.log[e].seed, i);
    assert Depth(MkAt(c.r, e, i)) == Depth(c.r.log[e].seed);
  }

  // ── Synchronisation, exactly ──────────────────────────────────────

  /** The arrival is not one of a gone package that slips through. */
  predicate IsHarmless(c: Convo, e: nat, i: nat)
    requires InLog(c.r, e, i)
  {
    Mark(e, i) !in c.gone || IsCaught(c, e, i)
  }

  /**
   What any package is answered: its own plaintext if its key is not gone and
   it is `Readable`, and an error if not.
   */
  lemma ReadExactly(c: Convo, e: nat, i: nat)
    requires InStep(c) && InLog(c.r, e, i)
    ensures if Mark(e, i) !in c.gone && Readable(c, e, i)
            then Receipt(c, e, i).1 == Ok(c.r.log[e].sent[i].plain)
            else Receipt(c, e, i).1.Err?
  {
    hide InStep;
    if Mark(e, i) in c.gone {
      ReplayExactly(c, e, i);
    } else {
      DeliverExactly(c, e, i);
    }
  }

  /** An arrival keeps the two sides in step, and even only their roots together, if and only if it is harmless. */
  lemma ArrivalKeepsSyncExactly(c: Convo, e: nat, i: nat)
    requires InStep(c) && InLog(c.r, e, i)
    ensures InStep(DeliverStep(c, e, i)) <==> IsHarmless(c, e, i)
    ensures RootsAgree(DeliverStep(c, e, i)) <==> IsHarmless(c, e, i)
  {
    RootsInSync(DeliverStep(c, e, i));
    RootsInSync(c);
    hide InStep, RootsAgree;
    if Mark(e, i) !in c.gone {
      DeliverExactly(c, e, i);
    } else {
      ReplayExactly(c, e, i);
      if !IsCaught(c, e, i) {
        UncaughtSeparatesRoots(c, e, i);
      }
    }
  }

  lemma UncaughtMovesTheRoot(c: Convo, e: nat, i: nat)
    requires InStep(c) && InLog(c.r, e, i) && Mark(e, i) in c.gone && !IsCaught(c, e, i)
    ensures Depth(Receipt(c, e, i).0.rk) == Depth(Side(c, Other(Owner(e))).rk) + 1
    ensures e < Hearing(c.r, Other(Owner(e)), c.heard)
  {
    hide Inv;
    var p := Other(Owner(e));
    ReplaySeen(c, p, e, i);
    hide InStep;
    DecryptByReach(Side(c, p), c.r.log[e].sent[i].package);
    StrangerChain(c, p, e, i, Side(c, p));
    FalseRatchet(c.r, Side(c, p), e, i);
  }

  lemma UncaughtSeparatesRoots(c: Convo, e: nat, i: nat)
    requires InStep(c) && InLog(c.r, e, i) && Mark(e, i) in c.gone && !IsCaught(c, e, i)
    ensures !RootsAgree(DeliverStep(c, e, i))
  {
    hide InStep, Decrypt, UsedUp;
    RootsInSync(c);
    UncaughtMovesTheRoot(c, e, i);
    RootsByDepth(c);
    RootsByDepth(DeliverStep(c, e, i));
    hide RootsAgree;
  }

  lemma RootsByDepth(c: Convo)
    ensures RootsAgree(c) ==>
              var ahead := Owner(|c.r.log| - 1);
              Depth(Side(c, ahead).rk) == Depth(Side(c, Other(ahead)).rk) + if c.heard then 0 else 1
  {
  }

  // ── What an arrival costs ─────────────────────────────────────────

  /**
   The keys that the first arrival of a package uses up. It is another's only
   where the package overtakes number 0 of a later chain: the engine tries
   number 0's key on it.
   */
  function Cost(c: Convo, e: nat, i: nat): set<Mark>
    requires InLog(c.r, e, i)
  {
    var p := Other(Owner(e));
    var s, hearing, h := Side(c, p), Hearing(c.r, p, c.heard), c.r.log[e].sent[i].package.header;
    if Readable(c, e, i) then {Mark(e, i)}
    else if !s.initialized || e < hearing || (e == hearing && i < s.nR) then {}
    else if e == hearing then (if FitsGap(s, i) then {Mark(e, i)} else {})
    else if FitsGap(s, h.pn) then {Mark(e, 0)}
    else {}
  }

  lemma CostIsExact(c: Convo, e: nat, i: nat)
    requires InStep(c) && InLog(c.r, e, i) && Mark(e, i) !in c.gone
    ensures DeliverStep(c, e, i).gone == c.gone + Cost(c, e, i)
    ensures DeliverStep(c, e, i).read == c.read + if Readable(c, e, i) then {Mark(e, i)} else {}
  {
    DeliverExactly(c, e, i);
    CostIsUsedUp(c, e, i);
    hide InStep, UsedUp, Cost, Decrypt, Readable;
    assert c.read + {} == c.read;
  }

  lemma CostIsUsedUp(c: Convo, e: nat, i: nat)
    requires Inv(c) && InLog(c.r, e, i) && Mark(e, i) !in c.gone
    ensures UsedUp(Side(c, Other(Owner(e))), c.r.log[e].sent[i].package.header, e, Readable(c, e, i)) == Cost(c, e, i)
  {
    hide Inv;
    var p := Other(Owner(e));
    var s, h, header := Side(c, p), Hearing(c.r, p, c.heard), c.r.log[e].sent[i].package.header;
    PackageNow(c, p, e, i);
    assert SlotOf(header) == At(c.r, e, i);
    if !s.initialized {
      CostFirst(c, e, i);
    } else if e > h {
      CostNewChain(c, p, e, i);
    } else if e == h && i >= s.nR {
      CostInChain(c, p, e, i);
    }
  }

  lemma CostFirst(c: Convo, e: nat, i: nat)
    requires Inv(c) && InLog(c.r, e, i) && !Side(c, Other(Owner(e))).initialized
    ensures UsedUp(Side(c, Other(Owner(e))), c.r.log[e].sent[i].package.header, e, Readable(c, e, i)) == Cost(c, e, i)
  {
    hide Inv;
    FirstPlace(c, e, i);
  }

  lemma CostNewChain(c: Convo, p: Party, e: nat, i: nat)
    requires Inv(c) && InLog(c.r, e, i) && p == Other(Owner(e)) && Side(c, p).initialized
    requires e > Hearing(c.r, p, c.heard)
    ensures UsedUp(Side(c, p), c.r.log[e].sent[i].package.header, e, Readable(c, e, i)) == Cost(c, e, i)
  {
    hide Inv;
    HeaderSeen(c, e, i);
    if FitsGap(Side(c, p), c.r.log[e].sent[i].package.header.pn) {
      var t := FollowKeeps(c, p, e, i);
    }
  }

  lemma CostInChain(c: Convo, p: Party, e: nat, i: nat)
    requires Inv(c) && InLog(c.r, e, i) && p == Other(Owner(e)) && Side(c, p).initialized
    requires e == Hearing(c.r, p, c.heard) && i >= Side(c, p).nR
    ensures UsedUp(Side(c, p), c.r.log[e].sent[i].package.header, e, Readable(c, e, i)) == Cost(c, e, i)
  {
    hide Inv;
    HeaderSeen(c, e, i);
    if FitsGap(Side(c, p), i) {
      var t := AdvanceKeeps(c, p, e, i);
    }
  }
}
