/**
 Conversations over a network that neither reorders nor loses: the relay's own
 delivery model. Sends may still cross.
 */
module Fifo {
  import opened Wrappers
  import opened Symbolic
  import opened Ratchet
  import opened Conversation
  import opened Delivery
  import opened Replays
  import opened Runs
  import opened Advertising
  import Sending

  /** One side sends, or reads the oldest package that waits for it. */
  datatype Turn = Speak(from: Party, plain: Plaintext) | Read(reader: Party)

  /** The chain of the oldest package on its way to `p`. */
  function NextChain(c: Convo, p: Party): int {
    var h := Hearing(c.r, p, c.heard);
    if 0 <= h < |c.r.log| && Side(c, p).nR < |c.r.log[h].sent| then h else h + 2
  }

  function NextIndex(c: Convo, p: Party): nat {
    if NextChain(c, p) == Hearing(c.r, p, c.heard) then Side(c, p).nR else 0
  }

  predicate Waits(c: Convo, p: Party) { NextChain(c, p) >= 0 && InLog(c.r, NextChain(c, p), NextIndex(c, p)) }

  function TakeTurn(c: Convo, turn: Turn): Convo {
    match turn
    case Speak(from, plain) => SendStep(c, from, plain)
    case Read(p) => if Waits(c, p) then DeliverStep(c, NextChain(c, p), NextIndex(c, p)) else c
  }

  function AfterTurns(c: Convo, turns: seq<Turn>, k: nat): Convo
    requires k <= |turns|
    decreases k
  {
    if k == 0 then c else AfterTurns(TakeTurn(c, turns[0]), turns[1..], k - 1)
  }

  /** In step, nothing passed over, every used key on its own package, and every advertisement read in order. */
  ghost predicate NothingSkipped(c: Convo) {
    InStep(c) && c.alice.skipped == map[] && c.bob.skipped == map[] && c.read == c.gone && KemCurrent(c)
  }

  lemma NextPlace(c: Convo, p: Party)
    requires Inv(c) && Waits(c, p)
    ensures var e, i := NextChain(c, p), NextIndex(c, p);
            && Owner(e) == Other(p) && p == Other(Owner(e))
            && Mark(e, i) !in c.gone
            && (e > Hearing(c.r, p, c.heard) ==> Side(c, p).nR >= Len(c.r, e - 2))
            && Speaking(c.r, p) <= e + 1
            && c.r.log[e].sent[i].package.header.pn == Len(c.r, e - 2)
  {
    hide Inv;
    PackageNow(c, p, NextChain(c, p), NextIndex(c, p));
  }

  lemma TargetNow(c: Convo, e: nat, i: nat)
    requires KemCurrent(c) && InLog(c.r, e, i)
    ensures TargetOk(c.r, e, i)
  {
  }

  /** What comes next can be read, and its KEM key is still held. */
  lemma NextIsReadable(c: Convo, p: Party)
    requires InStep(c) && KemCurrent(c) && Waits(c, p)
    ensures var e, i := NextChain(c, p), NextIndex(c, p);
            p == Other(Owner(e)) && Mark(e, i) !in c.gone && Readable(c, e, i)
  {
    hide Inv, KemCurrent, SentOk, SlotOk, RootsOk;
    var e, i := NextChain(c, p), NextIndex(c, p);
    NextPlace(c, p);
    KemWindow(c, e, i);
    TargetNow(c, e, i);
    PackageNow(c, p, e, i);
    hide InStep;
  }

  /** Everything sent before it has been read. */
  lemma NextIsOldest(c: Convo, p: Party, f: nat, k: nat)
    requires NothingSkipped(c) && Waits(c, p) && InLog(c.r, f, k) && Owner(f) != p
    requires f < NextChain(c, p) || (f == NextChain(c, p) && k < NextIndex(c, p))
    ensures Mark(f, k) in c.read
  {
    hide Inv, KemCurrent, SentOk;
    PackageNow(c, p, f, k);
  }

  /** And a package that was not read makes its receiver wait. */
  lemma UnreadWaits(c: Convo, p: Party, f: nat, k: nat)
    requires NothingSkipped(c) && InLog(c.r, f, k) && Owner(f) != p && Mark(f, k) !in c.read
    ensures Waits(c, p)
  {
    hide Inv, KemCurrent, SentOk;
    PackageNow(c, p, f, k);
  }

  lemma DecryptSkipsNothing(s: State, package: Package)
    requires s.skipped == map[]
    requires var h := package.header; var awake := Awake(s, h);
             (if IsNewChain(awake, h) then h.pn <= awake.nR else h.n <= awake.nR)
    ensures Decrypt(s, Parsed(package)).0.skipped == map[]
  {
  }

  lemma TurnKeeps(c: Convo, turn: Turn)
    requires NothingSkipped(c)
    ensures NothingSkipped(TakeTurn(c, turn))
    ensures turn.Read? && Waits(c, turn.reader) ==>
              Receipt(c, NextChain(c, turn.reader), NextIndex(c, turn.reader)).1
              == Ok(c.r.log[NextChain(c, turn.reader)].sent[NextIndex(c, turn.reader)].plain)
  {
    hide Inv, KemPeerOk, KemCurrent;
    match turn {
      case Speak(from, plain) =>
        Sending.SendKeeps(c, from, plain);
        SendKeepsCurrent(c, from, plain);
      case Read(p) =>
        if Waits(c, p) {
          var e, i := NextChain(c, p), NextIndex(c, p);
          NextPlace(c, p);
          NextIsReadable(c, p);
          DeliverExactly(c, e, i);
          NextSkipsNothing(c, p);
          CostIsExact(c, e, i);
          ReadKeepsCurrent(c, p, e, i);
        }
    }
  }

  lemma NextSkipsNothing(c: Convo, p: Party)
    requires NothingSkipped(c) && Waits(c, p)
    ensures Receipt(c, NextChain(c, p), NextIndex(c, p)).0.skipped == map[]
  {
    var e, i, s := NextChain(c, p), NextIndex(c, p), Side(c, p);
    NextPlace(c, p);
    SideNow(c, p);
    assert SentOk(c.r, e, i);
    if s.initialized { HeaderSeen(c, e, i); }
    DecryptSkipsNothing(s, c.r.log[e].sent[i].package);
  }

  lemma {:induction false} TurnsKeep(c: Convo, turns: seq<Turn>, k: nat)
    requires NothingSkipped(c) && k <= |turns|
    ensures NothingSkipped(AfterTurns(c, turns, k))
    decreases k
  {
    hide NothingSkipped;
    if k == 0 {
    } else {
      TurnKeeps(c, turns[0]);
      TurnsKeep(TakeTurn(c, turns[0]), turns[1..], k - 1);
    }
  }

  lemma BegunSkipsNothing(c: Convo)
    requires Begun(c)
    ensures NothingSkipped(c)
  {
    BegunInStep(c);
    hide InStep;
  }

  /**
   With FIFO delivery and no loss every `decrypt` succeeds, whatever the turns:
   it reads the oldest waiting package as its own plaintext, and the key that
   package was encapsulated to is the one of the chain before, and among the
   receiver's two at the most.
   */
  lemma FifoAlwaysReads(c: Convo, turns: seq<Turn>, k: nat)
    requires Begun(c) && k < |turns| && turns[k].Read? && Waits(AfterTurns(c, turns, k), turns[k].reader)
    ensures var now, p := AfterTurns(c, turns, k), turns[k].reader;
            var e, i := NextChain(now, p), NextIndex(now, p);
            var sent := now.r.log[e].sent[i];
            && p == Other(Owner(e))
            && Receipt(now, e, i).1 == Ok(sent.plain)
            && KemHeld(Side(now, p), sent.package.header) && |Side(now, p).kemAdvertised| <= 2
            && TargetOk(now.r, e, i)
            && (forall f: nat, n: nat | InLog(now.r, f, n) && Owner(f) != p && (f < e || (f == e && n < i)) ::
                  Mark(f, n) in now.read)
  {
    var now, p := AfterTurns(c, turns, k), turns[k].reader;
    BegunSkipsNothing(c);
    TurnsKeep(c, turns, k);
    TurnKeeps(now, turns[k]);
    NextIsReadable(now, p);
    var e, i := NextChain(now, p), NextIndex(now, p);
    KemWindow(now, e, i);
    forall f: nat, n: nat | InLog(now.r, f, n) && Owner(f) != p && (f < e || (f == e && n < i))
      ensures Mark(f, n) in now.read
    {
      NextIsOldest(now, p, f, n);
    }
  }

  /**
   Every package but those of the very first chain is encapsulated, and to the
   key that its receiver advertised on the chain before.
   */
  lemma FifoMixesKem(c: Convo, turns: seq<Turn>, k: nat, e: nat, i: nat)
    requires Begun(c) && k <= |turns| && InLog(AfterTurns(c, turns, k).r, e, i)
    ensures var r := AfterTurns(c, turns, k).r;
            var kemCt := r.log[e].sent[i].package.header.kemCt;
            && (kemCt.Some? <==> e > 0)
            && (e > 0 ==> kemCt.value.to == r.log[e - 1].kem && Owner(e - 1) == Other(Owner(e)))
  {
    hide InStep, KemCurrent, TakeTurn;
    BegunSkipsNothing(c);
    TurnsKeep(c, turns, k);
    TargetNow(AfterTurns(c, turns, k), e, i);
  }

  /** And no package stays behind: as long as one is on its way to `p`, a turn in which `p` reads finds one. */
  lemma FifoNeverStalls(c: Convo, turns: seq<Turn>, k: nat, p: Party, f: nat, n: nat)
    requires Begun(c) && k <= |turns| && InLog(AfterTurns(c, turns, k).r, f, n) && Owner(f) != p
    requires Mark(f, n) !in AfterTurns(c, turns, k).read
    ensures Waits(AfterTurns(c, turns, k), p)
  {
    BegunSkipsNothing(c);
    TurnsKeep(c, turns, k);
    UnreadWaits(AfterTurns(c, turns, k), p, f, n);
  }
}
