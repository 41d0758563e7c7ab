/**
 KEM keys while every advertisement is read in order: each package is then
 encapsulated to the very key that its receiver advertised on the chain before,
 and only the first chain, which has none before it, is not.
 */
module Advertising {
  import opened Wrappers
  import opened Symbolic
  import opened Ratchet
  import opened Conversation
  import opened Delivery
  import opened Replays
  import opened Sending
  import opened Runs

  ghost predicate PeerCurrent(r: Record, s: State, h: int) {
    s.kemPeer == if 0 <= h < |r.log| then Some(KemPk(r.log[h].kem)) else None
  }

  ghost predicate TargetOk(r: Record, e: nat, i: nat)
    requires InLog(r, e, i)
  {
    var kemCt := r.log[e].sent[i].package.header.kemCt;
    if e == 0 then kemCt.None? else kemCt.Some? && kemCt.value.to == r.log[e - 1].kem
  }

  ghost predicate TargetsOk(r: Record) { forall e: nat, i: nat | InLog(r, e, i) :: TargetOk(r, e, i) }

  ghost predicate KemCurrent(c: Convo) {
    && |c.r.log| > 0 && TargetsOk(c.r)
    && PeerCurrent(c.r, c.alice, Hearing(c.r, Alice, c.heard))
    && PeerCurrent(c.r, c.bob, Hearing(c.r, Bob, c.heard))
  }

  // ── Sending ───────────────────────────────────────────────────────

  lemma EncryptTargets(s: State, draw: Draw, plain: Plaintext)
    ensures var (t, answer) := Encrypt(s, draw, plain);
            && t.kemPeer == s.kemPeer
            && (answer.Ok? ==> var kemCt := answer.value.header.kemCt;
                               && (kemCt.Some? <==> s.kemPeer.Some?)
                               && (kemCt.Some? ==> kemCt.value.to == s.kemPeer.value.of))
  {
  }

  lemma AppendTargets(r: Record, e: nat, kem: nat, sent: Sent)
    requires TargetsOk(r) && e < |r.log| && (|r.log[e].sent| == 0 ==> |r.log| == 1)
    requires var kemCt := sent.package.header.kemCt;
             if e == 0 then kemCt.None? else kemCt.Some? && kemCt.value.to == r.log[e - 1].kem
    ensures TargetsOk(Appended(r, e, GrownKem(r, e, kem), sent))
  {
    var d := Appended(r, e, GrownKem(r, e, kem), sent);
    forall f: nat, k: nat | InLog(d, f, k) ensures TargetOk(d, f, k) {
      if InLog(r, f, k) {
        assert TargetOk(r, f, k);
      }
    }
  }

  lemma OpenTargets(r: Record, chain: Chain)
    requires TargetsOk(r) && |chain.sent| == 1 && |r.log| > 0
    requires var kemCt := chain.sent[0].package.header.kemCt;
             kemCt.Some? && kemCt.value.to == r.log[|r.log| - 1].kem
    ensures TargetsOk(Extended(r, chain))
  {
    var d := Extended(r, chain);
    forall f: nat, k: nat | InLog(d, f, k) ensures TargetOk(d, f, k) {
      if f < |r.log| {
        assert TargetOk(r, f, k);
      }
    }
  }

  lemma AppendKeepsCurrent(c: Convo, p: Party, plain: Plaintext)
    requires InStep(c) && KemCurrent(c) && Side(c, p).ckS.Some?
    ensures KemCurrent(SendStep(c, p, plain))
  {
    hide LogOk, SideOk, KemPeerOk;
    var s, draw := Side(c, p), Draw(c.next, c.next + 1, c.next + 2);
    StandsInStep(c, p);
    AppendPlace(c.r, p, s, c.gone, c.heard, draw);
    hide InStep, Stands;
    var e := Speaking(c.r, p);
    AppendRecordOk(c.r, s, e, draw, plain);
    EncryptTargets(s, draw, plain);
    SendStepFields(c, p, plain);
    var (t, answer) := Encrypt(s, draw, plain);
    var sent := Sent(plain, answer.value);
    hide Encrypt, SendStep;
    AppendTargets(c.r, e, draw.kem, sent);
    assert Recorded(c.r, p, s, t, draw, sent) == Appended(c.r, e, GrownKem(c.r, e, draw.kem), sent);
  }

  lemma OpenKeepsCurrent(c: Convo, p: Party, plain: Plaintext)
    requires InStep(c) && KemCurrent(c) && Side(c, p).ckS.None? && Side(c, p).dhR.Some?
    ensures KemCurrent(SendStep(c, p, plain))
  {
    hide InStep, LogOk, SideOk, KemPeerOk;
    var s, draw := Side(c, p), Draw(c.next, c.next + 1, c.next + 2);
    StandsInStep(c, p);
    OpenPlace(c.r, p, s, c.gone, c.heard, draw.dh);
    hide Stands, Listening;
    EncryptTargets(s, draw, plain);
    SendStepFields(c, p, plain);
    var (t, answer) := Encrypt(s, draw, plain);
    assert answer.Ok?;
    var chain := Chain(draw.dh, t.rk, SeedChain(s.rk, X25519(draw.dh, s.dhR.value)), draw.kem,
                       [Sent(plain, answer.value)]);
    hide Encrypt, SendStep;
    OpenTargets(c.r, chain);
    assert Recorded(c.r, p, s, t, draw, Sent(plain, answer.value)) == Extended(c.r, chain);
  }

  lemma SendKeepsCurrent(c: Convo, p: Party, plain: Plaintext)
    requires InStep(c) && KemCurrent(c)
    ensures KemCurrent(SendStep(c, p, plain))
  {
    hide InStep, KemCurrent;
    if Side(c, p).ckS.Some? {
      AppendKeepsCurrent(c, p, plain);
    } else if Side(c, p).dhR.Some? {
      OpenKeepsCurrent(c, p, plain);
    }
  }

  // ── Reading ───────────────────────────────────────────────────────

  /** What is read where the receiver has come to, or at the start of a later chain, leaves all of it current. */
  lemma ReadKeepsCurrent(c: Convo, p: Party, e: nat, i: nat)
    requires InStep(c) && KemCurrent(c) && InLog(c.r, e, i) && p == Other(Owner(e)) && Mark(e, i) !in c.gone
    requires Readable(c, e, i) && !InStore(Side(c, p), c.r.log[e].sent[i].package.header)
    requires e >= Hearing(c.r, p, c.heard) && (e > Hearing(c.r, p, c.heard) ==> i == 0)
    ensures KemCurrent(DeliverStep(c, e, i))
  {
    var package, d := c.r.log[e].sent[i].package, DeliverStep(c, e, i);
    hide StoreOk, SideOk;
    assert SentOk(c.r, e, i);
    hide Inv, LogOk, KemPeerOk;
    DeliverExactly(c, e, i);
    DecryptNotes(Side(c, p), package);
    Heard(c, e, i);
    hide InStep, Decrypt, UsedUp;
    assert d.r == c.r && Side(d, Other(p)) == Side(c, Other(p));
    assert Hearing(d.r, Other(p), d.heard) == Hearing(c.r, Other(p), c.heard);
  }

  /** Whoever has read a package hears its chain, or a later one. */
  lemma Heard(c: Convo, e: nat, i: nat)
    requires InStep(c) && InLog(c.r, e, i) && Mark(e, i) !in c.gone && Readable(c, e, i)
    requires !InStore(Side(c, Other(Owner(e))), c.r.log[e].sent[i].package.header)
    requires e >= Hearing(c.r, Other(Owner(e)), c.heard)
    ensures Hearing(c.r, Other(Owner(e)), DeliverStep(c, e, i).heard) == e
  {
    hide Inv, Decrypt, UsedUp, KemPeerOk;
    DeliverExactly(c, e, i);
    CostIsExact(c, e, i);
    var d, p := DeliverStep(c, e, i), Other(Owner(e));
    assert Inv(d);
    hide InStep, Readable, Receipt;
    assert d.r == c.r && Mark(e, i) in d.gone;
    GoneIsHeard(d, p, e, i);
  }

  lemma GoneIsHeard(c: Convo, p: Party, e: nat, i: nat)
    requires Inv(c) && InLog(c.r, e, i) && Mark(e, i) in c.gone && p == Other(Owner(e))
    ensures e <= Hearing(c.r, p, c.heard) < |c.r.log|
  {
    hide Inv;
    PackageNow(c, p, e, i);
  }

  // ── Whatever the order ────────────────────────────────────────────

  /** The chain whose advertisement `p` reads in order in this step, if any; `known` is the one before. */
  function HeardAfter(c: Convo, step: Step, p: Party, known: int): int
    requires Allowed(c, step)
  {
    if step.Deliver? && Owner(step.chain) != p && step.index == 0 && Receipt(c, step.chain, 0).1.Ok?
       && !InStore(Side(c, p), c.r.log[step.chain].sent[0].package.header)
    then step.chain
    else known
  }

  /** The chain whose advertisement was the last that `p` read in order, or `known`. */
  function LastHeard(c: Convo, steps: seq<Step>, k: nat, p: Party, known: int): int
    requires k <= |steps| && AllAllowed(c, steps)
    decreases k
  {
    if k == 0 then known
    else LastHeard(Take(c, steps[0]), steps[1..], k - 1, p, HeardAfter(c, steps[0], p, known))
  }

  /** `p` knows the KEM key of chain `e`, which has begun, or none at -1. */
  ghost predicate Knows(c: Convo, p: Party, e: int) {
    && -1 <= e < |c.r.log|
    && (e >= 0 ==> Owner(e) != p && |c.r.log[e].sent| > 0)
    && Side(c, p).kemPeer == if e < 0 then None else Some(KemPk(c.r.log[e].kem))
  }

  lemma AppendNotes(c: Convo, q: Party, plain: Plaintext, p: Party, e: int)
    requires InStep(c) && Knows(c, p, e) && Side(c, q).ckS.Some?
    ensures Knows(SendStep(c, q, plain), p, e)
  {
    hide InStep, LogOk, SideOk, KemPeerOk;
    var s, draw := Side(c, q), Draw(c.next, c.next + 1, c.next + 2);
    StandsInStep(c, q);
    EncryptTargets(s, draw, plain);
    SendStepFields(c, q, plain);
    AppendPlace(c.r, q, s, c.gone, c.heard, draw);
    AppendRecordOk(c.r, s, Speaking(c.r, q), draw, plain);
    hide Stands, Encrypt, SendStep, CanGrow;
  }

  lemma SendNotes(c: Convo, q: Party, plain: Plaintext, p: Party, e: int)
    requires InStep(c) && Knows(c, p, e)
    ensures Knows(SendStep(c, q, plain), p, e)
  {
    hide InStep;
    if Side(c, q).ckS.Some? {
      AppendNotes(c, q, plain, p, e);
    } else {
      EncryptTargets(Side(c, q), Draw(c.next, c.next + 1, c.next + 2), plain);
      SendStepFields(c, q, plain);
      hide Encrypt, SendStep;
    }
  }

  lemma DeliverNotes(c: Convo, e: nat, i: nat, p: Party, known: int)
    requires InStep(c) && Knows(c, p, known) && Allowed(c, Deliver(e, i))
    ensures Knows(DeliverStep(c, e, i), p, HeardAfter(c, Deliver(e, i), p, known))
  {
    hide LogOk, SideOk, KemPeerOk, Decrypt, UsedUp;
    if Owner(e) != p {
      DecryptNotes(Side(c, p), c.r.log[e].sent[i].package);
      AdvertNow(c, e, i);
    }
    hide InStep, Allowed;
  }

  /** Only number 0 of a chain advertises, and what it advertises is the chain's key. */
  lemma AdvertNow(c: Convo, e: nat, i: nat)
    requires InStep(c) && InLog(c.r, e, i)
    ensures c.r.log[e].sent[i].package.header.kemPk == if i == 0 then Some(KemPk(c.r.log[e].kem)) else None
  {
    assert SentOk(c.r, e, i);
  }

  lemma {:induction false} RunNotes(c: Convo, steps: seq<Step>, k: nat, p: Party, known: int)
    requires InStep(c) && Knows(c, p, known) && AllAllowed(c, steps) && k <= |steps|
    ensures Knows(After(c, steps, k), p, LastHeard(c, steps, k, p, known))
    decreases k
  {
    hide InStep, Knows;
    if k == 0 {
    } else {
      StepInStep(c, steps[0]);
      match steps[0] {
        case Send(from, plain) => SendNotes(c, from, plain, p, known);
        case Deliver(e, i) => DeliverNotes(c, e, i, p, known);
      }
      hide HeardAfter, Allowed, Take;
      RunNotes(Take(c, steps[0]), steps[1..], k - 1, p, HeardAfter(c, steps[0], p, known));
    }
  }

  lemma BegunKnowsNothing(c: Convo, p: Party)
    requires Begun(c)
    ensures Knows(c, p, -1)
  {
  }

  /**
   In every run, with any reordering, loss and repetition: a package carries a
   ciphertext if and only if its sender has read number 0 of a chain in order,
   and then one for the key that the last chain so read advertises.
   */
  lemma SentCiphertextExactly(c: Convo, steps: seq<Step>, k: nat, p: Party, plain: Plaintext)
    requires Begun(c) && AllAllowed(c, steps) && k <= |steps|
    requires SendStep(After(c, steps, k), p, plain) != After(c, steps, k)
    ensures var now, heard := After(c, steps, k), LastHeard(c, steps, k, p, -1);
            var answer := Encrypt(Side(now, p), Draw(now.next, now.next + 1, now.next + 2), plain).1;
            && -1 <= heard < |now.r.log| && (heard >= 0 ==> Owner(heard) == Other(p))
            && answer.Ok?
            && (answer.value.header.kemCt.Some? <==> heard >= 0)
            && (heard >= 0 ==> answer.value.header.kemCt.value.to == now.r.log[heard].kem)
  {
    hide InStep;
    BegunInStep(c);
    BegunKnowsNothing(c, p);
    RunNotes(c, steps, k, p, -1);
    var now := After(c, steps, k);
    EncryptTargets(Side(now, p), Draw(now.next, now.next + 1, now.next + 2), plain);
    SendStepFields(now, p, plain);
    hide SendStep, Encrypt, LastHeard, After;
  }
}
