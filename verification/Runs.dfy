/**
 Whole conversations: any interleaving of sends and arrivals.
 */
module Runs {
  import opened Wrappers
  import opened Symbolic
  import opened Conversation
  import opened Delivery
  import opened Synchrony
  import opened Replays
  import Sending

  /** One side sends, or package `index` of chain `chain` arrives. */
  datatype Step = Send(from: Party, plain: Plaintext) | Deliver(chain: nat, index: nat)

  /**
   Packages arrive unchanged, in any order, any number of times or never. Only
   a package whose key is gone and that slips through is left out: it ends the
   synchronisation (`SyncIsLostExactly`), and `Separation` goes on from there.
   */
  predicate Allowed(c: Convo, step: Step) {
    step.Deliver? ==> InLog(c.r, step.chain, step.index) && IsHarmless(c, step.chain, step.index)
  }

  function Take(c: Convo, step: Step): Convo
    requires Allowed(c, step)
  {
    match step
    case Send(from, plain) => SendStep(c, from, plain)
    case Deliver(e, i) => DeliverStep(c, e, i)
  }

  predicate AllAllowed(c: Convo, steps: seq<Step>)
    decreases |steps|
  {
    |steps| > 0 ==> Allowed(c, steps[0]) && AllAllowed(Take(c, steps[0]), steps[1..])
  }

  /** The conversation after the first `k` steps. */
  function After(c: Convo, steps: seq<Step>, k: nat): Convo
    requires k <= |steps| && AllAllowed(c, steps)
    decreases k
  {
    if k == 0 then c else After(Take(c, steps[0]), steps[1..], k - 1)
  }

  lemma StepInStep(c: Convo, step: Step)
    requires InStep(c) && Allowed(c, step)
    ensures InStep(Take(c, step))
  {
    hide InStep;
    match step
    case Send(from, plain) => Sending.SendKeeps(c, from, plain);
    case Deliver(e, i) => ArrivalKeepsSyncExactly(c, e, i);
  }

  lemma {:induction false} AfterInStep(c: Convo, steps: seq<Step>, k: nat)
    requires InStep(c) && AllAllowed(c, steps) && k <= |steps|
    ensures InStep(After(c, steps, k))
    decreases k
  {
    hide InStep;
    if k == 0 {
    } else {
      StepInStep(c, steps[0]);
      AfterInStep(Take(c, steps[0]), steps[1..], k - 1);
    }
  }

  /** A conversation that has just begun, on distinct values already drawn from the random source. */
  ghost predicate Begun(c: Convo) {
    exists root, sessionId, ephemeral, prekey, kemAlice, kemBob, next ::
      IsBegin(c, root, sessionId, ephemeral, prekey, kemAlice, kemBob, next)
  }

  ghost predicate IsBegin(c: Convo, root: Term, sessionId: SessionId, ephemeral: nat, prekey: nat,
                          kemAlice: Option<nat>, kemBob: nat, next: nat)
  {
    && c == Begin(root, sessionId, ephemeral, prekey, kemAlice, kemBob, next)
    && ephemeral < next && prekey < next && kemBob < next && (kemAlice.Some? ==> kemAlice.value < next)
  }

  lemma BegunInStep(c: Convo)
    requires Begun(c)
    ensures InStep(c)
  {
    var root, sessionId, ephemeral, prekey, kemAlice, kemBob, next :|
      IsBegin(c, root, sessionId, ephemeral, prekey, kemAlice, kemBob, next);
    BeginOk(root, sessionId, ephemeral, prekey, kemAlice, kemBob, next);
  }

  /**
   In every run, with any reordering, loss and repetition, and whatever moved a
   receiver without being read: a package that arrives is read as exactly the
   plaintext that went into it if its key is not gone and it is `Readable`, and
   is refused if not.
   */
  lemma EveryArrivalIsExact(c: Convo, steps: seq<Step>, k: nat, e: nat, i: nat)
    requires Begun(c) && AllAllowed(c, steps) && k <= |steps| && InLog(After(c, steps, k).r, e, i)
    ensures var now := After(c, steps, k);
            if Mark(e, i) !in now.gone && Readable(now, e, i)
            then Receipt(now, e, i).1 == Ok(now.r.log[e].sent[i].plain)
            else Receipt(now, e, i).1.Err?
  {
    hide InStep, Receipt;
    BegunInStep(c);
    AfterInStep(c, steps, k);
    ReadExactly(After(c, steps, k), e, i);
  }

  /** And all the while the two sides are synchronised. */
  lemma RunsStayInSync(c: Convo, steps: seq<Step>, k: nat, p: Party)
    requires Begun(c) && AllAllowed(c, steps) && k <= |steps|
    ensures InSync(After(c, steps, k), p)
  {
    hide InStep, InSync;
    BegunInStep(c);
    AfterInStep(c, steps, k);
    InStepInSync(After(c, steps, k), p);
  }

  /**
   What the runs leave out is exactly what costs it: after any run, an arrival
   separates the roots if and only if it is not harmless.
   */
  lemma SyncIsLostExactly(c: Convo, steps: seq<Step>, k: nat, e: nat, i: nat)
    requires Begun(c) && AllAllowed(c, steps) && k <= |steps| && InLog(After(c, steps, k).r, e, i)
    ensures var now := After(c, steps, k);
            !RootsAgree(DeliverStep(now, e, i)) <==> Mark(e, i) in now.gone && !IsCaught(now, e, i)
  {
    hide InStep, RootsAgree, DeliverStep;
    BegunInStep(c);
    AfterInStep(c, steps, k);
    ArrivalKeepsSyncExactly(After(c, steps, k), e, i);
  }

  // ── The KEM window ────────────────────────────────────────────────

  /**
   A package that carries a KEM ciphertext was encapsulated to a key that the
   receiver advertised on an earlier chain, and whichever chain that was, the
   key is still held exactly while the receiver has opened at most one chain
   since. Two keys are held at the most.
   */
  lemma KemWindow(c: Convo, e: nat, i: nat)
    requires InStep(c) && InLog(c.r, e, i)
    ensures var s, h := Side(c, Other(Owner(e))), c.r.log[e].sent[i].package.header;
            && |s.kemAdvertised| <= 2
            && (h.kemCt.Some? ==> e > 0 && Advertised(c.r, e - 1, h.kemCt.value.to))
            && (h.kemCt.Some? ==> forall j: nat | j < e && Owner(j) != Owner(e) && c.r.log[j].kem == h.kemCt.value.to ::
                  KemHeld(s, h) <==> Speaking(c.r, Other(Owner(e))) <= j + 2)
  {
    var p := Other(Owner(e));
    SideNow(c, p);
    assert SentOk(c.r, e, i);
    var kemCt := c.r.log[e].sent[i].package.header.kemCt;
    if kemCt.Some? {
      forall j: nat | j < e && Owner(j) != Owner(e) && c.r.log[j].kem == kemCt.value.to
        ensures kemCt.value.to in Side(c, p).kemAdvertised <==> Speaking(c.r, p) <= j + 2
      {
        KeyIsHeld(c.r, p, j, c.next);
      }
    }
  }

  /** Of the keys that chain after chain advertised, the two newest of one's own are held. */
  lemma KeyIsHeld(r: Record, p: Party, j: nat, next: nat)
    requires LogOk(r, next) && |r.log[0].sent| > 0 && j + 1 < |r.log| && p == Owner(j)
    ensures r.log[j].kem in Held(r, p, Speaking(r, p)) <==> Speaking(r, p) <= j + 2
  {
    var spoken := Speaking(r, p);
    assert spoken >= j && ChainOk(r, j, next) && ChainOk(r, spoken, next);
    if spoken > j + 2 {
      assert spoken - 2 > j;
      assert Ordered(r, j, spoken - 2) && Ordered(r, j, spoken);
    }
  }
}
