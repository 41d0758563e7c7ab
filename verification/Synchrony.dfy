/**
 What it means that two sessions are synchronised, and that the invariant of a
 conversation says so.
 */
module Synchrony {
  import opened Wrappers
  import opened Symbolic
  import opened Ratchet
  import opened Conversation
  import opened Delivery

  /** The two root keys are equal, or the side that opened the last chain is exactly one root step ahead. */
  ghost predicate RootsAgree(c: Convo) {
    |c.r.log| > 0
    && var last := |c.r.log| - 1;
       var ahead, behind := Side(c, Owner(last)), Side(c, Other(Owner(last)));
       if c.heard then ahead.rk == behind.rk
       else ahead.rk == NextRoot(behind.rk, X25519(Sk(c.r, last), DhPub(Sk(c.r, last - 1)))) && ahead.rk != behind.rk
  }

  /** The receiving chain key of `p` is a point of the peer's sending chain, no further than the peer has come. */
  ghost predicate ReceivingAgrees(r: Record, p: Party, s: State, heard: bool) {
    s.ckR.Some? ==>
      |r.log| > 0
      && var h := Hearing(r, p, heard);
         0 <= h < |r.log| && Owner(h) != p && s.nR <= Len(r, h) && s.ckR == Some(ChainPower(r.log[h].seed, s.nR))
  }

  /** The sending chain key of `p` is the end of its own chain, and `pn` is the length of the chain closed before. */
  ghost predicate SendingAgrees(r: Record, p: Party, s: State) {
    |r.log| > 0
    && var e := Speaking(r, p);
       if s.ckS.Some?
       then e >= 0 && Owner(e) == p && s.ckS == Some(ChainPower(r.log[e].seed, Len(r, e)))
            && s.nS == Len(r, e) && s.pn == Len(r, e - 2)
       else s.pn == Len(r, e)
  }

  lemma RootsInSync(c: Convo)
    ensures InStep(c) ==> RootsAgree(c)
  {
    if InStep(c) {
      var last := |c.r.log| - 1;
      var behind := Side(c, Other(Owner(last)));
      SideNow(c, Alice);
      SideNow(c, Bob);
      assert Depth(NextRoot(behind.rk, X25519(Sk(c.r, last), DhPub(Sk(c.r, last - 1))))) > Depth(behind.rk);
    }
  }

  lemma ReceivingInSync(r: Record, p: Party, s: State, heard: bool)
    requires |r.log| > 0
    ensures RootsOk(r, p, s, heard) ==> ReceivingAgrees(r, p, s, heard)
  {
  }

  lemma SendingInSync(r: Record, p: Party, s: State, heard: bool)
    requires |r.log| > 0
    ensures RootsOk(r, p, s, heard) ==> SendingAgrees(r, p, s)
  {
  }

  /** Roots and both directions of `p`. */
  ghost predicate InSync(c: Convo, p: Party) {
    && RootsAgree(c)
    && ReceivingAgrees(c.r, p, Side(c, p), c.heard) && SendingAgrees(c.r, p, Side(c, p))
  }

  lemma InStepInSync(c: Convo, p: Party)
    ensures InStep(c) ==> InSync(c, p)
  {
    RootsInSync(c);
    SideNow(c, p);
    if InStep(c) {
      ReceivingInSync(c.r, p, Side(c, p), c.heard);
      SendingInSync(c.r, p, Side(c, p), c.heard);
    }
  }
}
