/**
 The session object: the mutable `Session` of the ratchet engine. Each method
 leaves exactly the state that the operation of the same name in `Ratchet`
 describes, and gives its answer. Randomness arrives as an argument.
 */
module Sessions {
  import opened Wrappers
  import opened Bytes
  import opened Limits
  import opened Symbolic
  import opened Ratchet

  class Session {
    const sessionId: SessionId
    var rk: Term
    var dhS: nat
    var dhR: Option<DhPub>
    var ckS: Option<Term>
    var ckR: Option<Term>
    var nS: nat
    var nR: nat
    var pn: nat
    var kemAdvertised: seq<nat>
    var kemPeer: Option<KemPk>
    var advertiseKemNext: bool
    var skipped: SkippedKeys
    var initialized: bool

    function View(): State
      reads this
    {
      State(sessionId, rk, dhS, dhR, ckS, ckR, nS, nR, pn,
            kemAdvertised, kemPeer, advertiseKemNext, skipped, initialized)
    }

    constructor Alice(start: Start, peerDh: DhPub, ourKem: Option<nat>)
      ensures View() == StartAlice(start, peerDh, ourKem)
    {
      var dh := X25519(start.ourDh, peerDh);
      sessionId, dhS, dhR := start.sessionId, start.ourDh, Some(peerDh);
      rk, ckS, ckR := NextRoot(start.root, dh), Some(SeedChain(start.root, dh)), None;
      nS, nR, pn := 0, 0, 0;
      kemAdvertised := if ourKem.Some? then [ourKem.value] else [];
      kemPeer, advertiseKemNext, skipped, initialized := None, true, map[], true;
    }

    constructor Bob(start: Start, freshKem: nat)
      ensures View() == StartBob(start, freshKem)
    {
      sessionId, rk, dhS := start.sessionId, start.root, start.ourDh;
      dhR, ckS, ckR := None, None, None;
      nS, nR, pn := 0, 0, 0;
      kemAdvertised, kemPeer, advertiseKemNext, skipped, initialized := [freshKem], None, true, map[], false;
    }

    method OpenSendChain(freshDh: nat)
      modifies this
      ensures View() == Ratchet.OpenSendChain(old(View()), freshDh)
    {
      if ckS.Some? {
        return;
      }
      if dhR.None? {
        return;
      }
      dhS := freshDh;
      advertiseKemNext := true;
      var dh := X25519(dhS, dhR.value);
      rk, ckS := NextRoot(rk, dh), Some(SeedChain(rk, dh));
      nS := 0;
    }

    method Encrypt(draw: Draw, plain: Plaintext) returns (answer: Result<Package, Error>)
      modifies this
      ensures (View(), answer) == Ratchet.Encrypt(old(View()), draw, plain)
    {
      OpenSendChain(draw.dh);
      if ckS.None? {
        return Err(NoState);
      }
      var mk := MessageKeyOf(ckS.value);
      ckS := Some(NextChainKey(ckS.value));
      var n := nS;
      nS := nS + 1;

      var flags: byte := FLAG_DH;
      var kemPk: Option<KemPk> := None;
      if advertiseKemNext {
        kemAdvertised := Newest2([draw.kem] + kemAdvertised);
        kemPk := Some(KemPk(draw.kem));
        flags := flags + FLAG_KEM_PK;
        advertiseKemNext := false;
      }

      var kemCt: Option<KemCt> := None;
      var kemSs: Option<KemSecret> := None;
      if kemPeer.Some? {
        kemCt := Some(KemCt(kemPeer.value.of, draw.coin));
        kemSs := Some(Encapsulated(kemCt.value));
        flags := flags + FLAG_KEM_CT;
      }

      var header := Header(flags, pn, n, DhPub(dhS), kemPk, kemCt);
      answer := Ok(Package(header, Seal(sessionId, header, MixKem(mk, kemSs), plain)));
    }

    /** Returns false for `OutOfOrder`, before anything has changed. */
    method SkipTo(until: nat) returns (ok: bool)
      modifies this
      ensures ok == Ratchet.SkipTo(old(View()), until).Some?
      ensures View() == if ok then Ratchet.SkipTo(old(View()), until).value else old(View())
    {
      if until <= nR {
        return true;
      }
      if until - nR > MAX_SKIP {
        return false;
      }
      if |skipped| + (until - nR) > MAX_SKIPPED_TOTAL {
        return false;
      }
      if dhR.None? || ckR.None? {
        return true;
      }
      StoreSkipped(until);
      return true;
    }

    /** The loop of `SkipTo`: one message key after the other goes into the store. */
    method StoreSkipped(until: nat)
      requires dhR.Some? && ckR.Some? && nR <= until
      modifies this
      ensures var was := old(View());
              View() == was.(skipped := StoreGap(was.skipped, was.dhR.value, was.ckR.value, was.nR, until),
                             nR := until, ckR := Some(ChainPower(was.ckR.value, until - was.nR)))
    {
      var ck := ckR.value;
      ghost var was, dh, first := View(), dhR.value, nR;
      while nR < until
        invariant first <= nR <= until
        invariant ck == ChainPower(was.ckR.value, nR - first)
        invariant skipped == StoreGap(was.skipped, dh, was.ckR.value, first, nR)
        invariant View() == was.(nR := nR, skipped := skipped)
      {
        skipped := skipped[Slot(dhR.value, nR) := MessageKeyOf(ck)];
        ck := NextChainKey(ck);
        nR := nR + 1;
      }
      ckR := Some(ck);
    }

    /** Tries our advertised KEM keys newest first; the first key that opens the package decides. */
    method OpenAead(package: Package, mk: Term) returns (plain: Option<Plaintext>)
      ensures plain == Ratchet.OpenAead(View(), package, mk)
    {
      var candidates: seq<Option<KemSecret>> := [];
      var kemCt := package.header.kemCt;
      if kemCt.Some? {
        for i := 0 to |kemAdvertised|
          invariant |candidates| == i
          invariant forall j :: 0 <= j < i ==> candidates[j] == Some(Decapsulate(kemAdvertised[j], kemCt.value))
        {
          candidates := candidates + [Some(Decapsulate(kemAdvertised[i], kemCt.value))];
        }
        if |kemAdvertised| == 0 {
          candidates := candidates + [None];
        }
      } else {
        candidates := candidates + [None];
      }
      assert candidates == Candidates(kemAdvertised, kemCt);
      for i := 0 to |candidates|
        invariant FirstOpened(sessionId, package, mk, candidates) ==
                  FirstOpened(sessionId, package, mk, candidates[i..])
      {
        plain := Open(sessionId, package.header, MixKem(mk, candidates[i]), package.body);
        if plain.Some? {
          return;
        }
        assert candidates[i..][1..] == candidates[i + 1..];
      }
      plain := None;
    }

    method DeriveInitialReceiveChain(peerDh: DhPub)
      modifies this
      ensures View() == Ratchet.DeriveInitialReceiveChain(old(View()), peerDh)
    {
      var dh := X25519(dhS, peerDh);
      rk, ckR := NextRoot(rk, dh), Some(SeedChain(rk, dh));
      nR := 0;
      dhR := Some(peerDh);
      initialized := true;
    }

    method DhRatchet(peerDh: DhPub)
      modifies this
      ensures View() == Ratchet.DhRatchet(old(View()), peerDh)
    {
      var dh := X25519(dhS, peerDh);
      rk, ckR := NextRoot(rk, dh), Some(SeedChain(rk, dh));
      nR := 0;
      dhR := Some(peerDh);
      pn := nS;
      ckS := None;
    }

    /** A package whose key was kept when an earlier one jumped over it. The key goes only when the package opens. */
    method DecryptFromStore(package: Package) returns (answer: Result<Plaintext, Error>)
      requires InStore(View(), package.header)
      modifies this
      ensures (View(), answer) == Ratchet.DecryptFromStore(old(View()), package)
    {
      var storeKey := Slot(package.header.dhPub, package.header.n);
      var plain := OpenAead(package, skipped[storeKey]);
      if plain.None? {
        return Err(AuthFailed);
      }
      skipped := skipped - {storeKey};
      return Ok(plain.value);
    }

    /** Moves the receiving chain up to the announced message: a new chain, a gap, or nothing to do. */
    method MoveTo(header: Header) returns (failure: Option<Error>)
      modifies this
      ensures match Reach(old(View()), header)
              case Err(e) => failure == Some(e) && View() == old(View())
              case Ok(t) => failure == None && View() == t
    {
      if dhR != Some(header.dhPub) {
        if header.pn < nR {
          return Some(OutOfOrder);
        }
        var ok := SkipTo(header.pn);
        if !ok {
          return Some(OutOfOrder);
        }
        DhRatchet(header.dhPub);
      } else if header.n > nR {
        var ok := SkipTo(header.n);
        if !ok {
          return Some(OutOfOrder);
        }
      } else if header.n < nR {
        return Some(OutOfOrder);
      }
      return if ckR.None? then Some(NoState) else None;
    }

    method DecryptInOrder(package: Package) returns (answer: Result<Plaintext, Error>)
      requires ckR.Some?
      modifies this
      ensures (View(), answer) == Ratchet.DecryptInOrder(old(View()), package)
    {
      var mk := MessageKeyOf(ckR.value);
      ckR := Some(NextChainKey(ckR.value));
      nR := nR + 1;

      var plain := OpenAead(package, mk);
      if plain.None? {
        return Err(AuthFailed);
      }
      if package.header.kemPk.Some? {
        kemPeer := package.header.kemPk;
      }
      return Ok(plain.value);
    }

    method Decrypt(wire: Wire) returns (answer: Result<Plaintext, Error>)
      modifies this
      ensures (View(), answer) == Ratchet.Decrypt(old(View()), wire)
    {
      if wire.Unparsable? {
        return Err(Malformed);
      }
      var package := wire.package;
      if Slot(package.header.dhPub, package.header.n) in skipped {
        answer := DecryptFromStore(package);
        return;
      }
      if !initialized {
        DeriveInitialReceiveChain(package.header.dhPub);
      }
      var failure := MoveTo(package.header);
      if failure.Some? {
        return Err(failure.value);
      }
      answer := DecryptInOrder(package);
    }
  }
}
