/**
 What a session keeps under any input: its bounds, and which failed receives
 leave it untouched.
 */
module Rejection {
  import opened Wrappers
  import opened Limits
  import opened Symbolic
  import opened Ratchet
  import opened KeyHistory

  // ── skip_to ───────────────────────────────────────────────────────

  /**
   `skip_to` against the iterated chain: on success the store gains exactly
   the keys of the gap, each one at its number of the chain under the current
   peer key, `ckR` moves to the matching power, and nothing else moves.
   */
  lemma SkipToIsExact(s: State, until: nat, at: Slot)
    requires s.dhR.Some? && s.ckR.Some? && s.nR <= until && SkipTo(s, until).Some?
    ensures var t := SkipTo(s, until).value;
            && t == s.(skipped := t.skipped, nR := until, ckR := Some(ChainPower(s.ckR.value, until - s.nR)))
            && (if InGap(at, s.dhR.value, s.nR, until)
                then at in t.skipped && t.skipped[at] == MessageKeyOf(ChainPower(s.ckR.value, at.n - s.nR))
                else (at in t.skipped <==> at in s.skipped) && (at in t.skipped ==> t.skipped[at] == s.skipped[at]))
  {
    StoreGapAt(s.skipped, s.dhR.value, s.ckR.value, s.nR, until, at);
  }

  /** It refuses a gap that is longer than one may be, or that the store has no room for, and nothing else. */
  lemma SkipToRefusesExactly(s: State, until: nat)
    ensures SkipTo(s, until).None?
       <==> until > s.nR && (until > s.nR + MAX_SKIP || |s.skipped| + (until - s.nR) > MAX_SKIPPED_TOTAL)
  {
  }

  lemma SkipToStaysBounded(s: State, until: nat)
    requires |s.skipped| <= MAX_SKIPPED_TOTAL && SkipTo(s, until).Some?
    ensures |SkipTo(s, until).value.skipped| <= MAX_SKIPPED_TOTAL
  {
    if s.dhR.Some? && s.ckR.Some? && s.nR < until {
      StoreGapSize(s.skipped, s.dhR.value, s.ckR.value, s.nR, until);
    }
  }

  // ── Bounds over whole runs ────────────────────────────────────────

  ghost predicate Bounded(s: State) { |s.skipped| <= MAX_SKIPPED_TOTAL && |s.kemAdvertised| <= 2 }

  lemma RemovalShrinks(store: SkippedKeys, at: Slot)
    requires at in store
    ensures |store - {at}| < |store|
  {
    assert (store - {at}).Keys == store.Keys - {at};
    assert |store.Keys - {at}| == |store.Keys| - 1;
  }

  lemma ReachStaysBounded(s: State, h: Header)
    requires Bounded(s) && Reach(s, h).Ok?
    ensures Bounded(Reach(s, h).value)
  {
    SkipToStaysBounded(s, if IsNewChain(s, h) then h.pn else h.n);
  }

  lemma DecryptStaysBounded(s: State, wire: Wire)
    requires Bounded(s)
    ensures Bounded(Decrypt(s, wire).0)
  {
    if wire.Parsed? {
      var h := wire.package.header;
      if InStore(s, h) {
        RemovalShrinks(s.skipped, SlotOf(h));
      } else {
        var awake := Awake(s, h);
        if Reach(awake, h).Ok? {
          ReachStaysBounded(awake, h);
        }
      }
    }
  }

  /** The skipped-key store and the list of advertised KEM keys stay within their limits, whatever arrives. */
  lemma {:induction false} RunStaysBounded(t: Trace, calls: seq<Call>)
    requires Bounded(t.state)
    ensures Bounded(PerformAll(t, calls).state)
    decreases |calls|
  {
    if |calls| == 0 {
    } else {
      match calls[0] {
        case Send(draw, plain) =>
        case Receive(wire) => DecryptStaysBounded(t.state, wire);
      }
      RunStaysBounded(Perform(t, calls[0]), calls[1..]);
    }
  }

  // ── Failed receives ───────────────────────────────────────────────

  lemma ReachMoves(s: State, h: Header)
    requires Reach(s, h).Ok?
    ensures var t := Reach(s, h).value; StepReceiving(t).rk != s.rk || StepReceiving(t).nR > s.nR
  {
    assert TermSize(NextRoot(s.rk, X25519(s.dhS, h.dhPub))) > TermSize(s.rk);
  }

  /**
   A failed `decrypt` leaves every field as it was exactly when the bytes were
   malformed, or the message is in the skipped-key store, or the session had
   its first receiving chain already and cannot move it to the message.
   Everything else (a first message that fails, a package that does not open
   under the chain's next key) moves the session.
   */
  lemma RejectionIsAtomicExactly(s: State, wire: Wire)
    requires Decrypt(s, wire).1.Err?
    ensures Decrypt(s, wire).0 == s
       <==> || wire.Unparsable?
            || InStore(s, wire.package.header)
            || (s.initialized && Reach(s, wire.package.header).Err?)
  {
    if wire.Parsed? && !InStore(s, wire.package.header) {
      var h := wire.package.header;
      var awake := Awake(s, h);
      if Reach(awake, h).Ok? {
        ReachMoves(awake, h);
        if !s.initialized {
          assert Decrypt(s, wire).0.initialized;
        }
      }
    }
  }

  /** How far ahead of the receiver the package is: by its `pn` if it opens a new chain, else by its number. */
  function Aim(s: State, h: Header): nat { if IsNewChain(s, h) then h.pn else h.n }

  /**
   Which error it is: `Malformed` for what has no header; `OutOfOrder` for a
   message that is not in the store and lies behind the receiver or too far
   ahead of it; `NoState` for one of a chain that the session has no key of; and
   `AuthFailed` for all else.
   */
  lemma ErrorIsExact(s: State, wire: Wire)
    requires Decrypt(s, wire).1.Err?
    ensures var error := Decrypt(s, wire).1.error;
            if wire.Unparsable? then error == Malformed
            else
              var h := wire.package.header;
              var awake := Awake(s, h);
              if InStore(s, h) then error == AuthFailed
              else if Aim(awake, h) < awake.nR || SkipTo(awake, Aim(awake, h)).None? then error == OutOfOrder
              else if awake.dhR == Some(h.dhPub) && awake.ckR.None? then error == NoState
              else error == AuthFailed
  {
  }
}
