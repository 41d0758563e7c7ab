/**
 The order in which the packages of one receiving chain arrive does not
 matter: all of them are read, and the session ends up the same.
 */
module Reordering {
  import opened Wrappers
  import opened Limits
  import opened Symbolic
  import opened Ratchet
  import opened Conversation
  import opened Delivery
  import opened Rejection

  /** A receiving chain: the peer's key for it, its seed, and its packages by number. */
  datatype Incoming = Incoming(dh: DhPub, seed: Term, sent: seq<Sent>)

  /** Package `n` is what the peer seals on this chain, to a KEM key that `s` holds. */
  ghost predicate Genuine(s: State, chain: Incoming, n: nat)
    requires n < |chain.sent|
  {
    var package := chain.sent[n].package;
    var h := package.header;
    var ss := if h.kemCt.Some? then Some(Encapsulated(h.kemCt.value)) else None;
    && h.dhPub == chain.dh && h.n == n && KemHeld(s, h)
    && package.body == Seal(s.sessionId, h, MixKem(MessageKeyOf(ChainPower(chain.seed, n)), ss), chain.sent[n].plain)
  }

  /** The packages numbered `order` arrive one after the other. */
  function ReceiveAll(s: State, chain: Incoming, order: seq<nat>): (State, seq<Result<Plaintext, Error>>)
    requires forall k | 0 <= k < |order| :: order[k] < |chain.sent|
    decreases |order|
  {
    if |order| == 0 then (s, [])
    else
      var (t, answer) := Decrypt(s, Parsed(chain.sent[order[0]].package));
      var (u, answers) := ReceiveAll(t, chain, order[1..]);
      (u, [answer] + answers)
  }

  /** Every number from `from` on, each once. */
  ghost predicate Arrangement(order: seq<nat>, from: nat, until: nat) {
    && (forall k | 0 <= k < |order| :: from <= order[k] < until)
    && (forall j, k | 0 <= j < k < |order| :: order[j] != order[k])
    && (forall n: nat | from <= n < until :: n in order)
  }

  // ── The state after some of them ──────────────────────────────────

  predicate NoSlotOf(store: SkippedKeys, dh: DhPub) { forall at: Slot | at in store :: at.dh != dh }

  /** The place of a number of the chain, from `from` on. */
  predicate Ahead(at: Slot, chain: Incoming, from: nat) { at.dh == chain.dh && from <= at.n }

  /**
   From number `from` on the store has exactly the keys below `nR` that are not
   in `done`, and besides what is in `kept`.
   */
  ghost predicate StoreHolds(skipped: SkippedKeys, chain: Incoming, from: nat, kept: SkippedKeys, nR: nat,
                             done: set<nat>)
  {
    && from <= nR && |skipped| <= |kept| + (nR - from)
    && (forall at: Slot | Ahead(at, chain, from) :: at in skipped <==> at.n < nR && at.n !in done)
    && (forall at: Slot | at in skipped && Ahead(at, chain, from) ::
          skipped[at] == MessageKeyOf(ChainPower(chain.seed, at.n)))
    && (forall at: Slot | !Ahead(at, chain, from) :: at in skipped <==> at in kept)
    && (forall at: Slot | at in skipped && !Ahead(at, chain, from) :: skipped[at] == kept[at])
  }

  /** All `count` packages from `from` on could be passed over but one. */
  predicate HasRoom(from: nat, kept: SkippedKeys, count: nat) {
    count <= from + MAX_SKIP + 1 && |kept| + count <= from + MAX_SKIPPED_TOTAL + 1
  }

  /** The session's counter on the chain is `from`, and its chain key the one for that number. */
  predicate StandsOn(s: State, chain: Incoming, from: nat) {
    s.initialized && s.dhR == Some(chain.dh) && s.nR == from && s.ckR == Some(ChainPower(chain.seed, from))
  }

  /** `nR` is right behind the highest of the numbers read, or still `from`. */
  ghost predicate EndsAt(done: set<nat>, from: nat, nR: nat) {
    && (forall n | n in done :: from <= n < nR)
    && (nR > from ==> nR - 1 in done)
  }

  /**
   `s` receives the chain from number `from` on and has read exactly the
   numbers in `done`: the counter stands behind the highest of them, and the
   store has exactly the ones in between.
   */
  ghost predicate HasRead(s: State, chain: Incoming, from: nat, kept: SkippedKeys, done: set<nat>) {
    StandsOn(s, chain, s.nR) && EndsAt(done, from, s.nR) && StoreHolds(s.skipped, chain, from, kept, s.nR, done)
  }

  lemma OpenGenuine(s: State, chain: Incoming, n: nat)
    requires n < |chain.sent| && Genuine(s, chain, n)
    ensures OpenAead(s, chain.sent[n].package, MessageKeyOf(ChainPower(chain.seed, n))) == Some(chain.sent[n].plain)
  {
    var package, mk := chain.sent[n].package, MessageKeyOf(ChainPower(chain.seed, n));
    var kemCt := package.header.kemCt;
    var ss := if kemCt.Some? then Some(Encapsulated(kemCt.value)) else None;
    var candidates := Candidates(s.kemAdvertised, kemCt);
    FirstOpenedHonest(s.sessionId, package, mk, candidates, mk, ss, chain.sent[n].plain);
    if kemCt.Some? {
      var k :| 0 <= k < |s.kemAdvertised| && s.kemAdvertised[k] == kemCt.value.to;
      assert candidates[k] == ss;
    }
  }

  /** The one straggler that arrives comes from the store. */
  lemma ReadStraggler(s: State, chain: Incoming, from: nat, kept: SkippedKeys, done: set<nat>, n: nat)
    requires HasRead(s, chain, from, kept, done) && n < |chain.sent| && Genuine(s, chain, n)
    requires from <= n < s.nR && n !in done
    ensures var (t, answer) := Decrypt(s, Parsed(chain.sent[n].package));
            && answer == Ok(chain.sent[n].plain) && HasRead(t, chain, from, kept, done + {n})
            && t == s.(skipped := t.skipped)
  {
    hide HasRead;
    var at := StragglerSlot(s, chain, from, kept, done, n);
    StragglerHasRead(s, chain, from, kept, done, at);
    OpenGenuine(s, chain, n);
  }

  lemma StragglerSlot(s: State, chain: Incoming, from: nat, kept: SkippedKeys, done: set<nat>, n: nat)
    returns (at: Slot)
    requires HasRead(s, chain, from, kept, done) && n < |chain.sent| && Genuine(s, chain, n)
    requires from <= n < s.nR && n !in done
    ensures at == SlotOf(chain.sent[n].package.header) && at.n == n && Ahead(at, chain, from)
    ensures at in s.skipped && s.skipped[at] == MessageKeyOf(ChainPower(chain.seed, n))
  {
    at := SlotOf(chain.sent[n].package.header);
    assert Ahead(at, chain, from);
  }

  lemma StragglerHasRead(s: State, chain: Incoming, from: nat, kept: SkippedKeys, done: set<nat>, at: Slot)
    requires HasRead(s, chain, from, kept, done) && Ahead(at, chain, from) && at in s.skipped
    ensures HasRead(s.(skipped := s.skipped - {at}), chain, from, kept, done + {at.n})
  {
    hide StoreHolds, EndsAt;
    StoreAfterTaking(s.skipped, chain, from, kept, s.nR, done, at);
    EndsAtStill(done, from, s.nR, at.n);
  }

  lemma EndsAtStill(done: set<nat>, from: nat, nR: nat, n: nat)
    requires EndsAt(done, from, nR) && from <= n < nR
    ensures EndsAt(done + {n}, from, nR)
  {
  }

  lemma StoreAfterTaking(skipped: SkippedKeys, chain: Incoming, from: nat, kept: SkippedKeys, nR: nat, done: set<nat>,
                         at: Slot)
    requires StoreHolds(skipped, chain, from, kept, nR, done) && Ahead(at, chain, from) && at in skipped
    ensures StoreHolds(skipped - {at}, chain, from, kept, nR, done + {at.n}) && at.n < nR
  {
    RemovalShrinks(skipped, at);
  }

  /** A package at or beyond the counter puts the ones it passes over into the store. */
  lemma ReadAhead(s: State, chain: Incoming, from: nat, kept: SkippedKeys, done: set<nat>, n: nat)
    requires HasRead(s, chain, from, kept, done) && n < |chain.sent| && Genuine(s, chain, n)
    requires s.nR <= n && HasRoom(from, kept, n + 1)
    ensures var (t, answer) := Decrypt(s, Parsed(chain.sent[n].package));
            && answer == Ok(chain.sent[n].plain) && HasRead(t, chain, from, kept, done + {n})
            && t == s.(nR := t.nR, ckR := t.ckR, skipped := t.skipped, kemPeer := t.kemPeer)
  {
    AheadReceipt(s, chain, from, kept, done, n);
    AheadHasRead(s, chain, from, kept, done, n, chain.sent[n].package.header);
  }

  lemma AheadHasRead(s: State, chain: Incoming, from: nat, kept: SkippedKeys, done: set<nat>, n: nat, h: Header)
    requires HasRead(s, chain, from, kept, done) && from <= s.nR <= n
    ensures HasRead(Noted(StepReceiving(MovedTo(s, chain, n)), h), chain, from, kept, done + {n})
  {
    hide StoreHolds, EndsAt, StoreGap;
    StoreAfterGap(s, chain, from, kept, done, n);
    StoreAfterHead(StoreGap(s.skipped, chain.dh, s.ckR.value, s.nR, n), chain, from, kept, n, done);
    EndsAfter(done, from, s.nR, n);
  }

  lemma EndsAfter(done: set<nat>, from: nat, nR: nat, n: nat)
    requires EndsAt(done, from, nR) && from <= nR <= n
    ensures EndsAt(done + {n}, from, n + 1)
  {
  }

  /** `s` moved up to number `n` of the chain. */
  function MovedTo(s: State, chain: Incoming, n: nat): State
    requires s.ckR.Some? && s.nR <= n
  {
    s.(skipped := StoreGap(s.skipped, chain.dh, s.ckR.value, s.nR, n), nR := n, ckR := Some(ChainPower(chain.seed, n)))
  }

  lemma AheadReceipt(s: State, chain: Incoming, from: nat, kept: SkippedKeys, done: set<nat>, n: nat)
    requires HasRead(s, chain, from, kept, done) && n < |chain.sent| && Genuine(s, chain, n)
    requires s.nR <= n && HasRoom(from, kept, n + 1)
    ensures var package := chain.sent[n].package;
            Decrypt(s, Parsed(package)) ==
              (Noted(StepReceiving(MovedTo(s, chain, n)), package.header), Ok(chain.sent[n].plain))
  {
    var package, moved := chain.sent[n].package, MovedTo(s, chain, n);
    assert !InStore(s, package.header);
    ChainPowerAdds(chain.seed, s.nR, n - s.nR);
    assert Reach(s, package.header) == Ok(moved);
    DecryptByReach(s, package);
    OpenGenuine(StepReceiving(moved), chain, n);
  }

  lemma StoreAfterGap(s: State, chain: Incoming, from: nat, kept: SkippedKeys, done: set<nat>, n: nat)
    requires HasRead(s, chain, from, kept, done) && s.nR <= n
    ensures StoreHolds(StoreGap(s.skipped, chain.dh, s.ckR.value, s.nR, n), chain, from, kept, n, done)
  {
    StoreGapSize(s.skipped, chain.dh, s.ckR.value, s.nR, n);
    hide StoreGap;
    var skipped := StoreGap(s.skipped, chain.dh, s.ckR.value, s.nR, n);
    forall at: Slot
      ensures Ahead(at, chain, from) ==> (at in skipped <==> at.n < n && at.n !in done)
      ensures Ahead(at, chain, from) && at in skipped ==> skipped[at] == MessageKeyOf(ChainPower(chain.seed, at.n))
      ensures !Ahead(at, chain, from) ==> (at in skipped <==> at in kept) && (at in skipped ==> skipped[at] == kept[at])
    {
      GapSlot(s, chain, from, kept, done, n, at);
    }
  }

  lemma GapSlot(s: State, chain: Incoming, from: nat, kept: SkippedKeys, done: set<nat>, n: nat, at: Slot)
    requires HasRead(s, chain, from, kept, done) && s.nR <= n
    ensures var skipped := StoreGap(s.skipped, chain.dh, s.ckR.value, s.nR, n);
            if Ahead(at, chain, from)
            then (at in skipped <==> at.n < n && at.n !in done)
                 && (at in skipped ==> skipped[at] == MessageKeyOf(ChainPower(chain.seed, at.n)))
            else (at in skipped <==> at in kept) && (at in skipped ==> skipped[at] == kept[at])
  {
    hide StoreGap;
    StoreGapAt(s.skipped, chain.dh, s.ckR.value, s.nR, n, at);
    if InGap(at, chain.dh, s.nR, n) {
      ChainPowerAdds(chain.seed, s.nR, at.n - s.nR);
    }
  }

  lemma StoreAfterHead(skipped: SkippedKeys, chain: Incoming, from: nat, kept: SkippedKeys, n: nat, done: set<nat>)
    requires StoreHolds(skipped, chain, from, kept, n, done)
    ensures StoreHolds(skipped, chain, from, kept, n + 1, done + {n})
  {
  }

  lemma ReadOne(s: State, chain: Incoming, from: nat, kept: SkippedKeys, done: set<nat>, n: nat)
    requires HasRead(s, chain, from, kept, done) && n < |chain.sent| && Genuine(s, chain, n)
    requires from <= n && HasRoom(from, kept, n + 1) && n !in done
    ensures var (t, answer) := Decrypt(s, Parsed(chain.sent[n].package));
            && answer == Ok(chain.sent[n].plain) && HasRead(t, chain, from, kept, done + {n})
            && t == s.(nR := t.nR, ckR := t.ckR, skipped := t.skipped, kemPeer := t.kemPeer)
  {
    if n < s.nR {
      ReadStraggler(s, chain, from, kept, done, n);
    } else {
      ReadAhead(s, chain, from, kept, done, n);
    }
  }

  function Elements(order: seq<nat>): set<nat> { set k | 0 <= k < |order| :: order[k] }

  ghost predicate AllRead(chain: Incoming, order: seq<nat>, answers: seq<Result<Plaintext, Error>>)
    requires forall k | 0 <= k < |order| :: order[k] < |chain.sent|
  {
    |answers| == |order| && forall k | 0 <= k < |order| :: answers[k] == Ok(chain.sent[order[k]].plain)
  }

  lemma FirstAndRest(s: State, chain: Incoming, order: seq<nat>)
    requires |order| > 0 && forall k | 0 <= k < |order| :: order[k] < |chain.sent|
    requires var (t, answer) := Decrypt(s, Parsed(chain.sent[order[0]].package));
             answer == Ok(chain.sent[order[0]].plain) && AllRead(chain, order[1..], ReceiveAll(t, chain, order[1..]).1)
    ensures var t := Decrypt(s, Parsed(chain.sent[order[0]].package)).0;
            AllRead(chain, order, ReceiveAll(s, chain, order).1)
            && ReceiveAll(s, chain, order).0 == ReceiveAll(t, chain, order[1..]).0
  {
  }

  /** `s` has read `done` of the chain, and the packages `order` are still to come, each once. */
  ghost predicate Due(s: State, chain: Incoming, from: nat, kept: SkippedKeys, done: set<nat>, order: seq<nat>) {
    && HasRead(s, chain, from, kept, done) && HasRoom(from, kept, |chain.sent|)
    && (forall k | 0 <= k < |order| :: from <= order[k] < |chain.sent| && order[k] !in done)
    && (forall j, k | 0 <= j < k < |order| :: order[j] != order[k])
    && (forall n: nat | from <= n < |chain.sent| :: Genuine(s, chain, n))
  }

  lemma OneLessDue(s: State, chain: Incoming, from: nat, kept: SkippedKeys, done: set<nat>, order: seq<nat>)
    requires Due(s, chain, from, kept, done, order) && |order| > 0
    ensures var (t, answer) := Decrypt(s, Parsed(chain.sent[order[0]].package));
            && answer == Ok(chain.sent[order[0]].plain)
            && Due(t, chain, from, kept, done + {order[0]}, order[1..])
            && t == s.(nR := t.nR, ckR := t.ckR, skipped := t.skipped, kemPeer := t.kemPeer)
  {
    hide HasRead;
    ReadOne(s, chain, from, kept, done, order[0]);
    var t := Decrypt(s, Parsed(chain.sent[order[0]].package)).0;
    forall n: nat | from <= n < |chain.sent| ensures Genuine(t, chain, n) {
      assert Genuine(s, chain, n);
    }
  }

  lemma {:induction false} ReadMany(s: State, chain: Incoming, from: nat, kept: SkippedKeys, done: set<nat>,
                                    order: seq<nat>)
    requires Due(s, chain, from, kept, done, order)
    ensures var (t, answers) := ReceiveAll(s, chain, order);
            && AllRead(chain, order, answers)
            && Due(t, chain, from, kept, done + Elements(order), [])
            && t == s.(nR := t.nR, ckR := t.ckR, skipped := t.skipped, kemPeer := t.kemPeer)
    decreases |order|
  {
    hide HasRead, Genuine;
    if |order| == 0 {
      assert done + Elements(order) == done;
    } else {
      hide Due, Decrypt;
      var n, rest := order[0], order[1..];
      OneLessDue(s, chain, from, kept, done, order);
      ReadMany(Decrypt(s, Parsed(chain.sent[n].package)).0, chain, from, kept, done + {n}, rest);
      FirstAndRest(s, chain, order);
      assert done + {n} + Elements(rest) == done + Elements(order) by {
        assert order == [n] + rest;
        ElementsOfHead(n, rest);
      }
    }
  }

  lemma ElementsOfHead(n: nat, rest: seq<nat>)
    ensures Elements([n] + rest) == {n} + Elements(rest)
  {
    var order := [n] + rest;
    forall m ensures m in Elements(order) <==> m == n || m in Elements(rest) {
      if m == n { assert order[0] == n; }
      if m in Elements(rest) {
        var k :| 0 <= k < |rest| && rest[k] == m;
        assert order[k + 1] == m;
      }
    }
  }

  // ── Results ───────────────────────────────────────────────────────

  /** All read, and the counter at the end of the chain. Nothing else has changed since `s` but, perhaps, `kemPeer`. */
  ghost predicate ReadWhole(s: State, chain: Incoming, order: seq<nat>, t: State,
                            answers: seq<Result<Plaintext, Error>>)
    requires forall k | 0 <= k < |order| :: order[k] < |chain.sent|
  {
    && AllRead(chain, order, answers)
    && t == s.(nR := |chain.sent|, ckR := Some(ChainPower(chain.seed, |chain.sent|)), kemPeer := t.kemPeer)
  }

  /** `s` has opened the chain, and read or passed over just what comes before number `from`. */
  ghost predicate StandsAt(s: State, chain: Incoming, from: nat) {
    && StandsOn(s, chain, from)
    && (forall at: Slot | at in s.skipped && at.dh == chain.dh :: at.n < from)
  }

  lemma AllDue(s: State, chain: Incoming, from: nat, order: seq<nat>)
    requires StandsAt(s, chain, from) && from <= |chain.sent| && HasRoom(from, s.skipped, |chain.sent|)
    requires forall n: nat | from <= n < |chain.sent| :: Genuine(s, chain, n)
    requires Arrangement(order, from, |chain.sent|)
    ensures Due(s, chain, from, s.skipped, {}, order)
  {
    hide Genuine;
  }

  lemma AllElements(order: seq<nat>, from: nat, until: nat)
    requires Arrangement(order, from, until)
    ensures forall n: nat :: from <= n < until <==> n in Elements(order)
  {
    forall n: nat | from <= n < until ensures n in Elements(order) {
      assert n in order;
      var k :| 0 <= k < |order| && order[k] == n;
    }
  }

  /** From there on any order will do, whatever else the store holds as long as there is room. */
  lemma AnyOrder(s: State, chain: Incoming, from: nat, order: seq<nat>)
    requires StandsAt(s, chain, from) && from <= |chain.sent| && HasRoom(from, s.skipped, |chain.sent|)
    requires forall n: nat | from <= n < |chain.sent| :: Genuine(s, chain, n)
    requires Arrangement(order, from, |chain.sent|)
    ensures var (t, answers) := ReceiveAll(s, chain, order); ReadWhole(s, chain, order, t, answers)
  {
    hide HasRead, Genuine;
    AllDue(s, chain, from, order);
    ReadMany(s, chain, from, s.skipped, {}, order);
    AllElements(order, from, |chain.sent|);
    assert {} + Elements(order) == Elements(order);
    NothingLeft(ReceiveAll(s, chain, order).0, chain, from, s.skipped, Elements(order));
  }

  lemma NothingLeft(t: State, chain: Incoming, from: nat, kept: SkippedKeys, all: set<nat>)
    requires HasRead(t, chain, from, kept, all) && from <= |chain.sent|
    requires forall n: nat :: from <= n < |chain.sent| <==> n in all
    requires forall at: Slot | at in kept :: !Ahead(at, chain, from)
    ensures StandsOn(t, chain, |chain.sent|) && t.skipped == kept
  {
    assert |chain.sent| > from ==> |chain.sent| - 1 in all;
    assert t.nR == |chain.sent|;
    forall at: Slot ensures at in t.skipped <==> at in kept {
      if Ahead(at, chain, from) && at.n < t.nR { assert at.n in all; }
    }
    assert forall at: Slot | at in kept :: t.skipped[at] == kept[at];
  }

  /** The responder's first chain: any order from the very first package on. */
  lemma AnyOrderFirstChain(s: State, chain: Incoming, order: seq<nat>)
    requires !s.initialized && s.skipped == map[]
    requires chain.seed == SeedChain(s.rk, X25519(s.dhS, chain.dh))
    requires 0 < |chain.sent| <= MAX_SKIP + 1 && Arrangement(order, 0, |chain.sent|)
    requires forall n: nat | n < |chain.sent| :: Genuine(s, chain, n)
    ensures var (t, answers) := ReceiveAll(s, chain, order);
            ReadWhole(DeriveInitialReceiveChain(s, chain.dh), chain, order, t, answers)
  {
    var awake := DeriveInitialReceiveChain(s, chain.dh);
    assert |order| > 0 by { assert 0 in order; }
    assert Genuine(s, chain, order[0]);
    assert Decrypt(s, Parsed(chain.sent[order[0]].package)) == Decrypt(awake, Parsed(chain.sent[order[0]].package));
    assert ReceiveAll(s, chain, order) == ReceiveAll(awake, chain, order);
    forall n: nat | n < |chain.sent| ensures Genuine(awake, chain, n) {
      assert Genuine(s, chain, n);
    }
    AnyOrder(awake, chain, 0, order);
  }

  /** `s` after number 0 of the chain made it follow, with the keys of what its predecessor lost in the store. */
  function Followed(s: State, chain: Incoming): State
    requires |chain.sent| > 0 && FitsGap(s, chain.sent[0].package.header.pn)
  {
    DhRatchet(SkipTo(s, chain.sent[0].package.header.pn).value, chain.dh)
  }

  lemma FollowsWithNumberZero(s: State, chain: Incoming)
    requires s.initialized && NoSlotOf(s.skipped, chain.dh) && s.dhR != Some(chain.dh) && |chain.sent| > 0
    requires chain.seed == SeedChain(s.rk, X25519(s.dhS, chain.dh)) && Genuine(s, chain, 0)
    requires var pn := chain.sent[0].package.header.pn; pn >= s.nR && FitsGap(s, pn)
    ensures var (t, answer) := Decrypt(s, Parsed(chain.sent[0].package));
            && answer == Ok(chain.sent[0].plain)
            && t == StepReceiving(Followed(s, chain)).(kemPeer := t.kemPeer)
            && NoSlotOf(t.skipped, chain.dh)
  {
    var followed, pn := Followed(s, chain), chain.sent[0].package.header.pn;
    OpenGenuine(StepReceiving(followed), chain, 0);
    if s.dhR.Some? && s.ckR.Some? {
      forall at: Slot | at in followed.skipped ensures at.dh != chain.dh {
        StoreGapAt(s.skipped, s.dhR.value, s.ckR.value, s.nR, pn, at);
      }
    }
    DecryptByReach(s, chain.sent[0].package);
  }

  /**
   A later chain, the one before it read to its end or not: number 0 opens
   it, then any order. The store ends up with the keys of what was lost of the
   chain before, as `SkipTo` put them there, and no others than before.
   */
  lemma AnyOrderLaterChain(s: State, chain: Incoming, order: seq<nat>)
    requires s.initialized && NoSlotOf(s.skipped, chain.dh) && s.dhR != Some(chain.dh)
    requires chain.seed == SeedChain(s.rk, X25519(s.dhS, chain.dh))
    requires |chain.sent| > 0 && Arrangement(order, 0, |chain.sent|) && |order| > 0 && order[0] == 0
    requires var pn := chain.sent[0].package.header.pn; pn >= s.nR && FitsGap(s, pn)
    requires HasRoom(1, Followed(s, chain).skipped, |chain.sent|)
    requires forall n: nat | n < |chain.sent| :: Genuine(s, chain, n)
    ensures var (t, answers) := ReceiveAll(s, chain, order);
            ReadWhole(Followed(s, chain), chain, order, t, answers)
  {
    assert Genuine(s, chain, 0);
    FollowsWithNumberZero(s, chain);
    var t := Decrypt(s, Parsed(chain.sent[0].package)).0;
    hide Decrypt;
    forall n: nat | n < |chain.sent| ensures Genuine(t, chain, n) {
      assert Genuine(s, chain, n);
    }
    var rest := order[1..];
    assert order == [0] + rest;
    assert Arrangement(rest, 1, |chain.sent|) by {
      forall n: nat | 1 <= n < |chain.sent| ensures n in rest {
        assert n in order;
      }
    }
    AnyOrder(t, chain, 1, rest);
    FirstAndRest(s, chain, order);
  }

  /** So two arrangements of the same packages leave the same session, `kemPeer` aside. */
  lemma OrderDoesNotMatter(s: State, chain: Incoming, from: nat, order: seq<nat>, order': seq<nat>)
    requires StandsAt(s, chain, from) && from <= |chain.sent| && HasRoom(from, s.skipped, |chain.sent|)
    requires forall n: nat | from <= n < |chain.sent| :: Genuine(s, chain, n)
    requires Arrangement(order, from, |chain.sent|) && Arrangement(order', from, |chain.sent|)
    ensures var t, t' := ReceiveAll(s, chain, order).0, ReceiveAll(s, chain, order').0;
            t.(kemPeer := None) == t'.(kemPeer := None)
  {
    AnyOrder(s, chain, from, order);
    AnyOrder(s, chain, from, order');
  }

  // ── In conversations ──────────────────────────────────────────────

  /** The chain that `p` hears, as its receiver sees it. */
  function HeardChain(c: Convo, p: Party): Incoming
    requires 0 <= Hearing(c.r, p, c.heard) < |c.r.log|
  {
    var chain := c.r.log[Hearing(c.r, p, c.heard)];
    Incoming(DhPub(chain.sk), chain.seed, chain.sent)
  }

  lemma HeardStore(c: Convo, p: Party, at: Slot)
    requires Inv(c) && 0 <= Hearing(c.r, p, c.heard) < |c.r.log| && Owner(Hearing(c.r, p, c.heard)) != p
    requires at in Side(c, p).skipped && at.dh == HeardChain(c, p).dh
    ensures at.n < Side(c, p).nR
  {
    var s, h := Side(c, p), Hearing(c.r, p, c.heard);
    SideNow(c, p);
    assert SlotOk(c.r, s.skipped, ReachOf(c.r, h, s.nR, h), c.gone, h, at.n);
    hide Inv, LogOk, SideOk, StoreOk;
    assert At(c.r, h, at.n) == at;
  }

  lemma HeardRoots(c: Convo, p: Party)
    requires Inv(c) && 0 <= Hearing(c.r, p, c.heard) < |c.r.log|
    ensures Owner(Hearing(c.r, p, c.heard)) != p && StandsOn(Side(c, p), HeardChain(c, p), Side(c, p).nR)
    ensures Side(c, p).nR <= |HeardChain(c, p).sent|
  {
    hide Inv, LogOk, StoreOk;
    SideNow(c, p);
  }

  lemma HeardStands(c: Convo, p: Party)
    requires InStep(c) && 0 <= Hearing(c.r, p, c.heard) < |c.r.log|
    ensures StandsAt(Side(c, p), HeardChain(c, p), Side(c, p).nR) && Side(c, p).nR <= |HeardChain(c, p).sent|
  {
    hide Inv;
    HeardRoots(c, p);
    forall at: Slot | at in Side(c, p).skipped && at.dh == HeardChain(c, p).dh ensures at.n < Side(c, p).nR {
      HeardStore(c, p, at);
    }
  }

  lemma HeardIsGenuine(c: Convo, p: Party, n: nat)
    requires InStep(c) && 0 <= Hearing(c.r, p, c.heard) < |c.r.log| && n < |HeardChain(c, p).sent|
    requires KemHeld(Side(c, p), HeardChain(c, p).sent[n].package.header)
    ensures Genuine(Side(c, p), HeardChain(c, p), n)
  {
    hide Inv;
    HeardRoots(c, p);
    HeardNow(c, p, Hearing(c.r, p, c.heard), n);
  }

  /**
   At any point of a conversation, what its receiver has not come to yet of the
   chain it hears is read in any order, if its KEM keys are held and there is
   room; and the session ends up the same.
   */
  lemma RestInAnyOrder(c: Convo, p: Party, order: seq<nat>)
    requires InStep(c) && 0 <= Hearing(c.r, p, c.heard) < |c.r.log|
    requires var s, chain := Side(c, p), HeardChain(c, p);
             && HasRoom(s.nR, s.skipped, |chain.sent|) && Arrangement(order, s.nR, |chain.sent|)
             && forall n: nat | s.nR <= n < |chain.sent| :: KemHeld(s, chain.sent[n].package.header)
    ensures var (t, answers) := ReceiveAll(Side(c, p), HeardChain(c, p), order);
            ReadWhole(Side(c, p), HeardChain(c, p), order, t, answers)
  {
    hide InStep, Genuine, StandsAt, ReadWhole;
    var s, chain := Side(c, p), HeardChain(c, p);
    HeardStands(c, p);
    forall n: nat | s.nR <= n < |chain.sent| ensures Genuine(s, chain, n) {
      HeardIsGenuine(c, p, n);
    }
    AnyOrder(s, chain, s.nR, order);
  }
}
