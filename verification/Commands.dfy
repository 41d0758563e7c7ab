/**
 What a command, or an answer that comes too late, does to a node, in any state
 that a run can leave it in.
 */
module Commands {
  import opened Wrappers
  import opened Bytes
  import opened MailboxKeys
  import opened Mailbox

  /**
   The message under the signature says who sent it and what, as long as two
   bytes can state the length of the name and there is something to say.
   */
  lemma MessageRoundTrip(sender: bytes, payload: bytes)
    ensures DecodeMessage(EncodeMessage(sender, payload)) == Some((sender, payload))
       <==> |sender| < U16 && |payload| > 0
  {
    Widths();
    LERoundTrip(|sender|, 2);
    var data := EncodeMessage(sender, payload);
    assert data[..2] == LE(|sender|, 2);
    if |sender| < U16 {
      assert data[2..2 + |sender|] == sender && data[2 + |sender|..] == payload;
    } else {
      FromLERoundTrip(data[..2]);
    }
  }

  // ── Store and retrieve ────────────────────────────────────────────

  /** What the node knows of a user's index: from this run, or from the backup tree. */
  ghost function Known(n: Node, user: UserHash): Option<nat> {
    if user in n.indices then Some(n.indices[user]) else TreeMax(n.tree, user)
  }

  predicate SameBooks(n: Node, m: Node) { m.puts == n.puts && m.tree == n.tree && m.signer == n.signer }

  /** The one thing that happened is that the message was signed and stored as number `seqNo`. */
  predicate StoredAs(n: Node, m: Node, recipient: UserHash, sender: bytes, payload: bytes, seqNo: nat) {
    && |m.puts| == |n.puts| + 1
    && var v := m.puts[|n.puts|].value;
       && m == n.(puts := n.puts + [Put(recipient, seqNo, v)], tree := n.tree[Row(recipient, seqNo) := v],
                  indices := n.indices[recipient := seqNo])
       && Verified(v, recipient, seqNo) && v.sender == n.signer
       && (|sender| < U16 && |payload| > 0 ==> DecodeMessage(v.payload) == Some((sender, payload)))
  }

  /** The one thing that happened is that the user's numbers 1, ..., 10 were asked for. */
  predicate ProbesFor(n: Node, m: Node, cmd: Command, now: nat) {
    && m.phase.FetchingIndex? && m.phase.pending == cmd && m.phase.windowStart == 1 && m.phase.found == []
    && m.phase.deadline == now + PATIENCE
    && m == n.(phase := m.phase, nextQuery := m.nextQuery, asked := m.asked)
    && m.asked == n.asked + seq(WINDOW_SIZE, i => (UserOf(cmd), i + 1))
  }

  /**
   A store command to an idle node is stored at once, under the number behind
   the known index or 1 if nothing is known; only with nothing known and peers
   to ask does the node probe first.
   */
  lemma StoreCommandExactly(n: Node, recipient: UserHash, sender: bytes, payload: bytes, hasPeers: bool, now: nat)
    requires n.phase.Idle?
    ensures var cmd, known := StoreFor(recipient, sender, payload), Known(n, recipient);
            var m := Step(n, At(now, Order(cmd, hasPeers)));
            if known.None? && hasPeers then ProbesFor(n, m, cmd, now)
            else StoredAs(n, m, recipient, sender, payload, if known.Some? then known.value + 1 else 1)
  {
    MessageRoundTrip(sender, payload);
    hide EncodeMessage, DecodeMessage, TreeMax, VerifyBuffer, QueriesFor;
    var m := Step(n, At(now, Order(StoreFor(recipient, sender, payload), hasPeers)));
    if m.phase.FetchingIndex? {
      assert seq(WINDOW_SIZE, i => (recipient, 1 + i)) == seq(WINDOW_SIZE, i => (recipient, i + 1));
    } else {
      var seqNo := if Known(n, recipient).Some? then Known(n, recipient).value + 1 else 1;
      assert n.indices[recipient := seqNo] == m.indices;
    }
  }

  /**
   A retrieve command to an idle node reports an empty mailbox exactly when
   there is nobody to ask or the known index is 0. With a known index above it
   asks for number 1 and goes on to collect 1, ..., index; with nothing known it
   probes first. Nothing is stored.
   */
  lemma RetrieveCommandExactly(n: Node, reader: UserHash, hasPeers: bool, now: nat)
    requires n.phase.Idle?
    ensures var cmd, known := RetrieveFor(reader), Known(n, reader);
            var m := Step(n, At(now, Order(cmd, hasPeers)));
            var seeded := n.(indices := if known.Some? then n.indices[reader := known.value] else n.indices);
            && (!hasPeers || known == Some(0) ==> m == seeded.(emitted := n.emitted + [Retrieved(reader, [])]))
            && (hasPeers && known.None? ==> ProbesFor(n, m, cmd, now))
            && (hasPeers && known.Some? && known.value > 0 ==>
                  && m.phase == Collecting(reader, [], Upto(known.value), now + PATIENCE)
                  && m == seeded.(phase := m.phase, nextQuery := m.nextQuery, asked := n.asked + [(reader, 1)]))
  {
    var m := Step(n, At(now, Order(RetrieveFor(reader), hasPeers)));
    if reader in n.indices {
      assert n.indices[reader := n.indices[reader]] == n.indices;
    }
    if m.phase.FetchingIndex? {
      assert seq(WINDOW_SIZE, i => (reader, 1 + i)) == seq(WINDOW_SIZE, i => (reader, i + 1));
    }
  }

  /** To a busy node a command is no more than the time it comes at. */
  lemma BusyDropsCommands(n: Node, cmd: Command, hasPeers: bool, now: nat)
    requires !n.phase.Idle?
    ensures Step(n, At(now, Order(cmd, hasPeers))) == Step(n, At(now, Tick))
  {
  }

  // ── Answers out of time ───────────────────────────────────────────

  lemma MailboxKeyIsNoProfileKey(user: UserHash, seqNo: nat)
    ensures !IsProfileKey(MailboxSeqKey(user, seqNo)) && OwnerOf(MailboxSeqKey(user, seqNo)) == user
  {
    DecimalRoundTrip(seqNo, 20);
    NoUnderscoreInDigits(Decimal(seqNo, 20));
    SplitKey(user, Decimal(seqNo, 20));
    assert MailboxSeqKey(user, seqNo)[..4] == PREFIX;
  }

  /**
   An idle node passes on a record that is found, unverified, to the user in its
   key, and reports a failed lookup as an empty mailbox of that user.
   */
  lemma IdleAnswers(n: Node, id: nat, user: UserHash, seqNo: nat, value: Value, now: nat)
    requires n.phase.Idle?
    ensures var key := MailboxSeqKey(user, seqNo);
            && Step(n, At(now, Found(id, key, value))) == n.(emitted := n.emitted + [Retrieved(user, [value])])
            && Step(n, At(now, NotFound(id))) == n
            && Step(n, At(now, GetError(Some(key)))) == n.(emitted := n.emitted + [Retrieved(user, [])])
            && Step(n, At(now, GetError(None))) == n.(emitted := n.emitted + [Retrieved([], [])])
  {
    MailboxKeyIsNoProfileKey(user, seqNo);
  }

  /** Answers under profile and update keys are nothing to the mailbox, whatever it is doing. */
  lemma ProfileAnswersDoNothing(n: Node, id: nat, index: bytes, value: Value, now: nat)
    ensures Step(n, At(now, Found(id, PROFILE_PREFIX + index, value))) == Step(n, At(now, Tick))
    ensures Step(n, At(now, Found(id, UPDATE_PREFIX + index, value))) == Step(n, At(now, Tick))
  {
    assert (PROFILE_PREFIX + index)[..4] == PROFILE_PREFIX && (UPDATE_PREFIX + index)[..4] == UPDATE_PREFIX;
  }

  /** A record under a key that is no mailbox key does not count as the answer to any probe. */
  lemma StrangeKeysDoNothing(n: Node, id: nat, key: bytes, value: Value, now: nat)
    requires n.phase.FetchingIndex? && ParseMailboxKey(key).None?
    ensures Step(n, At(now, Found(id, key, value))) == Step(n, At(now, Tick))
  {
  }

  // ── No store command gets lost ────────────────────────────────────

  /** The store command whose index the node is probing for. */
  function Pending(n: Node): Option<Command> {
    if n.phase.FetchingIndex? && n.phase.pending.StoreFor? then Some(n.phase.pending) else None
  }

  /** The store command that the node works on in this turn: that one, or the one it is given while idle. */
  function InHand(n: Node, t: Timed): Option<Command> {
    if t.event.Order? && t.event.cmd.StoreFor? && n.phase.Idle? then Some(t.event.cmd) else Pending(n)
  }

  /** It is stored, verifiably and readably. */
  predicate IsStored(n: Node, m: Node, cmd: Command)
    requires cmd.StoreFor?
  {
    && |m.puts| == |n.puts| + 1
    && var p := m.puts[|n.puts|];
       && m.puts == n.puts + [p] && p.user == cmd.recipient
       && Verified(p.value, cmd.recipient, p.seqNo) && p.value.payload == EncodeMessage(cmd.sender, cmd.payload)
  }

  /** The node gives up the command it was probing for. */
  ghost predicate GivesUp(n: Node, t: Timed) {
    Pending(n).Some? && Pending(Handle(n, t.event, t.now)).Some? && !t.event.Drain? && t.now >= n.phase.deadline
  }

  /** It has been stored, or is still in hand; and where there is none, nothing has been stored. */
  predicate GoesOn(n: Node, m: Node, inHand: Option<Command>)
    requires inHand.Some? ==> inHand.value.StoreFor?
  {
    if inHand.None? then m.puts == n.puts && Pending(m).None?
    else (IsStored(n, m, inHand.value) && Pending(m).None?) || (m.puts == n.puts && Pending(m) == inHand)
  }

  lemma ResumeGoesOn(n: Node, index: nat, now: nat)
    requires n.phase.FetchingIndex?
    ensures var cmd := n.phase.pending;
            var m := Resume(n.(indices := n.indices[UserOf(cmd) := index]), cmd, index, now);
            GoesOn(n, m, Pending(n)) && GoesOn(n, m.(phase := Idle), Pending(n)) && Pending(m).None?
  {
  }

  lemma TryResolveGoesOn(n: Node, now: nat)
    requires n.phase.FetchingIndex?
    ensures var m := TryResolve(n, now);
            GoesOn(n, m, Pending(n)) && (Pending(m).Some? ==> m.phase.deadline == n.phase.deadline)
  {
    hide GoesOn;
    match ScanFrom(n.phase.windowStart, n.phase.windowStart + WINDOW_SIZE, n.phase.queries, n.phase.found)
    case Waiting => StaysInHand(n, n);
    case Gap(s) => ResumeGoesOn(n, s - 1, now);
    case Full => StaysInHand(n, TryResolve(n, now));
  }

  lemma StaysInHand(n: Node, m: Node)
    requires m.puts == n.puts && Pending(m) == Pending(n)
    ensures GoesOn(n, m, Pending(n))
  {
  }

  lemma AnswerGoesOn(n: Node, e: Event, now: nat)
    requires n.phase.FetchingIndex? && !e.Drain?
    ensures var m := Handle(n, e, now);
            GoesOn(n, m, Pending(n)) && (Pending(m).Some? ==> m.phase.deadline == n.phase.deadline)
  {
    hide TryResolve, ScanFrom, Resume, EncodeMessage, Verified;
    match e
    case Found(id, key, value) =>
      if !IsProfileKey(key) && ParseMailboxKey(key).Some? {
        TryResolveGoesOn(NoteFound(n, id, ParseMailboxKey(key).value.1, value), now);
      }
    case NotFound(id) =>
      if id in n.phase.queries {
        TryResolveGoesOn(n.(phase := n.phase.(queries := n.phase.queries - {id})), now);
      }
    case GetError(_) => ResumeGoesOn(n, 0, now);
    case _ =>
  }

  lemma OrderGoesOn(n: Node, cmd: Command, hasPeers: bool, now: nat)
    requires n.phase.Idle?
    ensures var m := HandleCommand(n, cmd, hasPeers, now);
            && GoesOn(n, m, if cmd.StoreFor? then Some(cmd) else None)
            && (Pending(m).Some? ==> m.phase.deadline == now + PATIENCE)
  {
  }

  lemma OthersStoreNothing(n: Node, e: Event, now: nat)
    requires !(n.phase.Idle? && e.Order?) && (n.phase.FetchingIndex? ==> e.Drain?)
    ensures Handle(n, e, now).puts == n.puts && Pending(Handle(n, e, now)) == Pending(n)
  {
  }

  /**
   Turn by turn: the store command in hand is stored, exactly once, or stays in
   hand, or is given up at its deadline; and nothing else is ever stored.
   */
  lemma TurnSettles(n: Node, t: Timed)
    ensures var m, inHand := Step(n, t), InHand(n, t);
            if inHand.None? then m.puts == n.puts && Pending(m).None?
            else if IsStored(n, m, inHand.value) then Pending(m).None? && !GivesUp(n, t)
            else m.puts == n.puts && Pending(m) == if GivesUp(n, t) then None else inHand
  {
    hide HandleCommand, HandleFound, HandleNotFound, HandleGetError, EncodeMessage, Verified;
    if n.phase.Idle? && t.event.Order? {
      OrderGoesOn(n, t.event.cmd, t.event.hasPeers, t.now);
    } else if n.phase.FetchingIndex? && !t.event.Drain? {
      AnswerGoesOn(n, t.event, t.now);
    } else {
      OthersStoreNothing(n, t.event, t.now);
    }
  }

  // ── Over whole runs ───────────────────────────────────────────────

  function One(b: bool): nat { if b then 1 else 0 }

  /** The store commands that the node took, being idle. */
  ghost function Taken(n: Node, events: seq<Timed>): nat
    decreases |events|
  {
    if |events| == 0 then 0
    else
      var t := events[0];
      One(t.event.Order? && t.event.cmd.StoreFor? && n.phase.Idle?) + Taken(Step(n, t), events[1..])
  }

  ghost function GivenUp(n: Node, events: seq<Timed>): nat
    decreases |events|
  {
    if |events| == 0 then 0 else One(GivesUp(n, events[0])) + GivenUp(Step(n, events[0]), events[1..])
  }

  /**
   In every run each store command that was taken has been stored once, or was
   given up at its deadline, or is the one still in hand.
   */
  lemma {:induction false} StoresAreConserved(n: Node, events: seq<Timed>)
    ensures var m := Run(n, events);
            |n.puts| + One(Pending(n).Some?) + Taken(n, events)
            == |m.puts| + One(Pending(m).Some?) + GivenUp(n, events)
    decreases |events|
  {
    hide Step, IsStored;
    if |events| == 0 {
    } else {
      TurnCounts(n, events[0]);
      StoresAreConserved(Step(n, events[0]), events[1..]);
    }
  }

  lemma TurnCounts(n: Node, t: Timed)
    ensures var m := Step(n, t);
            |n.puts| + One(InHand(n, t).Some?) == |m.puts| + One(Pending(m).Some?) + One(GivesUp(n, t))
    ensures One(InHand(n, t).Some?) ==
            One(Pending(n).Some?) + One(t.event.Order? && t.event.cmd.StoreFor? && n.phase.Idle?)
  {
    TurnSettles(n, t);
    hide Step;
  }
}
