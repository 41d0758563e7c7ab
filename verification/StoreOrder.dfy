/**
 The numbers a node gives to the messages it stores, over whole runs: any
 commands, answers, errors, timeouts and drains, in any order, from any
 backup tree.
 */
module StoreOrder {
  import opened Bytes
  import opened MailboxKeys
  import opened Mailbox

  /** The numbers stored for one user, oldest first. */
  function NumbersPut(puts: seq<Put>, user: UserHash): seq<nat> {
    if |puts| == 0 then []
    else
      var last := puts[|puts| - 1];
      NumbersPut(puts[..|puts| - 1], user) + (if last.user == user then [last.seqNo] else [])
  }

  predicate Consecutive(s: seq<nat>) { forall i | 0 < i < |s| :: s[i] == s[i - 1] + 1 }

  // ── The invariant ─────────────────────────────────────────────────

  ghost predicate TreeBelow(n: Node, user: UserHash, index: nat) {
    forall s | s in NumbersOf(n.tree, user) :: s <= index
  }

  ghost predicate IndexOk(n: Node, user: UserHash) {
    var numbers := NumbersPut(n.puts, user);
    Consecutive(numbers)
    && (user in n.indices ==> TreeBelow(n, user, n.indices[user]))
    && (|numbers| > 0 ==> user in n.indices && numbers[|numbers| - 1] == n.indices[user])
  }

  ghost predicate Indexed(n: Node) { forall user :: IndexOk(n, user) }

  /** While it probes for a user's index, the node holds nothing of that user. */
  ghost predicate ProbesTheUnknown(n: Node) {
    n.phase.FetchingIndex? ==> UserOf(n.phase.pending) !in n.indices && TreeBelow(n, UserOf(n.phase.pending), 0)
  }

  ghost predicate StoreInv(n: Node) { Indexed(n) && ProbesTheUnknown(n) }

  predicate StoredNothing(n: Node, m: Node) { m.puts == n.puts && m.tree == n.tree }

  /** One message was stored, verified and above every number the tree had for its user. */
  ghost predicate StoredOne(n: Node, m: Node) {
    |m.puts| == |n.puts| + 1 && m.puts[..|n.puts|] == n.puts
    && var p := m.puts[|n.puts|];
       Verified(p.value, p.user, p.seqNo)
       && m.tree == n.tree[Row(p.user, p.seqNo) := p.value]
       && forall s | s in NumbersOf(n.tree, p.user) :: s < p.seqNo
  }

  ghost predicate StoresInOrder(n: Node, m: Node) { StoredNothing(n, m) || StoredOne(n, m) }

  // ── Storing ───────────────────────────────────────────────────────

  lemma NumbersAfterRow(tree: map<TreeKey, Value>, user: UserHash, seqNo: nat, v: Value, other: UserHash)
    ensures NumbersOf(tree[Row(user, seqNo) := v], other)
            == NumbersOf(tree, other) + (if other == user then {seqNo} else {})
  {
    var after := tree[Row(user, seqNo) := v];
    forall s: nat
      ensures s in NumbersOf(after, other) <==> s in NumbersOf(tree, other) || (other == user && s == seqNo)
    {
      assert s in NumbersOf(after, other) <==> Row(other, s) in after;
      assert s in NumbersOf(tree, other) <==> Row(other, s) in tree;
    }
  }

  lemma OwnNumbersAfterStore(n: Node, user: UserHash, seqNo: nat, m: Node)
    requires IndexOk(n, user)
    requires user in n.indices ==> seqNo == n.indices[user] + 1
    requires |m.puts| == |n.puts| + 1 && m.puts[..|n.puts|] == n.puts
    requires m.puts[|n.puts|].user == user && m.puts[|n.puts|].seqNo == seqNo
    ensures var numbers := NumbersPut(m.puts, user);
            Consecutive(numbers) && |numbers| > 0 && numbers[|numbers| - 1] == seqNo
  {
    var before := NumbersPut(n.puts, user);
    var after := NumbersPut(m.puts, user);
    assert after == before + [seqNo];
    forall i | 0 < i < |after| ensures after[i] == after[i - 1] + 1 {
      if i < |before| {
        assert before[i] == before[i - 1] + 1;
      }
    }
  }

  lemma OwnIndexAfterStore(n: Node, recipient: UserHash, sender: bytes, payload: bytes, seqNo: nat)
    requires IndexOk(n, recipient)
    requires if recipient in n.indices then seqNo == n.indices[recipient] + 1
             else seqNo > 0 && TreeBelow(n, recipient, 0)
    ensures IndexOk(StoreSigned(n, recipient, sender, payload, seqNo), recipient)
  {
    var m := StoreSigned(n, recipient, sender, payload, seqNo);
    hide SignedEnvelope;
    assert m.puts[..|n.puts|] == n.puts;
    OwnNumbersAfterStore(n, recipient, seqNo, m);
    hide NumbersPut, Consecutive;
    NumbersAfterRow(n.tree, recipient, seqNo, m.puts[|n.puts|].value, recipient);
    hide NumbersOf;
    assert TreeBelow(m, recipient, seqNo);
  }

  lemma OtherIndexAfterStore(n: Node, recipient: UserHash, sender: bytes, payload: bytes, seqNo: nat, user: UserHash)
    requires IndexOk(n, user) && user != recipient
    ensures IndexOk(StoreSigned(n, recipient, sender, payload, seqNo), user)
  {
    var m := StoreSigned(n, recipient, sender, payload, seqNo);
    assert m.puts[..|n.puts|] == n.puts;
    assert NumbersPut(m.puts, user) == NumbersPut(n.puts, user);
    NumbersAfterRow(n.tree, recipient, seqNo, m.puts[|n.puts|].value, user);
    assert NumbersOf(m.tree, user) == NumbersOf(n.tree, user);
  }

  lemma StoreKeeps(n: Node, recipient: UserHash, sender: bytes, payload: bytes, seqNo: nat)
    requires Indexed(n)
    requires if recipient in n.indices then seqNo == n.indices[recipient] + 1
             else seqNo > 0 && TreeBelow(n, recipient, 0)
    ensures var m := StoreSigned(n, recipient, sender, payload, seqNo);
            Indexed(m) && StoredOne(n, m)
  {
    var m := StoreSigned(n, recipient, sender, payload, seqNo);
    assert IndexOk(n, recipient);
    forall user ensures IndexOk(m, user) {
      if user == recipient {
        OwnIndexAfterStore(n, recipient, sender, payload, seqNo);
      } else {
        assert IndexOk(n, user);
        OtherIndexAfterStore(n, recipient, sender, payload, seqNo, user);
      }
    }
    StoresAbove(n, recipient, sender, payload, seqNo);
  }

  lemma StoresAbove(n: Node, recipient: UserHash, sender: bytes, payload: bytes, seqNo: nat)
    requires forall s | s in NumbersOf(n.tree, recipient) :: s < seqNo
    ensures StoredOne(n, StoreSigned(n, recipient, sender, payload, seqNo))
  {
    assert StoreSigned(n, recipient, sender, payload, seqNo).puts[..|n.puts|] == n.puts;
  }

  lemma SetIndexKeeps(n: Node, user: UserHash, index: nat)
    requires Indexed(n) && user !in n.indices && TreeBelow(n, user, index)
    ensures Indexed(n.(indices := n.indices[user := index]))
  {
    var m := n.(indices := n.indices[user := index]);
    forall u ensures IndexOk(m, u) {
      assert IndexOk(n, u);
    }
  }

  lemma SameBooks(n: Node, m: Node)
    requires Indexed(n) && m.indices == n.indices && StoredNothing(n, m)
    ensures Indexed(m)
  {
    forall u ensures IndexOk(m, u) {
      assert IndexOk(n, u);
    }
  }

  // ── One turn ──────────────────────────────────────────────────────

  lemma ResumeKeeps(n: Node, index: nat, now: nat)
    requires StoreInv(n) && n.phase.FetchingIndex?
    ensures var cmd := n.phase.pending;
            var m := Resume(n.(indices := n.indices[UserOf(cmd) := index]), cmd, index, now);
            StoreInv(m) && StoresInOrder(n, m) && StoreInv(m.(phase := Idle))
  {
    var cmd := n.phase.pending;
    var known := n.(indices := n.indices[UserOf(cmd) := index]);
    SetIndexKeeps(n, UserOf(cmd), index);
    var m := Resume(known, cmd, index, now);
    match cmd {
      case StoreFor(recipient, sender, payload) =>
        StoreKeeps(known, recipient, sender, payload, index + 1);
        SameBooks(StoreSigned(known, recipient, sender, payload, index + 1), m);
      case RetrieveFor(_) =>
        SameBooks(known, m);
    }
    SameBooks(m, m.(phase := Idle));
  }

  lemma TryResolveKeeps(n: Node, now: nat)
    requires StoreInv(n) && n.phase.FetchingIndex?
    ensures StoreInv(TryResolve(n, now)) && StoresInOrder(n, TryResolve(n, now))
  {
    match ScanFrom(n.phase.windowStart, n.phase.windowStart + WINDOW_SIZE, n.phase.queries, n.phase.found)
    case Waiting =>
    case Gap(s) => ResumeKeeps(n, s - 1, now);
    case Full => SameBooks(n, TryResolve(n, now));
  }

  lemma NoNumberAboveZero(n: Node, user: UserHash)
    ensures TreeMax(n.tree, user).None? ==> TreeBelow(n, user, 0)
    ensures TreeMax(n.tree, user).Some? ==> TreeBelow(n, user, TreeMax(n.tree, user).value)
  {
  }

  lemma CommandKeeps(n: Node, cmd: Command, hasPeers: bool, now: nat)
    requires StoreInv(n)
    ensures var m := HandleCommand(n, cmd, hasPeers, now);
            StoreInv(m) && StoresInOrder(n, m)
  {
    var user := UserOf(cmd);
    var s := Seed(n, user);
    NoNumberAboveZero(n, user);
    if s != n {
      SetIndexKeeps(n, user, TreeMax(n.tree, user).value);
    }
    if s.phase.Idle? {
      var m := Serve(s, cmd, hasPeers, now);
      if cmd.StoreFor? && m.phase.Idle? {
        StoreKeeps(s, user, cmd.sender, cmd.payload, if user in s.indices then s.indices[user] + 1 else 1);
      } else {
        SameBooks(s, m);
      }
    }
  }

  lemma AnswerKeeps(n: Node, e: Event, now: nat)
    requires StoreInv(n) && !e.Order? && !e.Drain?
    ensures StoreInv(Handle(n, e, now)) && StoresInOrder(n, Handle(n, e, now))
  {
    hide Indexed, TryResolve;
    var m := Handle(n, e, now);
    if !n.phase.FetchingIndex? {
      SameBooks(n, m);
    } else {
      match e
      case Found(id, key, value) =>
        if !IsProfileKey(key) && ParseMailboxKey(key).Some? {
          var noted := NoteFound(n, id, ParseMailboxKey(key).value.1, value);
          SameBooks(n, noted);
          TryResolveKeeps(noted, now);
        }
      case NotFound(id) =>
        if id in n.phase.queries {
          var noted := n.(phase := n.phase.(queries := n.phase.queries - {id}));
          SameBooks(n, noted);
          TryResolveKeeps(noted, now);
        }
      case GetError(_) => ResumeKeeps(n, 0, now);
      case Tick =>
    }
  }

  lemma DrainKeeps(n: Node, keys: set<TreeKey>)
    requires StoreInv(n)
    ensures StoreInv(n.(tree := n.tree - keys))
  {
    var m := n.(tree := n.tree - keys);
    forall user ensures NumbersOf(m.tree, user) <= NumbersOf(n.tree, user) {
    }
    forall user ensures IndexOk(m, user) {
      assert IndexOk(n, user);
    }
  }

  lemma StepKeeps(n: Node, t: Timed)
    requires StoreInv(n)
    ensures StoreInv(Step(n, t))
    ensures t.event.Drain? || StoresInOrder(n, Step(n, t))
  {
    var m := Handle(n, t.event, t.now);
    match t.event
    case Drain(keys) => DrainKeeps(n, keys);
    case Order(cmd, hasPeers) =>
      CommandKeeps(n, cmd, hasPeers, t.now);
      SameBooks(m, Step(n, t));
    case _ =>
      AnswerKeeps(n, t.event, t.now);
      SameBooks(m, Step(n, t));
  }

  // ── Runs ──────────────────────────────────────────────────────────

  lemma {:induction false} RunKeeps(n: Node, events: seq<Timed>)
    requires StoreInv(n)
    ensures StoreInv(Run(n, events))
    decreases |events|
  {
    if |events| == 0 {
    } else {
      StepKeeps(n, events[0]);
      RunKeeps(Step(n, events[0]), events[1..]);
    }
  }

  lemma StartIsIndexed(n: Node)
    requires IsStart(n)
    ensures StoreInv(n)
  {
    forall user ensures IndexOk(n, user) {
    }
  }

  /** In every run the numbers stored for one user are consecutive. */
  lemma StoredNumbersAreConsecutive(n: Node, events: seq<Timed>, user: UserHash)
    requires IsStart(n)
    ensures Consecutive(NumbersPut(Run(n, events).puts, user))
  {
    StartIsIndexed(n);
    RunKeeps(n, events);
    assert IndexOk(Run(n, events), user);
  }

  /**
   In every reachable state a turn of the loop leaves every row of the backup
   tree as it was, and stores at most one message, above all rows of its user.
   */
  lemma StoresNeverOverwrite(n: Node, events: seq<Timed>, t: Timed)
    requires IsStart(n) && !t.event.Drain?
    ensures var before := Run(n, events);
            var after := Step(before, t);
            StoresInOrder(before, after)
            && forall k | k in before.tree :: k in after.tree && after.tree[k] == before.tree[k]
  {
    StartIsIndexed(n);
    RunKeeps(n, events);
    var before := Run(n, events);
    StepKeeps(before, t);
    var after := Step(before, t);
    RowsAreNumbered(before.tree);
  }

  lemma {:induction false} RowStays(n: Node, events: seq<Timed>, row: TreeKey)
    requires StoreInv(n) && row in n.tree
    requires forall t | t in events && t.event.Drain? :: row !in t.event.keys
    ensures row in Run(n, events).tree && Run(n, events).tree[row] == n.tree[row]
    decreases |events|
  {
    hide StoreInv, Step;
    if |events| == 0 {
    } else {
      StepKeeps(n, events[0]);
      RowStep(n, events[0], row);
      RowStays(Step(n, events[0]), events[1..], row);
    }
  }

  lemma RowStep(n: Node, t: Timed, row: TreeKey)
    requires StoreInv(n) && row in n.tree && (t.event.Drain? ==> row !in t.event.keys)
    ensures row in Step(n, t).tree && Step(n, t).tree[row] == n.tree[row]
  {
    StepKeeps(n, t);
    RowsAreNumbered(n.tree);
  }

  /**
   Whatever is in the backup tree at some point of a run, a message just stored
   among it, stays there unchanged until it is drained; and draining takes out
   nothing else.
   */
  lemma RowsStayUntilDrained(n: Node, before: seq<Timed>, events: seq<Timed>, row: TreeKey, last: Timed)
    requires IsStart(n) && row in Run(n, before).tree && last.event.Drain?
    requires forall t | t in events && t.event.Drain? :: row !in t.event.keys
    ensures var end := Run(Run(n, before), events);
            && row in end.tree && end.tree[row] == Run(n, before).tree[row]
            && (row in Step(end, last).tree <==> row !in last.event.keys)
  {
    StartIsIndexed(n);
    RunKeeps(n, before);
    RowStays(Run(n, before), events, row);
  }

  lemma RowsAreNumbered(tree: map<TreeKey, Value>)
    ensures forall k | k in tree && k.Row? :: k.seqNo in NumbersOf(tree, k.user)
  {
  }
}
