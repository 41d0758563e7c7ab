/**
 The node's event loop, updating its state in place. Each method leaves
 exactly the state that the function of the same name in `Mailbox` describes.
 */
module MailboxLoop {
  import opened Wrappers
  import opened Bytes
  import opened MailboxKeys
  import opened Mailbox

  class MailboxNode {
    var phase: Phase
    var indices: map<UserHash, nat>
    var tree: map<TreeKey, Value>
    var nextQuery: nat
    var asked: seq<(UserHash, nat)>
    var puts: seq<Put>
    var emitted: seq<Retrieved>
    const signer: nat

    function View(): Node
      reads this
    {
      Node(phase, indices, tree, nextQuery, asked, puts, emitted, signer)
    }

    constructor (tree: map<TreeKey, Value>, signer: nat)
      ensures IsStart(View()) && this.tree == tree && this.signer == signer
    {
      phase, indices, nextQuery, asked, puts, emitted := Idle, map[], 0, [], [], [];
      this.tree, this.signer := tree, signer;
    }

    // ── Effects ───────────────────────────────────────────────────────

    method GetRecord(user: UserHash, seqNo: nat) returns (id: nat)
      modifies this`nextQuery, this`asked
      ensures id == old(nextQuery) && View() == Mailbox.Ask(old(View()), user, seqNo)
    {
      id := nextQuery;
      nextQuery := nextQuery + 1;
      asked := asked + [(user, seqNo)];
    }

    method Emit(user: bytes, messages: seq<Value>)
      modifies this`emitted, this`phase
      ensures View() == Mailbox.Emit(old(View()), user, messages)
    {
      emitted := emitted + [Retrieved(user, messages)];
      phase := Idle;
    }

    method StoreSigned(recipient: UserHash, sender: bytes, payload: bytes, seqNo: nat)
      modifies this`puts, this`tree, this`indices
      ensures View() == Mailbox.StoreSigned(old(View()), recipient, sender, payload, seqNo)
    {
      var body := EncodeMessage(sender, payload);
      var envelope := Envelope(body, seqNo, signer, Unsigned);
      envelope := envelope.(signature := Signed(signer, VerifyBuffer(body, seqNo, recipient).value));
      puts := puts + [Put(recipient, seqNo, envelope)];
      tree := tree[Row(recipient, seqNo) := envelope];
      indices := indices[recipient := seqNo];
    }

    /** The greatest number in the user's rows, by a scan of the tree. */
    method TreeMax(user: UserHash) returns (backed: Option<nat>)
      ensures backed == Mailbox.TreeMax(tree, user)
    {
      var keys, max := tree.Keys, 0;
      while keys != {}
        invariant keys <= tree.Keys
        invariant max == 0 || max in NumbersOf(tree, user)
        invariant forall k | k in tree.Keys - keys && k.Row? && k.user == user :: k.seqNo <= max
        decreases |keys|
      {
        var key :| key in keys;
        keys := keys - {key};
        if key.Row? && key.user == user && key.seqNo > max {
          max := key.seqNo;
        }
      }
      GreatestIs(NumbersOf(tree, user), max);
      backed := if max > 0 then Some(max) else None;
    }

    // ── Probing ───────────────────────────────────────────────────────

    method FireWindow(cmd: Command, start: pos, maxFound: nat, deadline: nat)
      modifies this
      ensures View() == Mailbox.FireWindow(old(View()), cmd, start, maxFound, deadline)
    {
      var queries: map<nat, nat> := map[];
      var s: nat := start;
      while s < start + WINDOW_SIZE
        invariant start <= s <= start + WINDOW_SIZE
        invariant queries == QueriesFor(old(nextQuery), start, s - start)
        invariant nextQuery == old(nextQuery) + (s - start)
        invariant asked == old(asked) + seq(s - start, i => (UserOf(cmd), start + i))
        invariant phase == old(phase) && indices == old(indices) && tree == old(tree)
        invariant puts == old(puts) && emitted == old(emitted)
      {
        var id := GetRecord(UserOf(cmd), s);
        queries := queries[id := s];
        s := s + 1;
      }
      phase := FetchingIndex(cmd, start, maxFound, queries, [], deadline);
    }

    method StartCollecting(user: UserHash, index: pos, now: nat)
      modifies this
      ensures View() == Mailbox.StartCollecting(old(View()), user, index, now)
    {
      var remaining := Upto(index);
      var _ := GetRecord(user, remaining[0]);
      phase := Collecting(user, [], remaining, now + PATIENCE);
    }

    method Resume(cmd: Command, index: nat, now: nat)
      modifies this
      ensures View() == Mailbox.Resume(old(View()), cmd, index, now)
    {
      match cmd
      case StoreFor(recipient, sender, payload) =>
        StoreSigned(recipient, sender, payload, index + 1);
        phase := Idle;
      case RetrieveFor(reader) =>
        if index == 0 {
          Emit(reader, []);
        } else {
          StartCollecting(reader, index, now);
        }
    }

    method TryResolve(now: nat)
      requires phase.FetchingIndex?
      modifies this
      ensures View() == Mailbox.TryResolve(old(View()), now)
    {
      var p := phase;
      var end := p.windowStart + WINDOW_SIZE;
      var s := p.windowStart;
      while s < end
        invariant p.windowStart <= s <= end
        invariant View() == old(View())
        invariant ScanFrom(p.windowStart, end, p.queries, p.found) == ScanFrom(s, end, p.queries, p.found)
      {
        if s in p.queries.Values {
          return;
        }
        if s !in p.found {
          indices := indices[UserOf(p.pending) := s - 1];
          Resume(p.pending, s - 1, now);
          return;
        }
        s := s + 1;
      }
      FireWindow(p.pending, end, p.maxFound, p.deadline);
    }

    // ── Answers ───────────────────────────────────────────────────────

    method Collect(value: Option<Value>)
      requires phase.Collecting?
      modifies this
      ensures View() == Mailbox.Collect(old(View()), value)
    {
      var user, messages, remaining, deadline := phase.user, phase.messages, phase.remaining, phase.deadline;
      if |remaining| == 0 {
        Emit(user, messages);
        return;
      }
      var seqNo := remaining[0];
      if value.Some? && Verified(value.value, user, seqNo) {
        messages := messages + [value.value];
      }
      remaining := remaining[1..];
      if |remaining| == 0 {
        Emit(user, messages);
      } else {
        var _ := GetRecord(user, remaining[0]);
        phase := Collecting(user, messages, remaining, deadline);
      }
    }

    method HandleFound(id: nat, key: bytes, value: Value, now: nat)
      modifies this
      ensures View() == Mailbox.HandleFound(old(View()), id, key, value, now)
    {
      if IsProfileKey(key) {
        return;
      }
      match phase
      case FetchingIndex(pending, windowStart, maxFound, queries, found, deadline) =>
        var parsed := ParseMailboxKey(key);
        if parsed.None? {
          return;
        }
        var seqNo := parsed.value.1;
        queries := queries - {id};
        if Verified(value, UserOf(pending), seqNo) {
          found := found + [seqNo];
          maxFound := if seqNo > maxFound then seqNo else maxFound;
        }
        phase := FetchingIndex(pending, windowStart, maxFound, queries, found, deadline);
        TryResolve(now);
      case Collecting(_, _, _, _) => Collect(Some(value));
      case Idle => Emit(OwnerOf(key), [value]);
    }

    method HandleNotFound(id: nat, now: nat)
      modifies this
      ensures View() == Mailbox.HandleNotFound(old(View()), id, now)
    {
      match phase
      case FetchingIndex(pending, windowStart, maxFound, queries, found, deadline) =>
        if id !in queries {
          return;
        }
        phase := FetchingIndex(pending, windowStart, maxFound, queries - {id}, found, deadline);
        TryResolve(now);
      case Collecting(_, _, _, _) => Collect(None);
      case Idle =>
    }

    method HandleGetError(failedKey: Option<bytes>, now: nat)
      modifies this
      ensures View() == Mailbox.HandleGetError(old(View()), failedKey, now)
    {
      match phase {
      case Collecting(user, messages, _, _) => Emit(user, messages);
      case FetchingIndex(pending, _, _, _, _, _) =>
        indices := indices[UserOf(pending) := 0];
        Resume(pending, 0, now);
      case Idle =>
        var owner := if failedKey.Some? then OwnerOf(failedKey.value) else [];
        Emit(owner, []);
      }
      phase := Idle;
    }

    // ── Commands ──────────────────────────────────────────────────────

    method Seed(user: UserHash)
      modifies this`indices
      ensures View() == Mailbox.Seed(old(View()), user)
    {
      if phase.Idle? && user !in indices {
        var backed := TreeMax(user);
        if backed.Some? {
          indices := indices[user := backed.value];
        }
      }
    }

    method Serve(cmd: Command, hasPeers: bool, now: nat)
      modifies this
      ensures View() == Mailbox.Serve(old(View()), cmd, hasPeers, now)
    {
      if !phase.Idle? {
        return;
      }
      match cmd
      case StoreFor(recipient, sender, payload) =>
        if recipient in indices {
          StoreSigned(recipient, sender, payload, indices[recipient] + 1);
        } else if !hasPeers {
          var backed := TreeMax(recipient);
          StoreSigned(recipient, sender, payload, if backed.Some? then backed.value + 1 else 1);
        } else {
          FireWindow(cmd, 1, 0, now + PATIENCE);
        }
      case RetrieveFor(reader) =>
        if !hasPeers {
          Emit(reader, []);
        } else if reader in indices {
          if indices[reader] == 0 {
            Emit(reader, []);
          } else {
            StartCollecting(reader, indices[reader], now);
          }
        } else {
          FireWindow(cmd, 1, 0, now + PATIENCE);
        }
    }

    // ── One turn of the loop ──────────────────────────────────────────

    method CheckTimeout(now: nat)
      modifies this
      ensures View() == Mailbox.CheckTimeout(old(View()), now)
    {
      match phase
      case FetchingIndex(_, _, _, _, _, deadline) =>
        if now >= deadline {
          phase := Idle;
        }
      case Collecting(user, messages, _, deadline) =>
        if now >= deadline {
          Emit(user, messages);
        }
      case Idle =>
    }

    method Turn(t: Timed)
      modifies this
      ensures View() == Mailbox.Step(old(View()), t)
    {
      match t.event {
      case Order(cmd, hasPeers) =>
        Seed(UserOf(cmd));
        Serve(cmd, hasPeers, t.now);
      case Found(id, key, value) => HandleFound(id, key, value, t.now);
      case NotFound(id) => HandleNotFound(id, t.now);
      case GetError(failedKey) => HandleGetError(failedKey, t.now);
      case Tick =>
      case Drain(keys) =>
        tree := tree - keys;
        return;
      }
      CheckTimeout(t.now);
    }
  }

  lemma GreatestIs(s: set<nat>, g: nat)
    requires g == 0 || g in s
    requires forall x | x in s :: x <= g
    ensures Greatest(s) == g
  {
    var h := Greatest(s);
    if h != 0 {
      assert h <= g;
    }
  }
}
