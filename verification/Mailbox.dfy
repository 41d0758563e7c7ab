/**
 The mailbox state machine of a node, on values: one function per handler.
 The DHT key of message `seqNo` of `user` is `MailboxKeys.MailboxSeqKey(user, seqNo)`.
 */
module Mailbox {
  import opened Wrappers
  import opened Bytes
  import opened MailboxKeys

  const WINDOW_SIZE: nat := 10
  const PATIENCE: nat := 10

  type UserHash = b: bytes | |b| == 32 witness seq(32, _ => 0)

  // ── Records ───────────────────────────────────────────────────────

  /** An Ed25519 signature is the message it signs, or does not verify. */
  datatype Signature = Signed(signer: nat, message: bytes) | Unsigned

  /** The bytes of a record, as envelope decoding sees them. */
  datatype Value = Envelope(payload: bytes, seqNo: nat, sender: nat, signature: Signature) | Undecodable(raw: bytes)

  predicate Verified(v: Value, user: UserHash, seqNo: nat) {
    v.Envelope? && v.seqNo == seqNo && v.signature == Signed(v.sender, VerifyBuffer(v.payload, v.seqNo, user).value)
  }

  function EncodeMessage(sender: bytes, payload: bytes): bytes { LE(|sender|, 2) + sender + payload }

  /** None also for a message without payload. */
  function DecodeMessage(data: bytes): Option<(bytes, bytes)> {
    if |data| < 2 || |data| <= 2 + FromLE(data[..2]) then None
    else Some((data[2..2 + FromLE(data[..2])], data[2 + FromLE(data[..2])..]))
  }

  function SignedEnvelope(signer: nat, recipient: UserHash, sender: bytes, payload: bytes, seqNo: nat): Value {
    var body := EncodeMessage(sender, payload);
    Envelope(body, seqNo, signer, Signed(signer, VerifyBuffer(body, seqNo, recipient).value))
  }

  /** A key of the backup tree: user hash and number, or any other layout. */
  datatype TreeKey = Row(user: UserHash, seqNo: nat) | OldRow(raw: bytes)

  // ── State ─────────────────────────────────────────────────────────

  datatype Command = StoreFor(recipient: UserHash, sender: bytes, payload: bytes) | RetrieveFor(reader: UserHash)

  function UserOf(cmd: Command): UserHash {
    match cmd
    case StoreFor(recipient, _, _) => recipient
    case RetrieveFor(reader) => reader
  }

  datatype Phase =
    | Idle
    | FetchingIndex(pending: Command, windowStart: pos, maxFound: nat, queries: map<nat, nat>, found: seq<nat>,
                    deadline: nat)
    | Collecting(user: UserHash, messages: seq<Value>, remaining: seq<nat>, deadline: nat)

  datatype Put = Put(user: UserHash, seqNo: nat, value: Value)

  datatype Retrieved = Retrieved(user: bytes, messages: seq<Value>)

  /** `asked`, `puts` and `emitted` log what the node asked and stored in the DHT and what it reported. */
  datatype Node = Node(
    phase: Phase,
    indices: map<UserHash, nat>,
    tree: map<TreeKey, Value>,
    nextQuery: nat,
    asked: seq<(UserHash, nat)>,
    puts: seq<Put>,
    emitted: seq<Retrieved>,
    signer: nat)

  // ── The backup tree ───────────────────────────────────────────────

  function NumbersOf(tree: map<TreeKey, Value>, user: UserHash): set<nat> {
    set k | k in tree && k.Row? && k.user == user :: k.seqNo
  }

  /** The greatest member; zero when there is none. */
  ghost function Greatest(s: set<nat>): (g: nat)
    ensures forall x | x in s :: x <= g
    ensures g == 0 || g in s
  {
    if s == {} then 0
    else
      var x :| x in s;
      var rest := Greatest(s - {x});
      assert forall y | y in s :: y == x || y in s - {x};
      if x > rest then x else rest
  }

  ghost function TreeMax(tree: map<TreeKey, Value>, user: UserHash): Option<nat> {
    var g := Greatest(NumbersOf(tree, user));
    if g > 0 then Some(g) else None
  }

  // ── Shared steps ──────────────────────────────────────────────────

  function Emit(n: Node, user: bytes, messages: seq<Value>): Node {
    n.(emitted := n.emitted + [Retrieved(user, messages)], phase := Idle)
  }

  function StoreSigned(n: Node, recipient: UserHash, sender: bytes, payload: bytes, seqNo: nat): Node {
    var value := SignedEnvelope(n.signer, recipient, sender, payload, seqNo);
    n.(puts := n.puts + [Put(recipient, seqNo, value)],
       tree := n.tree[Row(recipient, seqNo) := value],
       indices := n.indices[recipient := seqNo])
  }

  function Upto(index: nat): seq<nat> { seq(index, i => i + 1) }

  function Ask(n: Node, user: UserHash, seqNo: nat): Node {
    n.(nextQuery := n.nextQuery + 1, asked := n.asked + [(user, seqNo)])
  }

  function StartCollecting(n: Node, user: UserHash, index: pos, now: nat): Node {
    Ask(n, user, 1).(phase := Collecting(user, [], Upto(index), now + PATIENCE))
  }

  function Resume(n: Node, cmd: Command, index: nat, now: nat): Node {
    match cmd
    case StoreFor(recipient, sender, payload) => StoreSigned(n, recipient, sender, payload, index + 1).(phase := Idle)
    case RetrieveFor(reader) => if index == 0 then Emit(n, reader, []) else StartCollecting(n, reader, index, now)
  }

  // ── Probing ───────────────────────────────────────────────────────

  /** Queries `first`, `first + 1`, … ask for `start`, `start + 1`, … */
  function QueriesFor(first: nat, start: nat, count: nat): (r: map<nat, nat>)
    ensures forall q :: q in r <==> first <= q < first + count
    ensures forall q | q in r :: r[q] == start + (q - first)
  {
    if count == 0 then map[]
    else QueriesFor(first, start, count - 1)[first + count - 1 := start + count - 1]
  }

  function FireWindow(n: Node, cmd: Command, start: pos, maxFound: nat, deadline: nat): Node {
    n.(phase := FetchingIndex(cmd, start, maxFound, QueriesFor(n.nextQuery, start, WINDOW_SIZE), [], deadline),
       nextQuery := n.nextQuery + WINDOW_SIZE,
       asked := n.asked + seq(WINDOW_SIZE, i => (UserOf(cmd), start + i)))
  }

  datatype Scan = Waiting | Gap(at: pos) | Full

  /** What is known of the window's numbers from `s` on, in order. */
  function ScanFrom(s: pos, end: pos, queries: map<nat, nat>, found: seq<nat>): Scan
    decreases end - s
  {
    if s >= end then Full
    else if s in queries.Values then Waiting
    else if s !in found then Gap(s)
    else ScanFrom(s + 1, end, queries, found)
  }

  function TryResolve(n: Node, now: nat): Node
    requires n.phase.FetchingIndex?
  {
    var p := n.phase;
    match ScanFrom(p.windowStart, p.windowStart + WINDOW_SIZE, p.queries, p.found)
    case Waiting => n
    case Gap(s) => Resume(n.(indices := n.indices[UserOf(p.pending) := s - 1]), p.pending, s - 1, now)
    case Full => FireWindow(n, p.pending, p.windowStart + WINDOW_SIZE, p.maxFound, p.deadline)
  }

  // ── Collecting ────────────────────────────────────────────────────

  function Collect(n: Node, value: Option<Value>): Node
    requires n.phase.Collecting?
  {
    var p := n.phase;
    if |p.remaining| == 0 then Emit(n, p.user, p.messages)
    else
      var messages := if value.Some? && Verified(value.value, p.user, p.remaining[0]) then p.messages + [value.value]
                      else p.messages;
      if |p.remaining| == 1 then Emit(n, p.user, messages)
      else Ask(n, p.user, p.remaining[1]).(phase := Collecting(p.user, messages, p.remaining[1..], p.deadline))
  }

  // ── DHT answers ───────────────────────────────────────────────────

  const PROFILE_PREFIX: bytes := [0x76, 0x75, 0x70, 0x5F] // "vup_"
  const UPDATE_PREFIX: bytes := [0x76, 0x75, 0x74, 0x5F] // "vut_"

  predicate IsProfileKey(key: bytes) { |key| >= 4 && (key[..4] == PROFILE_PREFIX || key[..4] == UPDATE_PREFIX) }

  function OwnerOf(key: bytes): bytes {
    var owner := ParseUserHash(key);
    if owner.Some? then owner.value else []
  }

  /** The number is taken from the key; the user hash in it is not looked at. */
  function NoteFound(n: Node, id: nat, seqNo: nat, value: Value): Node
    requires n.phase.FetchingIndex?
  {
    var p := n.phase;
    var q := p.(queries := p.queries - {id});
    n.(phase := if Verified(value, UserOf(p.pending), seqNo)
                then q.(found := p.found + [seqNo], maxFound := if seqNo > p.maxFound then seqNo else p.maxFound)
                else q)
  }

  function HandleFound(n: Node, id: nat, key: bytes, value: Value, now: nat): Node {
    if IsProfileKey(key) then n
    else
      match n.phase
      case FetchingIndex(_, _, _, _, _, _) =>
        var parsed := ParseMailboxKey(key);
        if parsed.None? then n else TryResolve(NoteFound(n, id, parsed.value.1, value), now)
      case Collecting(_, _, _, _) => Collect(n, Some(value))
      case Idle => Emit(n, OwnerOf(key), [value])
  }

  function HandleNotFound(n: Node, id: nat, now: nat): Node {
    match n.phase
    case FetchingIndex(_, _, _, queries, _, _) =>
      if id !in queries then n else TryResolve(n.(phase := n.phase.(queries := queries - {id})), now)
    case Collecting(_, _, _, _) => Collect(n, None)
    case Idle => n
  }

  /** Any failed lookup, of whatever key, ends the phase. */
  function HandleGetError(n: Node, failedKey: Option<bytes>, now: nat): Node {
    match n.phase
    case Collecting(user, messages, _, _) => Emit(n, user, messages)
    case FetchingIndex(pending, _, _, _, _, _) =>
      Resume(n.(indices := n.indices[UserOf(pending) := 0]), pending, 0, now).(phase := Idle)
    case Idle => Emit(n, if failedKey.Some? then OwnerOf(failedKey.value) else [], [])
  }

  // ── Commands ──────────────────────────────────────────────────────

  /** A first command for a user starts from what the backup tree holds. */
  ghost function Seed(n: Node, user: UserHash): Node {
    var backed := TreeMax(n.tree, user);
    if n.phase.Idle? && user !in n.indices && backed.Some? then n.(indices := n.indices[user := backed.value]) else n
  }

  ghost function Serve(n: Node, cmd: Command, hasPeers: bool, now: nat): Node {
    if !n.phase.Idle? then n
    else
      match cmd
      case StoreFor(recipient, sender, payload) =>
        if recipient in n.indices then StoreSigned(n, recipient, sender, payload, n.indices[recipient] + 1)
        else if !hasPeers then
          var backed := TreeMax(n.tree, recipient);
          StoreSigned(n, recipient, sender, payload, if backed.Some? then backed.value + 1 else 1)
        else FireWindow(n, cmd, 1, 0, now + PATIENCE)
      case RetrieveFor(reader) =>
        if !hasPeers then Emit(n, reader, [])
        else if reader in n.indices then
          if n.indices[reader] == 0 then Emit(n, reader, []) else StartCollecting(n, reader, n.indices[reader], now)
        else FireWindow(n, cmd, 1, 0, now + PATIENCE)
  }

  ghost function HandleCommand(n: Node, cmd: Command, hasPeers: bool, now: nat): Node {
    Serve(Seed(n, UserOf(cmd)), cmd, hasPeers, now)
  }

  // ── The event loop ────────────────────────────────────────────────

  function CheckTimeout(n: Node, now: nat): Node {
    match n.phase
    case FetchingIndex(_, _, _, _, _, deadline) => if now >= deadline then n.(phase := Idle) else n
    case Collecting(user, messages, _, deadline) => if now >= deadline then Emit(n, user, messages) else n
    case Idle => n
  }

  /** `Drain` removes delivered rows from the backup tree, outside the loop. */
  datatype Event =
    | Order(cmd: Command, hasPeers: bool)
    | Found(id: nat, key: bytes, value: Value)
    | NotFound(id: nat)
    | GetError(failedKey: Option<bytes>)
    | Tick
    | Drain(keys: set<TreeKey>)

  datatype Timed = At(now: nat, event: Event)

  ghost function Handle(n: Node, e: Event, now: nat): Node {
    match e
    case Order(cmd, hasPeers) => HandleCommand(n, cmd, hasPeers, now)
    case Found(id, key, value) => HandleFound(n, id, key, value, now)
    case NotFound(id) => HandleNotFound(n, id, now)
    case GetError(failedKey) => HandleGetError(n, failedKey, now)
    case Tick => n
    case Drain(keys) => n.(tree := n.tree - keys)
  }

  ghost function Step(n: Node, t: Timed): Node {
    var m := Handle(n, t.event, t.now);
    if t.event.Drain? then m else CheckTimeout(m, t.now)
  }

  ghost function Run(n: Node, events: seq<Timed>): Node
    decreases |events|
  {
    if |events| == 0 then n else Run(Step(n, events[0]), events[1..])
  }

  predicate IsStart(n: Node) {
    n.phase.Idle? && n.indices == map[] && n.puts == [] && n.emitted == [] && n.nextQuery == |n.asked|
  }
}
