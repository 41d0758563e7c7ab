/**
 Discovering an index by probing: which answers are honest, and that honest
 answers lead to the exact index whatever their order.
 */
module Probing {
  import opened Wrappers
  import opened Bytes
  import opened MailboxKeys
  import opened Mailbox

  /** `k` is the length of the unbroken run 1, 2, …, k of stored numbers. */
  ghost predicate IsRun(stored: set<nat>, k: nat) {
    (forall s | 1 <= s <= k :: s in stored) && k + 1 !in stored
  }

  // ── What a window knows ───────────────────────────────────────────

  ghost predicate WindowOk(p: Phase, stored: set<nat>)
    requires p.FetchingIndex?
  {
    (forall s | 1 <= s < p.windowStart :: s in stored)
    && (forall s | s in p.found :: s in stored)
    && (forall q | q in p.queries :: p.windowStart <= p.queries[q] < p.windowStart + WINDOW_SIZE)
    && (forall s | p.windowStart <= s < p.windowStart + WINDOW_SIZE ::
          s in p.queries.Values || s in p.found || s !in stored)
  }

  ghost predicate IsProbing(n: Node, cmd: Command, stored: set<nat>) {
    n.phase.FetchingIndex? && n.phase.pending == cmd && WindowOk(n.phase, stored)
    && ScanFrom(n.phase.windowStart, n.phase.windowStart + WINDOW_SIZE, n.phase.queries, n.phase.found) == Waiting
  }

  /**
   An outstanding probe gets the truth about its number; any other answer is
   stale, and verifies only for a stored number.
   */
  ghost predicate Honest(n: Node, t: Timed, stored: set<nat>)
    requires n.phase.FetchingIndex?
  {
    var queries, user := n.phase.queries, UserOf(n.phase.pending);
    t.now < n.phase.deadline
    && match t.event
       case Found(id, key, value) =>
         var parsed := ParseMailboxKey(key);
         if id in queries then
           !IsProfileKey(key) && parsed.Some? && parsed.value.1 == queries[id]
           && (Verified(value, user, queries[id]) <==> queries[id] in stored)
         else parsed.Some? && Verified(value, user, parsed.value.1) ==> parsed.value.1 in stored
       case NotFound(id) => id in queries ==> queries[id] !in stored
       case GetError(_) => false
       case _ => true
  }

  /** The pending command went on with index `k`. */
  ghost predicate Settled(m: Node, cmd: Command, k: nat) {
    UserOf(cmd) in m.indices
    && match cmd
       case StoreFor(recipient, sender, payload) =>
         var put := Put(recipient, k + 1, SignedEnvelope(m.signer, recipient, sender, payload, k + 1));
         m.phase.Idle? && m.indices[recipient] == k + 1 && |m.puts| > 0 && m.puts[|m.puts| - 1] == put
       case RetrieveFor(reader) =>
         m.indices[reader] == k
         && if k == 0 then m.phase.Idle? && |m.emitted| > 0 && m.emitted[|m.emitted| - 1] == Retrieved(reader, [])
            else m.phase.Collecting? && m.phase.user == reader && m.phase.messages == [] && m.phase.remaining == Upto(k)
  }

  /** Probes that can still be answered before the index is known. */
  ghost function Rank(p: Phase, k: nat): int
    requires p.FetchingIndex?
  {
    k + 1 - p.windowStart + |p.queries|
  }

  /** Probing goes on, with fewer probes left to answer, or ends with the exact index. */
  ghost predicate Advances(m: Node, cmd: Command, stored: set<nat>, k: nat, deadline: nat, rank: int) {
    if m.phase.FetchingIndex? then
      IsProbing(m, cmd, stored) && m.phase.deadline == deadline && Rank(m.phase, k) <= rank
    else Settled(m, cmd, k)
  }

  // ── The scan ──────────────────────────────────────────────────────

  lemma {:induction false} ScanMeans(s: pos, end: pos, queries: map<nat, nat>, found: seq<nat>)
    ensures match ScanFrom(s, end, queries, found)
            case Waiting => exists j :: s <= j < end && j in queries.Values
            case Gap(g) => s <= g < end && g !in queries.Values && g !in found && forall j | s <= j < g :: j in found
            case Full => forall j | s <= j < end :: j !in queries.Values && j in found
    decreases end - s
  {
    if s >= end || s in queries.Values || s !in found {
    } else {
      ScanMeans(s + 1, end, queries, found);
    }
  }

  lemma {:induction false} QueriesForCounts(first: nat, start: nat, count: nat)
    ensures |QueriesFor(first, start, count)| == count
    ensures forall s | start <= s < start + count :: s in QueriesFor(first, start, count).Values
  {
    if count == 0 {
    } else {
      QueriesForCounts(first, start, count - 1);
      var all := QueriesFor(first, start, count);
      forall s | start <= s < start + count ensures s in all.Values {
        var q := first + (s - start);
        assert q in all && all[q] == s;
      }
    }
  }

  lemma RunIsUnique(stored: set<nat>, k: nat, g: pos)
    requires IsRun(stored, k) && g !in stored && forall s | 1 <= s < g :: s in stored
    ensures g - 1 == k
  {
    assert g <= k ==> g in stored;
  }

  lemma RunReaches(stored: set<nat>, k: nat, end: pos)
    requires IsRun(stored, k) && forall s | 1 <= s < end :: s in stored
    ensures end - 1 <= k
  {
    assert k + 1 < end ==> k + 1 in stored;
  }

  // ── One answer ────────────────────────────────────────────────────

  lemma ResumeSettles(n: Node, cmd: Command, k: nat, now: nat)
    ensures var m := Resume(n.(indices := n.indices[UserOf(cmd) := k]), cmd, k, now);
            Settled(m, cmd, k) && CheckTimeout(m, now) == m
  {
  }

  lemma FireProbes(n: Node, cmd: Command, start: pos, maxFound: nat, deadline: nat, stored: set<nat>)
    requires forall s | 1 <= s < start :: s in stored
    ensures var m := FireWindow(n, cmd, start, maxFound, deadline);
            IsProbing(m, cmd, stored) && |m.phase.queries| == WINDOW_SIZE
  {
    QueriesForCounts(n.nextQuery, start, WINDOW_SIZE);
  }

  lemma ResolveIsExact(n: Node, stored: set<nat>, k: nat, now: nat)
    requires n.phase.FetchingIndex? && WindowOk(n.phase, stored) && IsRun(stored, k) && now < n.phase.deadline
    ensures var m := TryResolve(n, now);
            CheckTimeout(m, now) == m && Advances(m, n.phase.pending, stored, k, n.phase.deadline, Rank(n.phase, k))
  {
    var p := n.phase;
    var end := p.windowStart + WINDOW_SIZE;
    ScanMeans(p.windowStart, end, p.queries, p.found);
    match ScanFrom(p.windowStart, end, p.queries, p.found)
    case Waiting =>
    case Gap(g) =>
      RunIsUnique(stored, k, g);
      ResumeSettles(n, p.pending, k, now);
    case Full =>
      FireProbes(n, p.pending, end, p.maxFound, p.deadline, stored);
  }

  lemma ForgetQuery(p: Phase, id: nat)
    requires p.FetchingIndex?
    ensures |p.queries - {id}| == |p.queries| - (if id in p.queries then 1 else 0)
    ensures forall s | s in p.queries.Values && !(id in p.queries && p.queries[id] == s) ::
              s in (p.queries - {id}).Values
  {
    var rest := p.queries - {id};
    assert rest.Keys == p.queries.Keys - {id};
    forall s | s in p.queries.Values && !(id in p.queries && p.queries[id] == s) ensures s in rest.Values {
      var q :| q in p.queries && p.queries[q] == s;
      assert q in rest && rest[q] == s;
    }
  }

  predicate Hits(n: Node, t: Timed) {
    n.phase.FetchingIndex?
    && match t.event
       case Found(id, _, _) => id in n.phase.queries
       case NotFound(id) => id in n.phase.queries
       case _ => false
  }

  lemma FoundIsNoted(n: Node, id: nat, seqNo: nat, value: Value, stored: set<nat>)
    requires n.phase.FetchingIndex? && WindowOk(n.phase, stored)
    requires Verified(value, UserOf(n.phase.pending), seqNo) ==> seqNo in stored
    requires id in n.phase.queries ==>
               n.phase.queries[id] == seqNo && (seqNo in stored ==> Verified(value, UserOf(n.phase.pending), seqNo))
    ensures WindowOk(NoteFound(n, id, seqNo, value).phase, stored)
  {
    var p, p' := n.phase, NoteFound(n, id, seqNo, value).phase;
    ForgetQuery(p, id);
    forall s | p.windowStart <= s < p.windowStart + WINDOW_SIZE
      ensures s in p'.queries.Values || s in p'.found || s !in stored
    {
      assert s in p.queries.Values || s in p.found || s !in stored;
    }
  }

  lemma AbsenceIsNoted(n: Node, id: nat, stored: set<nat>)
    requires n.phase.FetchingIndex? && WindowOk(n.phase, stored)
    requires id in n.phase.queries && n.phase.queries[id] !in stored
    ensures WindowOk(n.phase.(queries := n.phase.queries - {id}), stored)
  {
    ForgetQuery(n.phase, id);
  }

  lemma FoundIsExact(n: Node, cmd: Command, t: Timed, stored: set<nat>, k: nat)
    requires IsProbing(n, cmd, stored) && IsRun(stored, k) && Honest(n, t, stored) && t.event.Found?
    ensures Advances(Step(n, t), cmd, stored, k, n.phase.deadline, Rank(n.phase, k) - (if Hits(n, t) then 1 else 0))
  {
    var id, key, value := t.event.id, t.event.key, t.event.value;
    var parsed := ParseMailboxKey(key);
    if !IsProfileKey(key) && parsed.Some? {
      var noted := NoteFound(n, id, parsed.value.1, value);
      assert Rank(noted.phase, k) == Rank(n.phase, k) - (if Hits(n, t) then 1 else 0) by {
        ForgetQuery(n.phase, id);
      }
      FoundIsNoted(n, id, parsed.value.1, value, stored);
      ResolveIsExact(noted, stored, k, t.now);
    }
  }

  lemma AbsenceIsExact(n: Node, cmd: Command, t: Timed, stored: set<nat>, k: nat)
    requires IsProbing(n, cmd, stored) && IsRun(stored, k) && Honest(n, t, stored) && t.event.NotFound?
    ensures Advances(Step(n, t), cmd, stored, k, n.phase.deadline, Rank(n.phase, k) - (if Hits(n, t) then 1 else 0))
  {
    var id := t.event.id;
    if id in n.phase.queries {
      var noted := n.(phase := n.phase.(queries := n.phase.queries - {id}));
      assert Rank(noted.phase, k) == Rank(n.phase, k) - 1 by {
        ForgetQuery(n.phase, id);
      }
      AbsenceIsNoted(n, id, stored);
      ResolveIsExact(noted, stored, k, t.now);
    }
  }

  lemma AnswerIsExact(n: Node, cmd: Command, t: Timed, stored: set<nat>, k: nat)
    requires IsProbing(n, cmd, stored) && IsRun(stored, k) && Honest(n, t, stored)
    ensures Advances(Step(n, t), cmd, stored, k, n.phase.deadline, Rank(n.phase, k) - (if Hits(n, t) then 1 else 0))
  {
    hide Step, Advances, Rank, IsProbing;
    match t.event
    case Found(_, _, _) => FoundIsExact(n, cmd, t, stored, k);
    case NotFound(id) => AbsenceIsExact(n, cmd, t, stored, k);
    case _ => OthersLeaveProbing(n, cmd, t, stored, k);
  }

  lemma OthersLeaveProbing(n: Node, cmd: Command, t: Timed, stored: set<nat>, k: nat)
    requires IsProbing(n, cmd, stored) && Honest(n, t, stored) && !t.event.Found? && !t.event.NotFound?
    ensures Advances(Step(n, t), cmd, stored, k, n.phase.deadline, Rank(n.phase, k) - (if Hits(n, t) then 1 else 0))
  {
    hide WindowOk, ScanFrom, TreeMax;
  }

  // ── Runs of answers ───────────────────────────────────────────────

  /** The node when probing ends, or when the events do. */
  ghost function Probe(n: Node, events: seq<Timed>): Node
    decreases |events|
  {
    if |events| == 0 || !n.phase.FetchingIndex? then n else Probe(Step(n, events[0]), events[1..])
  }

  ghost predicate AllHonest(n: Node, events: seq<Timed>, stored: set<nat>)
    decreases |events|
  {
    |events| > 0 && n.phase.FetchingIndex? ==>
      Honest(n, events[0], stored) && AllHonest(Step(n, events[0]), events[1..], stored)
  }

  /** How many outstanding probes were answered. */
  ghost function Answered(n: Node, events: seq<Timed>): nat
    decreases |events|
  {
    if |events| == 0 || !n.phase.FetchingIndex? then 0
    else (if Hits(n, events[0]) then 1 else 0) + Answered(Step(n, events[0]), events[1..])
  }

  lemma {:induction false} ProbeIsExact(n: Node, cmd: Command, events: seq<Timed>, stored: set<nat>, k: nat)
    requires IsProbing(n, cmd, stored) && IsRun(stored, k) && AllHonest(n, events, stored)
    ensures var m := Probe(n, events);
            if m.phase.FetchingIndex? then
              IsProbing(m, cmd, stored) && Answered(n, events) + Rank(m.phase, k) <= Rank(n.phase, k)
            else Settled(m, cmd, k)
    decreases |events|
  {
    if |events| == 0 {
    } else {
      AnswerIsExact(n, cmd, events[0], stored, k);
      var m := Step(n, events[0]);
      if m.phase.FetchingIndex? {
        ProbeIsExact(m, cmd, events[1..], stored, k);
      } else {
        assert Probe(m, events[1..]) == m;
      }
    }
  }

  /** The node always waits for some probe, and answers to them run out. */
  lemma WaitingIsForAProbe(n: Node, cmd: Command, stored: set<nat>, k: nat)
    requires IsProbing(n, cmd, stored) && IsRun(stored, k)
    ensures |n.phase.queries| > 0 && Rank(n.phase, k) > 0
  {
    var p := n.phase;
    ScanMeans(p.windowStart, p.windowStart + WINDOW_SIZE, p.queries, p.found);
    RunReaches(stored, k, p.windowStart);
    var q :| q in p.queries;
    assert |p.queries.Keys - {q}| == |p.queries| - 1;
  }

  /**
   A command for a user of whom nothing is known probes for the index. Honest
   answers, in any order, with any stale ones and any other commands between
   them, across any number of windows, let it go on with the length of the
   unbroken run and nothing else; and they do so once `k + WINDOW_SIZE`
   probes are answered.
   */
  lemma DiscoveredIndexIsExact(n: Node, cmd: Command, now: nat, events: seq<Timed>, stored: set<nat>, k: nat)
    requires n.phase.Idle? && UserOf(cmd) !in n.indices && TreeMax(n.tree, UserOf(cmd)).None?
    requires IsRun(stored, k) && AllHonest(Step(n, At(now, Order(cmd, true))), events, stored)
    ensures var start := Step(n, At(now, Order(cmd, true)));
            var m := Probe(start, events);
            (m.phase.FetchingIndex? ==> |m.phase.queries| > 0 && Answered(start, events) < k + WINDOW_SIZE)
            && (!m.phase.FetchingIndex? ==> Settled(m, cmd, k))
  {
    var start := Step(n, At(now, Order(cmd, true)));
    FireProbes(n, cmd, 1, 0, now + PATIENCE, stored);
    ProbeIsExact(start, cmd, events, stored, k);
    var m := Probe(start, events);
    if m.phase.FetchingIndex? {
      WaitingIsForAProbe(m, cmd, stored, k);
    }
  }

  /**
   A failed lookup during the probing, whichever it was and whatever was
   answered before it, makes the index 0: the command goes on with the right
   index if and only if nothing is stored.
   */
  lemma GetErrorForgetsTheRun(n: Node, cmd: Command, now: nat, events: seq<Timed>, stored: set<nat>, k: nat,
                              failedKey: Option<bytes>, later: nat)
    requires n.phase.Idle? && UserOf(cmd) !in n.indices && TreeMax(n.tree, UserOf(cmd)).None?
    requires IsRun(stored, k) && AllHonest(Step(n, At(now, Order(cmd, true))), events, stored)
    requires Probe(Step(n, At(now, Order(cmd, true))), events).phase.FetchingIndex?
    ensures var m := Step(Probe(Step(n, At(now, Order(cmd, true))), events), At(later, GetError(failedKey)));
            Settled(m, cmd, 0) && (Settled(m, cmd, k) <==> k == 0)
  {
    var start := Step(n, At(now, Order(cmd, true)));
    FireProbes(n, cmd, 1, 0, now + PATIENCE, stored);
    ProbeIsExact(start, cmd, events, stored, k);
    assert Probe(start, events).phase.pending == cmd;
  }

  /** A record made for another recipient does not verify, so an answer for another user's key never adds a number. */
  lemma OtherRecipientsRecordIsRejected(v: Value, other: UserHash, user: UserHash, seqNo: nat, seqNo': nat)
    requires v.Envelope? && v.seqNo < U64 && Verified(v, other, seqNo) && other != user
    ensures !Verified(v, user, seqNo')
  {
    assert other[..32] == other && user[..32] == user;
    if VerifyBuffer(v.payload, v.seqNo, other) == VerifyBuffer(v.payload, v.seqNo, user) {
      VerifyBufferBinds(v.payload, v.seqNo, other, v.payload, v.seqNo, user);
    }
  }
}
