/**
 What a node asks the DHT for: in every run, what it remembers of its queries
 is what it asked.
 */
module Asking {
  import opened Wrappers
  import opened MailboxKeys
  import opened Mailbox
  import opened Collecting

  /** The last `count` queries asked for numbers 1, ..., count of the user, in order. */
  predicate AskedUpTo(asked: seq<(UserHash, nat)>, user: UserHash, count: nat) {
    count <= |asked| && asked[|asked| - count..] == seq(count, i => (user, i + 1))
  }

  lemma AsksOn(asked: seq<(UserHash, nat)>, user: UserHash, count: nat, more: nat)
    requires AskedUpTo(asked, user, count)
    ensures AskedUpTo(asked + seq(more, i => (user, count + 1 + i)), user, count + more)
  {
    var all := asked + seq(more, i => (user, count + 1 + i));
    assert all[|all| - (count + more)..] == asked[|asked| - count..] + seq(more, i => (user, count + 1 + i));
  }

  lemma NothingAsked(asked: seq<(UserHash, nat)>, user: UserHash)
    ensures AskedUpTo(asked, user, 0)
  {
  }

  lemma AsksOnce(asked: seq<(UserHash, nat)>, user: UserHash, count: nat)
    requires AskedUpTo(asked, user, count)
    ensures AskedUpTo(asked + [(user, count + 1)], user, count + 1)
  {
    AsksOn(asked, user, count, 1);
    assert seq(1, i => (user, count + 1 + i)) == [(user, count + 1)];
  }

  /**
   A probing node has asked, without a gap, for all numbers up to the end of its
   window, and each query it waits for asked for the number that it is noted
   under. A collecting node has asked for all numbers up to the next it expects.
   And no noted number exceeds the greatest that was verified.
   */
  ghost predicate AskedOk(n: Node) {
    && n.nextQuery == |n.asked|
    && match n.phase
       case Idle => true
       case FetchingIndex(pending, windowStart, maxFound, queries, found, _) =>
         && AskedUpTo(n.asked, UserOf(pending), windowStart + WINDOW_SIZE - 1)
         && (forall q | q in queries :: q < |n.asked| && n.asked[q] == (UserOf(pending), queries[q]))
         && (forall s | s in found :: s <= maxFound)
       case Collecting(user, _, remaining, _) => |remaining| > 0 && AskedUpTo(n.asked, user, remaining[0])
  }

  lemma FireAsks(n: Node, cmd: Command, start: pos, maxFound: nat, deadline: nat)
    requires n.nextQuery == |n.asked| && AskedUpTo(n.asked, UserOf(cmd), start - 1)
    ensures AskedOk(FireWindow(n, cmd, start, maxFound, deadline))
  {
    AsksOn(n.asked, UserOf(cmd), start - 1, WINDOW_SIZE);
    assert seq(WINDOW_SIZE, i => (UserOf(cmd), start - 1 + 1 + i)) == seq(WINDOW_SIZE, i => (UserOf(cmd), start + i));
    hide AskedUpTo;
  }

  lemma ResumeAsks(n: Node, cmd: Command, index: nat, now: nat)
    requires n.nextQuery == |n.asked|
    ensures AskedOk(Resume(n, cmd, index, now)) && AskedOk(Resume(n, cmd, index, now).(phase := Idle))
  {
    AsksOnce(n.asked, UserOf(cmd), 0);
    hide AskedUpTo;
  }

  lemma ResolveAsks(n: Node, now: nat)
    requires n.phase.FetchingIndex? && AskedOk(n)
    ensures AskedOk(TryResolve(n, now))
  {
    hide AskedUpTo, Resume, FireWindow;
    var p := n.phase;
    match ScanFrom(p.windowStart, p.windowStart + WINDOW_SIZE, p.queries, p.found)
    case Waiting =>
    case Gap(s) => ResumeAsks(n.(indices := n.indices[UserOf(p.pending) := s - 1]), p.pending, s - 1, now);
    case Full => FireAsks(n, p.pending, p.windowStart + WINDOW_SIZE, p.maxFound, p.deadline);
  }

  lemma CollectAsks(n: Node, index: nat, value: Option<Value>)
    requires n.phase.Collecting? && AskedOk(n) && Gathering(n.phase, index)
    ensures AskedOk(Collect(n, value))
  {
    AsksOnce(n.asked, n.phase.user, n.phase.remaining[0]);
    hide AskedUpTo, Sound, Verified;
  }

  lemma CommandAsks(n: Node, cmd: Command, hasPeers: bool, now: nat)
    requires AskedOk(n)
    ensures AskedOk(HandleCommand(n, cmd, hasPeers, now))
  {
    hide FireWindow, TreeMax, AskedUpTo, SignedEnvelope;
    if n.phase.Idle? {
      NothingAsked(n.asked, UserOf(cmd));
      FireAsks(Seed(n, UserOf(cmd)), cmd, 1, 0, now + PATIENCE);
      AsksOnce(n.asked, UserOf(cmd), 0);
    }
  }

  lemma NotedAsks(n: Node, id: nat)
    requires n.phase.FetchingIndex? && AskedOk(n)
    ensures AskedOk(n.(phase := n.phase.(queries := n.phase.queries - {id})))
  {
    hide AskedUpTo;
  }

  lemma FoundAsks(n: Node, id: nat, seqNo: nat, value: Value)
    requires n.phase.FetchingIndex? && AskedOk(n)
    ensures AskedOk(NoteFound(n, id, seqNo, value)) && NoteFound(n, id, seqNo, value).phase.FetchingIndex?
  {
    hide AskedUpTo, Verified;
  }

  lemma ProbingAsks(n: Node, e: Event, now: nat)
    requires n.phase.FetchingIndex? && AskedOk(n) && !e.Order?
    ensures AskedOk(Handle(n, e, now))
  {
    hide TryResolve, Resume, AskedOk, NoteFound;
    match e
    case Found(id, key, value) =>
      if !IsProfileKey(key) && ParseMailboxKey(key).Some? {
        FoundAsks(n, id, ParseMailboxKey(key).value.1, value);
        ResolveAsks(NoteFound(n, id, ParseMailboxKey(key).value.1, value), now);
      }
    case NotFound(id) =>
      if id in n.phase.queries {
        NotedAsks(n, id);
        ResolveAsks(n.(phase := n.phase.(queries := n.phase.queries - {id})), now);
      }
    case GetError(_) => FailureAsks(n, now);
    case Tick =>
    case Drain(_) => SameAsks(n, Handle(n, e, now));
  }

  lemma FailureAsks(n: Node, now: nat)
    requires n.phase.FetchingIndex? && AskedOk(n)
    ensures AskedOk(HandleGetError(n, None, now))
  {
    ResumeAsks(n.(indices := n.indices[UserOf(n.phase.pending) := 0]), n.phase.pending, 0, now);
    hide Resume;
  }

  lemma SameAsks(n: Node, m: Node)
    requires AskedOk(n) && m.asked == n.asked && m.nextQuery == n.nextQuery && (m.phase == n.phase || m.phase.Idle?)
    ensures AskedOk(m)
  {
  }

  lemma StepAsks(n: Node, t: Timed)
    requires AskedOk(n) && CollectsItsIndex(n)
    ensures AskedOk(Step(n, t))
  {
    hide AskedOk, Gathering, Collect, TryResolve, Resume, HandleCommand;
    var m := Handle(n, t.event, t.now);
    if t.event.Order? {
      CommandAsks(n, t.event.cmd, t.event.hasPeers, t.now);
    } else if n.phase.FetchingIndex? {
      ProbingAsks(n, t.event, t.now);
    } else if n.phase.Collecting? && IsAnswer(t.event) {
      CollectAsks(n, n.indices[n.phase.user], Carried(t.event));
    } else {
      SameAsks(n, m);
    }
    SameAsks(m, Step(n, t));
  }

  lemma {:induction false} RunAsks(n: Node, events: seq<Timed>)
    requires AskedOk(n) && CollectsItsIndex(n)
    ensures AskedOk(Run(n, events))
    decreases |events|
  {
    hide AskedOk, CollectsItsIndex;
    if |events| == 0 {
    } else {
      StepAsks(n, events[0]);
      StepCollects(n, events[0]);
      RunAsks(Step(n, events[0]), events[1..]);
    }
  }

  /** In every run the node's notes are true of what it asked. */
  lemma NotesAreTrue(n: Node, events: seq<Timed>)
    requires IsStart(n)
    ensures AskedOk(Run(n, events))
  {
    RunAsks(n, events);
  }
}
