/**
 Collecting a mailbox: what is reported, under any answers. Answers are not
 matched to queries; they are counted, and the i-th one speaks for number i.
 */
module Collecting {
  import opened Wrappers
  import opened Bytes
  import opened MailboxKeys
  import opened Mailbox

  /** Envelopes verified for the user, with strictly increasing numbers in 1..last. */
  ghost predicate Sound(messages: seq<Value>, user: UserHash, last: nat) {
    (forall i | 0 <= i < |messages| ::
       messages[i].Envelope? && 1 <= messages[i].seqNo <= last && Verified(messages[i], user, messages[i].seqNo))
    && (forall i, j | 0 <= i < j < |messages| :: messages[i].seqNo < messages[j].seqNo)
  }

  /** The phase still has the numbers `next`, …, `index` to ask for. */
  ghost predicate Gathering(p: Phase, index: nat) {
    p.Collecting? && 0 < |p.remaining| <= index
    && (forall i | 0 <= i < |p.remaining| :: p.remaining[i] == index - |p.remaining| + 1 + i)
    && Sound(p.messages, p.user, index - |p.remaining|)
  }

  predicate IsAnswer(e: Event) { e.NotFound? || (e.Found? && !IsProfileKey(e.key)) }

  function Carried(e: Event): Option<Value> { if e.Found? then Some(e.value) else None }

  // ── One answer ────────────────────────────────────────────────────

  lemma AppendSound(messages: seq<Value>, user: UserHash, last: nat, v: Value)
    requires Sound(messages, user, last) && Verified(v, user, last + 1)
    ensures Sound(messages + [v], user, last + 1)
  {
  }

  /** One report, or none, and only the next number is accepted. */
  ghost predicate Gathers(n: Node, m: Node, index: nat)
    requires n.phase.Collecting?
  {
    var user := n.phase.user;
    if m.phase.Collecting? then
      Gathering(m.phase, index) && m.phase.user == user
      && m.phase.deadline == n.phase.deadline && m.emitted == n.emitted
    else
      m.phase.Idle? && |m.emitted| == |n.emitted| + 1 && m.emitted[..|n.emitted|] == n.emitted
      && m.emitted[|n.emitted|].user == user && Sound(m.emitted[|n.emitted|].messages, user, index)
  }

  lemma CollectGathers(n: Node, index: nat, value: Option<Value>)
    requires Gathering(n.phase, index)
    ensures var m := Collect(n, value);
            Gathers(n, m, index) && (m.phase.Collecting? ==> |m.phase.remaining| == |n.phase.remaining| - 1)
  {
    var p, m := n.phase, Collect(n, value);
    var next := p.remaining[0];
    var accepted := value.Some? && Verified(value.value, p.user, next);
    var messages := if accepted then p.messages + [value.value] else p.messages;
    if accepted {
      AppendSound(p.messages, p.user, next - 1, value.value);
    }
    assert Sound(messages, p.user, next);
    if |p.remaining| == 1 {
      assert m.emitted[..|n.emitted|] == n.emitted;
    }
  }

  lemma StopGathers(n: Node, index: nat)
    requires Gathering(n.phase, index)
    ensures Gathers(n, Emit(n, n.phase.user, n.phase.messages), index)
  {
    assert (n.emitted + [Retrieved(n.phase.user, n.phase.messages)])[..|n.emitted|] == n.emitted;
  }

  lemma StepGathers(n: Node, index: nat, t: Timed)
    requires Gathering(n.phase, index)
    ensures var m := Step(n, t);
            Gathers(n, m, index)
            && (m.phase.Collecting? && IsAnswer(t.event) ==> |m.phase.remaining| == |n.phase.remaining| - 1)
  {
    hide Sound, Collect;
    var m := Handle(n, t.event, t.now);
    if IsAnswer(t.event) {
      CollectGathers(n, index, Carried(t.event));
    } else {
      StopGathers(n, index);
    }
    if m.phase.Collecting? {
      StopGathers(m, index);
    }
  }

  // ── Whole runs ────────────────────────────────────────────────────

  /** A collecting node works off exactly the numbers 1..index of its user. */
  ghost predicate CollectsItsIndex(n: Node) {
    n.phase.Collecting? ==> n.phase.user in n.indices && Gathering(n.phase, n.indices[n.phase.user])
  }

  lemma StartGathers(n: Node, user: UserHash, index: pos, now: nat)
    ensures Gathering(StartCollecting(n, user, index, now).phase, index)
  {
  }

  lemma ResumeCollects(n: Node, cmd: Command, index: nat, now: nat)
    requires UserOf(cmd) in n.indices && n.indices[UserOf(cmd)] == index
    ensures CollectsItsIndex(Resume(n, cmd, index, now))
  {
    if cmd.RetrieveFor? && index > 0 {
      StartGathers(n, cmd.reader, index, now);
    }
  }

  lemma TryResolveCollects(n: Node, now: nat)
    requires n.phase.FetchingIndex?
    ensures CollectsItsIndex(TryResolve(n, now))
  {
    var p := n.phase;
    match ScanFrom(p.windowStart, p.windowStart + WINDOW_SIZE, p.queries, p.found)
    case Gap(s) => ResumeCollects(n.(indices := n.indices[UserOf(p.pending) := s - 1]), p.pending, s - 1, now);
    case _ =>
  }

  lemma CommandCollects(n: Node, cmd: Command, hasPeers: bool, now: nat)
    requires n.phase.Idle?
    ensures CollectsItsIndex(HandleCommand(n, cmd, hasPeers, now))
  {
    var s := Seed(n, UserOf(cmd));
    if cmd.RetrieveFor? && cmd.reader in s.indices && s.indices[cmd.reader] > 0 {
      StartGathers(s, cmd.reader, s.indices[cmd.reader], now);
    }
  }

  lemma HandleCollects(n: Node, e: Event, now: nat)
    requires !n.phase.Collecting?
    ensures CollectsItsIndex(Handle(n, e, now))
  {
    match e
    case Order(cmd, hasPeers) =>
      if n.phase.Idle? {
        CommandCollects(n, cmd, hasPeers, now);
      }
    case Found(id, key, value) =>
      if n.phase.FetchingIndex? && !IsProfileKey(key) && ParseMailboxKey(key).Some? {
        TryResolveCollects(NoteFound(n, id, ParseMailboxKey(key).value.1, value), now);
      }
    case NotFound(id) =>
      if n.phase.FetchingIndex? && id in n.phase.queries {
        TryResolveCollects(n.(phase := n.phase.(queries := n.phase.queries - {id})), now);
      }
    case _ =>
  }

  lemma StepCollects(n: Node, t: Timed)
    requires CollectsItsIndex(n)
    ensures CollectsItsIndex(Step(n, t))
  {
    if n.phase.Collecting? {
      StepGathers(n, n.indices[n.phase.user], t);
    } else {
      HandleCollects(n, t.event, t.now);
    }
  }

  lemma {:induction false} RunCollects(n: Node, events: seq<Timed>)
    requires CollectsItsIndex(n)
    ensures CollectsItsIndex(Run(n, events))
    decreases |events|
  {
    if |events| == 0 {
    } else {
      StepCollects(n, events[0]);
      RunCollects(Step(n, events[0]), events[1..]);
    }
  }

  /**
   In every run, whatever is answered, lost or late, a collecting node reports
   once, and only verified envelopes of its user, in increasing order, numbered
   within its index.
   */
  lemma ReportsAreSound(n: Node, events: seq<Timed>, t: Timed)
    requires IsStart(n) && Run(n, events).phase.Collecting?
    ensures var before := Run(n, events);
            before.phase.user in before.indices && Gathers(before, Step(before, t), before.indices[before.phase.user])
  {
    RunCollects(n, events);
    StepGathers(Run(n, events), Run(n, events).indices[Run(n, events).phase.user], t);
  }

  // ── What is reported, exactly ─────────────────────────────────────

  /** The node when it stops collecting, or when the events end. */
  ghost function Gather(n: Node, events: seq<Timed>): Node
    decreases |events|
  {
    if |events| == 0 || !n.phase.Collecting? then n else Gather(Step(n, events[0]), events[1..])
  }

  function AnswersIn(events: seq<Timed>): seq<Option<Value>> {
    if |events| == 0 then []
    else (if IsAnswer(events[0].event) then [Carried(events[0].event)] else []) + AnswersIn(events[1..])
  }

  /** The answers that verify, each for the number of its position. */
  function Accepted(answers: seq<Option<Value>>, user: UserHash, first: nat): seq<Value> {
    if |answers| == 0 then []
    else
      (if answers[0].Some? && Verified(answers[0].value, user, first) then [answers[0].value] else [])
      + Accepted(answers[1..], user, first + 1)
  }

  /** The messages of a phase together with what `answers` add to them. */
  function Added(messages: seq<Value>, answers: seq<Option<Value>>, user: UserHash, first: nat): seq<Value> {
    messages + Accepted(answers, user, first)
  }

  /** Any events whatever: `index` answers end the phase. */
  lemma {:induction false} CollectingEnds(n: Node, index: nat, events: seq<Timed>)
    requires Gathering(n.phase, index)
    ensures Gathers(n, Gather(n, events), index)
    ensures |AnswersIn(events)| >= |n.phase.remaining| ==> Gather(n, events).phase.Idle?
    decreases |events|
  {
    if |events| == 0 {
    } else {
      StepGathers(n, index, events[0]);
      var m := Step(n, events[0]);
      if m.phase.Collecting? {
        CollectingEnds(m, index, events[1..]);
      } else {
        assert Gather(m, events[1..]) == m;
      }
    }
  }

  predicate Undisturbed(events: seq<Timed>, deadline: nat) {
    forall t | t in events :: t.now < deadline && !t.event.GetError?
  }

  /** What `answers` have come to, from a phase that was collecting. */
  ghost predicate CameTo(n: Node, m: Node, answers: seq<Option<Value>>)
    requires n.phase.Collecting? && |n.phase.remaining| > 0
  {
    var p := n.phase;
    if |answers| < |p.remaining| then
      m.phase == Collecting(p.user, Added(p.messages, answers, p.user, p.remaining[0]), p.remaining[|answers|..],
                            p.deadline)
      && m.emitted == n.emitted
    else
      m.phase.Idle? && m.emitted
      == n.emitted + [Retrieved(p.user, Added(p.messages, answers[..|p.remaining|], p.user, p.remaining[0]))]
  }

  function Kept(messages: seq<Value>, value: Option<Value>, user: UserHash, seqNo: nat): seq<Value> {
    if value.Some? && Verified(value.value, user, seqNo) then messages + [value.value] else messages
  }

  lemma AddFirst(messages: seq<Value>, value: Option<Value>, answers: seq<Option<Value>>, user: UserHash, first: nat)
    ensures Added(messages, [value] + answers, user, first) ==
            Added(Kept(messages, value, user, first), answers, user, first + 1)
  {
    assert ([value] + answers)[1..] == answers;
  }

  lemma AddNothing(messages: seq<Value>, user: UserHash, first: nat)
    ensures Added(messages, [], user, first) == messages
  {
  }

  lemma LastAnswer(n: Node, value: Option<Value>, answers: seq<Option<Value>>)
    requires n.phase.Collecting? && |n.phase.remaining| == 1
    ensures CameTo(n, Collect(n, value), [value] + answers)
  {
    var p := n.phase;
    var next := p.remaining[0];
    AddFirst(p.messages, value, [], p.user, next);
    AddNothing(Kept(p.messages, value, p.user, next), p.user, next + 1);
    assert ([value] + answers)[..1] == [value] + [];
  }

  lemma OneAnswer(n: Node, value: Option<Value>, answers: seq<Option<Value>>, m: Node)
    requires n.phase.Collecting? && |n.phase.remaining| > 1 && n.phase.remaining[1] == n.phase.remaining[0] + 1
    requires CameTo(Collect(n, value), m, answers)
    ensures CameTo(n, m, [value] + answers)
  {
    var p, all := n.phase, [value] + answers;
    if |all| < |p.remaining| {
      AddFirst(p.messages, value, answers, p.user, p.remaining[0]);
      assert p.remaining[1..][|answers|..] == p.remaining[|all|..];
    } else {
      var taken := answers[..|p.remaining| - 1];
      AddFirst(p.messages, value, taken, p.user, p.remaining[0]);
      assert all[..|p.remaining|] == [value] + taken;
    }
  }

  lemma OtherEvent(n: Node, index: nat, t: Timed)
    requires Gathering(n.phase, index) && !IsAnswer(t.event) && t.now < n.phase.deadline && !t.event.GetError?
    ensures var m := Step(n, t);
            m.phase == n.phase && m.emitted == n.emitted
  {
  }

  /** The report, as a function of the answers alone. */
  lemma {:induction false} ReportIsExact(n: Node, index: nat, events: seq<Timed>)
    requires Gathering(n.phase, index) && Undisturbed(events, n.phase.deadline)
    ensures CameTo(n, Gather(n, events), AnswersIn(events))
    decreases |events|
  {
    if |events| == 0 {
      AddNothing(n.phase.messages, n.phase.user, n.phase.remaining[0]);
    } else {
      var t := events[0];
      var m := Step(n, t);
      StepGathers(n, index, t);
      assert Undisturbed(events[1..], n.phase.deadline);
      if m.phase.Collecting? {
        ReportIsExact(m, index, events[1..]);
      }
      if !IsAnswer(t.event) {
        OtherEvent(n, index, t);
        assert AnswersIn(events) == AnswersIn(events[1..]);
      } else if |n.phase.remaining| == 1 {
        LastAnswer(n, Carried(t.event), AnswersIn(events[1..]));
      } else {
        OneAnswer(n, Carried(t.event), AnswersIn(events[1..]), Gather(n, events));
      }
    }
  }

  /**
   A failed lookup, or a tick at the deadline or after, cuts collecting short:
   what is reported then is what the answers so far have come to.
   */
  lemma InterruptedReportIsExact(n: Node, index: nat, events: seq<Timed>, last: Timed)
    requires Gathering(n.phase, index) && Undisturbed(events, n.phase.deadline)
    requires |AnswersIn(events)| < |n.phase.remaining|
    requires last.event.GetError? || (last.event.Tick? && last.now >= n.phase.deadline)
    ensures var p, m := n.phase, Step(Gather(n, events), last);
            && m.phase.Idle?
            && m.emitted ==
               n.emitted + [Retrieved(p.user, Added(p.messages, AnswersIn(events), p.user, p.remaining[0]))]
  {
    ReportIsExact(n, index, events);
  }

  /** A number is reported exactly when the answer of its position carried it. */
  lemma {:induction false} AcceptedExactly(answers: seq<Option<Value>>, user: UserHash, first: nat, s: nat)
    requires s >= first
    ensures (exists v :: v in Accepted(answers, user, first) && Verified(v, user, s))
            <==> s < first + |answers| && answers[s - first].Some? && Verified(answers[s - first].value, user, s)
    decreases |answers|
  {
    if |answers| == 0 {
    } else {
      AcceptedAreLater(answers[1..], user, first + 1);
      if s > first {
        AcceptedExactly(answers[1..], user, first + 1, s);
      }
    }
  }

  lemma {:induction false} AcceptedAreLater(answers: seq<Option<Value>>, user: UserHash, first: nat)
    ensures forall v | v in Accepted(answers, user, first) :: v.Envelope? && v.seqNo >= first
    decreases |answers|
  {
    if |answers| == 0 {
    } else {
      AcceptedAreLater(answers[1..], user, first + 1);
    }
  }

  /**
   A lookup that finds its record also finishes, and its finish is counted as
   an answer: of two stored messages the second is not reported.
   */
  lemma FinishCountsAsAnAnswer(n: Node, user: UserHash, first: Value, key: bytes, now: nat)
    requires Verified(first, user, 1) && !IsProfileKey(key)
    ensures var start := StartCollecting(n, user, 2, now);
            var id := n.nextQuery;
            Gather(start, [At(now, Found(id, key, first)), At(now, NotFound(id))]).emitted
            == n.emitted + [Retrieved(user, [first])]
  {
    var start, id := StartCollecting(n, user, 2, now), n.nextQuery;
    var events := [At(now, Found(id, key, first)), At(now, NotFound(id))];
    StartGathers(n, user, 2, now);
    ReportIsExact(start, 2, events);
    assert AnswersIn(events) == [Some(first), None] by {
      assert events[1..] == [At(now, NotFound(id))];
      assert AnswersIn(events[1..]) == [None] + AnswersIn([]);
    }
    FirstOfTwo(first, user);
    assert [Some(first), None] == [Some(first), None][..2];
  }

  lemma FirstOfTwo(first: Value, user: UserHash)
    requires Verified(first, user, 1)
    ensures Added([], [Some(first), None], user, 1) == [first]
  {
    var last: seq<Option<Value>> := [None];
    AddFirst([], Some(first), last, user, 1);
    AddFirst([first], None, [], user, 2);
    AddNothing([first], user, 3);
    assert [Some(first)] + last == [Some(first), None] && last + [] == last;
  }
}
