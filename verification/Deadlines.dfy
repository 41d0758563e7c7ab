/**
 A busy node does not stay busy: every phase has a deadline, and whatever is
 answered or not, the node is idle again in bounded time.
 */
module Deadlines {
  import opened MailboxKeys
  import opened Mailbox

  // ── One turn ──────────────────────────────────────────────────────

  lemma ResolveKeepsDeadline(n: Node, now: nat)
    requires n.phase.FetchingIndex?
    ensures var m := TryResolve(n, now);
            && (m.phase.FetchingIndex? ==> m.phase.deadline == n.phase.deadline)
            && (m.phase.Collecting? ==> m.phase.deadline == now + PATIENCE)
  {
    hide ScanFrom;
  }

  lemma HandleSetsDeadline(n: Node, e: Event, now: nat)
    ensures var m := Handle(n, e, now);
            && (m.phase.FetchingIndex? ==>
                  !n.phase.Collecting?
                  && m.phase.deadline == if n.phase.Idle? then now + PATIENCE else n.phase.deadline)
            && (m.phase.Collecting? ==>
                  m.phase.deadline == if n.phase.Collecting? then n.phase.deadline else now + PATIENCE)
  {
    hide TryResolve, TreeMax;
    if n.phase.FetchingIndex? {
      match e
      case Found(id, key, value) =>
        if !IsProfileKey(key) && ParseMailboxKey(key).Some? {
          ResolveKeepsDeadline(NoteFound(n, id, ParseMailboxKey(key).value.1, value), now);
        }
      case NotFound(id) =>
        if id in n.phase.queries {
          ResolveKeepsDeadline(n.(phase := n.phase.(queries := n.phase.queries - {id})), now);
        }
      case _ =>
    }
  }

  /**
   A phase that starts has `PATIENCE` from then on, and going on does not
   prolong it; collecting that follows on probing has a new span. After any
   turn, a busy node is within its deadline.
   */
  lemma DeadlineIsExact(n: Node, t: Timed)
    requires !Step(n, t).phase.Idle?
    ensures var m := Step(n, t);
            && (m.phase.FetchingIndex? ==> !n.phase.Collecting?)
            && m.phase.deadline == (if n.phase.Idle? || (n.phase.FetchingIndex? && m.phase.Collecting?)
                                    then t.now + PATIENCE else n.phase.deadline)
            && (!t.event.Drain? ==> t.now < m.phase.deadline)
  {
    HandleSetsDeadline(n, t.event, t.now);
    hide Handle;
  }

  /**
   The tick that finds a phase overdue ends it: a collecting node reports
   exactly what it has, and a probing one stores and reports nothing. Any other
   tick does nothing.
   */
  lemma TickExactly(n: Node, now: nat)
    ensures Step(n, At(now, Tick)) ==
            if n.phase.Idle? || now < n.phase.deadline then n
            else if n.phase.FetchingIndex? then n.(phase := Idle)
            else n.(phase := Idle, emitted := n.emitted + [Retrieved(n.phase.user, n.phase.messages)])
  {
  }

  /**
   An answer that is the first thing to happen after the deadline still counts:
   if it settles the index of a retrieval, collecting starts with a new span.
   */
  lemma OverdueAnswerCounts(n: Node, id: nat, now: nat)
    requires n.phase.FetchingIndex? && n.phase.pending.RetrieveFor? && id in n.phase.queries
    requires var p := n.phase;
             var scan := ScanFrom(p.windowStart, p.windowStart + WINDOW_SIZE, p.queries - {id}, p.found);
             scan.Gap? && scan.at > 1
    ensures var m := Step(n, At(now, NotFound(id)));
            m.phase.Collecting? && m.phase.deadline == now + PATIENCE
  {
  }

  // ── In bounded time ───────────────────────────────────────────────

  /**
   The loop turns at least every `gap`, as its own ticks see to, on a clock that
   does not go back. Draining is not a turn of the loop.
   */
  predicate Polled(events: seq<Timed>, last: nat, gap: nat) {
    |events| > 0 ==>
      var t := events[0];
      if t.event.Drain? then Polled(events[1..], last, gap)
      else last <= t.now <= last + gap && Polled(events[1..], t.now, gap)
  }

  function LastTurn(events: seq<Timed>, last: nat): nat {
    if |events| == 0 then last else LastTurn(events[1..], if events[0].event.Drain? then last else events[0].now)
  }

  ghost predicate AlwaysBusy(n: Node, events: seq<Timed>)
    decreases |events|
  {
    !n.phase.Idle? && (|events| > 0 ==> AlwaysBusy(Step(n, events[0]), events[1..]))
  }

  /** Probing goes on for so long, and collecting after it for so much longer. */
  predicate WithinSpans(p: Phase, last: nat, gap: nat, probing: nat) {
    !p.Idle? ==> last < p.deadline <= if p.FetchingIndex? then probing else probing + gap + PATIENCE
  }

  lemma {:induction false} BusyIsBounded(n: Node, events: seq<Timed>, last: nat, gap: nat, probing: nat)
    requires AlwaysBusy(n, events) && Polled(events, last, gap) && WithinSpans(n.phase, last, gap, probing)
    ensures LastTurn(events, last) < probing + gap + PATIENCE
    decreases |events|
  {
    if |events| == 0 {
    } else {
      var t := events[0];
      DeadlineIsExact(n, t);
      var now := if t.event.Drain? then last else t.now;
      if t.event.Drain? { assert Step(n, t).phase == n.phase; }
      hide Step;
      BusyIsBounded(Step(n, t), events[1..], now, gap, probing);
    }
  }

  lemma {:induction false} SomeIsIdle(n: Node, events: seq<Timed>) returns (j: nat)
    requires !AlwaysBusy(n, events)
    ensures j <= |events| && Run(n, events[..j]).phase.Idle?
    decreases |events|
  {
    if n.phase.Idle? {
      j := 0;
    } else {
      var k := SomeIsIdle(Step(n, events[0]), events[1..]);
      j := k + 1;
      assert events[..j][0] == events[0] && events[..j][1..] == events[1..][..k];
    }
  }

  /**
   Whatever makes an idle node busy at some time, and whatever is answered after
   that, in every run that goes on for twice its patience and one turn more the
   node is idle again at some point, and takes commands.
   */
  lemma BusyEnds(n: Node, t: Timed, events: seq<Timed>, gap: nat) returns (j: nat)
    requires n.phase.Idle? && !t.event.Drain? && Polled(events, t.now, gap)
    requires LastTurn(events, t.now) >= t.now + 2 * PATIENCE + gap
    ensures j <= |events| && Run(Step(n, t), events[..j]).phase.Idle?
  {
    var m := Step(n, t);
    if AlwaysBusy(m, events) {
      DeadlineIsExact(n, t);
      BusyIsBounded(m, events, t.now, gap, t.now + PATIENCE);
      assert false;
    }
    j := SomeIsIdle(m, events);
  }
}
