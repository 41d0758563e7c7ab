/** The gateway's rate limiter, over the reals. */
module TokenBuckets {
  datatype Bucket = Bucket(tokens: real, lastRefill: real, rate: real, capacity: real)

  /** One call of `try_consume`: the clock is read for the elapsed time and once more to restart it. */
  datatype Call = Call(amount: real, read: real, restart: real)

  function Refilled(b: Bucket, read: real, restart: real): Bucket {
    var elapsed := if read > b.lastRefill then read - b.lastRefill else 0.0;
    var tokens := b.tokens + elapsed * b.rate;
    b.(tokens := if tokens < b.capacity then tokens else b.capacity, lastRefill := restart)
  }

  function Consuming(b: Bucket, c: Call): (Bucket, bool) {
    var r := Refilled(b, c.read, c.restart);
    if r.tokens >= c.amount then (r.(tokens := r.tokens - c.amount), true) else (r, false)
  }

  class TokenBucket {
    var tokens: real
    var lastRefill: real
    const rate: real
    const capacity: real

    function View(): Bucket
      reads this
    {
      Bucket(tokens, lastRefill, rate, capacity)
    }

    constructor (rate: real, capacity: real, now: real)
      ensures View() == Bucket(capacity, now, rate, capacity)
    {
      tokens, lastRefill, this.rate, this.capacity := capacity, now, rate, capacity;
    }

    method TryConsume(c: Call) returns (ok: bool)
      modifies this
      ensures (View(), ok) == Consuming(old(View()), c)
    {
      Refill(c.read, c.restart);
      if tokens >= c.amount {
        tokens := tokens - c.amount;
        return true;
      }
      return false;
    }

    method Refill(read: real, restart: real)
      modifies this
      ensures View() == Refilled(old(View()), read, restart)
    {
      var elapsed := if read > lastRefill then read - lastRefill else 0.0;
      tokens := tokens + elapsed * rate;
      if tokens >= capacity {
        tokens := capacity;
      }
      lastRefill := restart;
    }
  }

  // ── Runs of calls ─────────────────────────────────────────────────

  function Run(b: Bucket, calls: seq<Call>): Bucket
    decreases |calls|
  {
    if |calls| == 0 then b else Run(Consuming(b, calls[0]).0, calls[1..])
  }

  function Consumed(b: Bucket, calls: seq<Call>): real
    decreases |calls|
  {
    if |calls| == 0 then 0.0
    else
      var (after, ok) := Consuming(b, calls[0]);
      (if ok then calls[0].amount else 0.0) + Consumed(after, calls[1..])
  }

  /** The clock does not go back, the calls fall between `from` and `to`, and nobody takes less than nothing. */
  predicate Within(calls: seq<Call>, from: real, to: real) {
    if |calls| == 0 then from <= to
    else calls[0].amount >= 0.0 && from <= calls[0].read <= calls[0].restart && Within(calls[1..], calls[0].restart, to)
  }

  predicate Holds(b: Bucket) { b.rate >= 0.0 && 0.0 <= b.tokens <= b.capacity }

  /** What the rate brings in. */
  function Income(rate: real, from: real, to: real): real { (to - from) * rate }

  lemma IncomeAdds(rate: real, a: real, b: real, c: real)
    ensures Income(rate, a, c) == Income(rate, a, b) + Income(rate, b, c)
  {
  }

  lemma IncomeIsNotNegative(rate: real, a: real, b: real)
    requires rate >= 0.0 && a <= b
    ensures Income(rate, a, b) >= 0.0
  {
  }

  function Taken(b: Bucket, c: Call): real { if Consuming(b, c).1 then c.amount else 0.0 }

  lemma OneCall(b: Bucket, c: Call)
    requires Holds(b) && c.amount >= 0.0
    ensures var after := Consuming(b, c).0;
            Holds(after) && after.rate == b.rate && after.capacity == b.capacity && after.lastRefill == c.restart
            && Taken(b, c) + after.tokens <= b.capacity
            && (b.lastRefill <= c.read ==>
                Taken(b, c) + after.tokens <= b.tokens + Income(b.rate, b.lastRefill, c.read))
  {
    if b.lastRefill <= c.read {
      IncomeIsNotNegative(b.rate, b.lastRefill, c.read);
    }
  }

  lemma {:induction false} TokensStayInside(b: Bucket, calls: seq<Call>, from: real, to: real)
    requires Holds(b) && Within(calls, from, to)
    ensures var after := Run(b, calls);
            Holds(after) && after.rate == b.rate && after.capacity == b.capacity
    decreases |calls|
  {
    if |calls| == 0 {
    } else {
      OneCall(b, calls[0]);
      TokensStayInside(Consuming(b, calls[0]).0, calls[1..], calls[0].restart, to);
    }
  }

  lemma {:induction false} WithinIsOrdered(calls: seq<Call>, from: real, to: real)
    requires Within(calls, from, to)
    ensures from <= to
    decreases |calls|
  {
    if |calls| == 0 {
    } else {
      WithinIsOrdered(calls[1..], calls[0].restart, to);
    }
  }

  /** What is taken and what is left are covered by what was there and what came in. */
  lemma {:induction false} TokensAreConserved(b: Bucket, calls: seq<Call>, to: real)
    requires Holds(b) && Within(calls, b.lastRefill, to)
    ensures Consumed(b, calls) + Run(b, calls).tokens <= b.tokens + Income(b.rate, b.lastRefill, to)
    decreases |calls|
  {
    if |calls| == 0 {
      IncomeIsNotNegative(b.rate, b.lastRefill, to);
    } else {
      var c := calls[0];
      OneCall(b, c);
      TokensAreConserved(Consuming(b, c).0, calls[1..], to);
      IncomeIsNotNegative(b.rate, c.read, c.restart);
      IncomeAdds(b.rate, b.lastRefill, c.read, to);
      IncomeAdds(b.rate, c.read, c.restart, to);
    }
  }

  /** What a call leaves and takes is what it found and what came in, or a full bucket. */
  lemma CallBalance(b: Bucket, c: Call)
    requires b.lastRefill <= c.read
    ensures var after, found := Consuming(b, c).0, b.tokens + Income(b.rate, b.lastRefill, c.read);
            && Taken(b, c) + after.tokens == (if found < b.capacity then found else b.capacity)
            && after.lastRefill == c.restart && after.rate == b.rate && after.capacity == b.capacity
  {
  }

  /** What comes in while the bucket is full, and between the two readings of one call, is lost. */
  function Lost(b: Bucket, calls: seq<Call>): real
    decreases |calls|
  {
    if |calls| == 0 then 0.0
    else
      var c := calls[0];
      var found := b.tokens + Income(b.rate, b.lastRefill, c.read);
      (if found > b.capacity then found - b.capacity else 0.0) + Income(b.rate, c.read, c.restart)
      + Lost(Consuming(b, c).0, calls[1..])
  }

  /** What is taken, left and lost is exactly what was there and what came in. */
  lemma {:induction false} EveryTokenIsAccountedFor(b: Bucket, calls: seq<Call>, to: real)
    requires Within(calls, b.lastRefill, to)
    ensures Consumed(b, calls) + Run(b, calls).tokens + Lost(b, calls)
            == b.tokens + Income(b.rate, b.lastRefill, Run(b, calls).lastRefill)
    decreases |calls|
  {
    if |calls| == 0 {
    } else {
      var c := calls[0];
      CallBalance(b, c);
      EveryTokenIsAccountedFor(Consuming(b, c).0, calls[1..], to);
      var end := Run(b, calls).lastRefill;
      IncomeAdds(b.rate, b.lastRefill, c.read, end);
      IncomeAdds(b.rate, c.read, c.restart, end);
      hide Consuming, Income, Taken;
    }
  }

  /** No call finds more than the bucket holds, and no time passes between its two readings. */
  predicate NeverSpills(b: Bucket, calls: seq<Call>)
    decreases |calls|
  {
    |calls| > 0 ==>
      && calls[0].read == calls[0].restart
      && b.tokens + Income(b.rate, b.lastRefill, calls[0].read) <= b.capacity
      && NeverSpills(Consuming(b, calls[0]).0, calls[1..])
  }

  /** So taken and left are all of it as long as the bucket has room. */
  lemma NothingIsLost(b: Bucket, calls: seq<Call>, to: real)
    requires Within(calls, b.lastRefill, to) && NeverSpills(b, calls)
    ensures Consumed(b, calls) + Run(b, calls).tokens
            == b.tokens + Income(b.rate, b.lastRefill, Run(b, calls).lastRefill)
  {
    EveryTokenIsAccountedFor(b, calls, to);
    NoLoss(b, calls);
  }

  lemma {:induction false} NoLoss(b: Bucket, calls: seq<Call>)
    requires NeverSpills(b, calls)
    ensures Lost(b, calls) == 0.0
    decreases |calls|
  {
    if |calls| == 0 {
    } else {
      NoLoss(Consuming(b, calls[0]).0, calls[1..]);
    }
  }

  /** From any state the bucket gives out no more than a full one would. */
  lemma FullBucketCovers(b: Bucket, calls: seq<Call>, from: real, to: real)
    requires Holds(b) && Within(calls, from, to)
    ensures Consumed(b, calls) <= b.capacity + Income(b.rate, from, to)
  {
    WithinIsOrdered(calls, from, to);
    if |calls| == 0 {
      IncomeIsNotNegative(b.rate, from, to);
    } else {
      var c := calls[0];
      var after := Consuming(b, c).0;
      OneCall(b, c);
      TokensAreConserved(after, calls[1..], to);
      TokensStayInside(after, calls[1..], c.restart, to);
      IncomeIsNotNegative(b.rate, from, c.restart);
      IncomeAdds(b.rate, from, c.restart, to);
    }
  }

  /**
   Between any two times a bucket gives out at most its capacity and what the
   rate brings in, whatever happened before.
   */
  lemma ConsumptionIsBounded(b: Bucket, before: seq<Call>, calls: seq<Call>, from: real, to: real)
    requires Holds(b) && Within(before, b.lastRefill, from) && Within(calls, from, to)
    ensures Consumed(Run(b, before), calls) <= b.capacity + Income(b.rate, from, to)
  {
    TokensStayInside(b, before, b.lastRefill, from);
    FullBucketCovers(Run(b, before), calls, from, to);
  }

  // ── What it grants ────────────────────────────────────────────────

  /**
   What the rate brings in over the calls and up to a further reading of the
   clock, from time `since` on. Between the two readings of one call nothing
   comes in.
   */
  function Earned(rate: real, since: real, calls: seq<Call>, read: real): real
    decreases |calls|
  {
    if |calls| == 0 then Income(rate, since, read)
    else Income(rate, since, calls[0].read) + Earned(rate, calls[0].restart, calls[1..], read)
  }

  /** From call `j` on, which may have found the bucket full, there is room for `c`. */
  predicate FitsSpan(b: Bucket, calls: seq<Call>, c: Call, j: nat)
    requires j < |calls|
  {
    Consumed(Run(b, calls[..j]), calls[j..]) + c.amount
    <= b.capacity + Earned(b.rate, calls[j].restart, calls[j + 1..], c.read)
  }

  /**
   In every span that ends with `c`, what was taken and what `c` asks for are
   covered by a full bucket and what came in; and since the beginning by what
   was there and what came in.
   */
  predicate IsCovered(b: Bucket, calls: seq<Call>, c: Call) {
    && c.amount <= b.capacity
    && Consumed(b, calls) + c.amount <= b.tokens + Earned(b.rate, b.lastRefill, calls, c.read)
    && forall j | 0 <= j < |calls| :: FitsSpan(b, calls, c, j)
  }

  lemma SpanOfRest(b: Bucket, calls: seq<Call>, c: Call, j: nat)
    requires 0 < j < |calls|
    ensures FitsSpan(b, calls, c, j) <==> FitsSpan(Consuming(b, calls[0]).0, calls[1..], c, j - 1)
  {
    assert calls[..j][1..] == calls[1..][..j - 1] && calls[..j][0] == calls[0];
    assert calls[j..] == calls[1..][j - 1..] && calls[j + 1..] == calls[1..][j..];
  }

  lemma GrantedNow(b: Bucket, c: Call)
    requires b.lastRefill <= c.read
    ensures Consuming(b, c).1 <==>
            c.amount <= b.capacity && c.amount <= b.tokens + Income(b.rate, b.lastRefill, c.read)
  {
  }

  /** The first call leaves the smaller of two sums, and so is covered when both are. */
  lemma FirstIsCovered(b: Bucket, calls: seq<Call>, c: Call)
    requires |calls| > 0 && b.lastRefill <= calls[0].read
    ensures var after, rest := Consuming(b, calls[0]).0, calls[1..];
            Consumed(after, rest) + c.amount <= after.tokens + Earned(b.rate, after.lastRefill, rest, c.read)
            <==> FitsSpan(b, calls, c, 0)
                 && Consumed(b, calls) + c.amount <= b.tokens + Earned(b.rate, b.lastRefill, calls, c.read)
  {
    CallBalance(b, calls[0]);
    assert Consumed(b, calls) == Taken(b, calls[0]) + Consumed(Consuming(b, calls[0]).0, calls[1..]);
    assert calls[..0] == [] && calls[0..] == calls;
    hide Consuming, Income, Taken;
  }

  /**
   After any calls, a call is granted if and only if it is covered. So a client
   that stays within the rate and the capacity is never refused, and nobody
   else is ever served.
   */
  lemma {:induction false} GrantedExactly(b: Bucket, calls: seq<Call>, c: Call)
    requires Within(calls, b.lastRefill, c.read)
    ensures Consuming(Run(b, calls), c).1 <==> IsCovered(b, calls, c)
    decreases |calls|
  {
    hide Refilled, Income;
    if |calls| == 0 {
      GrantedNow(b, c);
      assert Run(b, calls) == b && Consumed(b, calls) == 0.0;
    } else {
      var after, rest := Consuming(b, calls[0]).0, calls[1..];
      CallBalance(b, calls[0]);
      GrantedExactly(after, rest, c);
      forall j | 0 < j < |calls| ensures FitsSpan(b, calls, c, j) <==> FitsSpan(after, rest, c, j - 1) {
        SpanOfRest(b, calls, c, j);
      }
      FirstIsCovered(b, calls, c);
      assert forall j | 0 <= j < |rest| :: FitsSpan(b, calls, c, j + 1) <==> FitsSpan(after, rest, c, j);
    }
  }

  function Requested(calls: seq<Call>): real {
    if |calls| == 0 then 0.0 else calls[0].amount + Requested(calls[1..])
  }

  lemma {:induction false} TakenWasRequested(b: Bucket, calls: seq<Call>, from: real, to: real, j: nat)
    requires Within(calls, from, to) && j <= |calls|
    ensures Consumed(Run(b, calls[..j]), calls[j..]) <= Requested(calls[j..])
    decreases |calls|
  {
    if |calls| == 0 {
    } else if j == 0 {
      var after := Consuming(b, calls[0]).0;
      TakenWasRequested(after, calls[1..], calls[0].restart, to, 0);
      assert calls[..0] == [] && calls[0..] == calls && calls[1..][..0] == [] && calls[1..][0..] == calls[1..];
    } else {
      TakenWasRequested(Consuming(b, calls[0]).0, calls[1..], calls[0].restart, to, j - 1);
      assert calls[..j][1..] == calls[1..][..j - 1] && calls[..j][0] == calls[0] && calls[j..] == calls[1..][j - 1..];
    }
  }

  /** A client whose requests stay within the rate and the capacity in every span is never refused. */
  lemma ModestIsNeverRefused(b: Bucket, calls: seq<Call>, c: Call)
    requires Within(calls, b.lastRefill, c.read) && c.amount <= b.capacity
    requires Requested(calls) + c.amount <= b.tokens + Earned(b.rate, b.lastRefill, calls, c.read)
    requires forall j | 0 <= j < |calls| ::
               Requested(calls[j..]) + c.amount <=
               b.capacity + Earned(b.rate, calls[j].restart, calls[j + 1..], c.read)
    ensures Consuming(Run(b, calls), c).1
  {
    GrantedExactly(b, calls, c);
    TakenWasRequested(b, calls, b.lastRefill, c.read, 0);
    assert calls[..0] == [] && calls[0..] == calls;
    forall j | 0 <= j < |calls| ensures FitsSpan(b, calls, c, j) {
      TakenWasRequested(b, calls, b.lastRefill, c.read, j);
    }
  }
}
