/** A relay's batch, waits and backoff, in nanoseconds. */
module RelayScan {
  import opened Schema
  import opened OutboxHeads

  newtype int64 = x: int | -0x8000_0000_0000_0000 <= x < 0x8000_0000_0000_0000

  const SECOND: int64 := 1_000_000_000
  const RETRY_CAP: int64 := 300_000_000_000
  const MAX_PARALLEL := 16

  // ---------- backoff ----------

  function Pow2(n: nat): (p: nat)
    ensures p >= 1
  {
    if n == 0 then 1 else 2 * Pow2(n - 1)
  }

  /** One second, doubled for every attempt after the first, up to five minutes. */
  function Backoff(attempt: int): nat {
    var delay := Pow2(if attempt <= 1 then 0 else attempt - 1) * SECOND as int;
    if delay > RETRY_CAP as int then RETRY_CAP as int else delay
  }

  lemma {:induction false} Pow2Grows(m: nat, n: nat)
    requires m <= n
    ensures Pow2(m) <= Pow2(n)
    decreases n - m
  {
    if m < n { Pow2Grows(m, n - 1); }
  }

  /** The first attempt waits a second, and every further one twice as long, up to five minutes. */
  lemma BackoffDoubles(a: int)
    ensures a <= 1 ==> Backoff(a) == 1_000_000_000
    ensures a >= 1 ==> Backoff(a + 1) == if 2 * Backoff(a) < 300_000_000_000 then 2 * Backoff(a) else 300_000_000_000
  {
    if a >= 1 {
      assert Pow2(a) == 2 * Pow2(a - 1);
    }
  }

  lemma FirstDelays()
    ensures Backoff(1) == 1_000_000_000 && Backoff(2) == 2_000_000_000
  {
    BackoffDoubles(1);
  }

  /** Later attempts never wait less, and no wait leaves the range from a second to five minutes. */
  lemma BackoffGrows(a: int, b: int)
    requires a <= b
    ensures 1_000_000_000 <= Backoff(a) <= Backoff(b) <= 300_000_000_000
  {
    Pow2Grows(0, if a <= 1 then 0 else a - 1);
    Pow2Grows(if a <= 1 then 0 else a - 1, if b <= 1 then 0 else b - 1);
  }

  /** The loop over 64-bit integers computes it for every 64-bit attempt, and neither the
      doubling nor the counter overflows on the way. */
  method RetryDelay(attempt: int64) returns (delay: int64)
    ensures delay as int == Backoff(attempt as int)
  {
    delay := SECOND;
    var i: int64 := 1;
    while i < attempt && delay < RETRY_CAP
      invariant 1 <= i <= 10 && (i > 1 ==> i <= attempt)
      invariant delay as int == Pow2(i as int - 1) * SECOND as int
      invariant Pow2(8) == 256 && (i == 10 ==> delay >= RETRY_CAP)
      decreases 10 - i
    {
      delay := delay * 2;
      i := i + 1;
    }
    if i < attempt { Pow2Grows(i as int - 1, attempt as int - 1); }
    if delay > RETRY_CAP { return RETRY_CAP; }
  }

  // ---------- selection ----------

  function Due(events: seq<Row>, now: Time): (due: seq<Row>)
    ensures forall r :: r in due <==> r in events && r.nextAttemptAt <= now
  {
    if events == [] then []
    else
      var n := |events| - 1;
      assert forall r :: r in events <==> r in events[..n] || r == events[n];
      if events[n].nextAttemptAt <= now then Due(events[..n], now) + [events[n]] else Due(events[..n], now)
  }

  function FirstDue(events: seq<Row>, now: Time): seq<Row> {
    var due := Due(events, now);
    if |due| <= MAX_PARALLEL then due else due[..MAX_PARALLEL]
  }

  lemma LoneDue(r: Row, now: Time)
    requires r.nextAttemptAt <= now
    ensures FirstDue([r], now) == [r]
  {
    assert Due([r][..0], now) == [];
  }

  /** The earliest retry still to come; 0, the zero time, for none. */
  predicate IsEarliestRetry(events: seq<Row>, now: Time, t: Time) {
    && (t != 0 ==> t > now && exists k :: 0 <= k < |events| && events[k].nextAttemptAt == t)
    && (forall k :: 0 <= k < |events| && events[k].nextAttemptAt > now ==> 0 < t <= events[k].nextAttemptAt)
  }

  lemma DueNext(events: seq<Row>, i: nat, now: Time)
    requires i < |events|
    ensures Due(events[..i + 1], now) == if events[i].nextAttemptAt <= now then Due(events[..i], now) + [events[i]]
              else Due(events[..i], now)
  {
    assert events[..i + 1][..i] == events[..i] && events[..i + 1][i] == events[i];
  }

  lemma FirstDueNext(events: seq<Row>, i: nat, now: Time)
    requires i < |events|
    ensures var taken := FirstDue(events[..i], now);
            FirstDue(events[..i + 1], now) ==
            if events[i].nextAttemptAt <= now && |taken| < MAX_PARALLEL then taken + [events[i]] else taken
  {
    DueNext(events, i, now);
    var due := Due(events[..i], now);
    if |due| >= MAX_PARALLEL { assert (due + [events[i]])[..MAX_PARALLEL] == due[..MAX_PARALLEL]; }
  }

  lemma EarliestNext(events: seq<Row>, i: nat, now: Time, t: Time)
    requires i < |events| && IsEarliestRetry(events[..i], now, t)
    ensures var next := events[i].nextAttemptAt;
            IsEarliestRetry(events[..i + 1], now, if next > now && (t == 0 || next < t) then next else t)
  {
    assert forall k :: 0 <= k < i ==> events[..i][k] == events[..i + 1][k];
    assert events[..i + 1][i] == events[i];
    if t != 0 {
      var k :| 0 <= k < i && events[..i][k].nextAttemptAt == t;
      assert events[..i + 1][k].nextAttemptAt == t;
    }
  }

  /** One pass over the heads. */
  method Scan(events: seq<Row>, now: Time) returns (due: seq<Row>, nextAttempt: Time)
    ensures due == FirstDue(events, now) && |due| <= 16
    ensures IsEarliestRetry(events, now, nextAttempt)
  {
    due, nextAttempt := [], 0;
    var i := 0;
    while i < |events|
      invariant 0 <= i <= |events|
      invariant due == FirstDue(events[..i], now)
      invariant IsEarliestRetry(events[..i], now, nextAttempt)
    {
      var candidate := events[i];
      FirstDueNext(events, i, now);
      EarliestNext(events, i, now, nextAttempt);
      if candidate.nextAttemptAt <= now {
        if |due| < MAX_PARALLEL { due := due + [candidate]; }
      } else if nextAttempt == 0 || candidate.nextAttemptAt < nextAttempt {
        nextAttempt := candidate.nextAttemptAt;
      }
      i := i + 1;
    }
    assert events[..i] == events;
  }

  lemma {:induction false} DueInOrder(events: seq<Row>, now: Time)
    requires InOrder(ByAge, events)
    ensures InOrder(ByAge, Due(events, now))
    decreases |events|
  {
    if events != [] {
      var n := |events| - 1;
      DueInOrder(events[..n], now);
      var d := Due(events[..n], now);
      forall k | 0 <= k < |d| ensures Older(d[k], events[n]) {
        assert d[k] in events[..n];
        var j :| 0 <= j < n && events[j] == d[k];
        assert Before(ByAge, events[j], events[n]);
      }
    }
  }

  /** A due head that is not taken has been passed over only for events created before it: the
      batch is full of them, or the fetch was. */
  lemma DisplacedByOlder(rows: map<Id, Row>, limit: nat, heads: seq<Row>, now: Time, h: Row)
    requires AreHeads(rows, limit, heads) && IsHead(rows, h)
    requires h.nextAttemptAt <= now && h !in FirstDue(heads, now)
    ensures forall r | r in FirstDue(heads, now) :: Older(r, h)
    ensures |FirstDue(heads, now)| == 16 || (|heads| == limit && forall r | r in heads :: Older(r, h))
    ensures forall r | r in FirstDue(heads, now) || (r in heads && |FirstDue(heads, now)| < 16) ::
              r.doc.createdAt < h.doc.createdAt || (r.doc.createdAt == h.doc.createdAt && r.id < h.id)
  {
    var due := Due(heads, now);
    assert InOrder(ByAge, heads);
    DueInOrder(heads, now);
    assert rows[h.id] == h;
    if h in heads {
      var j :| 0 <= j < |due| && due[j] == h;
      var taken := FirstDue(heads, now);
      assert forall i :: 0 <= i < |taken| ==> taken[i] == due[i] && taken[i] in taken;
      forall r | r in FirstDue(heads, now) ensures Older(r, h) {
        var i :| 0 <= i < MAX_PARALLEL && i < |due| && due[i] == r;
        assert Before(ByAge, due[i], due[j]);
      }
    } else {
      assert forall r :: r in FirstDue(heads, now) ==> r in due;
    }
  }

  // ---------- waiting ----------

  /** The idle wait. The clock is read twice, at `first` and, if needed, at `second`. */
  method IdleDelay(poll: int, nextAttempt: Time, first: Time, second: Time) returns (delay: int)
    requires poll > 0 && first <= second
    ensures 0 <= delay <= poll
    ensures nextAttempt != 0 ==> delay <= (if first < nextAttempt then nextAttempt - first else 0)
    ensures nextAttempt != 0 && delay < poll ==> second + delay == if second < nextAttempt then nextAttempt else second
    ensures nextAttempt == 0 ==> delay == poll
  {
    delay := poll;
    if nextAttempt != 0 && nextAttempt - first < delay { delay := nextAttempt - second; }
    if delay < 0 { delay := 0; }
  }
}
