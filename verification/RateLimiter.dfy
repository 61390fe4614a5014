/** The sliding-window rate limiter over its log table. Checks read a clock of milliseconds, rows are stamped in
    microseconds by the database when they are inserted. */
module RateLimiter {
  import opened Basics
  import opened Wrappers
  import opened Digits

  function Millis(seconds: int): int {
    1000 * seconds
  }

  function Micros(ms: int): int {
    1000 * ms
  }

  /** at is created_at, in microseconds. */
  datatype Row = Row(wallet: string, namespace: string, at: int)

  datatype Tier = Basic | Pro | Institutional | KycEnhanced

  datatype Outcome = Outcome(allowed: bool, remaining: int, limit: nat, windowSeconds: nat, retryAfter: Option<int>)

  // ---------------------------------------------------------------------------
  // Configuration
  // ---------------------------------------------------------------------------

  function UnitSeconds(unit: string): Option<nat> {
    if unit == "second" then Some(1)
    else if unit == "minute" then Some(60)
    else if unit == "hour" then Some(3600)
    else if unit == "day" then Some(86400)
    else None
  }

  /** "N/unit": the count and the length of the window in seconds. */
  function ParseRateLimit(s: string): Option<(nat, nat)> {
    var n := LeadingDigits(s);
    if n == 0 || n == |s| || s[n] != '/' then None
    else
      match UnitSeconds(s[n + 1..])
      case Some(seconds) => Some((Value(s[..n]), seconds))
      case None => None
  }

  lemma ParsedParts(s: string) returns (d: string, unit: string)
    requires ParseRateLimit(s).Some?
    ensures LimitString(s, d, unit)
  {
    var n := LeadingDigits(s);
    d, unit := s[..n], s[n + 1..];
    assert s == d + "/" + unit;
  }

  lemma ParseParts(s: string, d: string, unit: string)
    requires LimitString(s, d, unit)
    ensures ParseRateLimit(s) == Some((Value(d), UnitSeconds(unit).value))
  {
    LeadingDigitsOf(d, "/" + unit);
    assert s == d + ("/" + unit);
    assert s[..|d|] == d && s[|d| + 1..] == unit;
  }

  /** The accepted strings are exactly a digit string, a slash and one of the four units; no window is
      longer than a day. */
  lemma ParseRateLimitIff(s: string)
    ensures ParseRateLimit(s).Some? <==> exists d: string, unit: string :: LimitString(s, d, unit)
    ensures forall d: string, unit: string | LimitString(s, d, unit) ::
              ParseRateLimit(s) == Some((Value(d), UnitSeconds(unit).value))
    ensures ParseRateLimit(s).Some? ==> 0 < Millis(ParseRateLimit(s).value.1) <= DAY
  {
    if ParseRateLimit(s).Some? {
      var d, unit := ParsedParts(s);
    }
    forall d: string, unit: string | LimitString(s, d, unit)
      ensures ParseRateLimit(s) == Some((Value(d), UnitSeconds(unit).value))
    {
      ParseParts(s, d, unit);
    }
  }

  predicate LimitString(s: string, d: string, unit: string) {
    d != "" && AllDigits(d) && s == d + "/" + unit && UnitSeconds(unit).Some?
  }

  function Multiplier(tier: Tier): nat {
    match tier
    case Basic => 1
    case Pro => 2
    case Institutional => 5
    case KycEnhanced => 10
  }

  // ---------------------------------------------------------------------------
  // The log
  // ---------------------------------------------------------------------------

  /** The rows of one wallet and namespace after an instant, in insertion order. */
  function After(log: seq<Row>, wallet: string, namespace: string, cutoff: int): seq<Row> {
    if log == [] then []
    else
      var front, row := After(log[..|log| - 1], wallet, namespace, cutoff), log[|log| - 1];
      if row.wallet == wallet && row.namespace == namespace && row.at > cutoff then front + [row] else front
  }

  /** The rows that a deletion of everything before an instant leaves. */
  function NotBefore(log: seq<Row>, cutoff: int): seq<Row> {
    if log == [] then []
    else
      var front, row := NotBefore(log[..|log| - 1], cutoff), log[|log| - 1];
      if row.at >= cutoff then front + [row] else front
  }

  function Oldest(rows: seq<Row>): int
    requires rows != []
  {
    var last := rows[|rows| - 1];
    if |rows| == 1 then last.at
    else
      var o := Oldest(rows[..|rows| - 1]);
      if last.at < o then last.at else o
  }

  lemma {:induction false} OldestIsLeast(rows: seq<Row>) returns (oldest: Row)
    requires rows != []
    ensures oldest in rows && oldest.at == Oldest(rows)
    ensures forall row | row in rows :: oldest.at <= row.at
  {
    oldest := rows[|rows| - 1];
    if |rows| > 1 {
      var o := OldestIsLeast(rows[..|rows| - 1]);
      if o.at <= oldest.at { oldest := o; }
    }
  }

  /** Milliseconds to whole seconds, rounded up. */
  function CeilSeconds(ms: int): int {
    (ms + 999) / 1000
  }

  /** The outcome of a check, from the rows in its window; the oldest is read with whole milliseconds. */
  function Judge(rows: seq<Row>, limit: nat, windowSeconds: nat, now: int): Outcome {
    if |rows| < limit then Outcome(true, limit - |rows| - 1, limit, windowSeconds, None)
    else
      var wait := if rows == [] then windowSeconds else CeilSeconds(Oldest(rows) / 1000 + Millis(windowSeconds) - now);
      Outcome(false, 0, limit, windowSeconds, Some(if wait > 1 then wait else 1))
  }

  /** at is the clock of the caller, stored the stamp of the row that a granted check inserts. */
  datatype Op =
    | Check(wallet: string, namespace: string, limit: nat, windowSeconds: nat, at: int, stored: int)
    | Cleanup(at: int)

  function Cutoff(op: Op): int
    requires op.Check?
  {
    Micros(op.at - Millis(op.windowSeconds))
  }

  function InWindow(log: seq<Row>, op: Op): seq<Row>
    requires op.Check?
  {
    After(log, op.wallet, op.namespace, Cutoff(op))
  }

  function Verdict(log: seq<Row>, op: Op): Outcome
    requires op.Check?
  {
    Judge(InWindow(log, op), op.limit, op.windowSeconds, op.at)
  }

  function Next(log: seq<Row>, op: Op): seq<Row> {
    match op
    case Check(wallet, namespace, _, _, _, stored) =>
      if Verdict(log, op).allowed then log + [Row(wallet, namespace, stored)] else log
    case Cleanup(at) => NotBefore(log, Micros(at - DAY))
  }

  /** The log after some operations; with cleaning off, every row ever granted. */
  function Run(ops: seq<Op>, cleaning: bool): seq<Row> {
    if ops == [] then []
    else
      var log, op := Run(ops[..|ops| - 1], cleaning), ops[|ops| - 1];
      if op.Cleanup? && !cleaning then log else Next(log, op)
  }

  /** Clocks do not run backwards, rows are not stamped before their checks, windows are of a day at most. */
  predicate Chronological(ops: seq<Op>) {
    && (forall i, j | 0 <= i < j < |ops| :: ops[i].at <= ops[j].at)
    && (forall i | 0 <= i < |ops| && ops[i].Check? :: Millis(ops[i].windowSeconds) <= DAY)
    && (forall i | 0 <= i < |ops| && ops[i].Check? :: Micros(ops[i].at) <= ops[i].stored)
  }

  /** A check that comes after the operations. */
  predicate Upcoming(ops: seq<Op>, q: Op) {
    && q.Check? && Millis(q.windowSeconds) <= DAY && Micros(q.at) <= q.stored
    && Chronological(ops) && forall op | op in ops :: op.at <= q.at
  }

  /** All checks of this wallet and namespace use the same limit and window. */
  predicate Fixed(ops: seq<Op>, q: Op)
    requires q.Check?
  {
    forall i | 0 <= i < |ops| && ops[i].Check? && ops[i].wallet == q.wallet && ops[i].namespace == q.namespace ::
      ops[i].limit == q.limit && ops[i].windowSeconds == q.windowSeconds
  }

  lemma AfterAppend(log: seq<Row>, row: Row, wallet: string, namespace: string, cutoff: int)
    ensures After(log + [row], wallet, namespace, cutoff)
         == After(log, wallet, namespace, cutoff)
            + if row.wallet == wallet && row.namespace == namespace && row.at > cutoff then [row] else []
  {
    assert (log + [row])[..|log|] == log;
  }

  lemma {:induction false} AfterNotBefore(log: seq<Row>, wallet: string, namespace: string, cutoff: int, kept: int)
    requires kept <= cutoff
    ensures After(NotBefore(log, kept), wallet, namespace, cutoff) == After(log, wallet, namespace, cutoff)
  {
    if log != [] {
      var front, row := log[..|log| - 1], log[|log| - 1];
      AfterNotBefore(front, wallet, namespace, cutoff, kept);
      AfterAppend(NotBefore(front, kept), row, wallet, namespace, cutoff);
    }
  }

  lemma NextSame(log: seq<Row>, granted: seq<Row>, op: Op, wallet: string, namespace: string, cutoff: int)
    requires After(log, wallet, namespace, cutoff) == After(granted, wallet, namespace, cutoff)
    requires op.Check? ==> InWindow(log, op) == InWindow(granted, op)
    requires op.Cleanup? ==> Micros(op.at - DAY) <= cutoff
    ensures After(Next(log, op), wallet, namespace, cutoff)
         == After(if op.Cleanup? then granted else Next(granted, op), wallet, namespace, cutoff)
  {
    if op.Cleanup? {
      AfterNotBefore(log, wallet, namespace, cutoff, Micros(op.at - DAY));
    } else {
      AfterAppend(log, Row(op.wallet, op.namespace, op.stored), wallet, namespace, cutoff);
      AfterAppend(granted, Row(op.wallet, op.namespace, op.stored), wallet, namespace, cutoff);
    }
  }

  /** Cleaning is invisible to the windows of later checks. */
  lemma {:induction false} SameWindow(ops: seq<Op>, wallet: string, namespace: string, cutoff: int)
    requires Chronological(ops)
    requires ops != [] ==> Micros(ops[|ops| - 1].at - DAY) <= cutoff
    ensures After(Run(ops, true), wallet, namespace, cutoff) == After(Run(ops, false), wallet, namespace, cutoff)
  {
    if ops != [] {
      var front, op := ops[..|ops| - 1], ops[|ops| - 1];
      SameWindow(front, wallet, namespace, cutoff);
      if op.Check? {
        SameWindow(front, op.wallet, op.namespace, Cutoff(op));
      }
      NextSame(Run(front, true), Run(front, false), op, wallet, namespace, cutoff);
    }
  }

  lemma SameInWindow(ops: seq<Op>, q: Op)
    requires Upcoming(ops, q)
    ensures InWindow(Run(ops, true), q) == InWindow(Run(ops, false), q)
  {
    assert ops != [] ==> ops[|ops| - 1] in ops;
    SameWindow(ops, q.wallet, q.namespace, Cutoff(q));
  }

  lemma SameVerdict(log: seq<Row>, granted: seq<Row>, q: Op)
    requires q.Check? && InWindow(log, q) == InWindow(granted, q)
    ensures Verdict(log, q) == Verdict(granted, q)
  {
  }

  /** So no cleanup, whenever it runs, changes the outcome of a later check. */
  lemma CleanupInvisible(ops: seq<Op>, q: Op)
    requires Upcoming(ops, q)
    ensures Verdict(Run(ops, true), q) == Verdict(Run(ops, false), q)
  {
    SameInWindow(ops, q);
    SameVerdict(Run(ops, true), Run(ops, false), q);
  }

  /** The requests that the limiter, cleaning its log, has granted. */
  function Granted(ops: seq<Op>): seq<Row> {
    if ops == [] then []
    else
      var front, op := ops[..|ops| - 1], ops[|ops| - 1];
      if op.Check? && Verdict(Run(front, true), op).allowed then Granted(front) + [Row(op.wallet, op.namespace, op.stored)]
      else Granted(front)
  }

  lemma FrontUpcoming(ops: seq<Op>)
    requires Chronological(ops) && ops != []
    ensures var front, op := ops[..|ops| - 1], ops[|ops| - 1];
            Chronological(front) && (op.Check? ==> Upcoming(front, op))
  {
  }

  /** They are what the log would hold if it were never cleaned. */
  lemma {:induction false} GrantedIsUncleaned(ops: seq<Op>)
    requires Chronological(ops)
    ensures Granted(ops) == Run(ops, false)
  {
    if ops != [] {
      var front, op := ops[..|ops| - 1], ops[|ops| - 1];
      FrontUpcoming(ops);
      GrantedIsUncleaned(front);
      if op.Check? { CleanupInvisible(front, op); }
    }
  }

  // ---------------------------------------------------------------------------
  // The limit
  // ---------------------------------------------------------------------------

  /** The rows after lo, up to and including hi. */
  function Within(log: seq<Row>, wallet: string, namespace: string, lo: int, hi: int): seq<Row> {
    if log == [] then []
    else
      var front, row := Within(log[..|log| - 1], wallet, namespace, lo, hi), log[|log| - 1];
      if row.wallet == wallet && row.namespace == namespace && lo < row.at <= hi then front + [row] else front
  }

  lemma {:induction false} WithinAfter(log: seq<Row>, wallet: string, namespace: string, lo: int, hi: int, cutoff: int)
    requires cutoff <= lo
    ensures |Within(log, wallet, namespace, lo, hi)| <= |After(log, wallet, namespace, cutoff)|
  {
    if log != [] { WithinAfter(log[..|log| - 1], wallet, namespace, lo, hi, cutoff); }
  }

  /** The length of a window in microseconds. */
  function Width(q: Op): int
    requires q.Check?
  {
    Micros(Millis(q.windowSeconds))
  }

  lemma {:induction false} UncleanedBound(ops: seq<Op>, q: Op, t: int)
    requires q.Check? && Chronological(ops) && Fixed(ops, q)
    ensures |Within(Run(ops, false), q.wallet, q.namespace, t - Width(q), t)| <= q.limit
  {
    if ops != [] {
      var front, op := ops[..|ops| - 1], ops[|ops| - 1];
      assert Fixed(front, q);
      UncleanedBound(front, q, t);
      var granted := Run(front, false);
      if op.Check? && Verdict(granted, op).allowed {
        assert Run(ops, false)[..|granted|] == granted;
        if op.stored <= t && op.wallet == q.wallet && op.namespace == q.namespace {
          WithinAfter(granted, q.wallet, q.namespace, t - Width(q), t, Cutoff(op));
        }
      }
    }
  }

  /** With one fixed limit, every window (t - W, t] holds at most the limit of granted requests, to the
      microsecond, however long after its check a row is inserted. */
  lemma WindowBound(ops: seq<Op>, q: Op, t: int)
    requires q.Check? && Chronological(ops) && Fixed(ops, q)
    ensures |Within(Granted(ops), q.wallet, q.namespace, t - Width(q), t)| <= q.limit
  {
    GrantedIsUncleaned(ops);
    UncleanedBound(ops, q, t);
  }

  // ---------------------------------------------------------------------------
  // The retry hint
  // ---------------------------------------------------------------------------

  lemma {:induction false} AfterMember(log: seq<Row>, wallet: string, namespace: string, cutoff: int, row: Row)
    ensures row in After(log, wallet, namespace, cutoff) <==>
            row in log && row.wallet == wallet && row.namespace == namespace && row.at > cutoff
  {
    if log != [] {
      var front, last := log[..|log| - 1], log[|log| - 1];
      AfterMember(front, wallet, namespace, cutoff, row);
      assert log == front + [last];
    }
  }

  /** A later cutoff keeps fewer rows, strictly fewer when it passes one of them. */
  lemma {:induction false} LaterCutoff(log: seq<Row>, wallet: string, namespace: string, c: int, d: int)
    requires c <= d
    ensures |After(log, wallet, namespace, d)| <= |After(log, wallet, namespace, c)|
    ensures (exists row :: row in After(log, wallet, namespace, c) && row.at <= d) ==>
              |After(log, wallet, namespace, d)| < |After(log, wallet, namespace, c)|
    ensures (forall row | row in After(log, wallet, namespace, c) :: row.at > d) ==>
              After(log, wallet, namespace, d) == After(log, wallet, namespace, c)
  {
    if log != [] {
      var front, last := log[..|log| - 1], log[|log| - 1];
      LaterCutoff(front, wallet, namespace, c, d);
      var a := After(front, wallet, namespace, c);
      AfterAppend(front, last, wallet, namespace, c);
      assert front + [last] == log;
      if last.wallet == wallet && last.namespace == namespace && last.at > c {
        assert last in After(log, wallet, namespace, c);
        assert forall row | row in a :: row in After(log, wallet, namespace, c);
      }
    }
  }

  lemma AllowedIff(log: seq<Row>, q: Op)
    requires q.Check?
    ensures Verdict(log, q).allowed <==> |InWindow(log, q)| < q.limit
  {
  }

  /** The wait in milliseconds that a denial works out from the oldest row of its window. */
  function Wait(log: seq<Row>, q: Op): int
    requires q.Check? && InWindow(log, q) != []
  {
    Oldest(InWindow(log, q)) / 1000 + Millis(q.windowSeconds) - q.at
  }

  function AtLeastOne(r: int): int {
    if r > 1 then r else 1
  }

  lemma DenialHint(log: seq<Row>, q: Op)
    requires q.Check? && !Verdict(log, q).allowed
    ensures Verdict(log, q).retryAfter.Some? && Verdict(log, q).retryAfter.value >= 1
    ensures InWindow(log, q) != [] ==> Verdict(log, q).retryAfter.value == AtLeastOne(CeilSeconds(Wait(log, q)))
  {
  }

  /** No check finds more than the limit. */
  lemma {:induction false} NeverOverfull(ops: seq<Op>, q: Op)
    requires Upcoming(ops, q) && Fixed(ops, q)
    ensures |InWindow(Run(ops, false), q)| <= q.limit
  {
    if ops != [] {
      var front, op := ops[..|ops| - 1], ops[|ops| - 1];
      assert op in ops;
      assert Fixed(front, q);
      NeverOverfull(front, q);
      var granted := Run(front, false);
      if op.Check? && Verdict(granted, op).allowed && op.wallet == q.wallet && op.namespace == q.namespace {
        AfterAppend(granted, Row(op.wallet, op.namespace, op.stored), q.wallet, q.namespace, Cutoff(q));
        LaterCutoff(granted, q.wallet, q.namespace, Cutoff(op), Cutoff(q));
      } else if op.Check? {
        AfterAppend(granted, Row(op.wallet, op.namespace, op.stored), q.wallet, q.namespace, Cutoff(q));
      }
    }
  }

  function Later(q: Op, seconds: int): Op
    requires q.Check?
  {
    q.(at := q.at + Millis(seconds), stored := q.stored + Micros(Millis(seconds)))
  }

  /** The request is granted later exactly when the oldest row of the full window has left by then. */
  lemma AllowedLater(log: seq<Row>, q: Op, seconds: int)
    requires q.Check? && seconds >= 0 && q.limit >= 1 && |InWindow(log, q)| == q.limit
    ensures Verdict(log, Later(q, seconds)).allowed <==> Oldest(InWindow(log, q)) <= Cutoff(Later(q, seconds))
  {
    var row := OldestIsLeast(InWindow(log, q));
    LaterCutoff(log, q.wallet, q.namespace, Cutoff(q), Cutoff(Later(q, seconds)));
    AllowedIff(log, Later(q, seconds));
  }

  /** The oldest row is stamped between two milliseconds, and the wait is a whole number of seconds. */
  predicate Corner(log: seq<Row>, q: Op)
    requires q.Check?
  {
    InWindow(log, q) != [] && Oldest(InWindow(log, q)) % 1000 != 0 && Wait(log, q) > 0 && Wait(log, q) % 1000 == 0
  }

  /** A row stamped at oldest, in a window that starts at start, leaves it in the r-th second, or in the corner
      case just after. */
  lemma HintArithmetic(oldest: int, start: int, r: int)
    requires oldest > Micros(start)
    requires r == AtLeastOne(CeilSeconds(oldest / 1000 - start))
    ensures oldest > Micros(start + Millis(r - 1))
    ensures oldest <= Micros(start + Millis(r + 1))
    ensures var ms := oldest / 1000 - start;
            oldest > Micros(start + Millis(r)) <==> oldest % 1000 != 0 && ms > 0 && ms % 1000 == 0
  {
  }

  /** What a hint of r seconds means on the same log: under a zero limit nothing; otherwise the request is still
      denied r - 1 seconds later, allowed r + 1 seconds later, and allowed r seconds later but for the corner. */
  ghost predicate HintMeans(log: seq<Row>, q: Op, r: int)
    requires q.Check?
  {
    if q.limit == 0 then forall seconds :: !Verdict(log, Later(q, seconds)).allowed
    else
      && !Verdict(log, Later(q, r - 1)).allowed
      && (Verdict(log, Later(q, r)).allowed <==> !Corner(log, q))
      && Verdict(log, Later(q, r + 1)).allowed
  }

  lemma HintCutoffs(q: Op, oldest: int, r: int)
    requires q.Check? && oldest > Cutoff(q)
    requires r == AtLeastOne(CeilSeconds(oldest / 1000 + Millis(q.windowSeconds) - q.at))
    ensures r >= 1 && Cutoff(Later(q, r - 1)) < oldest <= Cutoff(Later(q, r + 1))
    ensures var ms := oldest / 1000 + Millis(q.windowSeconds) - q.at;
            oldest > Cutoff(Later(q, r)) <==> oldest % 1000 != 0 && ms > 0 && ms % 1000 == 0
  {
    HintArithmetic(oldest, q.at - Millis(q.windowSeconds), r);
  }

  lemma OldestInWindow(log: seq<Row>, q: Op)
    requires q.Check? && InWindow(log, q) != []
    ensures Oldest(InWindow(log, q)) > Cutoff(q)
  {
    var row := OldestIsLeast(InWindow(log, q));
    AfterMember(log, q.wallet, q.namespace, Cutoff(q), row);
  }

  lemma OldestLeaves(log: seq<Row>, q: Op, r: int)
    requires q.Check? && InWindow(log, q) != []
    requires r == AtLeastOne(CeilSeconds(Wait(log, q)))
    ensures r >= 1
    ensures Cutoff(Later(q, r - 1)) < Oldest(InWindow(log, q)) <= Cutoff(Later(q, r + 1))
    ensures Oldest(InWindow(log, q)) > Cutoff(Later(q, r)) <==> Corner(log, q)
  {
    OldestInWindow(log, q);
    HintCutoffs(q, Oldest(InWindow(log, q)), r);
  }

  lemma HintWorks(log: seq<Row>, q: Op, r: int)
    requires q.Check? && q.limit >= 1 && |InWindow(log, q)| == q.limit
    requires r == AtLeastOne(CeilSeconds(Wait(log, q)))
    ensures HintMeans(log, q, r)
  {
    OldestLeaves(log, q, r);
    AllowedLater(log, q, r - 1);
    AllowedLater(log, q, r);
    AllowedLater(log, q, r + 1);
  }

  lemma SameHint(log: seq<Row>, granted: seq<Row>, q: Op, r: int)
    requires q.Check? && q.limit >= 1 && HintMeans(granted, q, r) && InWindow(log, q) == InWindow(granted, q)
    requires InWindow(log, Later(q, r - 1)) == InWindow(granted, Later(q, r - 1))
    requires InWindow(log, Later(q, r)) == InWindow(granted, Later(q, r))
    requires InWindow(log, Later(q, r + 1)) == InWindow(granted, Later(q, r + 1))
    ensures HintMeans(log, q, r)
  {
  }

  /** After any operations under one fixed limit, with rows stamped to the microsecond: a denial carries a hint
      of at least a second, which is tight, sound outside the corner, and one second short in it. */
  lemma RetryHint(ops: seq<Op>, q: Op)
    requires Upcoming(ops, q) && Fixed(ops, q)
    requires !Verdict(Run(ops, true), q).allowed
    ensures var hint := Verdict(Run(ops, true), q).retryAfter;
            hint.Some? && hint.value >= 1 && HintMeans(Run(ops, true), q, hint.value)
  {
    var log, granted := Run(ops, true), Run(ops, false);
    DenialHint(log, q);
    var r := Verdict(log, q).retryAfter.value;
    if q.limit == 0 {
      forall seconds ensures !Verdict(log, Later(q, seconds)).allowed { AllowedIff(log, Later(q, seconds)); }
    } else {
      SameInWindow(ops, q);
      NeverOverfull(ops, q);
      AllowedIff(log, q);
      HintWorks(granted, q, r);
      SameInWindow(ops, Later(q, r - 1));
      SameInWindow(ops, Later(q, r));
      SameInWindow(ops, Later(q, r + 1));
      SameHint(log, granted, q, r);
    }
  }

  /** A row stamped at 5.3 ms, a check at 5 ms and a window of a second: the hint of one second is too short. */
  lemma HintTooShort() returns (ops: seq<Op>, q: Op)
    ensures Upcoming(ops, q) && Fixed(ops, q) && Verdict(Run(ops, true), q).retryAfter == Some(1)
    ensures !Verdict(Run(ops, true), Later(q, 1)).allowed
  {
    q := Check("w", "n", 1, 1, 5, 5300);
    ops := [q];
    var log := [Row("w", "n", 5300)];
    assert ops[..0] == [] && Run([], true) == [] && [] + log == log;
    assert Run(ops, true) == Next([], q) == log;
    assert log[..0] == [];
    assert InWindow(log, q) == [] + log == log && InWindow(log, Later(q, 1)) == [] + log == log;
  }

  /** The remaining count of a granted request is what further requests at the same instant get: each is
      granted while the count is positive and lowers it by one. */
  lemma RemainingCounts(log: seq<Row>, q: Op)
    requires q.Check? && q.windowSeconds > 0 && Micros(q.at) <= q.stored && Verdict(log, q).allowed
    ensures var before, after := Verdict(log, q), Verdict(Next(log, q), q);
            && before.remaining >= 0
            && (after.allowed <==> before.remaining > 0)
            && (after.allowed ==> after.remaining == before.remaining - 1)
  {
    var row := Row(q.wallet, q.namespace, q.stored);
    AfterAppend(log, row, q.wallet, q.namespace, Cutoff(q));
    assert InWindow(log + [row], q) == InWindow(log, q) + [row];
  }

  // ---------------------------------------------------------------------------
  // Tables and single steps
  // ---------------------------------------------------------------------------

  /** The four units, and nothing else, with the seconds they stand for. */
  lemma UnitTable(unit: string)
    ensures UnitSeconds("second") == Some(1) && UnitSeconds("minute") == Some(60)
    ensures UnitSeconds("hour") == Some(3600) && UnitSeconds("day") == Some(86400)
    ensures UnitSeconds(unit).Some? ==> unit in {"second", "minute", "hour", "day"}
  {
  }

  lemma TierTable()
    ensures Multiplier(Basic) == 1 && Multiplier(Pro) == 2 && Multiplier(Institutional) == 5 && Multiplier(KycEnhanced) == 10
  {
  }

  /** What a check answers, from the number of rows that this wallet has in this namespace since the cutoff. */
  lemma VerdictMeans(log: seq<Row>, q: Op)
    requires q.Check?
    ensures var v, n := Verdict(log, q), |After(log, q.wallet, q.namespace, 1000 * (q.at - 1000 * q.windowSeconds))|;
            && v.limit == q.limit && v.windowSeconds == q.windowSeconds
            && (v.allowed <==> n < q.limit)
            && (v.allowed ==> v.remaining == q.limit - n - 1 && v.retryAfter == None)
            && (!v.allowed ==> v.remaining == 0)
            && (!v.allowed && n == 0 ==> v.retryAfter == Some(if q.windowSeconds > 1 then q.windowSeconds else 1))
    ensures Next(log, q) == if Verdict(log, q).allowed then log + [Row(q.wallet, q.namespace, q.stored)] else log
  {
  }

  /** A cleanup keeps every row of the last 24 hours as often as it was there, and no older one. */
  lemma CleanupMeans(log: seq<Row>, now: int, row: Row)
    ensures multiset(Next(log, Cleanup(now)))[row]
         == if row.at >= 1000 * (now - 86_400_000) then multiset(log)[row] else 0
  {
    KeptAsOften(log, 1000 * (now - 86_400_000), row);
  }

  lemma {:induction false} KeptAsOften(log: seq<Row>, cutoff: int, row: Row)
    ensures multiset(NotBefore(log, cutoff))[row] == if row.at >= cutoff then multiset(log)[row] else 0
  {
    if log != [] {
      var front, last := log[..|log| - 1], log[|log| - 1];
      KeptAsOften(front, cutoff, row);
      assert log == front + [last];
    }
  }

  // ---------------------------------------------------------------------------
  // The service
  // ---------------------------------------------------------------------------

  class Limiter {
    var log: seq<Row>

    constructor ()
      ensures log == []
    {
      log := [];
    }

    /** None when the limit string is malformed: the call throws and nothing is recorded. */
    method CheckRateLimit(wallet: string, namespace: string, limit: string, tier: Tier, now: int, stored: int)
      returns (r: Option<Outcome>)
      modifies this
      ensures r.None? <==> ParseRateLimit(limit).None?
      ensures r.None? ==> log == old(log)
      ensures r.Some? ==>
                var parsed := ParseRateLimit(limit).value;
                var op := Check(wallet, namespace, parsed.0 * Multiplier(tier), parsed.1, now, stored);
                r.value == Verdict(old(log), op) && log == Next(old(log), op)
    {
      var parsed := ParseRateLimit(limit);
      if parsed.None? { return None; }
      var effective, width := parsed.value.0 * Multiplier(tier), parsed.value.1;
      var rows := After(log, wallet, namespace, Micros(now - Millis(width)));
      var current := |rows|;
      if current >= effective {
        var retry := width;
        if current > 0 { retry := CeilSeconds(Oldest(rows) / 1000 + Millis(width) - now); }
        return Some(Outcome(false, 0, effective, width, Some(if retry > 1 then retry else 1)));
      }
      log := log + [Row(wallet, namespace, stored)];
      return Some(Outcome(true, effective - current - 1, effective, width, None));
    }

    method CleanupLog(now: int) returns (deleted: nat)
      modifies this
      ensures log == Next(old(log), Cleanup(now))
      ensures deleted == |old(log)| - |log|
    {
      NotBeforeShrinks(log, Micros(now - DAY));
      var kept := NotBefore(log, Micros(now - DAY));
      deleted := |log| - |kept|;
      log := kept;
    }
  }

  lemma {:induction false} NotBeforeShrinks(log: seq<Row>, cutoff: int)
    ensures |NotBefore(log, cutoff)| <= |log|
  {
    if log != [] { NotBeforeShrinks(log[..|log| - 1], cutoff); }
  }
}
