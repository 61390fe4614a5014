/** The velocity tracker (one window of samples per account, pruned only from the front) and the risk
    engine that evaluates a transaction against it. Every operation is given the clock it reads. */
module Risk {
  import opened Basics
  import opened Wrappers

  const U32 := 0x1_0000_0000

  datatype Sample = Sample(amount: int, at: int)

  type Windows = map<AccountId, seq<Sample>>

  /** window is the length of the rolling window; scores below are in hundredths. */
  datatype Limits = Limits(maxSingleAmount: int, maxWindowAmount: int, maxWindowCount: nat, window: nat, enforce: bool)

  datatype Decision = Decision(allowed: bool, score: nat, deniedBy: Option<string>, flags: seq<string>)

  // ---------------------------------------------------------------------------
  // Windows
  // ---------------------------------------------------------------------------

  /** What remains after dropping old samples from the front only. */
  function Pruned(events: seq<Sample>, cutoff: int): seq<Sample> {
    if events == [] || events[0].at >= cutoff then events else Pruned(events[1..], cutoff)
  }

  function Total(events: seq<Sample>): int {
    if events == [] then 0 else events[0].amount + Total(events[1..])
  }

  /** The count is read through a 32-bit cast. */
  function Count(events: seq<Sample>): nat {
    |events| % U32
  }

  function WindowOf(ws: Windows, account: AccountId): seq<Sample> {
    if account in ws then ws[account] else []
  }

  function PruneAccount(ws: Windows, account: AccountId, cutoff: int): Windows {
    if account in ws then ws[account := Pruned(ws[account], cutoff)] else ws
  }

  function Recorded(ws: Windows, account: AccountId, s: Sample, cutoff: int): Windows {
    ws[account := Pruned(WindowOf(ws, account), cutoff) + [s]]
  }

  function Evicted(ws: Windows, cutoff: int): Windows {
    map account | account in ws && Pruned(ws[account], cutoff) != [] :: Pruned(ws[account], cutoff)
  }

  // ---------------------------------------------------------------------------
  // Decisions
  // ---------------------------------------------------------------------------

  predicate SingleExceeded(l: Limits, amount: int) { amount > l.maxSingleAmount }

  predicate CountExceeded(l: Limits, events: seq<Sample>) { Count(events) >= l.maxWindowCount }

  predicate AmountExceeded(l: Limits, events: seq<Sample>, amount: int) { Total(events) + amount > l.maxWindowAmount }

  /** More than four fifths of a limit used; a zero amount limit never warns. */
  predicate CountClose(l: Limits, events: seq<Sample>) { 10 * Count(events) > 8 * l.maxWindowCount }

  predicate AmountClose(l: Limits, amount: int) { l.maxSingleAmount > 0 && 10 * amount > 8 * l.maxSingleAmount }

  function Flag(set_: bool, name: string): seq<string> {
    if set_ then [name] else []
  }

  function Weight(set_: bool, weight: nat): nat {
    if set_ then weight else 0
  }

  predicate Permitted(l: Limits, events: seq<Sample>, amount: int) {
    !SingleExceeded(l, amount) && !CountExceeded(l, events) && !AmountExceeded(l, events, amount)
  }

  /** The decision on an amount, given the pruned window of its account. */
  function Decide(l: Limits, events: seq<Sample>, amount: int): Decision {
    if l.enforce && SingleExceeded(l, amount) then Decision(false, 100, Some("max_single_amount"), [])
    else if l.enforce && CountExceeded(l, events) then Decision(false, 90, Some("max_window_count"), [])
    else if l.enforce && AmountExceeded(l, events, amount) then Decision(false, 95, Some("max_window_amount"), [])
    else
      var score := Weight(SingleExceeded(l, amount), 50) + Weight(CountExceeded(l, events), 30)
                   + Weight(AmountExceeded(l, events, amount), 40) + Weight(CountClose(l, events), 10)
                   + Weight(AmountClose(l, amount), 10);
      Decision(true, if score < 100 then score else 100, None,
               Flag(SingleExceeded(l, amount), "max_single_amount_exceeded")
               + Flag(CountExceeded(l, events), "velocity_count_exceeded")
               + Flag(AmountExceeded(l, events, amount), "velocity_amount_exceeded")
               + Flag(CountClose(l, events), "velocity_warning")
               + Flag(AmountClose(l, amount), "high_amount"))
  }

  /** Audit mode never denies; enforcing, a denial carries no flag and an approval none of the limit flags. */
  lemma DecisionMeaning(l: Limits, events: seq<Sample>, amount: int)
    ensures var d := Decide(l, events, amount);
            && (d.allowed <==> !l.enforce || Permitted(l, events, amount))
            && (d.allowed <==> d.deniedBy == None)
            && (!d.allowed ==> d.flags == [] && d.score >= 90)
            && (d.allowed && l.enforce ==> d.score <= 20 && |d.flags| <= 2)
            && ("velocity_count_exceeded" in d.flags <==> !l.enforce && CountExceeded(l, events))
  {
  }

  /** What the rules compare: the amounts added up, and their number as a 32-bit count. */
  lemma {:induction false} WindowSums(events: seq<Sample>, s: Sample)
    ensures Total([]) == 0 && Total([s] + events) == s.amount + Total(events)
    ensures 0 <= Count(events) < 0x1_0000_0000 && (|events| - Count(events)) % 0x1_0000_0000 == 0
  {
    assert ([s] + events)[1..] == events;
  }

  /** The rule that denies, in the order of the rules, with its score. */
  lemma DenialRules(l: Limits, events: seq<Sample>, amount: int)
    ensures var d := Decide(l, events, amount);
            && (d.allowed <==> !l.enforce || (amount <= l.maxSingleAmount && Count(events) < l.maxWindowCount
                                              && Total(events) + amount <= l.maxWindowAmount))
            && (l.enforce && amount > l.maxSingleAmount ==> d == Decision(false, 100, Some("max_single_amount"), []))
            && (l.enforce && amount <= l.maxSingleAmount && Count(events) >= l.maxWindowCount ==>
                  d == Decision(false, 90, Some("max_window_count"), []))
            && (l.enforce && amount <= l.maxSingleAmount && Count(events) < l.maxWindowCount ==>
                  Total(events) + amount > l.maxWindowAmount ==> d == Decision(false, 95, Some("max_window_amount"), []))
  {
  }

  /** An approval has a flag for every limit that is exceeded and for every one of which more than four fifths are
      used, and the sum of their points, a hundred at most. */
  lemma ApprovalFlags(l: Limits, events: seq<Sample>, amount: int)
    requires Decide(l, events, amount).allowed
    ensures var d := Decide(l, events, amount);
            var single, count := amount > l.maxSingleAmount, Count(events) >= l.maxWindowCount;
            var total := Total(events) + amount > l.maxWindowAmount;
            var near := 5 * Count(events) > 4 * l.maxWindowCount;
            var high := l.maxSingleAmount > 0 && 5 * amount > 4 * l.maxSingleAmount;
            && d.flags == (if single then ["max_single_amount_exceeded"] else [])
                          + (if count then ["velocity_count_exceeded"] else [])
                          + (if total then ["velocity_amount_exceeded"] else [])
                          + (if near then ["velocity_warning"] else [])
                          + (if high then ["high_amount"] else [])
            && d.score == Min(100, (if single then 50 else 0) + (if count then 30 else 0) + (if total then 40 else 0)
                                   + (if near then 10 else 0) + (if high then 10 else 0))
  {
  }

  // ---------------------------------------------------------------------------
  // Runs
  // ---------------------------------------------------------------------------

  datatype Op =
    | Evaluate(account: AccountId, amount: int, at: int)
    | Record(account: AccountId, amount: int, at: int)
    | Peek(account: AccountId, at: int)
    | Maintain(at: int)

  /** Recording and peeking prune one account, maintenance all of them; an evaluation that already fails
      the single-amount rule never looks at the window. */
  function Next(l: Limits, ws: Windows, op: Op): Windows {
    var cutoff := op.at - l.window;
    match op
    case Evaluate(account, amount, _) =>
      if l.enforce && SingleExceeded(l, amount) then ws else PruneAccount(ws, account, cutoff)
    case Record(account, amount, at) => Recorded(ws, account, Sample(amount, at), cutoff)
    case Peek(account, _) => PruneAccount(ws, account, cutoff)
    case Maintain(_) => Evicted(ws, cutoff)
  }

  function Run(l: Limits, ops: seq<Op>): Windows {
    if ops == [] then map[]
    else Next(l, Run(l, ops[..|ops| - 1]), ops[|ops| - 1])
  }

  predicate Chronological(ops: seq<Op>) {
    forall i, j | 0 <= i < j < |ops| :: ops[i].at <= ops[j].at
  }

  /** Everything ever recorded for an account. */
  function History(ops: seq<Op>, account: AccountId): seq<Sample> {
    if ops == [] then []
    else
      var last := ops[|ops| - 1];
      var before := History(ops[..|ops| - 1], account);
      if last.Record? && last.account == account then before + [Sample(last.amount, last.at)] else before
  }

  /** The samples between two instants, both included. */
  function Between(events: seq<Sample>, lo: int, hi: int): seq<Sample> {
    if events == [] then []
    else
      var last := events[|events| - 1];
      var before := Between(events[..|events| - 1], lo, hi);
      if lo <= last.at <= hi then before + [last] else before
  }

  lemma {:induction false} HistoryNotAfter(ops: seq<Op>, account: AccountId, now: int)
    requires forall op | op in ops :: op.at <= now
    ensures forall s | s in History(ops, account) :: s.at <= now
  {
    if ops != [] {
      assert ops[|ops| - 1] in ops;
      HistoryNotAfter(ops[..|ops| - 1], account, now);
    }
  }

  lemma {:induction false} PrunedTwice(events: seq<Sample>, c: int, d: int)
    requires c <= d
    ensures Pruned(Pruned(events, c), d) == Pruned(events, d)
  {
    if events != [] && events[0].at < c { PrunedTwice(events[1..], c, d); }
  }

  lemma {:induction false} PrunedAppend(events: seq<Sample>, s: Sample, c: int)
    requires Pruned(events, c) != [] ==> s.at >= c
    ensures Pruned(events + [s], c) == Pruned(events, c) + if s.at >= c then [s] else []
  {
    if events == [] {
      assert [s][1..] == [];
    } else if events[0].at < c {
      PrunedAppend(events[1..], s, c);
      assert (events + [s])[1..] == events[1..] + [s];
    }
  }

  lemma {:induction false} BetweenMember(events: seq<Sample>, lo: int, hi: int, s: Sample)
    requires s in Between(events, lo, hi)
    ensures s in events && lo <= s.at <= hi
  {
    var front := events[..|events| - 1];
    if s in Between(front, lo, hi) { BetweenMember(front, lo, hi, s); }
  }

  lemma AppendSample(events: seq<Sample>, s: Sample, lo: int, hi: int)
    ensures Between(events + [s], lo, hi) == Between(events, lo, hi) + if lo <= s.at <= hi then [s] else []
  {
    assert (events + [s])[..|events|] == events;
  }

  /** What one operation does to the window of one account. */
  lemma NextWindow(l: Limits, ws: Windows, op: Op, account: AccountId)
    ensures var w, w' := WindowOf(ws, account), WindowOf(Next(l, ws, op), account);
            if op.Record? && op.account == account then
              w' == Pruned(w, op.at - l.window) + [Sample(op.amount, op.at)]
            else
              w' == w || w' == Pruned(w, op.at - l.window)
  {
  }

  /** Front-only pruning loses nothing: whatever mix of operations ran before, pruning the window of an
      account gives exactly the recent part of all that was ever recorded for it. */
  lemma {:induction false} WindowIsHistory(l: Limits, ops: seq<Op>, account: AccountId, cutoff: int, now: int)
    requires Chronological(ops) && forall op | op in ops :: op.at <= now
    requires ops != [] ==> ops[|ops| - 1].at - l.window <= cutoff
    ensures Pruned(WindowOf(Run(l, ops), account), cutoff) == Between(History(ops, account), cutoff, now)
  {
    if ops != [] {
      var front, op := ops[..|ops| - 1], ops[|ops| - 1];
      assert op in ops;
      var before := WindowOf(Run(l, front), account);
      var opCutoff := op.at - l.window;
      WindowIsHistory(l, front, account, cutoff, now);
      NextWindow(l, Run(l, front), op, account);
      PrunedTwice(before, opCutoff, cutoff);
      if op.Record? && op.account == account {
        var s := Sample(op.amount, op.at);
        AppendSample(History(front, account), s, cutoff, now);
        var kept := Pruned(before, cutoff);
        if kept != [] {
          HistoryNotAfter(front, account, op.at);
          BetweenMember(History(front, account), cutoff, now, kept[0]);
        }
        PrunedAppend(Pruned(before, opCutoff), s, cutoff);
      }
    }
  }

  /** The account whose window the operation looks at; an evaluation that fails the single-amount rule looks
      at none. */
  predicate Touches(l: Limits, op: Op, account: AccountId) {
    match op
    case Evaluate(a, amount, _) => a == account && !(l.enforce && amount > l.maxSingleAmount)
    case Record(a, _, _) => a == account
    case Peek(a, _) => a == account
    case Maintain(_) => true
  }

  /** The samples recorded for an account in the window that ends with the last operation. */
  function Recent(l: Limits, ops: seq<Op>, account: AccountId): seq<Sample>
    requires ops != []
  {
    var now := ops[|ops| - 1].at;
    Between(History(ops, account), now - l.window, now)
  }

  /** An operation leaves the window it touches with exactly the recent samples, and no other window changed.
      After maintenance an account is tracked only if it has any. */
  lemma TouchedWindow(l: Limits, ops: seq<Op>, account: AccountId)
    requires Chronological(ops) && ops != []
    ensures var op, before, after := ops[|ops| - 1], Run(l, ops[..|ops| - 1]), Run(l, ops);
            && (Touches(l, op, account) ==> WindowOf(after, account) == Recent(l, ops, account))
            && (!Touches(l, op, account) ==> WindowOf(after, account) == WindowOf(before, account)
                                             && (account in after <==> account in before))
            && (op.Maintain? && account in after ==> Recent(l, ops, account) != [])
            && (op.Peek? || op.Evaluate? ==> (account in after <==> account in before))
  {
    var front, op := ops[..|ops| - 1], ops[|ops| - 1];
    var now := op.at;
    var cutoff := now - l.window;
    if Touches(l, op, account) {
      assert forall x | x in front :: x.at <= now;
      WindowIsHistory(l, front, account, cutoff, now);
      if op.Record? { AppendSample(History(front, account), Sample(op.amount, now), cutoff, now); }
      PruneOfTouched(l, Run(l, front), op, account, cutoff);
    }
  }

  lemma PruneOfTouched(l: Limits, ws: Windows, op: Op, account: AccountId, cutoff: int)
    requires Touches(l, op, account) && cutoff == op.at - l.window && l.window >= 0
    ensures var kept := Pruned(WindowOf(ws, account), cutoff);
            && WindowOf(Next(l, ws, op), account) == kept + (if op.Record? then [Sample(op.amount, op.at)] else [])
            && (op.Maintain? ==> (account in Next(l, ws, op) <==> kept != []))
  {
    var kept := Pruned(WindowOf(ws, account), cutoff);
    if !op.Record? { assert kept + [] == kept; }
  }

  // ---------------------------------------------------------------------------
  // The rolling bound
  // ---------------------------------------------------------------------------

  /** Step j of ops allowed an amount for an account, which has had no record since. */
  predicate Approved(l: Limits, ops: seq<Op>, j: int, account: AccountId, amount: int) {
    && 0 <= j < |ops|
    && ops[j] == Evaluate(account, amount, ops[j].at)
    && Decide(l, Pruned(WindowOf(Run(l, ops[..j]), account), ops[j].at - l.window), amount).allowed
    && forall k | j <= k < |ops| :: !(ops[k].Record? && ops[k].account == account)
  }

  predicate HasApproval(l: Limits, ops: seq<Op>, account: AccountId, amount: int) {
    exists j | 0 <= j < |ops| :: Approved(l, ops, j, account, amount)
  }

  /** Every record follows an allowed evaluation of the same account and amount, with no other record for
      that account in between. */
  predicate Disciplined(l: Limits, ops: seq<Op>) {
    ops == [] ||
    var front, op := ops[..|ops| - 1], ops[|ops| - 1];
    && Disciplined(l, front)
    && (op.Record? ==> op.amount >= 0 && HasApproval(l, front, op.account, op.amount))
  }

  lemma {:induction false} DisciplinedPrefix(l: Limits, ops: seq<Op>, n: nat)
    requires Disciplined(l, ops) && n <= |ops|
    ensures Disciplined(l, ops[..n])
  {
    if n < |ops| {
      DisciplinedPrefix(l, ops[..|ops| - 1], n);
      assert ops[..|ops| - 1][..n] == ops[..n];
    } else {
      assert ops[..n] == ops;
    }
  }

  lemma {:induction false} HistoryUnchanged(ops: seq<Op>, j: nat, account: AccountId)
    requires j <= |ops|
    requires forall k | j <= k < |ops| :: !(ops[k].Record? && ops[k].account == account)
    ensures History(ops, account) == History(ops[..j], account)
  {
    if j < |ops| {
      HistoryUnchanged(ops[..|ops| - 1], j, account);
      assert ops[..|ops| - 1][..j] == ops[..j];
    } else {
      assert ops[..j] == ops;
    }
  }

  predicate NonNegative(events: seq<Sample>) {
    forall s | s in events :: s.amount >= 0
  }

  lemma {:induction false} HistoryNonNegative(l: Limits, ops: seq<Op>, account: AccountId)
    requires Disciplined(l, ops)
    ensures NonNegative(History(ops, account))
  {
    if ops != [] { HistoryNonNegative(l, ops[..|ops| - 1], account); }
  }

  lemma {:induction false} TotalAppend(events: seq<Sample>, s: Sample)
    ensures Total(events + [s]) == Total(events) + s.amount
  {
    if events == [] {
      assert [s][1..] == [];
    } else {
      TotalAppend(events[1..], s);
      assert (events + [s])[1..] == events[1..] + [s];
    }
  }

  /** A shorter stretch of time holds no more. */
  lemma {:induction false} BetweenShrinks(events: seq<Sample>, lo: int, hi: int, lo': int, hi': int)
    requires NonNegative(events) && lo <= lo' && hi' <= hi
    ensures |Between(events, lo', hi')| <= |Between(events, lo, hi)|
    ensures Total(Between(events, lo', hi')) <= Total(Between(events, lo, hi))
  {
    if events != [] {
      var front, last := events[..|events| - 1], events[|events| - 1];
      assert last in events && last.amount >= 0;
      assert NonNegative(front);
      BetweenShrinks(front, lo, hi, lo', hi');
      TotalAppend(Between(front, lo, hi), last);
      TotalAppend(Between(front, lo', hi'), last);
    }
  }

  /** Widening a stretch beyond the last sample changes nothing. */
  lemma {:induction false} BetweenLate(events: seq<Sample>, lo: int, hi: int, hi': int)
    requires forall s | s in events :: s.at <= hi && s.at <= hi'
    ensures Between(events, lo, hi) == Between(events, lo, hi')
  {
    if events != [] {
      assert events[|events| - 1] in events;
      BetweenLate(events[..|events| - 1], lo, hi, hi');
    }
  }

  predicate Bounded(l: Limits, events: seq<Sample>) {
    Total(events) <= l.maxWindowAmount && |events| <= l.maxWindowCount
  }

  /** One more sample of this amount keeps the bounds. */
  predicate HasRoom(l: Limits, recent: seq<Sample>, amount: int) {
    |recent| < l.maxWindowCount && Total(recent) + amount <= l.maxWindowAmount
  }

  lemma RoomIsEnough(l: Limits, before: seq<Sample>, s: Sample, from: int, t: int)
    requires NonNegative(before) && from <= t - l.window && s.at <= t
    requires forall x | x in before :: x.at <= s.at
    requires Bounded(l, Between(before, t - l.window, t))
    requires HasRoom(l, Between(before, from, s.at), s.amount)
    ensures Bounded(l, Between(before + [s], t - l.window, t))
  {
    AppendSample(before, s, t - l.window, t);
    BetweenLate(before, t - l.window, t, s.at);
    BetweenShrinks(before, from, s.at, t - l.window, s.at);
    TotalAppend(Between(before, t - l.window, t), s);
  }

  lemma FrontFacts(l: Limits, ops: seq<Op>, account: AccountId)
    requires Chronological(ops) && Disciplined(l, ops) && ops != []
    ensures var front, op := ops[..|ops| - 1], ops[|ops| - 1];
            && Chronological(front) && Disciplined(l, front)
            && NonNegative(History(front, account))
            && (forall x | x in History(front, account) :: x.at <= op.at)
            && (forall x | x in front :: x.at <= op.at)
            && (op.Record? ==> HasApproval(l, front, op.account, op.amount))
  {
    var front, op := ops[..|ops| - 1], ops[|ops| - 1];
    HistoryNonNegative(l, front, account);
    HistoryNotAfter(front, account, op.at);
  }

  /** In enforce mode, at every instant the recorded amounts of the rolling window sum to at most the
      window amount and number at most the window count. */
  lemma {:induction false} RollingBound(l: Limits, ops: seq<Op>, account: AccountId, t: int)
    requires l.enforce && l.maxWindowAmount >= 0 && l.maxWindowCount < U32
    requires Chronological(ops) && Disciplined(l, ops)
    ensures Bounded(l, Between(History(ops, account), t - l.window, t))
    decreases |ops|, 1
  {
    if ops != [] {
      var front, op := ops[..|ops| - 1], ops[|ops| - 1];
      FrontFacts(l, ops, account);
      RollingBound(l, front, account, t);
      if op.Record? && op.account == account {
        RecordBound(l, front, account, Sample(op.amount, op.at), t);
      }
    }
  }

  lemma {:induction false} RecordBound(l: Limits, front: seq<Op>, account: AccountId, s: Sample, t: int)
    requires l.enforce && l.maxWindowAmount >= 0 && l.maxWindowCount < U32
    requires Chronological(front) && Disciplined(l, front)
    requires HasApproval(l, front, account, s.amount)
    requires NonNegative(History(front, account))
    requires forall x | x in History(front, account) :: x.at <= s.at
    requires forall x | x in front :: x.at <= s.at
    requires Bounded(l, Between(History(front, account), t - l.window, t))
    ensures Bounded(l, Between(History(front, account) + [s], t - l.window, t))
    decreases |front| + 1, 0
  {
    if s.at <= t {
      var from := ApprovedRoom(l, front, account, s);
      RoomIsEnough(l, History(front, account), s, from, t);
    } else {
      AppendSample(History(front, account), s, t - l.window, t);
    }
  }

  /** What an approval found: since some instant at least a window before the sample, there is room for
      one more sample and for its amount. */
  lemma {:induction false} ApprovedRoom(l: Limits, ops: seq<Op>, account: AccountId, s: Sample) returns (from: int)
    requires l.enforce && l.maxWindowAmount >= 0 && l.maxWindowCount < U32
    requires Chronological(ops) && Disciplined(l, ops)
    requires HasApproval(l, ops, account, s.amount)
    requires forall x | x in ops :: x.at <= s.at
    ensures from <= s.at - l.window
    ensures HasRoom(l, Between(History(ops, account), from, s.at), s.amount)
    decreases |ops|, 2
  {
    var j := ApprovalOf(l, ops, account, s);
    from := ops[j].at - l.window;
    PrefixBound(l, ops, j, account, from);
    ApprovalMeans(l, ops, j, account, s, from);
  }

  lemma ApprovalOf(l: Limits, ops: seq<Op>, account: AccountId, s: Sample) returns (j: nat)
    requires HasApproval(l, ops, account, s.amount)
    requires forall x | x in ops :: x.at <= s.at
    ensures j < |ops| && Approved(l, ops, j, account, s.amount) && ops[j].at <= s.at
  {
    j :| j < |ops| && Approved(l, ops, j, account, s.amount);
    assert ops[j] in ops;
  }

  lemma {:induction false} PrefixBound(l: Limits, ops: seq<Op>, j: nat, account: AccountId, from: int)
    requires l.enforce && l.maxWindowAmount >= 0 && l.maxWindowCount < U32
    requires Chronological(ops) && Disciplined(l, ops) && j < |ops| && from == ops[j].at - l.window
    ensures Bounded(l, Between(History(ops[..j], account), from, ops[j].at))
    decreases |ops|, 0
  {
    DisciplinedPrefix(l, ops, j);
    RollingBound(l, ops[..j], account, ops[j].at);
  }

  lemma ApprovalMeans(l: Limits, ops: seq<Op>, j: nat, account: AccountId, s: Sample, from: int)
    requires l.enforce && l.maxWindowCount < U32
    requires Chronological(ops) && Approved(l, ops, j, account, s.amount) && ops[j].at <= s.at
    requires from == ops[j].at - l.window
    requires Bounded(l, Between(History(ops[..j], account), from, ops[j].at))
    ensures HasRoom(l, Between(History(ops, account), from, s.at), s.amount)
  {
    SeenHistory(ops, j, account, s.at, l.window);
    WindowIsHistory(l, ops[..j], account, from, ops[j].at);
    RoomFound(l, Between(History(ops[..j], account), from, ops[j].at), s.amount);
  }

  /** An enforced approval on a bounded window found room. */
  lemma RoomFound(l: Limits, recent: seq<Sample>, amount: int)
    requires l.enforce && Decide(l, recent, amount).allowed
    requires |recent| <= l.maxWindowCount < U32
    ensures HasRoom(l, recent, amount)
  {
    DecisionMeaning(l, recent, amount);
  }

  lemma SeenHistory(ops: seq<Op>, j: nat, account: AccountId, now: int, window: nat)
    requires Chronological(ops) && j < |ops| && ops[j].at <= now
    requires forall k | j <= k < |ops| :: !(ops[k].Record? && ops[k].account == account)
    ensures var seen, at := History(ops[..j], account), ops[j].at;
            History(ops, account) == seen && Between(seen, at - window, now) == Between(seen, at - window, at)
  {
    var seen, at := ops[..j], ops[j].at;
    HistoryUnchanged(ops, j, account);
    HistoryNotAfter(seen, account, at);
    BetweenLate(History(seen, account), at - window, at, now);
  }

  // ---------------------------------------------------------------------------
  // The tracker and the engine
  // ---------------------------------------------------------------------------

  /** The loop that pops the front while it is too old. */
  method Prune(events: seq<Sample>, cutoff: int) returns (rest: seq<Sample>)
    ensures rest == Pruned(events, cutoff)
  {
    rest := events;
    while rest != [] && rest[0].at < cutoff
      invariant Pruned(rest, cutoff) == Pruned(events, cutoff)
      decreases |rest|
    {
      rest := rest[1..];
    }
  }

  /** Maintenance under way: accounts in todo are as they were, the others are pruned, or gone if empty. */
  ghost predicate Sweeping(was: Windows, ws: Windows, todo: set<AccountId>, cutoff: int) {
    && todo <= ws.Keys <= was.Keys
    && (forall a | a in todo :: ws[a] == was[a])
    && (forall a | a in was && a !in todo :: a in ws <==> Pruned(was[a], cutoff) != [])
    && (forall a | a in ws && a !in todo :: ws[a] == Pruned(was[a], cutoff))
  }

  lemma SweepStep(was: Windows, ws: Windows, todo: set<AccountId>, a: AccountId, cutoff: int)
    requires Sweeping(was, ws, todo, cutoff) && a in todo
    ensures var events := Pruned(ws[a], cutoff);
            if events == [] then
              Sweeping(was, ws - {a}, todo - {a}, cutoff) && |(ws - {a}).Keys| == |ws.Keys| - 1
            else
              Sweeping(was, ws[a := events], todo - {a}, cutoff) && ws[a := events].Keys == ws.Keys
  {
    assert (ws - {a}).Keys == ws.Keys - {a};
    assert ws[a := Pruned(ws[a], cutoff)].Keys == ws.Keys;
  }

  lemma SweepDone(was: Windows, ws: Windows, cutoff: int)
    requires Sweeping(was, ws, {}, cutoff)
    ensures ws == Evicted(was, cutoff)
  {
    assert ws.Keys == Evicted(was, cutoff).Keys;
  }

  class VelocityTracker {
    var windows: Windows
    const window: nat

    constructor (window: nat)
      ensures windows == map[] && this.window == window
    {
      this.window := window;
      windows := map[];
    }

    /** Count and total after recording. */
    method RecordSample(account: AccountId, amount: int, now: int) returns (count: nat, total: int)
      modifies this
      ensures windows == Recorded(old(windows), account, Sample(amount, now), now - window)
      ensures count == Count(WindowOf(windows, account)) && total == Total(WindowOf(windows, account))
    {
      var events: seq<Sample> := [];
      if account in windows { events := windows[account]; }
      events := Prune(events, now - window);
      events := events + [Sample(amount, now)];
      windows := windows[account := events];
      return |events| % U32, Total(events);
    }

    method PeekWindow(account: AccountId, now: int) returns (count: nat, total: int)
      modifies this
      ensures windows == PruneAccount(old(windows), account, now - window)
      ensures count == Count(Pruned(WindowOf(old(windows), account), now - window))
      ensures total == Total(Pruned(WindowOf(old(windows), account), now - window))
    {
      if account !in windows { return 0, 0; }
      var events := Prune(windows[account], now - window);
      windows := windows[account := events];
      return |events| % U32, Total(events);
    }

    /** Drops the accounts whose window is empty after pruning and reports how many. */
    method EvictStale(now: int) returns (evicted: nat)
      modifies this
      ensures windows == Evicted(old(windows), now - window)
      ensures evicted == |old(windows).Keys| - |windows.Keys|
    {
      evicted := 0;
      ghost var was, cutoff := windows, now - window;
      var todo := windows.Keys;
      while todo != {}
        invariant Sweeping(was, windows, todo, cutoff)
        invariant evicted == |was.Keys| - |windows.Keys|
        decreases todo
      {
        var a :| a in todo;
        SweepStep(was, windows, todo, a, cutoff);
        var events := Prune(windows[a], now - window);
        todo := todo - {a};
        if events == [] {
          windows := windows - {a};
          evicted := evicted + 1;
        } else {
          windows := windows[a := events];
        }
      }
      SweepDone(was, windows, cutoff);
    }
  }

  class RiskEngine {
    const limits: Limits
    const velocity: VelocityTracker

    ghost predicate Valid() {
      velocity.window == limits.window
    }

    constructor (limits: Limits)
      ensures Valid() && this.limits == limits && fresh(velocity) && velocity.windows == map[]
    {
      this.limits := limits;
      velocity := new VelocityTracker(limits.window);
    }

    method EvaluateTransaction(account: AccountId, amount: int, now: int) returns (d: Decision)
      requires Valid()
      modifies velocity
      ensures d == Decide(limits, Pruned(WindowOf(old(velocity.windows), account), now - limits.window), amount)
      ensures velocity.windows == Next(limits, old(velocity.windows), Evaluate(account, amount, now))
    {
      ghost var events := Pruned(WindowOf(velocity.windows, account), now - limits.window);
      var flags: seq<string>, score: nat := [], 0;
      if amount > limits.maxSingleAmount {
        if limits.enforce { return Decision(false, 100, Some("max_single_amount"), []); }
        flags := flags + ["max_single_amount_exceeded"];
        score := score + 50;
      }
      var count, total := velocity.PeekWindow(account, now);
      if count >= limits.maxWindowCount {
        if limits.enforce { return Decision(false, 90, Some("max_window_count"), []); }
        flags := flags + ["velocity_count_exceeded"];
        score := score + 30;
      }
      ghost var first := Flag(SingleExceeded(limits, amount), "max_single_amount_exceeded")
                         + Flag(CountExceeded(limits, events), "velocity_count_exceeded");
      assert flags == first;
      if total + amount > limits.maxWindowAmount {
        if limits.enforce { return Decision(false, 95, Some("max_window_amount"), []); }
        flags := flags + ["velocity_amount_exceeded"];
        score := score + 40;
      }
      ghost var second := first + Flag(AmountExceeded(limits, events, amount), "velocity_amount_exceeded");
      assert flags == second;
      if 10 * count > 8 * limits.maxWindowCount {
        flags := flags + ["velocity_warning"];
        score := score + 10;
      }
      ghost var third := second + Flag(CountClose(limits, events), "velocity_warning");
      assert flags == third;
      if limits.maxSingleAmount > 0 && 10 * amount > 8 * limits.maxSingleAmount {
        flags := flags + ["high_amount"];
        score := score + 10;
      }
      assert flags == third + Flag(AmountClose(limits, amount), "high_amount");
      return Decision(true, if score < 100 then score else 100, None, flags);
    }

    method RecordTransaction(account: AccountId, amount: int, now: int)
      requires Valid()
      modifies velocity
      ensures velocity.windows == Next(limits, old(velocity.windows), Record(account, amount, now))
    {
      var _, _ := velocity.RecordSample(account, amount, now);
    }

    method Maintenance(now: int) returns (evicted: nat)
      requires Valid()
      modifies velocity
      ensures velocity.windows == Next(limits, old(velocity.windows), Maintain(now))
      ensures evicted == |old(velocity.windows).Keys| - |velocity.windows.Keys|
    {
      evicted := velocity.EvictStale(now);
    }
  }
}
