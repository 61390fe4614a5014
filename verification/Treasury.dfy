/** Treasury refills: an agent whose prepaid balance runs low is topped up under a single cap, a daily cap
    and halts. One row-locked call of fundAgent is one step. Instants are in milliseconds, a day starts at
    midnight of the database clock; amounts are whole units of the seventh decimal. */
module Treasury {
  import opened Basics
  import opened Wrappers
  import Credit

  datatype Status = Active | Paused | Halted

  /** A row of treasury_agents; there is one per wallet, which stands for the agent identifier here. */
  datatype Agent = Agent(namespace: Option<string>, status: Status,
                         target: nat, min: nat, maxSingle: nat, maxDaily: nat)

  datatype Scope = Global | ByNamespace | ByAgent

  datatype Halt = Halt(scope: Scope, key: Option<string>, active: bool, reason: Option<string>)

  /** A completed refill; cap is the daily cap in force when it was made. */
  datatype Refill = Refill(wallet: string, amount: int, at: int, cap: int)

  datatype State = State(agents: map<string, Agent>, ledger: Credit.State, refills: seq<Refill>, halts: seq<Halt>)

  datatype FundError =
    | NotFound | HaltActive(reason: Option<string>) | NotActive(status: Status) | AccountFrozen
    | InvalidAmount | NotPositive | ExceedsSingle | ExceedsDaily | LedgerRefused

  function Max(a: int, b: int): int { if a > b then a else b }

  // ---------------------------------------------------------------------------
  // Reading the state
  // ---------------------------------------------------------------------------

  function DayStart(now: int): int {
    now - now % DAY
  }

  /** The sum of an agent's refills from an instant on. */
  function RefilledSince(refills: seq<Refill>, wallet: string, since: int): int {
    if refills == [] then 0
    else
      var last := refills[|refills| - 1];
      RefilledSince(refills[..|refills| - 1], wallet, since)
      + if last.wallet == wallet && last.at >= since then last.amount else 0
  }

  /** An agent without a namespace, or with an empty one, is matched by no namespace halt. */
  predicate Applies(h: Halt, wallet: string, namespace: Option<string>) {
    h.active &&
    match h.scope
    case Global => true
    case ByAgent => h.key == Some(wallet)
    case ByNamespace => h.key.Some? && h.key.value != "" && h.key == namespace
  }

  /** The newest halt that applies. */
  function ActiveHalt(halts: seq<Halt>, wallet: string, namespace: Option<string>): Option<Halt> {
    if halts == [] then None
    else
      var last := halts[|halts| - 1];
      if Applies(last, wallet, namespace) then Some(last)
      else ActiveHalt(halts[..|halts| - 1], wallet, namespace)
  }

  predicate Known(s: State, wallet: string) {
    wallet in s.agents && wallet in s.ledger.accounts
  }

  function Balance(s: State, wallet: string): int {
    Credit.BalanceOf(s.ledger, wallet)
  }

  predicate MayBeFunded(s: State, wallet: string)
    requires Known(s, wallet)
  {
    var agent := s.agents[wallet];
    && agent.status.Active?
    && !s.ledger.accounts[wallet].frozen
    && ActiveHalt(s.halts, wallet, agent.namespace).None?
  }

  function Remaining(s: State, wallet: string, now: int): int
    requires Known(s, wallet)
  {
    Max(s.agents[wallet].maxDaily - RefilledSince(s.refills, wallet, DayStart(now)), 0)
  }

  datatype Evaluation = Evaluation(recommended: int, refillNeeded: bool, blocked: bool)

  function Evaluate(s: State, wallet: string, now: int): Evaluation
    requires Known(s, wallet)
  {
    var agent := s.agents[wallet];
    var low := Balance(s, wallet) < agent.min;
    var deficit := Max(agent.target - Balance(s, wallet), 0);
    var recommended := if low then Max(Min(Min(deficit, agent.maxSingle), Remaining(s, wallet, now)), 0) else 0;
    Evaluation(recommended, low, !MayBeFunded(s, wallet) || (low && Remaining(s, wallet, now) <= 0))
  }

  // ---------------------------------------------------------------------------
  // Steps
  // ---------------------------------------------------------------------------

  /** The guards of fundAgent, in the order they are tried. */
  function FundGuard(s: State, wallet: string, amount: int, now: int): Option<FundError> {
    if !Known(s, wallet) then Some(NotFound)
    else
      var agent := s.agents[wallet];
      var halt := ActiveHalt(s.halts, wallet, agent.namespace);
      if halt.Some? then Some(HaltActive(halt.value.reason))
      else if !agent.status.Active? then Some(NotActive(agent.status))
      else if s.ledger.accounts[wallet].frozen then Some(AccountFrozen)
      else if amount < 0 then Some(InvalidAmount)
      else if amount == 0 then Some(NotPositive)
      else if amount > agent.maxSingle then Some(ExceedsSingle)
      else if RefilledSince(s.refills, wallet, DayStart(now)) + amount > agent.maxDaily then Some(ExceedsDaily)
      else if !Credit.Insertable(s.ledger, Credit.Deposit) then Some(LedgerRefused)
      else None
  }

  function Funded(s: State, wallet: string, amount: int, reference: string, now: int): State {
    if FundGuard(s, wallet, amount, now).Some? then s
    else
      s.(ledger := Credit.Credited(s.ledger, Credit.Deposit, wallet, amount, reference),
         refills := s.refills + [Refill(wallet, amount, now, s.agents[wallet].maxDaily)])
  }

  /** triggerRecommendedRefill, with nothing changing between its evaluation and its funding; the evaluation
      of an overdrawn agent throws, since it cannot print a negative amount. */
  function Triggered(s: State, wallet: string, reference: string, now: int): State {
    if !Known(s, wallet) || Balance(s, wallet) < 0 then s
    else
      var e := Evaluate(s, wallet, now);
      if !e.refillNeeded || e.recommended <= 0 || e.blocked then s
      else Funded(s, wallet, e.recommended, reference, now)
  }

  /** Registering again updates the agent and reactivates it; the table rejects a target below the minimum. */
  function Registered(s: State, wallet: string, agent: Agent): State {
    if wallet == "" || agent.target < agent.min then s
    else s.(agents := s.agents[wallet := agent.(status := Active)], ledger := Credit.Opened(s.ledger, wallet))
  }

  function Cleared(halts: seq<Halt>, scope: Scope, key: Option<string>): (cleared: seq<Halt>)
    ensures |cleared| == |halts|
  {
    seq(|halts|, i requires 0 <= i < |halts| =>
      if halts[i].scope == scope && KeyText(halts[i].key) == KeyText(key) then halts[i].(active := false) else halts[i])
  }

  function KeyText(key: Option<string>): string {
    if key.Some? then key.value else ""
  }

  datatype Event =
    | Register(wallet: string, agent: Agent)
    | Fund(wallet: string, amount: int, reference: string, now: int)
    | Trigger(wallet: string, reference: string, now: int)
    | SetHalt(halt: Halt)
    | ClearHalt(scope: Scope, key: Option<string>)
    | Elsewhere(event: Credit.Event) // deposits, charges and freezes of other services

  function Next(s: State, e: Event): State {
    match e
    case Register(wallet, agent) => Registered(s, wallet, agent)
    case Fund(wallet, amount, reference, now) => Funded(s, wallet, amount, reference, now)
    case Trigger(wallet, reference, now) => Triggered(s, wallet, reference, now)
    case SetHalt(halt) => s.(halts := s.halts + [halt.(active := true)])
    case ClearHalt(scope, key) => s.(halts := Cleared(s.halts, scope, key))
    case Elsewhere(event) => s.(ledger := Credit.Next(s.ledger, event))
  }

  function Run(s: State, es: seq<Event>): State
    decreases |es|
  {
    if es == [] then s else Run(Next(s, es[0]), es[1..])
  }

  // ---------------------------------------------------------------------------
  // The daily cap
  // ---------------------------------------------------------------------------

  /** The same calendar day. */
  predicate SameDay(a: int, b: int) {
    a / 86_400_000 == b / 86_400_000
  }

  /** The guard's midnight is that of the calendar day. */
  lemma DayStartIsMidnight(a: int, b: int)
    ensures DayStart(a) == 86_400_000 * (a / 86_400_000)
    ensures DayStart(a) == DayStart(b) <==> SameDay(a, b)
    ensures b >= DayStart(a) <==> b / 86_400_000 >= a / 86_400_000
  {
  }

  /** The sum of an agent's refills on the day of an instant. */
  function RefilledOn(refills: seq<Refill>, wallet: string, at: int): int {
    if refills == [] then 0
    else
      var last := refills[|refills| - 1];
      RefilledOn(refills[..|refills| - 1], wallet, at)
      + if last.wallet == wallet && SameDay(last.at, at) then last.amount else 0
  }

  lemma {:induction false} DayWithinSince(refills: seq<Refill>, wallet: string, at: int)
    requires forall r | r in refills :: r.amount > 0
    ensures RefilledOn(refills, wallet, at) <= RefilledSince(refills, wallet, DayStart(at))
  {
    if refills != [] {
      assert refills[|refills| - 1] in refills;
      DayWithinSince(refills[..|refills| - 1], wallet, at);
    }
  }

  /** Up to and including the i-th refill, its agent's refills of its day are within the cap it was made under. */
  predicate CappedAt(refills: seq<Refill>, i: nat)
    requires i < |refills|
  {
    RefilledOn(refills[..i + 1], refills[i].wallet, refills[i].at) <= refills[i].cap
  }

  predicate Capped(refills: seq<Refill>) {
    && (forall r | r in refills :: r.amount > 0)
    && (forall i: nat | i < |refills| :: CappedAt(refills, i))
  }

  lemma RefilledOnAppend(refills: seq<Refill>, r: Refill, wallet: string, at: int)
    ensures RefilledOn([], wallet, at) == 0
    ensures RefilledOn(refills + [r], wallet, at)
         == RefilledOn(refills, wallet, at) + if r.wallet == wallet && SameDay(r.at, at) then r.amount else 0
  {
    assert (refills + [r])[..|refills|] == refills;
  }

  lemma CappedAppend(refills: seq<Refill>, r: Refill)
    requires Capped(refills) && r.amount > 0
    requires RefilledSince(refills, r.wallet, DayStart(r.at)) + r.amount <= r.cap
    ensures Capped(refills + [r])
  {
    var all := refills + [r];
    DayWithinSince(refills, r.wallet, r.at);
    RefilledOnAppend(refills, r, r.wallet, r.at);
    forall i: nat | i < |all| ensures CappedAt(all, i) {
      if i < |refills| {
        assert CappedAt(refills, i);
        assert all[..i + 1] == refills[..i + 1];
      } else {
        assert all[..i + 1] == all;
      }
    }
  }

  lemma FundedCapped(s: State, wallet: string, amount: int, reference: string, now: int)
    requires Capped(s.refills)
    ensures Capped(Funded(s, wallet, amount, reference, now).refills)
  {
    if FundGuard(s, wallet, amount, now).None? {
      CappedAppend(s.refills, Refill(wallet, amount, now, s.agents[wallet].maxDaily));
    }
  }

  /** In every run, with the clock readings of its calls in any order: whatever is registered, halted or
      spent in between, an agent's refills of a day never exceed the cap in force at that day's last one. */
  lemma {:induction false} DailyCap(s: State, es: seq<Event>)
    requires Capped(s.refills)
    ensures Capped(Run(s, es).refills)
    decreases |es|
  {
    if es != [] {
      match es[0] {
        case Fund(wallet, amount, reference, now) => FundedCapped(s, wallet, amount, reference, now);
        case Trigger(wallet, reference, now) =>
          if Known(s, wallet) { FundedCapped(s, wallet, Evaluate(s, wallet, now).recommended, reference, now); }
        case _ =>
      }
      DailyCap(Next(s, es[0]), es[1..]);
    }
  }

  /** Read off for a whole day: the last refill of the day bounds them all. */
  lemma WholeDay(refills: seq<Refill>, i: nat, wallet: string, at: int)
    requires Capped(refills) && i < |refills| && refills[i].wallet == wallet && SameDay(refills[i].at, at)
    requires forall j | i < j < |refills| :: refills[j].wallet != wallet || !SameDay(refills[j].at, at)
    ensures RefilledOn(refills, wallet, at) <= refills[i].cap
  {
    assert CappedAt(refills, i);
    RefilledOnPrefix(refills, i + 1, wallet, at);
    SameDaySum(refills[..i + 1], wallet, at, refills[i].at);
  }

  lemma {:induction false} RefilledOnPrefix(refills: seq<Refill>, n: nat, wallet: string, at: int)
    requires n <= |refills|
    requires forall j | n <= j < |refills| :: refills[j].wallet != wallet || !SameDay(refills[j].at, at)
    ensures RefilledOn(refills, wallet, at) == RefilledOn(refills[..n], wallet, at)
  {
    if n < |refills| {
      RefilledOnPrefix(refills[..|refills| - 1], n, wallet, at);
      assert refills[..|refills| - 1][..n] == refills[..n];
    } else {
      assert refills[..n] == refills;
    }
  }

  lemma {:induction false} SameDaySum(refills: seq<Refill>, wallet: string, a: int, b: int)
    requires SameDay(a, b)
    ensures RefilledOn(refills, wallet, a) == RefilledOn(refills, wallet, b)
  {
    if refills != [] { SameDaySum(refills[..|refills| - 1], wallet, a, b); }
  }

  // ---------------------------------------------------------------------------
  // What the single operations do
  // ---------------------------------------------------------------------------

  /** With no refill from a later day, the sum the guard reads is that of the calendar day. */
  lemma {:induction false} GuardReadsTheDay(refills: seq<Refill>, wallet: string, now: int)
    requires forall r | r in refills && r.wallet == wallet :: r.at / 86_400_000 <= now / 86_400_000
    ensures RefilledSince(refills, wallet, DayStart(now)) == RefilledOn(refills, wallet, now)
  {
    if refills != [] {
      var last := refills[|refills| - 1];
      assert last in refills;
      GuardReadsTheDay(refills[..|refills| - 1], wallet, now);
      DayStartIsMidnight(now, last.at);
    }
  }

  /** An active halt stops an agent if it is global, names its wallet, or names its namespace. */
  predicate Stops(h: Halt, wallet: string, namespace: Option<string>) {
    && h.active
    && (h.scope.Global?
        || (h.scope.ByAgent? && h.key == Some(wallet))
        || (h.scope.ByNamespace? && h.key.Some? && h.key.value != "" && h.key == namespace))
  }

  /** The halt that is reported is the newest that stops the agent. */
  lemma {:induction false} ActiveHaltIsNewest(halts: seq<Halt>, wallet: string, namespace: Option<string>)
    ensures ActiveHalt(halts, wallet, namespace).None? <==> forall h | h in halts :: !Stops(h, wallet, namespace)
    ensures ActiveHalt(halts, wallet, namespace).Some? ==>
              exists i :: 0 <= i < |halts| && Stops(halts[i], wallet, namespace)
                          && ActiveHalt(halts, wallet, namespace) == Some(halts[i])
                          && forall j | i < j < |halts| :: !Stops(halts[j], wallet, namespace)
  {
    if halts != [] {
      var front, last := halts[..|halts| - 1], halts[|halts| - 1];
      ActiveHaltIsNewest(front, wallet, namespace);
      assert halts == front + [last];
      if !Stops(last, wallet, namespace) && ActiveHalt(front, wallet, namespace).Some? {
        var i :| 0 <= i < |front| && Stops(front[i], wallet, namespace)
                 && ActiveHalt(front, wallet, namespace) == Some(front[i])
                 && forall j | i < j < |front| :: !Stops(front[j], wallet, namespace);
        assert halts[i] == front[i];
      }
    }
  }

  /** What an agent needs to be funded an amount. */
  predicate Fundable(s: State, wallet: string, amount: int, now: int) {
    && wallet in s.agents && wallet in s.ledger.accounts
    && s.agents[wallet].status.Active? && !s.ledger.accounts[wallet].frozen
    && (forall h | h in s.halts :: !Stops(h, wallet, s.agents[wallet].namespace))
    && 0 < amount <= s.agents[wallet].maxSingle
    && RefilledSince(s.refills, wallet, DayStart(now)) + amount <= s.agents[wallet].maxDaily
    && (s.ledger.checkedKinds.None? || Credit.Deposit in s.ledger.checkedKinds.value)
  }

  /** A funding takes effect exactly then; it credits the wallet, records the deposit and the refill, and leaves
      policies and halts alone. Anything else changes nothing. */
  lemma FundTaken(s: State, wallet: string, amount: int, reference: string, now: int)
    ensures var s' := Next(s, Fund(wallet, amount, reference, now));
            if Fundable(s, wallet, amount, now) then
              var account := s.ledger.accounts[wallet];
              && s'.ledger.accounts == s.ledger.accounts[wallet := account.(balance := account.balance + amount)]
              && s'.ledger.movements == s.ledger.movements
                   + [Credit.Movement(wallet, Credit.Deposit, amount, account.balance + amount, reference)]
              && s'.refills == s.refills + [Refill(wallet, amount, now, s.agents[wallet].maxDaily)]
              && s'.agents == s.agents && s'.halts == s.halts
            else s' == s
  {
    if wallet in s.agents { ActiveHaltIsNewest(s.halts, wallet, s.agents[wallet].namespace); }
  }

  /** The errors, in their order. */
  lemma FundErrors(s: State, wallet: string, amount: int, now: int)
    ensures !(wallet in s.agents && wallet in s.ledger.accounts) ==> FundGuard(s, wallet, amount, now) == Some(NotFound)
    ensures wallet in s.agents && wallet in s.ledger.accounts ==>
              var agent := s.agents[wallet];
              var stopped := exists h | h in s.halts :: Stops(h, wallet, agent.namespace);
              && (stopped ==> exists h | h in s.halts :: Stops(h, wallet, agent.namespace)
                                                         && FundGuard(s, wallet, amount, now) == Some(HaltActive(h.reason)))
              && (!stopped && !agent.status.Active? ==> FundGuard(s, wallet, amount, now) == Some(NotActive(agent.status)))
              && (!stopped && agent.status.Active? && s.ledger.accounts[wallet].frozen ==>
                    FundGuard(s, wallet, amount, now) == Some(AccountFrozen))
              && (!stopped && agent.status.Active? && !s.ledger.accounts[wallet].frozen ==>
                    && (amount < 0 ==> FundGuard(s, wallet, amount, now) == Some(InvalidAmount))
                    && (amount == 0 ==> FundGuard(s, wallet, amount, now) == Some(NotPositive))
                    && (amount > 0 && amount > agent.maxSingle ==> FundGuard(s, wallet, amount, now) == Some(ExceedsSingle))
                    && (0 < amount <= agent.maxSingle
                        && RefilledSince(s.refills, wallet, DayStart(now)) + amount > agent.maxDaily ==>
                          FundGuard(s, wallet, amount, now) == Some(ExceedsDaily)))
  {
    if wallet in s.agents { ActiveHaltIsNewest(s.halts, wallet, s.agents[wallet].namespace); }
  }

  /** Registering stores the policy, active, and opens the account; a policy without a wallet or with a target
      below its minimum is refused. */
  lemma RegisterMeans(s: State, wallet: string, agent: Agent)
    ensures var s' := Next(s, Register(wallet, agent));
            if wallet != "" && agent.min <= agent.target then
              && s'.agents == s.agents[wallet := agent.(status := Active)]
              && s'.ledger.accounts == (if wallet in s.ledger.accounts then s.ledger.accounts
                                        else s.ledger.accounts[wallet := Credit.Account(0, false)])
              && s'.ledger.movements == s.ledger.movements && s'.refills == s.refills && s'.halts == s.halts
            else s' == s
  {
  }

  /** Setting adds an active halt; clearing deactivates those of the scope whose key has the same text, a missing
      key counting as empty, and touches no other. */
  lemma HaltsMean(s: State, halt: Halt, scope: Scope, key: Option<string>)
    ensures Next(s, SetHalt(halt)) == s.(halts := s.halts + [halt.(active := true)])
    ensures var s' := Next(s, ClearHalt(scope, key));
            && s' == s.(halts := s'.halts) && |s'.halts| == |s.halts|
            && forall i | 0 <= i < |s.halts| ::
                 var same := s.halts[i].scope == scope
                             && (if s.halts[i].key.Some? then s.halts[i].key.value else "")
                                == (if key.Some? then key.value else "");
                 s'.halts[i] == if same then s.halts[i].(active := false) else s.halts[i]
  {
  }

  /** The halt stops this wallet whatever its namespace. */
  predicate StopsAlways(h: Halt, wallet: string) {
    h.active && (h.scope.Global? || (h.scope.ByAgent? && h.key == Some(wallet)))
  }

  /** While a global halt or one of its wallet stands, an agent gets no refill, whatever else happens. */
  lemma {:induction false} HaltHolds(s: State, es: seq<Event>, i: nat, wallet: string)
    requires i < |s.halts| && StopsAlways(s.halts[i], wallet)
    requires forall e | e in es && e.ClearHalt? ::
               e.scope != s.halts[i].scope || KeyText(e.key) != KeyText(s.halts[i].key)
    ensures var s' := Run(s, es);
            forall at :: RefilledOn(s'.refills, wallet, at) == RefilledOn(s.refills, wallet, at)
    decreases |es|
  {
    if es != [] {
      assert es[0] in es;
      HaltStops(s, es[0], i, wallet);
      HaltHolds(Next(s, es[0]), es[1..], i, wallet);
    }
  }

  lemma NotFundedWhenStopped(s: State, w: string, amount: int, reference: string, now: int, i: nat, wallet: string)
    requires i < |s.halts| && StopsAlways(s.halts[i], wallet)
    ensures forall at :: RefilledOn(Funded(s, w, amount, reference, now).refills, wallet, at) == RefilledOn(s.refills, wallet, at)
  {
    if FundGuard(s, w, amount, now).None? {
      ActiveHaltIsNewest(s.halts, w, s.agents[w].namespace);
      assert s.halts[i] in s.halts;
      assert w != wallet;
      var s' := Funded(s, w, amount, reference, now);
      forall at ensures RefilledOn(s'.refills, wallet, at) == RefilledOn(s.refills, wallet, at) {
        RefilledOnAppend(s.refills, Refill(w, amount, now, s.agents[w].maxDaily), wallet, at);
      }
    }
  }

  lemma HaltStops(s: State, e: Event, i: nat, wallet: string)
    requires i < |s.halts| && StopsAlways(s.halts[i], wallet)
    requires e.ClearHalt? ==> e.scope != s.halts[i].scope || KeyText(e.key) != KeyText(s.halts[i].key)
    ensures i < |Next(s, e).halts| && Next(s, e).halts[i] == s.halts[i]
    ensures forall at :: RefilledOn(Next(s, e).refills, wallet, at) == RefilledOn(s.refills, wallet, at)
  {
    match e
    case Fund(w, amount, reference, now) => NotFundedWhenStopped(s, w, amount, reference, now, i, wallet);
    case Trigger(w, reference, now) =>
      if Known(s, w) { NotFundedWhenStopped(s, w, Evaluate(s, w, now).recommended, reference, now, i, wallet); }
    case _ =>
  }

  // ---------------------------------------------------------------------------
  // Recommendations
  // ---------------------------------------------------------------------------

  /** On unchanged state, fundAgent accepts a recommendation exactly when it is positive and not blocked
      (and the ledger takes deposits); it never pushes the balance past the target. */
  lemma RecommendationIsFundable(s: State, wallet: string, now: int)
    requires Known(s, wallet) && Credit.Insertable(s.ledger, Credit.Deposit)
    ensures var e := Evaluate(s, wallet, now);
            && (FundGuard(s, wallet, e.recommended, now).None? <==> e.recommended > 0 && !e.blocked)
            && (e.recommended > 0 ==> Balance(s, wallet) + e.recommended <= s.agents[wallet].target)
  {
  }

  /** A refill is needed exactly below the minimum; then the recommendation is the largest amount that fundAgent
      accepts and that does not pass the target, and zero if there is none. */
  lemma RecommendationIsLargest(s: State, wallet: string, now: int, other: int)
    requires Known(s, wallet) && Credit.Insertable(s.ledger, Credit.Deposit)
    ensures var e, agent := Evaluate(s, wallet, now), s.agents[wallet];
            && (e.refillNeeded <==> Balance(s, wallet) < agent.min)
            && (!e.refillNeeded ==> e.recommended == 0)
            && (e.refillNeeded && e.recommended < other && Balance(s, wallet) + other <= agent.target ==>
                  FundGuard(s, wallet, other, now).Some?)
            && (e.blocked <==> !(agent.status.Active? && !s.ledger.accounts[wallet].frozen
                                 && forall h | h in s.halts :: !Stops(h, wallet, agent.namespace))
                               || (e.refillNeeded && RefilledSince(s.refills, wallet, DayStart(now)) >= agent.maxDaily))
  {
    ActiveHaltIsNewest(s.halts, wallet, s.agents[wallet].namespace);
  }

  /** A trigger funds a positive unblocked recommendation of an agent that is not overdrawn, and else nothing. */
  lemma TriggerMeans(s: State, wallet: string, reference: string, now: int)
    ensures Next(s, Trigger(wallet, reference, now)) ==
              if wallet in s.agents && wallet in s.ledger.accounts && s.ledger.accounts[wallet].balance >= 0
                 && Evaluate(s, wallet, now).recommended > 0 && !Evaluate(s, wallet, now).blocked
              then Next(s, Fund(wallet, Evaluate(s, wallet, now).recommended, reference, now)) else s
  {
  }

  lemma SameEvaluation(s: State, wallet: string, a: int, b: int)
    requires Known(s, wallet) && SameDay(a, b)
    ensures Evaluate(s, wallet, a) == Evaluate(s, wallet, b) && DayStart(a) == DayStart(b)
  {
    DayStartIsMidnight(a, b);
  }

  /** What one trigger at an instant of a day does to the balance of an eligible agent. */
  lemma TriggeredBalance(s: State, wallet: string, reference: string, at: int, now: int)
    requires Known(s, wallet) && Credit.Insertable(s.ledger, Credit.Deposit) && MayBeFunded(s, wallet)
    requires Balance(s, wallet) >= 0 && SameDay(at, now)
    ensures var s' := Triggered(s, wallet, reference, at);
            var refill := Evaluate(s, wallet, now).recommended;
            && Known(s', wallet) && Credit.Insertable(s'.ledger, Credit.Deposit) && MayBeFunded(s', wallet)
            && s'.agents == s.agents
            && Balance(s', wallet) == Balance(s, wallet) + refill
            && Remaining(s', wallet, now) == Remaining(s, wallet, now) - refill
            && refill >= 0 && (refill > 0 ==> Balance(s, wallet) + refill <= s.agents[wallet].target)
  {
    SameEvaluation(s, wallet, at, now);
    RecommendationIsFundable(s, wallet, at);
    var s' := Triggered(s, wallet, reference, at);
    if s' != s {
      DayStartIsMidnight(at, at);
      assert s'.refills[..|s.refills|] == s.refills;
    }
  }

  /** The worker's ticks for one agent. */
  function Ticks(s: State, wallet: string, reference: string, times: seq<int>): State
    decreases |times|
  {
    if times == [] then s else Ticks(Triggered(s, wallet, reference, times[0]), wallet, reference, times[1..])
  }

  /** Nothing more to do today: the balance has reached the minimum, or the target, or the cap is used up. */
  predicate Done(s: State, wallet: string, now: int)
    requires Known(s, wallet)
  {
    Balance(s, wallet) >= Min(s.agents[wallet].min, s.agents[wallet].target) || Remaining(s, wallet, now) == 0
  }

  predicate Eligible(s: State, wallet: string) {
    Known(s, wallet) && Credit.Insertable(s.ledger, Credit.Deposit) && MayBeFunded(s, wallet) && Balance(s, wallet) >= 0
  }

  /** One tick of an eligible agent either leaves it done or refills it by the single cap; it stays done. */
  lemma TickDone(s: State, wallet: string, reference: string, at: int, now: int)
    requires Eligible(s, wallet) && SameDay(at, now)
    ensures var s' := Triggered(s, wallet, reference, at);
            && Eligible(s', wallet) && s'.agents == s.agents
            && Balance(s, wallet) <= Balance(s', wallet) <= Max(Balance(s, wallet), s.agents[wallet].target)
            && (Done(s, wallet, now) ==> Done(s', wallet, now))
            && (!Done(s', wallet, now) ==> Balance(s', wallet) == Balance(s, wallet) + s.agents[wallet].maxSingle)
  {
    TriggeredBalance(s, wallet, reference, at, now);
  }

  /** What a stretch of ticks achieved. */
  predicate Reached(s: State, s': State, wallet: string, now: int) {
    && Known(s, wallet) && Known(s', wallet)
    && Done(s', wallet, now)
    && Balance(s, wallet) <= Balance(s', wallet) <= Max(Balance(s, wallet), s.agents[wallet].target)
  }

  /** Repeated refills within a day converge, in a number of ticks that is enough to cover the shortfall at
      the single cap, and never overshoot the target. */
  lemma {:induction false} Converges(s: State, wallet: string, reference: string, times: seq<int>, now: int)
    requires Eligible(s, wallet) && s.agents[wallet].maxSingle > 0
    requires forall t | t in times :: SameDay(t, now)
    requires |times| * s.agents[wallet].maxSingle >= Min(s.agents[wallet].min, s.agents[wallet].target) - Balance(s, wallet)
    ensures Reached(s, Ticks(s, wallet, reference, times), wallet, now)
    decreases |times|
  {
    if times != [] {
      assert times[0] in times;
      var single, s1 := s.agents[wallet].maxSingle, Triggered(s, wallet, reference, times[0]);
      TickDone(s, wallet, reference, times[0], now);
      if Done(s1, wallet, now) {
        DoneStays(s1, wallet, reference, times[1..], now);
      } else {
        assert |times[1..]| * single == |times| * single - single;
        Converges(s1, wallet, reference, times[1..], now);
      }
    }
  }

  lemma {:induction false} DoneStays(s: State, wallet: string, reference: string, times: seq<int>, now: int)
    requires Eligible(s, wallet) && Done(s, wallet, now)
    requires forall t | t in times :: SameDay(t, now)
    ensures Reached(s, Ticks(s, wallet, reference, times), wallet, now)
    decreases |times|
  {
    if times != [] {
      assert times[0] in times;
      TickDone(s, wallet, reference, times[0], now);
      DoneStays(Triggered(s, wallet, reference, times[0]), wallet, reference, times[1..], now);
    }
  }

  // ---------------------------------------------------------------------------
  // The ledger below
  // ---------------------------------------------------------------------------

  /** Refills are ordinary deposits of the credit ledger, so its conservation survives every run. */
  lemma {:induction false} LedgerConserved(s: State, es: seq<Event>)
    requires Credit.Conserved(s.ledger)
    requires forall e | e in es && e.Elsewhere? :: Credit.WellKinded(e.event)
    ensures Credit.Conserved(Run(s, es).ledger)
    decreases |es|
  {
    if es != [] {
      assert es[0] in es;
      match es[0] {
        case Register(wallet, _) => Credit.NextConserves(s.ledger, Credit.Open(wallet));
        case Fund(wallet, amount, reference, now) =>
          Credit.NextConserves(s.ledger, Credit.Add(Credit.Deposit, wallet, amount, reference));
        case Trigger(wallet, reference, now) =>
          if Known(s, wallet) {
            Credit.NextConserves(s.ledger, Credit.Add(Credit.Deposit, wallet, Evaluate(s, wallet, now).recommended, reference));
          }
        case Elsewhere(event) => Credit.NextConserves(s.ledger, event);
        case _ =>
      }
      LedgerConserved(Next(s, es[0]), es[1..]);
    }
  }

  // ---------------------------------------------------------------------------
  // The service
  // ---------------------------------------------------------------------------

  class TreasuryService {
    var agents: map<string, Agent>
    const credit: Credit.CreditLedger
    var refills: seq<Refill>
    var halts: seq<Halt>

    ghost function Model(): State
      reads this, credit
    {
      State(agents, credit.Model(), refills, halts)
    }

    constructor (credit: Credit.CreditLedger)
      ensures this.credit == credit && Model() == State(map[], credit.Model(), [], [])
    {
      this.credit := credit;
      agents, refills, halts := map[], [], [];
    }

    method RegisterAgent(wallet: string, agent: Agent) returns (ok: bool)
      modifies this, credit
      ensures Model() == Registered(old(Model()), wallet, agent)
      ensures ok <==> wallet != "" && agent.target >= agent.min
    {
      if wallet == "" || agent.target < agent.min { return false; }
      var _ := credit.GetOrCreateAccount(wallet);
      agents := agents[wallet := agent.(status := Active)];
      return true;
    }

    method FundAgent(wallet: string, amount: int, reference: string, now: int) returns (r: Result<int, FundError>)
      modifies this, credit
      ensures Model() == Funded(old(Model()), wallet, amount, reference, now)
      ensures r.Err? ==> FundGuard(old(Model()), wallet, amount, now) == Some(r.error)
      ensures r.Ok? ==> FundGuard(old(Model()), wallet, amount, now) == None && r.value == Balance(Model(), wallet)
    {
      if wallet !in agents || wallet !in credit.accounts { return Err(NotFound); }
      var agent := agents[wallet];
      var halt := ActiveHalt(halts, wallet, agent.namespace);
      if halt.Some? { return Err(HaltActive(halt.value.reason)); }
      if !agent.status.Active? { return Err(NotActive(agent.status)); }
      if credit.accounts[wallet].frozen { return Err(AccountFrozen); }
      if amount < 0 { return Err(InvalidAmount); }
      if amount <= 0 { return Err(NotPositive); }
      if amount > agent.maxSingle { return Err(ExceedsSingle); }
      var daily := RefilledSince(refills, wallet, DayStart(now));
      if daily + amount > agent.maxDaily { return Err(ExceedsDaily); }
      var row := credit.CreditWallet(Credit.Deposit, wallet, amount, reference);
      if row.Err? { return Err(LedgerRefused); }
      refills := refills + [Refill(wallet, amount, now, agent.maxDaily)];
      return Ok(row.value.balanceAfter);
    }

    /** Whether a refill was made; evaluating an unknown or overdrawn agent throws, and so does funding. */
    method TriggerRecommendedRefill(wallet: string, reference: string, now: int) returns (r: Result<bool, FundError>)
      modifies this, credit
      ensures Model() == Triggered(old(Model()), wallet, reference, now)
      ensures !Known(old(Model()), wallet) ==> r == Err(NotFound)
      ensures Known(old(Model()), wallet) && Balance(old(Model()), wallet) < 0 ==> r == Err(InvalidAmount)
      ensures Known(old(Model()), wallet) && Balance(old(Model()), wallet) >= 0 ==>
                var e := Evaluate(old(Model()), wallet, now);
                && (e.recommended <= 0 || e.blocked ==> r == Ok(false))
                && (e.recommended > 0 && !e.blocked ==>
                      r == match FundGuard(old(Model()), wallet, e.recommended, now)
                           case None => Ok(true)
                           case Some(error) => Err(error))
    {
      if wallet !in agents || wallet !in credit.accounts { return Err(NotFound); }
      var agent, balance := agents[wallet], credit.accounts[wallet].balance;
      if balance < 0 { return Err(InvalidAmount); }
      var halt := ActiveHalt(halts, wallet, agent.namespace);
      var blocked := !agent.status.Active? || credit.accounts[wallet].frozen || halt.Some?;
      var remaining := Max(agent.maxDaily - RefilledSince(refills, wallet, DayStart(now)), 0);
      var recommended := if balance < agent.min
                         then Max(Min(Min(Max(agent.target - balance, 0), agent.maxSingle), remaining), 0) else 0;
      if !blocked && balance < agent.min && remaining <= 0 { blocked := true; }
      if !(balance < agent.min) || recommended <= 0 || blocked { return Ok(false); }
      var funded := FundAgent(wallet, recommended, reference, now);
      return if funded.Ok? then Ok(true) else Err(funded.error);
    }

    method SetTreasuryHalt(halt: Halt)
      modifies this
      ensures Model() == if halt.active then Next(old(Model()), SetHalt(halt))
                         else Next(old(Model()), ClearHalt(halt.scope, halt.key))
    {
      if !halt.active {
        halts := Cleared(halts, halt.scope, halt.key);
      } else {
        halts := halts + [halt];
      }
    }
  }
}
