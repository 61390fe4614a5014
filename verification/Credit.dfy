/** Prepaid credit accounts: a balance row per wallet and an append-only table of movements. Every
    operation is one database transaction, so a run is any sequence of committed operations. Amounts are
    whole numbers of the smallest unit the columns hold. */
module Credit {
  import opened Wrappers

  datatype Kind = Deposit | Charge | Refund | Withdrawal | EscrowLock | EscrowRelease

  datatype Account = Account(balance: int, frozen: bool)

  /** A row of credit_transactions. */
  datatype Movement = Movement(wallet: string, kind: Kind, amount: int, balanceAfter: int, reference: string)

  /** checkedKinds is the CHECK constraint on the type column, if the table was created with one. */
  datatype State = State(accounts: map<string, Account>, movements: seq<Movement>, checkedKinds: Option<set<Kind>>)

  datatype CreditError = InsufficientBalance | ConstraintViolation

  /** The constraint of the migration that creates the table; the container image's schema has none. */
  const MIGRATION_KINDS := Some({Deposit, Charge, Refund, Withdrawal})

  predicate Insertable(s: State, kind: Kind) {
    s.checkedKinds.None? || kind in s.checkedKinds.value
  }

  function Moved(s: State, wallet: string, account: Account, kind: Kind, amount: int, reference: string): State {
    s.(accounts := s.accounts[wallet := account],
       movements := s.movements + [Movement(wallet, kind, amount, account.balance, reference)])
  }

  /** deposit and escrowRelease: credit the wallet, creating its account if there is none. */
  function Credited(s: State, kind: Kind, wallet: string, amount: int, reference: string): State {
    if !Insertable(s, kind) then s
    else
      var account := if wallet in s.accounts
                     then s.accounts[wallet].(balance := s.accounts[wallet].balance + amount)
                     else Account(amount, false);
      Moved(s, wallet, account, kind, amount, reference)
  }

  predicate CanDebit(s: State, wallet: string, amount: int) {
    wallet in s.accounts && s.accounts[wallet].balance >= amount && !s.accounts[wallet].frozen
  }

  /** charge and escrowLock: one conditional update, then the movement. */
  function Debited(s: State, kind: Kind, wallet: string, amount: int, reference: string): State {
    if !CanDebit(s, wallet, amount) || !Insertable(s, kind) then s
    else
      var account := s.accounts[wallet].(balance := s.accounts[wallet].balance - amount);
      Moved(s, wallet, account, kind, amount, reference)
  }

  function Opened(s: State, wallet: string): State {
    if wallet in s.accounts then s else s.(accounts := s.accounts[wallet := Account(0, false)])
  }

  function Froze(s: State, wallet: string, frozen: bool): State {
    if wallet in s.accounts then s.(accounts := s.accounts[wallet := s.accounts[wallet].(frozen := frozen)]) else s
  }

  datatype Event =
    | Open(wallet: string)
    | Add(kind: Kind, wallet: string, amount: int, reference: string)
    | Take(kind: Kind, wallet: string, amount: int, reference: string)
    | Freeze(wallet: string, frozen: bool)

  /** The four operations that move money. */
  predicate WellKinded(e: Event) {
    match e
    case Add(kind, _, _, _) => kind.Deposit? || kind.EscrowRelease?
    case Take(kind, _, _, _) => kind.Charge? || kind.EscrowLock?
    case _ => true
  }

  function Next(s: State, e: Event): State {
    match e
    case Open(wallet) => Opened(s, wallet)
    case Add(kind, wallet, amount, reference) => Credited(s, kind, wallet, amount, reference)
    case Take(kind, wallet, amount, reference) => Debited(s, kind, wallet, amount, reference)
    case Freeze(wallet, frozen) => Froze(s, wallet, frozen)
  }

  function Run(s: State, es: seq<Event>): State
    decreases |es|
  {
    if es == [] then s else Run(Next(s, es[0]), es[1..])
  }

  // ---------------------------------------------------------------------------
  // Conservation
  // ---------------------------------------------------------------------------

  function Signed(m: Movement): int {
    match m.kind
    case Deposit => m.amount
    case EscrowRelease => m.amount
    case Refund => m.amount
    case Charge => -m.amount
    case EscrowLock => -m.amount
    case Withdrawal => -m.amount
  }

  /** The signed sum of the movements of a wallet. */
  function NetOf(movements: seq<Movement>, wallet: string): int {
    if movements == [] then 0
    else
      var last := movements[|movements| - 1];
      NetOf(movements[..|movements| - 1], wallet) + if last.wallet == wallet then Signed(last) else 0
  }

  function BalanceOf(s: State, wallet: string): int {
    if wallet in s.accounts then s.accounts[wallet].balance else 0
  }

  /** Every balance is the signed sum of its movements, and every movement recorded the sum up to itself;
      so the latest one of a wallet shows its balance. */
  ghost predicate Conserved(s: State) {
    && (forall wallet :: BalanceOf(s, wallet) == NetOf(s.movements, wallet))
    && (forall i | 0 <= i < |s.movements| ::
          s.movements[i].balanceAfter == NetOf(s.movements[..i + 1], s.movements[i].wallet))
    && (forall i | 0 <= i < |s.movements| :: s.movements[i].wallet in s.accounts)
  }

  lemma NetOfAppend(movements: seq<Movement>, m: Movement, wallet: string)
    ensures NetOf(movements + [m], wallet) == NetOf(movements, wallet) + if m.wallet == wallet then Signed(m) else 0
  {
    assert (movements + [m])[..|movements|] == movements;
  }

  lemma MovedConserves(s: State, wallet: string, account: Account, kind: Kind, amount: int, reference: string)
    requires Conserved(s)
    requires account.balance == BalanceOf(s, wallet) + Signed(Movement(wallet, kind, amount, 0, ""))
    ensures Conserved(Moved(s, wallet, account, kind, amount, reference))
  {
    var s' := Moved(s, wallet, account, kind, amount, reference);
    var m := s'.movements[|s.movements|];
    forall w ensures BalanceOf(s', w) == NetOf(s'.movements, w) {
      NetOfAppend(s.movements, m, w);
    }
    forall i | 0 <= i < |s'.movements|
      ensures s'.movements[i].balanceAfter == NetOf(s'.movements[..i + 1], s'.movements[i].wallet)
    {
      if i < |s.movements| {
        assert s'.movements[..i + 1] == s.movements[..i + 1];
      } else {
        assert s'.movements[..i + 1] == s'.movements;
      }
    }
  }

  lemma NextConserves(s: State, e: Event)
    requires Conserved(s) && WellKinded(e)
    ensures Conserved(Next(s, e))
  {
    var s' := Next(s, e);
    match e
    case Add(kind, wallet, amount, reference) =>
      if s' != s { MovedConserves(s, wallet, s'.accounts[wallet], kind, amount, reference); }
    case Take(kind, wallet, amount, reference) =>
      if s' != s { MovedConserves(s, wallet, s'.accounts[wallet], kind, amount, reference); }
    case Open(wallet) =>
      assert forall w :: BalanceOf(s', w) == BalanceOf(s, w);
    case Freeze(wallet, _) =>
      assert forall w :: BalanceOf(s', w) == BalanceOf(s, w);
  }

  /** In every run, for all amounts. */
  lemma {:induction false} RunConserves(s: State, es: seq<Event>)
    requires Conserved(s) && forall e | e in es :: WellKinded(e)
    ensures Conserved(Run(s, es))
    decreases |es|
  {
    if es != [] {
      NextConserves(s, es[0]);
      RunConserves(Next(s, es[0]), es[1..]);
    }
  }

  /** The newest movement of a wallet carries its current balance. */
  lemma LatestShowsBalance(s: State, i: nat)
    requires Conserved(s) && i < |s.movements|
    requires forall j | i < j < |s.movements| :: s.movements[j].wallet != s.movements[i].wallet
    ensures s.movements[i].balanceAfter == BalanceOf(s, s.movements[i].wallet)
  {
    NetOfUnchanged(s.movements, i + 1, s.movements[i].wallet);
  }

  lemma {:induction false} NetOfUnchanged(movements: seq<Movement>, n: nat, wallet: string)
    requires n <= |movements| && forall j | n <= j < |movements| :: movements[j].wallet != wallet
    ensures NetOf(movements, wallet) == NetOf(movements[..n], wallet)
  {
    if n < |movements| {
      NetOfUnchanged(movements[..|movements| - 1], n, wallet);
      assert movements[..|movements| - 1][..n] == movements[..n];
    } else {
      assert movements[..n] == movements;
    }
  }

  predicate NonNegative(s: State) {
    forall wallet | wallet in s.accounts :: s.accounts[wallet].balance >= 0
  }

  /** A debit can never make a balance negative, whatever its amount; a credit does exactly when its
      amount is below minus the balance. */
  lemma StaysNonNegative(s: State, e: Event)
    requires NonNegative(s)
    ensures NonNegative(Next(s, e)) <==>
              (e.Add? && Insertable(s, e.kind) ==> BalanceOf(s, e.wallet) + e.amount >= 0)
  {
    var s' := Next(s, e);
    if e.Add? && Insertable(s, e.kind) {
      assert s'.accounts[e.wallet].balance == BalanceOf(s, e.wallet) + e.amount;
    }
  }

  /** So with non-negative credits no run overdraws an account. */
  lemma {:induction false} NeverOverdrawn(s: State, es: seq<Event>)
    requires NonNegative(s) && forall e | e in es && e.Add? :: e.amount >= 0
    ensures NonNegative(Run(s, es))
    decreases |es|
  {
    if es != [] {
      assert es[0] in es;
      StaysNonNegative(s, es[0]);
      NeverOverdrawn(Next(s, es[0]), es[1..]);
    }
  }

  /** Nothing in a run unfreezes the wallet or credits it a negative amount. */
  predicate LeavesFrozen(e: Event, wallet: string) {
    && (e.Freeze? ==> e.wallet != wallet || e.frozen)
    && (e.Add? ==> e.wallet != wallet || e.amount >= 0)
  }

  /** A frozen account is never debited: whatever runs, it stays frozen and its balance does not fall. */
  lemma {:induction false} FrozenKeeps(s: State, es: seq<Event>, wallet: string)
    requires wallet in s.accounts && s.accounts[wallet].frozen
    requires forall e | e in es :: LeavesFrozen(e, wallet)
    ensures var s' := Run(s, es);
            wallet in s'.accounts && s'.accounts[wallet].frozen && s'.accounts[wallet].balance >= s.accounts[wallet].balance
    decreases |es|
  {
    if es != [] {
      assert es[0] in es;
      FrozenKeeps(Next(s, es[0]), es[1..], wallet);
    }
  }

  /** Freezing an account freezes it until it is unfrozen, and takes nothing from it. */
  lemma FreezeHolds(s: State, es: seq<Event>, wallet: string)
    requires wallet in s.accounts && forall e | e in es :: LeavesFrozen(e, wallet)
    ensures var s' := Run(Next(s, Freeze(wallet, true)), es);
            wallet in s'.accounts && s'.accounts[wallet].frozen && s'.accounts[wallet].balance >= s.accounts[wallet].balance
    ensures Next(s, Freeze(wallet, false)) == s.(accounts := s.accounts[wallet := s.accounts[wallet].(frozen := false)])
  {
    FrozenKeeps(Next(s, Freeze(wallet, true)), es, wallet);
  }

  /** A debit takes effect exactly when the account is there, unfrozen and covers the amount, and the table takes
      its kind; then it lowers the balance by the amount and records that. Anything else changes nothing. */
  lemma DebitTaken(s: State, kind: Kind, wallet: string, amount: int, reference: string)
    ensures var s' := Next(s, Take(kind, wallet, amount, reference));
            if wallet in s.accounts && !s.accounts[wallet].frozen && s.accounts[wallet].balance >= amount
               && (s.checkedKinds.None? || kind in s.checkedKinds.value) then
              var account := s.accounts[wallet];
              && s'.accounts == s.accounts[wallet := account.(balance := account.balance - amount)]
              && s'.movements == s.movements + [Movement(wallet, kind, amount, account.balance - amount, reference)]
            else s' == s
  {
  }

  /** A credit takes effect exactly when the table takes its kind; it raises the balance by the amount, from zero
      for a new and unfrozen account, and records that. */
  lemma CreditTaken(s: State, kind: Kind, wallet: string, amount: int, reference: string)
    ensures var s' := Next(s, Add(kind, wallet, amount, reference));
            if s.checkedKinds.None? || kind in s.checkedKinds.value then
              var account := if wallet in s.accounts then s.accounts[wallet] else Account(0, false);
              && s'.accounts == s.accounts[wallet := account.(balance := account.balance + amount)]
              && s'.movements == s.movements + [Movement(wallet, kind, amount, account.balance + amount, reference)]
            else s' == s
    ensures Next(s, Open(wallet)).accounts
         == if wallet in s.accounts then s.accounts else s.accounts[wallet := Account(0, false)]
    ensures Next(s, Open(wallet)).movements == s.movements
  {
  }

  /** Under the migration's constraint neither escrow operation can ever take effect. */
  lemma EscrowNeedsItsKinds(s: State, wallet: string, amount: int, reference: string)
    requires s.checkedKinds == MIGRATION_KINDS
    ensures Debited(s, EscrowLock, wallet, amount, reference) == s
    ensures Credited(s, EscrowRelease, wallet, amount, reference) == s
  {
  }

  // ---------------------------------------------------------------------------
  // The service
  // ---------------------------------------------------------------------------

  class CreditLedger {
    var accounts: map<string, Account>
    var movements: seq<Movement>
    const checkedKinds: Option<set<Kind>>

    function Model(): State
      reads this
    {
      State(accounts, movements, checkedKinds)
    }

    constructor (checkedKinds: Option<set<Kind>>)
      ensures Model() == State(map[], [], checkedKinds)
    {
      this.checkedKinds := checkedKinds;
      accounts, movements := map[], [];
    }

    method GetOrCreateAccount(wallet: string) returns (account: Account)
      modifies this
      ensures Model() == Opened(old(Model()), wallet)
      ensures wallet in accounts && account == accounts[wallet]
    {
      if wallet !in accounts {
        accounts := accounts[wallet := Account(0, false)];
      }
      return accounts[wallet];
    }

    /** The shared body of deposit and escrowRelease; an insertion the table refuses rolls back the update. */
    method CreditWallet(kind: Kind, wallet: string, amount: int, reference: string) returns (r: Result<Movement, CreditError>)
      modifies this
      ensures Model() == Credited(old(Model()), kind, wallet, amount, reference)
      ensures r.Ok? <==> Insertable(old(Model()), kind)
      ensures r.Ok? ==> movements == old(movements) + [r.value]
      ensures r.Ok? ==> r.value.balanceAfter == old(BalanceOf(Model(), wallet)) + amount
      ensures r.Err? ==> r.error == ConstraintViolation
    {
      var before := accounts;
      if wallet in accounts {
        accounts := accounts[wallet := accounts[wallet].(balance := accounts[wallet].balance + amount)];
      } else {
        accounts := accounts[wallet := Account(amount, false)];
      }
      if !Insertable(Model(), kind) {
        accounts := before;
        return Err(ConstraintViolation);
      }
      var row := Movement(wallet, kind, amount, accounts[wallet].balance, reference);
      movements := movements + [row];
      return Ok(row);
    }

    /** The shared body of charge and escrowLock. */
    method DebitWallet(kind: Kind, wallet: string, amount: int, reference: string) returns (r: Result<Movement, CreditError>)
      modifies this
      ensures Model() == Debited(old(Model()), kind, wallet, amount, reference)
      ensures r.Ok? <==> old(CanDebit(Model(), wallet, amount)) && Insertable(old(Model()), kind)
      ensures r.Ok? ==> movements == old(movements) + [r.value]
      ensures r.Ok? ==> r.value.balanceAfter == old(BalanceOf(Model(), wallet)) - amount
      ensures r.Err? ==> r.error == if old(CanDebit(Model(), wallet, amount)) then ConstraintViolation else InsufficientBalance
    {
      if !(wallet in accounts && accounts[wallet].balance >= amount && !accounts[wallet].frozen) {
        return Err(InsufficientBalance);
      }
      var before := accounts;
      accounts := accounts[wallet := accounts[wallet].(balance := accounts[wallet].balance - amount)];
      if !Insertable(Model(), kind) {
        accounts := before;
        return Err(ConstraintViolation);
      }
      var row := Movement(wallet, kind, amount, accounts[wallet].balance, reference);
      movements := movements + [row];
      return Ok(row);
    }
  }
}
