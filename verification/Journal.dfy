/** Double-entry journal entries and the in-memory balance cache of the financial core. */
module Journal {
  import opened Basics
  import opened Wrappers

  datatype Asset = Uny | Usdf | SUsdf | XUsdf | Usdc

  /** Every constructor of a monetary amount refuses negative values; the unit is the smallest one. */
  datatype Money = Money(asset: Asset, amount: nat)

  type Key = (AccountId, Asset)

  datatype Direction = Debit | Credit

  datatype Leg = Leg(account: AccountId, direction: Direction, money: Money)

  datatype Entry = Entry(legs: seq<Leg>, reference: Option<string>)

  datatype FinError =
    | LedgerUnbalanced(debitTotal: nat, creditTotal: nat)
    | InsufficientBalance(available: int, required: int, asset: Asset)
    | InvoiceNotPayable
    | InvoiceExpired
    | Database

  function KeyOf(leg: Leg): Key {
    (leg.account, leg.money.asset)
  }

  function Signed(leg: Leg): int {
    if leg.direction.Debit? then 0 - leg.money.amount else leg.money.amount
  }

  // ---------------------------------------------------------------------------
  // Sums over legs
  // ---------------------------------------------------------------------------

  /** Total of one direction in one asset. */
  function SideTotal(legs: seq<Leg>, direction: Direction, asset: Asset): nat {
    if legs == [] then 0
    else
      var last := legs[|legs| - 1];
      SideTotal(legs[..|legs| - 1], direction, asset)
      + if last.direction == direction && last.money.asset == asset then last.money.amount else 0
  }

  /** What the legs add to one account in one asset. */
  function BalanceOf(legs: seq<Leg>, key: Key): int {
    if legs == [] then 0
    else (if KeyOf(legs[0]) == key then Signed(legs[0]) else 0) + BalanceOf(legs[1..], key)
  }

  lemma {:induction false} BalanceOfConcat(a: seq<Leg>, b: seq<Leg>, key: Key)
    ensures BalanceOf(a + b, key) == BalanceOf(a, key) + BalanceOf(b, key)
  {
    if a == [] {
      assert a + b == b;
    } else {
      BalanceOfConcat(a[1..], b, key);
      assert (a + b)[1..] == a[1..] + b;
    }
  }

  /** What the legs add to a set of accounts in one asset. */
  ghost function AccountsTotal(accounts: set<AccountId>, legs: seq<Leg>, asset: Asset): int {
    if accounts == {} then 0
    else
      var a :| a in accounts;
      BalanceOf(legs, (a, asset)) + AccountsTotal(accounts - {a}, legs, asset)
  }

  lemma {:induction false} AccountsTotalAppend(accounts: set<AccountId>, legs: seq<Leg>, leg: Leg, asset: Asset)
    ensures AccountsTotal(accounts, legs + [leg], asset)
         == AccountsTotal(accounts, legs, asset)
            + if leg.account in accounts && leg.money.asset == asset then Signed(leg) else 0
    decreases accounts
  {
    if accounts != {} {
      var a :| a in accounts && AccountsTotal(accounts, legs, asset)
                             == BalanceOf(legs, (a, asset)) + AccountsTotal(accounts - {a}, legs, asset)
                             && AccountsTotal(accounts, legs + [leg], asset)
                             == BalanceOf(legs + [leg], (a, asset)) + AccountsTotal(accounts - {a}, legs + [leg], asset);
      BalanceOfConcat(legs, [leg], (a, asset));
      assert [leg][1..] == [];
      AccountsTotalAppend(accounts - {a}, legs, leg, asset);
    }
  }

  predicate Covers(accounts: set<AccountId>, legs: seq<Leg>) {
    forall leg | leg in legs :: leg.account in accounts
  }

  /** Over any set of accounts holding all that occur, the legs add up to credits minus debits. */
  lemma {:induction false} TotalIsNet(accounts: set<AccountId>, legs: seq<Leg>, asset: Asset)
    requires Covers(accounts, legs)
    ensures AccountsTotal(accounts, legs, asset) == SideTotal(legs, Credit, asset) - SideTotal(legs, Debit, asset)
  {
    if legs == [] {
      EmptyTotal(accounts, asset);
    } else {
      var front, last := legs[..|legs| - 1], legs[|legs| - 1];
      assert legs == front + [last] && last in legs;
      TotalIsNet(accounts, front, asset);
      AccountsTotalAppend(accounts, front, last, asset);
    }
  }

  lemma EmptyTotal(accounts: set<AccountId>, asset: Asset)
    ensures AccountsTotal(accounts, [], asset) == 0
  {
  }

  // ---------------------------------------------------------------------------
  // Validation
  // ---------------------------------------------------------------------------

  /** An entry is valid iff it has a leg and its debits equal its credits in every asset. */
  ghost predicate Balanced(legs: seq<Leg>) {
    legs != [] && forall asset :: SideTotal(legs, Debit, asset) == SideTotal(legs, Credit, asset)
  }

  function Get<K>(m: map<K, int>, k: K): int {
    if k in m then m[k] else 0
  }

  /** Group by asset in two maps, then compare; the error names the totals of an asset that differs. */
  method Validate(legs: seq<Leg>) returns (r: Result<(), FinError>)
    ensures r.Ok? <==> Balanced(legs)
    ensures r.Err? && legs == [] ==> r.error == LedgerUnbalanced(0, 0)
    ensures r.Err? && legs != [] ==> exists asset ::
              && SideTotal(legs, Debit, asset) != SideTotal(legs, Credit, asset)
              && r.error == LedgerUnbalanced(SideTotal(legs, Debit, asset), SideTotal(legs, Credit, asset))
  {
    if |legs| == 0 { return Err(LedgerUnbalanced(0, 0)); }
    var debits: map<Asset, int>, credits: map<Asset, int> := map[], map[];
    for i := 0 to |legs|
      invariant forall asset :: Get(debits, asset) == SideTotal(legs[..i], Debit, asset)
      invariant forall asset :: Get(credits, asset) == SideTotal(legs[..i], Credit, asset)
    {
      var leg := legs[i];
      var asset := leg.money.asset;
      assert legs[..i + 1][..i] == legs[..i];
      if leg.direction.Debit? {
        debits := debits[asset := Get(debits, asset) + leg.money.amount];
      } else {
        credits := credits[asset := Get(credits, asset) + leg.money.amount];
      }
    }
    assert legs[..|legs|] == legs;
    var assets := debits.Keys + credits.Keys;
    while assets != {}
      invariant assets <= debits.Keys + credits.Keys
      invariant forall asset | asset !in assets :: Get(debits, asset) == Get(credits, asset)
      decreases assets
    {
      var asset :| asset in assets;
      var d, c := Get(debits, asset), Get(credits, asset);
      if d != c {
        assert d == SideTotal(legs, Debit, asset) && c == SideTotal(legs, Credit, asset);
        return Err(LedgerUnbalanced(d, c));
      }
      assets := assets - {asset};
    }
    return Ok(());
  }

  class EntryBuilder {
    var legs: seq<Leg>
    var ref: Option<string>

    constructor ()
      ensures legs == [] && ref == None
    {
      legs, ref := [], None;
    }

    method AddDebit(account: AccountId, money: Money)
      modifies this
      ensures legs == old(legs) + [Leg(account, Debit, money)] && ref == old(ref)
    {
      legs := legs + [Leg(account, Debit, money)];
    }

    method AddCredit(account: AccountId, money: Money)
      modifies this
      ensures legs == old(legs) + [Leg(account, Credit, money)] && ref == old(ref)
    {
      legs := legs + [Leg(account, Credit, money)];
    }

    method SetReference(reference: string)
      modifies this
      ensures legs == old(legs) && ref == Some(reference)
    {
      ref := Some(reference);
    }

    /** Only balanced entries are built. */
    method Build() returns (r: Result<Entry, FinError>)
      ensures r.Ok? <==> Balanced(legs)
      ensures r.Ok? ==> r.value == Entry(legs, ref)
      ensures r.Err? ==> r.error.LedgerUnbalanced?
    {
      var valid := Validate(legs);
      if valid.Err? { return Err(valid.error); }
      return Ok(Entry(legs, ref));
    }
  }

  // ---------------------------------------------------------------------------
  // The balance cache
  // ---------------------------------------------------------------------------

  /** Whether a leg is refused by a cache: its sum would fall below zero. */
  predicate Refused(cache: map<Key, int>, leg: Leg) {
    Get(cache, KeyOf(leg)) + Signed(leg) < 0
  }

  /** A refused leg leaves the balance as it was; either way the key becomes present. */
  function Applied(cache: map<Key, int>, leg: Leg): map<Key, int> {
    cache[KeyOf(leg) := if Refused(cache, leg) then Get(cache, KeyOf(leg)) else Get(cache, KeyOf(leg)) + Signed(leg)]
  }

  function AppliedAll(cache: map<Key, int>, legs: seq<Leg>): map<Key, int>
    decreases |legs|
  {
    if legs == [] then cache else AppliedAll(Applied(cache, legs[0]), legs[1..])
  }

  class BalanceCache {
    var inner: map<Key, int>

    constructor ()
      ensures inner == map[]
    {
      inner := map[];
    }

    function Balance(key: Key): int
      reads this
    {
      Get(inner, key)
    }

    method Set(key: Key, balance: int)
      modifies this
      ensures inner == old(inner)[key := balance]
    {
      inner := inner[key := balance];
    }

    /** A negative sum is refused with the balance that was available, which is kept. */
    method ApplyDelta(key: Key, delta: int) returns (r: Result<int, FinError>)
      modifies this
      ensures r.Ok? <==> old(Balance(key)) + delta >= 0
      ensures r.Ok? ==> r.value == Balance(key) == old(Balance(key)) + delta
      ensures r.Err? ==> Balance(key) == old(Balance(key))
      ensures r.Err? ==> r.error == InsufficientBalance(old(Balance(key)), if delta < 0 then -delta else delta, key.1)
      ensures key in inner && inner.Keys == old(inner.Keys) + {key}
      ensures forall k | k in old(inner) && k != key :: inner[k] == old(inner)[k]
    {
      if key !in inner {
        inner := inner[key := 0];
      }
      var sum := inner[key] + delta;
      if sum < 0 {
        return Err(InsufficientBalance(inner[key], if delta < 0 then -delta else delta, key.1));
      }
      inner := inner[key := sum];
      return Ok(sum);
    }

    method Remove(key: Key)
      modifies this
      ensures inner == old(inner) - {key}
    {
      inner := inner - {key};
    }
  }
}
