/** Settling an invoice through the ledger: guards read from the cache, then one charge entry. */
module Payments {
  import opened Basics
  import opened Wrappers
  import opened Journal
  import opened Ledger

  datatype InvoiceStatus = Pending | Paid | Expired | Cancelled | Disputed

  /** The asset an invoice names and the asset of its amount are two separate fields. */
  datatype Invoice = Invoice(amount: Money, asset: Asset, status: InvoiceStatus, expiresAt: int)

  /** One call: now is the clock it reads, commits whether the database accepts its transaction. */
  datatype Request = Request(invoice: Invoice, payer: AccountId, payee: AccountId, txHash: string, now: int, commits: bool)

  function ChargeEntry(q: Request): Entry {
    Entry([Leg(q.payer, Debit, q.invoice.amount), Leg(q.payee, Credit, q.invoice.amount)], Some("tx:" + q.txHash))
  }

  /** The balance the guard reads, and the balance the charge entry debits. */
  function GuardKey(q: Request): Key { (q.payer, q.invoice.asset) }

  function ChargedKey(q: Request): Key { (q.payer, q.invoice.amount.asset) }

  predicate Accepts(b: Books, q: Request) {
    && q.invoice.status.Pending?
    && q.now < q.invoice.expiresAt
    && Get(b.cache, GuardKey(q)) >= q.invoice.amount.amount
  }

  ghost function Settled(b: Books, q: Request): Books {
    if Accepts(b, q) then Submitted(b, ChargeEntry(q), q.commits) else b
  }

  lemma TwoLegs(legs: seq<Leg>, key: Key, cache: map<Key, int>)
    requires |legs| == 2
    ensures BalanceOf(legs, key) == (if KeyOf(legs[0]) == key then Signed(legs[0]) else 0)
                                  + (if KeyOf(legs[1]) == key then Signed(legs[1]) else 0)
    ensures AppliedAll(cache, legs) == Applied(Applied(cache, legs[0]), legs[1])
  {
    var tail := legs[1..];
    assert tail == [legs[1]] && tail[1..] == [];
    assert BalanceOf(tail, key) == if KeyOf(legs[1]) == key then Signed(legs[1]) else 0;
    var once := Applied(cache, legs[0]);
    assert AppliedAll(once, tail) == AppliedAll(Applied(once, tail[0]), tail[1..]);
  }

  lemma ChargeEntryBalanced(q: Request)
    ensures Balanced(ChargeEntry(q).legs)
  {
    var legs := ChargeEntry(q).legs;
    assert legs[..1] == [legs[0]] && legs[..1][..0] == [];
    forall asset ensures SideTotal(legs, Debit, asset) == SideTotal(legs, Credit, asset) {
      assert SideTotal(legs[..1], Debit, asset) == if asset == q.invoice.amount.asset then q.invoice.amount.amount else 0;
      assert SideTotal(legs[..1], Credit, asset) == 0;
    }
  }

  /** A call posts one entry, from the payer to the payee and for the invoice's amount, if the invoice is
      pending, has not expired at that instant and the payer's balance in the asset it names covers the amount;
      and nothing if not. A number is used up even when the database refuses. */
  lemma PostedIffPayable(b: Books, q: Request)
    ensures var b' := Settled(b, q);
            var payable := q.invoice.status == Pending && q.now < q.invoice.expiresAt
                           && (if (q.payer, q.invoice.asset) in b.cache then b.cache[(q.payer, q.invoice.asset)] else 0)
                              >= q.invoice.amount.amount;
            var legs := [Leg(q.payer, Debit, q.invoice.amount), Leg(q.payee, Credit, q.invoice.amount)];
            && b'.sequence == (if payable then b.sequence + 1 else b.sequence)
            && b'.journal == (if payable && q.commits
                              then b.journal + [Posted(b.sequence + 1, Entry(legs, Some("tx:" + q.txHash)))] else b.journal)
            && (!payable || !q.commits ==> b'.cache == b.cache)
  {
    ChargeEntryBalanced(q);
  }

  class PaymentVerifier {
    const ledger: Engine

    constructor (ledger: Engine)
      ensures this.ledger == ledger
    {
      this.ledger := ledger;
    }

    /** The error tells which guard failed; without one the charge is submitted. */
    method VerifyAndSettle(q: Request) returns (r: Result<(), FinError>)
      modifies ledger, ledger.cache
      ensures ledger.Model() == Settled(old(ledger.Model()), q)
      ensures r.Ok? <==> Accepts(old(ledger.Model()), q) && q.commits
      ensures !q.invoice.status.Pending? ==> r == Err(InvoiceNotPayable)
      ensures q.invoice.status.Pending? && q.now >= q.invoice.expiresAt ==> r == Err(FinError.InvoiceExpired)
      ensures q.invoice.status.Pending? && q.now < q.invoice.expiresAt && !Accepts(old(ledger.Model()), q) ==>
                r == Err(InsufficientBalance(old(ledger.cache.Balance(GuardKey(q))), q.invoice.amount.amount, q.invoice.asset))
      ensures Accepts(old(ledger.Model()), q) && !q.commits ==> r == Err(Database)
    {
      if !q.invoice.status.Pending? { return Err(InvoiceNotPayable); }
      if !(q.now < q.invoice.expiresAt) { return Err(FinError.InvoiceExpired); }
      var available := ledger.cache.Balance(GuardKey(q));
      if available < q.invoice.amount.amount {
        return Err(InsufficientBalance(available, q.invoice.amount.amount, q.invoice.asset));
      }
      ChargeEntryBalanced(q);
      var builder := new EntryBuilder();
      builder.AddDebit(q.payer, q.invoice.amount);
      builder.AddCredit(q.payee, q.invoice.amount);
      builder.SetReference("tx:" + q.txHash);
      assert builder.legs == ChargeEntry(q).legs;
      var built := builder.Build();
      assert built.Ok?; // the builder's check cannot fail here
      var posted := ledger.Submit(built.value, q.commits);
      if posted.Err? { return Err(posted.error); }
      return Ok(());
    }
  }

  // ---------------------------------------------------------------------------
  // Runs of serial calls
  // ---------------------------------------------------------------------------

  /** The cache shows the books, and no balance is negative. */
  ghost predicate Agrees(opening: map<Key, int>, b: Books) {
    forall key: Key ::
      Get(b.cache, key) == Get(opening, key) + Booked(b.journal, key) && Get(b.cache, key) >= 0
  }

  ghost function RunSettles(b: Books, qs: seq<Request>): Books
    decreases |qs|
  {
    if qs == [] then b else RunSettles(Settled(b, qs[0]), qs[1..])
  }

  lemma BookedCharge(journal: seq<Posted>, number: nat, q: Request, key: Key)
    ensures Booked(journal + [Posted(number, ChargeEntry(q))], key)
         == Booked(journal, key)
            - (if key == ChargedKey(q) then q.invoice.amount.amount else 0)
            + (if key == (q.payee, q.invoice.amount.asset) then q.invoice.amount.amount else 0)
  {
    var posted := journal + [Posted(number, ChargeEntry(q))];
    assert posted[..|posted| - 1] == journal;
    TwoLegs(ChargeEntry(q).legs, key, map[]);
  }

  lemma ChargedCache(cache: map<Key, int>, q: Request, key: Key)
    requires forall k: Key :: Get(cache, k) >= 0
    ensures var after := AppliedAll(cache, ChargeEntry(q).legs);
            var debit := if Get(cache, ChargedKey(q)) >= q.invoice.amount.amount then q.invoice.amount.amount else 0;
            Get(after, key) == Get(cache, key)
              - (if key == ChargedKey(q) then debit else 0)
              + (if key == (q.payee, q.invoice.amount.asset) then q.invoice.amount.amount else 0)
  {
    var legs := ChargeEntry(q).legs;
    TwoLegs(legs, key, cache);
    var once := Applied(cache, legs[0]);
    assert Get(cache, KeyOf(legs[0])) >= 0 && Get(cache, KeyOf(legs[1])) >= 0;
    assert KeyOf(legs[0]) == ChargedKey(q) && KeyOf(legs[1]) == (q.payee, q.invoice.amount.asset);
  }

  predicate Covered(b: Books, q: Request) {
    Get(b.cache, ChargedKey(q)) >= q.invoice.amount.amount
  }

  /** A committed charge moves cache and books alike, except that an uncovered debit is lost to the cache. */
  lemma ChargeEffect(b: Books, q: Request, key: Key)
    requires Accepts(b, q) && q.commits && forall k: Key :: Get(b.cache, k) >= 0
    ensures var b' := Settled(b, q);
            && Get(b'.cache, key) - Booked(b'.journal, key)
               == Get(b.cache, key) - Booked(b.journal, key)
                  + (if key == ChargedKey(q) && !Covered(b, q) then q.invoice.amount.amount else 0)
            && Get(b'.cache, key) >= 0
  {
    ChargeEntryBalanced(q);
    BookedCharge(b.journal, b.sequence + 1, q, key);
    ChargedCache(b.cache, q, key);
  }

  lemma CoveredAgrees(opening: map<Key, int>, b: Books, q: Request)
    requires Agrees(opening, b) && Accepts(b, q) && q.commits && Covered(b, q)
    ensures Agrees(opening, Settled(b, q))
  {
    var b' := Settled(b, q);
    forall key: Key ensures Get(b'.cache, key) == Get(opening, key) + Booked(b'.journal, key) && Get(b'.cache, key) >= 0 {
      ChargeEffect(b, q, key);
    }
  }

  lemma UncoveredDrifts(opening: map<Key, int>, b: Books, q: Request)
    requires Agrees(opening, b) && Accepts(b, q) && q.commits && !Covered(b, q)
    ensures !Agrees(opening, Settled(b, q))
  {
    var key, b' := ChargedKey(q), Settled(b, q);
    ChargeEffect(b, q, key);
    assert Get(b'.cache, key) != Get(opening, key) + Booked(b'.journal, key);
  }

  /** One call from an agreeing state: it stays agreeing exactly when the balance that is really charged
      covers the amount. The guard reads the balance in the asset the invoice names, so this is guaranteed
      for every accepted call whose two asset fields coincide. */
  lemma SettleAgrees(opening: map<Key, int>, b: Books, q: Request)
    requires Agrees(opening, b)
    ensures Agrees(opening, Settled(b, q)) <==> !Accepts(b, q) || !q.commits || Covered(b, q)
    ensures q.invoice.asset == q.invoice.amount.asset ==> Agrees(opening, Settled(b, q))
  {
    if Accepts(b, q) {
      ChargeEntryBalanced(q);
      if q.commits {
        if Covered(b, q) { CoveredAgrees(opening, b, q); } else { UncoveredDrifts(opening, b, q); }
      }
    }
  }

  /** Serial runs of consistent invoices keep the cache equal to the books and every balance non-negative. */
  lemma {:induction false} RunAgrees(opening: map<Key, int>, b: Books, qs: seq<Request>)
    requires Agrees(opening, b)
    requires forall q | q in qs :: q.invoice.asset == q.invoice.amount.asset
    ensures Agrees(opening, RunSettles(b, qs))
    decreases |qs|
  {
    if qs != [] {
      SettleAgrees(opening, b, qs[0]);
      RunAgrees(opening, Settled(b, qs[0]), qs[1..]);
    }
  }

  /** With two different asset fields the guard looks at the wrong balance: this call is accepted, its debit
      is refused by the cache, and its credit is not. */
  lemma MixedAssetsDrift()
    ensures exists opening: map<Key, int>, b: Books, q: Request ::
              Agrees(opening, b) && Accepts(b, q) && !Agrees(opening, Settled(b, q))
  {
    var opening: map<Key, int> := map[(0, Usdf) := 5];
    var b := Books(0, [], opening);
    var q := Request(Invoice(Money(Uny, 5), Usdf, Pending, 10), 0, 1, "", 0, true);
    assert Agrees(opening, b);
    UncoveredDrifts(opening, b, q);
    assert Agrees(opening, b) && Accepts(b, q) && !Agrees(opening, Settled(b, q));
  }

  /** Settling does not use the invoice up: the same request right after a first success is accepted again
      unless it took the amount from the balance the guard reads, which then no longer covers it. */
  lemma SettlesAgain(opening: map<Key, int>, b: Books, q: Request)
    requires Agrees(opening, b) && Accepts(b, q) && q.commits
    ensures Accepts(Settled(b, q), q) <==>
              || q.invoice.asset != q.invoice.amount.asset
              || q.payer == q.payee
              || Get(b.cache, GuardKey(q)) >= 2 * q.invoice.amount.amount
  {
    ChargeEntryBalanced(q);
    ChargedCache(b.cache, q, GuardKey(q));
  }
}
