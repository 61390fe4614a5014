/** The same service with every wait of verifyPayment exposed: reading the invoice, the replay check, the
    settlement transaction, marking the invoice and inserting the receipt are five separate steps, and the
    steps of all calls and all other operations interleave. */
module Interleaving {
  import opened Wrappers
  import Credit
  import Channels
  import S = Settlement

  datatype Stage = Looked | Checked | Settled | Marked | Finished | Rejected(code: S.Code)

  /** A call remembers the amount of the invoice it read. */
  datatype Call = Call(request: S.Request, amount: int, stage: Stage)

  datatype State = State(base: S.State, calls: seq<Call>)

  datatype Event =
    | Begin(request: S.Request)
    | Step(t: nat)
    | Other(event: S.Event)

  predicate Legal(e: Event) {
    e.Other? ==> S.NotACharge(e.event) && !e.event.Verify?
  }

  function Advanced(base: S.State, c: Call): (S.State, Stage) {
    match c.stage
    case Looked =>
      (match S.ReplayGuard(base, c.request)
       case Some(code) => (base, Rejected(code))
       case None => (base, Checked))
    case Checked =>
      (match S.SettleGuard(base, c.request, c.amount)
       case Some(code) => (base, Rejected(code))
       case None => (S.SettledBy(base, c.request, c.amount), Settled))
    case Settled => (S.MarkedPaid(base, c.request.invoice), Marked)
    case Marked => (S.Receipted(base, c.request, c.amount), Finished)
    case _ => (base, c.stage)
  }

  function Begun(base: S.State, q: S.Request): Call {
    match S.LookupGuard(base, q)
    case Some(code) => Call(q, 0, Rejected(code))
    case None => Call(q, base.invoices[q.invoice].amount, Looked)
  }

  function Next(s: State, e: Event): State {
    match e
    case Begin(q) => s.(calls := s.calls + [Begun(s.base, q)])
    case Step(t) =>
      if t >= |s.calls| then s
      else
        var (base, stage) := Advanced(s.base, s.calls[t]);
        State(base, s.calls[t := s.calls[t].(stage := stage)])
    case Other(event) => s.(base := S.Next(s.base, event))
  }

  function Run(s: State, es: seq<Event>): State
    decreases |es|
  {
    if es == [] then s else Run(Next(s, es[0]), es[1..])
  }

  // ---------------------------------------------------------------------------
  // A call that nothing interrupts
  // ---------------------------------------------------------------------------

  lemma RunTwo(s: State, es: seq<Event>)
    requires |es| >= 2
    ensures Run(s, es) == Run(Next(Next(s, es[0]), es[1]), es[2..])
  {
    assert es[1..][1..] == es[2..];
  }

  /** The five waits of one call. */
  function Alone(s: State, q: S.Request): State {
    var t := Step(|s.calls|);
    Next(Next(Next(Next(Next(s, Begin(q)), t), t), t), t)
  }

  lemma RunFive(s: State, es: seq<Event>)
    requires |es| == 5
    ensures Run(s, es) == Next(Next(Next(Next(Next(s, es[0]), es[1]), es[2]), es[3]), es[4])
  {
    var s2 := Next(Next(s, es[0]), es[1]);
    RunTwo(s, es);
    RunTwo(s2, es[2..]);
    assert es[2..][2..] == [es[4]] && [es[4]][1..] == [];
  }

  /** Four steps of the one call that was just begun. */
  function Through(base: S.State, c: Call): (S.State, Stage) {
    var (b1, s1) := Advanced(base, c);
    var (b2, s2) := Advanced(b1, c.(stage := s1));
    var (b3, s3) := Advanced(b2, c.(stage := s2));
    Advanced(b3, c.(stage := s3))
  }

  lemma StepOfLast(s: State, c: Call, base: S.State)
    ensures var (base', stage) := Advanced(base, c);
            Next(State(base, s.calls + [c]), Step(|s.calls|)) == State(base', s.calls + [c.(stage := stage)])
  {
    var (base', stage) := Advanced(base, c);
    assert (s.calls + [c])[|s.calls| := c.(stage := stage)] == s.calls + [c.(stage := stage)];
  }

  lemma AloneIsThrough(s: State, q: S.Request)
    ensures var (base, stage) := Through(s.base, Begun(s.base, q));
            Alone(s, q) == State(base, s.calls + [Begun(s.base, q).(stage := stage)])
  {
    var c := Begun(s.base, q);
    var (b1, s1) := Advanced(s.base, c);
    var (b2, s2) := Advanced(b1, c.(stage := s1));
    var (b3, s3) := Advanced(b2, c.(stage := s2));
    StepOfLast(s, c, s.base);
    StepOfLast(s, c.(stage := s1), b1);
    StepOfLast(s, c.(stage := s2), b2);
    StepOfLast(s, c.(stage := s3), b3);
  }

  lemma ThroughIsVerified(base: S.State, q: S.Request)
    ensures var (base', stage) := Through(base, Begun(base, q));
            && base' == S.Verified(base, q)
            && (match S.VerifyGuard(base, q) case Some(code) => stage == Rejected(code) case None => stage == Finished)
  {
  }

  /** Run without interruption, the five steps are the atomic call: same state, same answer. */
  lemma SerialIsAtomic(s: State, q: S.Request)
    ensures var t := Step(|s.calls|);
            var s' := Run(s, [Begin(q), t, t, t, t]);
            && s'.base == S.Verified(s.base, q)
            && |s'.calls| == |s.calls| + 1 && s'.calls[..|s.calls|] == s.calls
            && s'.calls[|s.calls|].stage
               == if S.VerifyGuard(s.base, q).Some? then Rejected(S.VerifyGuard(s.base, q).value) else Finished
  {
    var t := Step(|s.calls|);
    RunFive(s, [Begin(q), t, t, t, t]);
    AloneIsThrough(s, q);
    ThroughIsVerified(s.base, q);
  }

  // ---------------------------------------------------------------------------
  // Counting calls
  // ---------------------------------------------------------------------------

  datatype Measure = Early | Past | Charged | Spent | OnChain | Receipted

  /** Early calls have not reached the invoice's status yet; past ones have. */
  predicate Has(c: Call, m: Measure) {
    var settled := c.stage.Settled? || c.stage.Marked? || c.stage.Finished?;
    match m
    case Early => c.stage.Looked? || c.stage.Checked? || c.stage.Settled?
    case Past => c.stage.Marked? || c.stage.Finished?
    case Charged => settled && S.Charges(c.request.proof)
    case Spent => settled && c.request.proof.ChannelSpend?
    case OnChain => settled && !S.Charges(c.request.proof) && !c.request.proof.ChannelSpend?
    case Receipted => c.stage.Finished?
  }

  function One(c: Call, id: string, m: Measure): nat {
    if c.request.invoice == id && Has(c, m) then 1 else 0
  }

  function Count(calls: seq<Call>, id: string, m: Measure): nat {
    if calls == [] then 0 else One(calls[0], id, m) + Count(calls[1..], id, m)
  }

  lemma {:induction false} CountUpdate(calls: seq<Call>, t: nat, c: Call, id: string, m: Measure)
    requires t < |calls|
    ensures Count(calls[t := c], id, m) == Count(calls, id, m) - One(calls[t], id, m) + One(c, id, m)
  {
    if t == 0 {
      assert calls[t := c][1..] == calls[1..];
    } else {
      CountUpdate(calls[1..], t - 1, c, id, m);
      assert calls[t := c][1..] == calls[1..][t - 1 := c];
    }
  }

  lemma {:induction false} CountAppend(calls: seq<Call>, c: Call, id: string, m: Measure)
    ensures Count(calls + [c], id, m) == Count(calls, id, m) + One(c, id, m)
  {
    if calls == [] {
      assert calls + [c] == [c] && [c][1..] == [];
    } else {
      CountAppend(calls[1..], c, id, m);
      assert (calls + [c])[1..] == calls[1..] + [c];
    }
  }

  lemma {:induction false} CountAtLeast(calls: seq<Call>, t: nat, id: string, m: Measure)
    requires t < |calls|
    ensures Count(calls, id, m) >= One(calls[t], id, m)
  {
    if t > 0 { CountAtLeast(calls[1..], t - 1, id, m); }
  }

  lemma {:induction false} CountSum(calls: seq<Call>, id: string)
    ensures Count(calls, id, Charged) + Count(calls, id, Spent) + Count(calls, id, OnChain)
         <= Count(calls, id, Early) + Count(calls, id, Past)
    ensures Count(calls, id, Receipted) <= Count(calls, id, Past)
    ensures (forall c | c in calls && c.request.invoice == id :: c.stage.Finished? || c.stage.Rejected?) ==>
              && Count(calls, id, Early) == 0
              && Count(calls, id, Receipted) == Count(calls, id, Past)
              && Count(calls, id, Charged) + Count(calls, id, Spent) + Count(calls, id, OnChain)
                 == Count(calls, id, Receipted)
  {
    if calls != [] {
      CountSum(calls[1..], id);
      assert calls[0] in calls;
    }
  }

  // ---------------------------------------------------------------------------
  // Any interleaving: every settlement is accounted for
  // ---------------------------------------------------------------------------

  /** The rows of an invoice are exactly those of the calls that got that far. */
  predicate Accounted(s: State, id: string) {
    && |S.ChargesOf(s.base.ledger.movements, id)| == Count(s.calls, id, Charged)
    && |S.SpendsOf(s.base.spends, id)| == Count(s.calls, id, Spent)
    && |S.ReceiptsOf(s.base.receipts, id)| == Count(s.calls, id, Receipted)
  }

  /** One step of a call turns the base state into base' and the call into c'; the rows it adds are those
      that the call's new stage accounts for. */
  predicate Adds(base: S.State, base': S.State, c: Call, c': Call, id: string) {
    && |S.ChargesOf(base'.ledger.movements, id)|
       == |S.ChargesOf(base.ledger.movements, id)| + One(c', id, Charged) - One(c, id, Charged)
    && |S.SpendsOf(base'.spends, id)| == |S.SpendsOf(base.spends, id)| + One(c', id, Spent) - One(c, id, Spent)
    && |S.ReceiptsOf(base'.receipts, id)|
       == |S.ReceiptsOf(base.receipts, id)| + One(c', id, Receipted) - One(c, id, Receipted)
  }

  lemma SettlingAdds(base: S.State, c: Call, id: string)
    requires c.stage.Checked? && S.SettleGuard(base, c.request, c.amount).None?
    ensures Adds(base, S.SettledBy(base, c.request, c.amount), c, c.(stage := Settled), id)
  {
    S.SettlementAdds(base, c.request, c.amount, id);
  }

  lemma ReceiptingAdds(base: S.State, c: Call, id: string)
    requires c.stage.Marked?
    ensures Adds(base, S.Receipted(base, c.request, c.amount), c, c.(stage := Finished), id)
  {
    S.AppendedReceipt(base.receipts, S.Receipt(c.request.invoice, c.request.proof, c.amount), id);
  }

  lemma AdvancedAdds(base: S.State, c: Call, id: string)
    ensures var (base', stage) := Advanced(base, c); Adds(base, base', c, c.(stage := stage), id)
  {
    if c.stage.Checked? && S.SettleGuard(base, c.request, c.amount).None? {
      SettlingAdds(base, c, id);
    } else if c.stage.Marked? {
      ReceiptingAdds(base, c, id);
    }
  }

  lemma StepAccounted(s: State, t: nat, id: string)
    requires Accounted(s, id) && t < |s.calls|
    ensures Accounted(Next(s, Step(t)), id)
  {
    var (base, stage) := Advanced(s.base, s.calls[t]);
    var c := s.calls[t].(stage := stage);
    AdvancedAdds(s.base, s.calls[t], id);
    CountUpdate(s.calls, t, c, id, Charged);
    CountUpdate(s.calls, t, c, id, Spent);
    CountUpdate(s.calls, t, c, id, Receipted);
  }

  lemma BeginAccounted(s: State, q: S.Request, id: string)
    requires Accounted(s, id)
    ensures Accounted(Next(s, Begin(q)), id)
  {
    var c := Begun(s.base, q);
    CountAppend(s.calls, c, id, Charged);
    CountAppend(s.calls, c, id, Spent);
    CountAppend(s.calls, c, id, Receipted);
  }

  lemma NextAccounted(s: State, e: Event, id: string)
    requires Accounted(s, id) && Legal(e)
    ensures Accounted(Next(s, e), id)
  {
    match e
    case Begin(q) => BeginAccounted(s, q, id);
    case Step(t) => if t < |s.calls| { StepAccounted(s, t, id); }
    case Other(event) =>
      if event.Account? { S.OtherMovements(s.base.ledger, event.event, id); }
  }

  lemma {:induction false} RunAccounted(s: State, es: seq<Event>, id: string)
    requires Accounted(s, id) && forall e | e in es :: Legal(e)
    ensures Accounted(Run(s, es), id)
    decreases |es|
  {
    if es != [] {
      assert es[0] in es;
      NextAccounted(s, es[0], id);
      RunAccounted(Next(s, es[0]), es[1..], id);
    }
  }

  /** A row of the three tables, without its invoice. */
  datatype Row =
    | ChargeRow(payer: string, amount: int)
    | SpendRow(channel: string, sequence: int, amount: int)
    | ReceiptRow(proof: S.Proof, amount: int)

  /** Whether a call at its stage has written this row for an invoice. */
  predicate Wrote(c: Call, id: string, row: Row) {
    var p := c.request.proof;
    c.request.invoice == id &&
    match row
    case ChargeRow(payer, amount) => Has(c, Charged) && p.payer == payer && c.amount == amount
    case SpendRow(channel, sequence, amount) =>
      Has(c, Spent) && p.channel == channel && p.sequence == sequence && c.amount == amount
    case ReceiptRow(proof, amount) => Has(c, Receipted) && p == proof && c.amount == amount
  }

  function Writers(calls: seq<Call>, id: string, row: Row): nat {
    if calls == [] then 0 else (if Wrote(calls[0], id, row) then 1 else 0) + Writers(calls[1..], id, row)
  }

  function ChargeRows(ms: seq<Credit.Movement>): seq<Row> {
    seq(|ms|, i requires 0 <= i < |ms| => ChargeRow(ms[i].wallet, ms[i].amount))
  }

  function SpendRows(xs: seq<S.Spend>): seq<Row> {
    seq(|xs|, i requires 0 <= i < |xs| => SpendRow(xs[i].channel, xs[i].sequence, xs[i].amount))
  }

  function ReceiptRows(rs: seq<S.Receipt>): seq<Row> {
    seq(|rs|, i requires 0 <= i < |rs| => ReceiptRow(rs[i].proof, rs[i].amount))
  }

  /** How often this row is stored for an invoice. */
  function Stored(base: S.State, id: string, row: Row): nat {
    match row
    case ChargeRow(_, _) => multiset(ChargeRows(S.ChargesOf(base.ledger.movements, id)))[row]
    case SpendRow(_, _, _) => multiset(SpendRows(S.SpendsOf(base.spends, id)))[row]
    case ReceiptRow(_, _) => multiset(ReceiptRows(S.ReceiptsOf(base.receipts, id)))[row]
  }

  /** A row is stored as often as calls have written it. */
  predicate Matched(s: State, id: string, row: Row) {
    Stored(s.base, id, row) == Writers(s.calls, id, row)
  }

  lemma {:induction false} WritersUpdate(calls: seq<Call>, t: nat, c: Call, id: string, row: Row)
    requires t < |calls|
    ensures Writers(calls[t := c], id, row)
         == Writers(calls, id, row) - (if Wrote(calls[t], id, row) then 1 else 0) + (if Wrote(c, id, row) then 1 else 0)
  {
    if t == 0 {
      assert calls[t := c][1..] == calls[1..];
    } else {
      WritersUpdate(calls[1..], t - 1, c, id, row);
      assert calls[t := c][1..] == calls[1..][t - 1 := c];
    }
  }

  lemma {:induction false} WritersAppend(calls: seq<Call>, c: Call, id: string, row: Row)
    ensures Writers(calls + [c], id, row) == Writers(calls, id, row) + if Wrote(c, id, row) then 1 else 0
  {
    if calls == [] {
      assert calls + [c] == [c] && [c][1..] == [];
    } else {
      WritersAppend(calls[1..], c, id, row);
      assert (calls + [c])[1..] == calls[1..] + [c];
    }
  }

  /** The step from base to base' stores the row once more exactly if moving from c to c' writes it. */
  predicate Writes(base: S.State, base': S.State, c: Call, c': Call, id: string, row: Row) {
    Stored(base', id, row)
    == Stored(base, id, row) - (if Wrote(c, id, row) then 1 else 0) + (if Wrote(c', id, row) then 1 else 0)
  }

  lemma OneMore(before: seq<Row>, last: Row, row: Row)
    ensures multiset(before + [last])[row] == multiset(before)[row] + if last == row then 1 else 0
  {
  }

  lemma OneMoreCharge(ms: seq<Credit.Movement>, m: Credit.Movement, row: Row)
    ensures multiset(ChargeRows(ms + [m]))[row]
         == multiset(ChargeRows(ms))[row] + if ChargeRow(m.wallet, m.amount) == row then 1 else 0
  {
    assert ChargeRows(ms + [m]) == ChargeRows(ms) + [ChargeRow(m.wallet, m.amount)];
    OneMore(ChargeRows(ms), ChargeRow(m.wallet, m.amount), row);
  }

  lemma OneMoreSpend(xs: seq<S.Spend>, x: S.Spend, row: Row)
    ensures multiset(SpendRows(xs + [x]))[row]
         == multiset(SpendRows(xs))[row] + if SpendRow(x.channel, x.sequence, x.amount) == row then 1 else 0
  {
    assert SpendRows(xs + [x]) == SpendRows(xs) + [SpendRow(x.channel, x.sequence, x.amount)];
    OneMore(SpendRows(xs), SpendRow(x.channel, x.sequence, x.amount), row);
  }

  lemma OneMoreReceipt(rs: seq<S.Receipt>, r: S.Receipt, row: Row)
    ensures multiset(ReceiptRows(rs + [r]))[row]
         == multiset(ReceiptRows(rs))[row] + if ReceiptRow(r.proof, r.amount) == row then 1 else 0
  {
    assert ReceiptRows(rs + [r]) == ReceiptRows(rs) + [ReceiptRow(r.proof, r.amount)];
    OneMore(ReceiptRows(rs), ReceiptRow(r.proof, r.amount), row);
  }

  lemma FinishedWrote(c: Call, id: string, row: Row)
    requires c.stage.Marked?
    ensures !row.ReceiptRow? ==> (Wrote(c.(stage := Finished), id, row) <==> Wrote(c, id, row))
    ensures row.ReceiptRow? ==> !Wrote(c, id, row)
    ensures row.ReceiptRow? ==> (Wrote(c.(stage := Finished), id, row) <==>
                                   c.request.invoice == id && row == ReceiptRow(c.request.proof, c.amount))
  {
  }

  lemma SettledWrote(c: Call, id: string, row: Row)
    requires c.stage.Checked?
    ensures !Wrote(c, id, row)
    ensures var p := c.request.proof;
            Wrote(c.(stage := Settled), id, row) <==>
              && c.request.invoice == id
              && ((row.ChargeRow? && S.Charges(p) && ChargeRow(p.payer, c.amount) == row)
                  || (row.SpendRow? && p.ChannelSpend? && SpendRow(p.channel, p.sequence, c.amount) == row))
  {
  }

  lemma ChargingWrites(base: S.State, c: Call, id: string, row: Row)
    requires c.stage.Checked? && S.SettleGuard(base, c.request, c.amount).None? && row.ChargeRow?
    ensures Writes(base, S.SettledBy(base, c.request, c.amount), c, c.(stage := Settled), id, row)
  {
    var charges := S.ChargesOf(base.ledger.movements, id);
    var charges' := S.ChargesOf(S.SettledBy(base, c.request, c.amount).ledger.movements, id);
    S.SettlementAdds(base, c.request, c.amount, id);
    SettledWrote(c, id, row);
    if c.request.invoice == id && S.Charges(c.request.proof) {
      var m := charges'[|charges|];
      assert charges' == charges + [m];
      OneMoreCharge(charges, m, row);
    }
  }

  lemma SpendingWrites(base: S.State, c: Call, id: string, row: Row)
    requires c.stage.Checked? && S.SettleGuard(base, c.request, c.amount).None? && row.SpendRow?
    ensures Writes(base, S.SettledBy(base, c.request, c.amount), c, c.(stage := Settled), id, row)
  {
    var p := c.request.proof;
    S.SettlementAdds(base, c.request, c.amount, id);
    SettledWrote(c, id, row);
    if c.request.invoice == id && p.ChannelSpend? {
      OneMoreSpend(S.SpendsOf(base.spends, id), S.Spend(id, p.channel, p.sequence, c.amount), row);
    }
  }

  lemma SettlingWrites(base: S.State, c: Call, id: string, row: Row)
    requires c.stage.Checked? && S.SettleGuard(base, c.request, c.amount).None?
    ensures Writes(base, S.SettledBy(base, c.request, c.amount), c, c.(stage := Settled), id, row)
  {
    match row
    case ChargeRow(_, _) => ChargingWrites(base, c, id, row);
    case SpendRow(_, _, _) => SpendingWrites(base, c, id, row);
    case ReceiptRow(_, _) =>
  }

  lemma ReceiptingWrites(base: S.State, c: Call, id: string, row: Row)
    requires c.stage.Marked?
    ensures Writes(base, S.Receipted(base, c.request, c.amount), c, c.(stage := Finished), id, row)
  {
    FinishedWrote(c, id, row);
    if row.ReceiptRow? {
      var r, receipts := S.Receipt(c.request.invoice, c.request.proof, c.amount), S.ReceiptsOf(base.receipts, id);
      S.AppendedReceipt(base.receipts, r, id);
      OneMoreReceipt(receipts, r, row);
    }
  }

  lemma AdvancedWrites(base: S.State, c: Call, id: string, row: Row)
    ensures var (base', stage) := Advanced(base, c); Writes(base, base', c, c.(stage := stage), id, row)
  {
    if c.stage.Checked? && S.SettleGuard(base, c.request, c.amount).None? {
      SettlingWrites(base, c, id, row);
    } else if c.stage.Marked? {
      ReceiptingWrites(base, c, id, row);
    }
  }

  lemma StepMatched(s: State, t: nat, id: string, row: Row)
    requires Matched(s, id, row) && t < |s.calls|
    ensures Matched(Next(s, Step(t)), id, row)
  {
    var (_, stage) := Advanced(s.base, s.calls[t]);
    AdvancedWrites(s.base, s.calls[t], id, row);
    WritersUpdate(s.calls, t, s.calls[t].(stage := stage), id, row);
  }

  lemma OtherMatched(s: State, e: S.Event, id: string, row: Row)
    requires Matched(s, id, row) && Legal(Other(e))
    ensures Matched(Next(s, Other(e)), id, row)
  {
    if e.Account? { S.OtherMovements(s.base.ledger, e.event, id); }
  }

  lemma NextMatched(s: State, e: Event, id: string, row: Row)
    requires Matched(s, id, row) && Legal(e)
    ensures Matched(Next(s, e), id, row)
  {
    match e
    case Begin(q) => WritersAppend(s.calls, Begun(s.base, q), id, row);
    case Step(t) => if t < |s.calls| { StepMatched(s, t, id, row); }
    case Other(event) => OtherMatched(s, event, id, row);
  }

  /** Over every interleaving and for every row: a charge of this payer and amount, a spend of this channel,
      sequence and amount, a receipt of this proof and amount is stored for an invoice as often as calls on it
      with that payer, proof and amount got that far. */
  lemma {:induction false} RunMatched(s: State, es: seq<Event>, id: string, row: Row)
    requires Matched(s, id, row) && forall e | e in es :: Legal(e)
    ensures Matched(Run(s, es), id, row)
    decreases |es|
  {
    if es != [] {
      assert es[0] in es;
      NextMatched(s, es[0], id, row);
      RunMatched(Next(s, es[0]), es[1..], id, row);
    }
  }

  predicate Resting(s: State, id: string) {
    forall c | c in s.calls && c.request.invoice == id :: c.stage.Finished? || c.stage.Rejected?
  }

  /** However calls overlap, once those of an invoice have ended its receipts are as many as its charges,
      channel spends and on-chain settlements together: nothing is settled without a receipt or receipted
      without a settlement. */
  lemma SettlementsMatchReceipts(s: State, es: seq<Event>, id: string)
    requires Accounted(s, id) && forall e | e in es :: Legal(e)
    requires Resting(Run(s, es), id)
    ensures var s' := Run(s, es);
            |S.ReceiptsOf(s'.base.receipts, id)|
            == |S.ChargesOf(s'.base.ledger.movements, id)| + |S.SpendsOf(s'.base.spends, id)| + Count(s'.calls, id, OnChain)
  {
    RunAccounted(s, es, id);
    CountSum(Run(s, es).calls, id);
  }

  // ---------------------------------------------------------------------------
  // Any interleaving: the money adds up
  // ---------------------------------------------------------------------------

  function SpendTotal(spends: seq<S.Spend>, channel: string): int {
    if spends == [] then 0
    else
      var last := spends[|spends| - 1];
      SpendTotal(spends[..|spends| - 1], channel) + if last.channel == channel then last.amount else 0
  }

  /** The credit ledger is conserved, and a channel's row shows what was spent on it. */
  ghost predicate Sound(base: S.State, channel: string) {
    && Credit.Conserved(base.ledger)
    && (if channel in base.rows then
          var row := base.rows[channel];
          row.spent == SpendTotal(base.spends, channel) && row.available + row.spent == row.deposited
        else SpendTotal(base.spends, channel) == 0)
  }

  lemma SettledSound(base: S.State, q: S.Request, amount: int, channel: string)
    requires Sound(base, channel)
    ensures Sound(S.SettledBy(base, q, amount), channel)
  {
    var base' := S.SettledBy(base, q, amount);
    if base'.spends != base.spends { assert base'.spends[..|base.spends|] == base.spends; }
    if S.Charges(q.proof) {
      Credit.NextConserves(base.ledger, Credit.Take(Credit.Charge, q.proof.payer, amount, q.invoice));
    }
  }

  lemma AdvancedSound(base: S.State, c: Call, channel: string)
    requires Sound(base, channel)
    ensures Sound(Advanced(base, c).0, channel)
  {
    if c.stage.Checked? {
      SettledSound(base, c.request, c.amount, channel);
    } else {
      var base' := Advanced(base, c).0;
      assert base'.ledger == base.ledger && base'.rows == base.rows && base'.spends == base.spends;
    }
  }

  lemma OtherSound(base: S.State, e: S.Event, channel: string)
    requires Sound(base, channel) && !e.Verify? && (e.Account? ==> Credit.WellKinded(e.event))
    ensures Sound(S.Next(base, e), channel)
  {
    var base' := S.Next(base, e);
    if e.Account? {
      Credit.NextConserves(base.ledger, e.event);
    } else {
      assert base'.ledger == base.ledger && base'.spends == base.spends;
    }
  }

  lemma NextSound(s: State, e: Event, channel: string)
    requires Sound(s.base, channel)
    requires e.Other? ==> !e.event.Verify? && (e.event.Account? ==> Credit.WellKinded(e.event.event))
    ensures Sound(Next(s, e).base, channel)
  {
    match e
    case Begin(_) =>
    case Step(t) => if t < |s.calls| { AdvancedSound(s.base, s.calls[t], channel); }
    case Other(event) => OtherSound(s.base, event, channel);
  }

  lemma {:induction false} RunSound(s: State, es: seq<Event>, channel: string)
    requires Sound(s.base, channel)
    requires forall e | e in es && e.Other? :: !e.event.Verify? && (e.event.Account? ==> Credit.WellKinded(e.event.event))
    ensures Sound(Run(s, es).base, channel)
    decreases |es|
  {
    if es != [] {
      assert es[0] in es;
      NextSound(s, es[0], channel);
      RunSound(Next(s, es[0]), es[1..], channel);
    }
  }

  // ---------------------------------------------------------------------------
  // When a receipted invoice is paid
  // ---------------------------------------------------------------------------

  predicate StatusOf(s: State, id: string, status: S.Status) {
    id in s.base.invoices && s.base.invoices[id].status == status
  }

  /** A call that has marked the invoice found it, and left it no longer pending; only such a call makes it paid. */
  predicate Reached(s: State, id: string) {
    && (Count(s.calls, id, Early) + Count(s.calls, id, Past) > 0 ==> id in s.base.invoices)
    && (Count(s.calls, id, Past) > 0 ==> !StatusOf(s, id, S.Pending))
    && (StatusOf(s, id, S.Paid) ==> Count(s.calls, id, Past) > 0)
  }

  lemma StepReached(s: State, t: nat, id: string)
    requires Reached(s, id) && t < |s.calls|
    ensures Reached(Next(s, Step(t)), id)
  {
    var s' := Next(s, Step(t));
    CountUpdate(s.calls, t, s'.calls[t], id, Early);
    CountUpdate(s.calls, t, s'.calls[t], id, Past);
    CountAtLeast(s.calls, t, id, Early);
    CountAtLeast(s.calls, t, id, Past);
  }

  lemma BeginReached(s: State, q: S.Request, id: string)
    requires Reached(s, id)
    ensures Reached(Next(s, Begin(q)), id)
  {
    CountAppend(s.calls, Begun(s.base, q), id, Early);
    CountAppend(s.calls, Begun(s.base, q), id, Past);
  }

  lemma NextReached(s: State, e: Event, id: string)
    requires Reached(s, id) && Legal(e)
    ensures Reached(Next(s, e), id)
  {
    match e
    case Begin(q) => BeginReached(s, q, id);
    case Step(t) => if t < |s.calls| { StepReached(s, t, id); }
    case Other(event) =>
  }

  lemma {:induction false} RunReached(s: State, es: seq<Event>, id: string)
    requires Reached(s, id) && forall e | e in es :: Legal(e)
    ensures Reached(Run(s, es), id)
    decreases |es|
  {
    if es != [] {
      assert es[0] in es;
      NextReached(s, es[0], id);
      RunReached(Next(s, es[0]), es[1..], id);
    }
  }

  /** An expiry that finds the invoice pending and overdue. */
  predicate Sweeps(s: State, e: Event, id: string) {
    && e.Other? && e.event.Expire? && StatusOf(s, id, S.Pending)
    && s.base.invoices[id].expiresAt < e.event.now
  }

  predicate Swept(s: State, es: seq<Event>, id: string)
    decreases |es|
  {
    es != [] && (Sweeps(s, es[0], id) || Swept(Next(s, es[0]), es[1..], id))
  }

  /** Nothing has ended the invoice yet but payment. */
  predicate Alive(s: State, id: string) {
    id in s.base.invoices ==> StatusOf(s, id, S.Pending) || StatusOf(s, id, S.Paid)
  }

  lemma NextAlive(s: State, e: Event, id: string)
    requires Legal(e)
    ensures Alive(s, id) ==>
              if Sweeps(s, e, id) then StatusOf(Next(s, e), id, S.Expired) else Alive(Next(s, e), id)
    ensures StatusOf(s, id, S.Expired) ==> StatusOf(Next(s, e), id, S.Expired)
  {
  }

  lemma {:induction false} StaysExpired(s: State, es: seq<Event>, id: string)
    requires StatusOf(s, id, S.Expired) && forall e | e in es :: Legal(e)
    ensures StatusOf(Run(s, es), id, S.Expired)
    decreases |es|
  {
    if es != [] {
      assert es[0] in es;
      NextAlive(s, es[0], id);
      StaysExpired(Next(s, es[0]), es[1..], id);
    }
  }

  lemma {:induction false} RunAlive(s: State, es: seq<Event>, id: string)
    requires Alive(s, id) && forall e | e in es :: Legal(e)
    ensures if Swept(s, es, id) then StatusOf(Run(s, es), id, S.Expired) else Alive(Run(s, es), id)
    decreases |es|
  {
    if es != [] {
      assert es[0] in es;
      NextAlive(s, es[0], id);
      if Sweeps(s, es[0], id) {
        StaysExpired(Next(s, es[0]), es[1..], id);
      } else {
        RunAlive(Next(s, es[0]), es[1..], id);
      }
    }
  }

  /** However calls overlap: an invoice with a receipt is paid exactly when no expiry swept it first; and once
      its calls have ended, being paid is having a receipt and not having been swept. */
  lemma PaidIffNotSwept(s: State, es: seq<Event>, id: string)
    requires Accounted(s, id) && Reached(s, id) && Alive(s, id) && forall e | e in es :: Legal(e)
    ensures var s' := Run(s, es);
            var receipts := S.ReceiptsOf(s'.base.receipts, id);
            && (receipts != [] ==> (StatusOf(s', id, S.Paid) <==> !Swept(s, es, id)))
            && (Resting(s', id) ==> (StatusOf(s', id, S.Paid) <==> receipts != [] && !Swept(s, es, id)))
  {
    RunAccounted(s, es, id);
    RunReached(s, es, id);
    RunAlive(s, es, id);
    CountSum(Run(s, es).calls, id);
  }

  // ---------------------------------------------------------------------------
  // At most once, when the calls of an invoice do not overlap
  // ---------------------------------------------------------------------------

  /** No call begins on an invoice while another one has yet to mark it. */
  predicate Apart(s: State, es: seq<Event>)
    decreases |es|
  {
    es != [] ==>
    && (es[0].Begin? ==> Count(s.calls, es[0].request.invoice, Early) == 0)
    && Apart(Next(s, es[0]), es[1..])
  }

  /** At most one call got past admission. */
  predicate Single(s: State, id: string) {
    Reached(s, id) && Count(s.calls, id, Early) + Count(s.calls, id, Past) <= 1
  }

  lemma StepSingle(s: State, t: nat, id: string)
    requires t < |s.calls|
    ensures var calls := Next(s, Step(t)).calls;
            Count(calls, id, Early) + Count(calls, id, Past) <= Count(s.calls, id, Early) + Count(s.calls, id, Past)
  {
    var c := Next(s, Step(t)).calls[t];
    CountUpdate(s.calls, t, c, id, Early);
    CountUpdate(s.calls, t, c, id, Past);
  }

  lemma BeginSingle(s: State, q: S.Request, id: string)
    requires Single(s, id) && Count(s.calls, q.invoice, Early) == 0
    ensures Single(Next(s, Begin(q)), id)
  {
    BeginReached(s, q, id);
    CountAppend(s.calls, Begun(s.base, q), id, Early);
    CountAppend(s.calls, Begun(s.base, q), id, Past);
  }

  lemma NextSingle(s: State, e: Event, id: string)
    requires Single(s, id) && Legal(e)
    requires e.Begin? ==> Count(s.calls, e.request.invoice, Early) == 0
    ensures Single(Next(s, e), id)
  {
    NextReached(s, e, id);
    match e
    case Begin(q) => BeginSingle(s, q, id);
    case Step(t) => if t < |s.calls| { StepSingle(s, t, id); }
    case Other(event) =>
  }

  lemma {:induction false} RunSingle(s: State, es: seq<Event>, id: string)
    requires Single(s, id) && Apart(s, es) && forall e | e in es :: Legal(e)
    ensures Single(Run(s, es), id)
    decreases |es|
  {
    if es != [] {
      assert es[0] in es;
      NextSingle(s, es[0], id);
      RunSingle(Next(s, es[0]), es[1..], id);
    }
  }

  /** If the calls of each invoice keep apart, then at every moment an invoice has at most one charge or
      channel spend and at most one receipt; at rest a paid invoice has exactly one receipt, and an invoice
      with a receipt is no longer pending. */
  lemma AtMostOnce(s: State, es: seq<Event>, id: string)
    requires Accounted(s, id) && Single(s, id) && Apart(s, es) && forall e | e in es :: Legal(e)
    ensures var s' := Run(s, es);
            var receipts := S.ReceiptsOf(s'.base.receipts, id);
            && |S.ChargesOf(s'.base.ledger.movements, id)| + |S.SpendsOf(s'.base.spends, id)| <= 1
            && |receipts| <= 1
            && (Resting(s', id) && StatusOf(s', id, S.Paid) ==> |receipts| == 1)
            && (receipts != [] ==> id in s'.base.invoices && !StatusOf(s', id, S.Pending))
  {
    RunAccounted(s, es, id);
    RunSingle(s, es, id);
    CountSum(Run(s, es).calls, id);
  }

  // ---------------------------------------------------------------------------
  // What overlap breaks
  // ---------------------------------------------------------------------------

  predicate OneChannel(p: S.Proof, q: S.Proof) {
    p.ChannelSpend? && q.ChannelSpend? && p.channel == q.channel
  }

  predicate OnePayer(p: S.Proof, q: S.Proof) {
    S.Charges(p) && S.Charges(q) && p.payer == q.payer
  }

  /** Whether c and then d can both settle: each on its own, except that charges of one payer share a balance,
      and spends of one channel share its funds and must come in sequence. */
  predicate BothCanSettle(base: S.State, c: Call, d: Call) {
    var p, q := c.request.proof, d.request.proof;
    && S.SettleGuard(base, c.request, c.amount).None?
    && if OnePayer(p, q) then
         S.Refusal(d.request).None? && Credit.CanDebit(base.ledger, p.payer, c.amount + d.amount)
       else if OneChannel(p, q) then
         && S.Refusal(d.request).None? && p.sequence < q.sequence
         && Channels.SpendGuard(base.rows, p.channel, q.sequence, c.amount + d.amount).None?
       else S.SettleGuard(base, d.request, d.amount).None?
  }

  lemma SecondSettles(base: S.State, c: Call, d: Call)
    requires S.SettleGuard(base, c.request, c.amount).None?
    ensures S.SettleGuard(S.SettledBy(base, c.request, c.amount), d.request, d.amount).None? <==> BothCanSettle(base, c, d)
  {
  }

  /** Two calls take their remaining steps, settling before either marks or issues its receipt. */
  function BothFinished(s: State, t: nat, u: nat): State {
    var settled := Next(Next(s, Step(t)), Step(u));
    Next(Next(Next(Next(settled, Step(t)), Step(u)), Step(t)), Step(u))
  }

  lemma CheckedStep(s: State, t: nat)
    requires t < |s.calls| && s.calls[t].stage.Checked?
    ensures var c := s.calls[t];
            var guard := S.SettleGuard(s.base, c.request, c.amount);
            Next(s, Step(t)) == State(S.SettledBy(s.base, c.request, c.amount),
                                      s.calls[t := c.(stage := if guard.None? then Settled else Rejected(guard.value))])
  {
  }

  /** The steps after settlement add one receipt for a call that settled and none for one that was rejected. */
  lemma MarkAndReceipt(s: State, t: nat, u: nat, id: string)
    requires t < |s.calls| && u < |s.calls| && t != u
    requires s.calls[t].stage.Settled? || s.calls[t].stage.Rejected?
    requires s.calls[u].stage.Settled? || s.calls[u].stage.Rejected?
    requires s.calls[t].request.invoice == id && s.calls[u].request.invoice == id
    ensures var s' := Next(Next(Next(Next(s, Step(t)), Step(u)), Step(t)), Step(u));
            |S.ReceiptsOf(s'.base.receipts, id)| == |S.ReceiptsOf(s.base.receipts, id)|
              + (if s.calls[t].stage.Settled? then 1 else 0) + (if s.calls[u].stage.Settled? then 1 else 0)
  {
    var s2 := Next(Next(s, Step(t)), Step(u));
    assert s2.base.receipts == s.base.receipts;
    ReceiptStep(s2, t, id);
    ReceiptStep(Next(s2, Step(t)), u, id);
  }

  lemma ReceiptStep(s: State, t: nat, id: string)
    requires t < |s.calls| && (s.calls[t].stage.Marked? || s.calls[t].stage.Rejected?) && s.calls[t].request.invoice == id
    ensures |S.ReceiptsOf(Next(s, Step(t)).base.receipts, id)|
         == |S.ReceiptsOf(s.base.receipts, id)| + (if s.calls[t].stage.Marked? then 1 else 0)
    ensures forall u | 0 <= u < |s.calls| && u != t :: Next(s, Step(t)).calls[u] == s.calls[u]
  {
    var c := s.calls[t];
    if c.stage.Marked? {
      S.AppendedReceipt(s.base.receipts, S.Receipt(c.request.invoice, c.request.proof, c.amount), id);
    }
  }

  /** For proofs of all kinds, whatever their amounts: two calls of one invoice that have both passed the checks
      both settle, and leave two receipts, exactly when both can. */
  lemma OverlapSettlesIff(s: State, t: nat, u: nat, id: string)
    requires t < |s.calls| && u < |s.calls| && t != u
    requires s.calls[t].stage.Checked? && s.calls[t].request.invoice == id
    requires s.calls[u].stage.Checked? && s.calls[u].request.invoice == id
    ensures var s2, c, d := Next(Next(s, Step(t)), Step(u)), s.calls[t], s.calls[u];
            && (s2.calls[t].stage.Settled? && s2.calls[u].stage.Settled? <==> BothCanSettle(s.base, c, d))
            && (|S.ReceiptsOf(BothFinished(s, t, u).base.receipts, id)| == |S.ReceiptsOf(s.base.receipts, id)| + 2
                <==> BothCanSettle(s.base, c, d))
  {
    var c, d := s.calls[t], s.calls[u];
    CheckedStep(s, t);
    CheckedStep(Next(s, Step(t)), u);
    if S.SettleGuard(s.base, c.request, c.amount).None? { SecondSettles(s.base, c, d); }
    MarkAndReceipt(Next(Next(s, Step(t)), Step(u)), t, u, id);
  }

  /** For charges: the invoice is charged twice exactly when both can settle. */
  lemma OverlapChargesIff(s: State, t: nat, u: nat, id: string)
    requires t < |s.calls| && u < |s.calls| && t != u
    requires s.calls[t].stage.Checked? && s.calls[t].request.invoice == id && S.Charges(s.calls[t].request.proof)
    requires s.calls[u].stage.Checked? && s.calls[u].request.invoice == id && S.Charges(s.calls[u].request.proof)
    ensures BothCanSettle(s.base, s.calls[t], s.calls[u]) <==>
              |S.ChargesOf(Next(Next(s, Step(t)), Step(u)).base.ledger.movements, id)|
              == |S.ChargesOf(s.base.ledger.movements, id)| + 2
  {
    OverlapSettlesIff(s, t, u, id);
    AdvancedAdds(s.base, s.calls[t], id);
    AdvancedAdds(Next(s, Step(t)).base, s.calls[u], id);
  }

  const DEPOSITED := Credit.Movement("w", Credit.Deposit, 2, 2, "")

  /** A pending invoice over 1 and a wallet that has deposited 2. */
  function Example(): State {
    State(S.State(map["i" := S.Invoice("n", 1, S.Pending, 10)],
                  Credit.State(map["w" := Credit.Account(2, false)], [DEPOSITED], None), map[], [], []), [])
  }

  const START := State(S.EMPTY, [])

  function Prologue(): seq<Event> {
    [Other(S.Create("i", "n", 1, 10)), Other(S.Account(Credit.Add(Credit.Deposit, "w", 2, "")))]
  }

  /** Every run from the example is a run from nothing. */
  lemma FromNothing(es: seq<Event>)
    ensures Run(START, Prologue() + es) == Run(Example(), es)
  {
    var all := Prologue() + es;
    var s1 := Next(START, all[0]);
    assert s1.base == S.EMPTY.(invoices := map["i" := S.Invoice("n", 1, S.Pending, 10)]);
    assert [] + [DEPOSITED] == [DEPOSITED];
    assert Next(s1, all[1]) == Example();
    RunTwo(START, all);
    assert all[2..] == es;
  }

  const REQUEST := S.Request("i", "n", S.PrepaidCredit("w", "n", "i"), None, false, 0)

  /** Two calls have passed every check; nothing has been settled. */
  lemma BothChecked(es: seq<Event>)
    requires es == [Begin(REQUEST), Begin(REQUEST), Step(0), Step(1)]
    ensures Next(Next(Next(Next(Example(), es[0]), es[1]), es[2]), es[3])
         == State(Example().base, [Call(REQUEST, 1, Checked), Call(REQUEST, 1, Checked)])
  {
    var s2 := Next(Next(Example(), es[0]), es[1]);
    assert s2.calls == [Call(REQUEST, 1, Looked), Call(REQUEST, 1, Looked)];
  }

  lemma BothCharge(s: State)
    requires s == State(Example().base, [Call(REQUEST, 1, Checked), Call(REQUEST, 1, Checked)])
    ensures |S.ChargesOf(Next(Next(s, Step(0)), Step(1)).base.ledger.movements, "i")| == 2
  {
    OverlapChargesIff(s, 0, 1, "i");
    S.AppendedMovement([], DEPOSITED, "i");
    assert [] + [DEPOSITED] == [DEPOSITED];
  }

  /** From nothing: two overlapping calls of one invoice are both admitted and both charge the payer. */
  lemma OverlapChargesTwice() returns (es: seq<Event>)
    ensures forall e | e in es :: Legal(e)
    ensures |S.ChargesOf(Run(START, es).base.ledger.movements, "i")| == 2
  {
    var rest := [Begin(REQUEST), Begin(REQUEST), Step(0), Step(1), Step(0), Step(1)];
    BothChecked(rest[..4]);
    RunSix(Example(), rest);
    BothCharge(Next(Next(Next(Next(Example(), rest[0]), rest[1]), rest[2]), rest[3]));
    es := Prologue() + rest;
    FromNothing(rest);
  }

  lemma ExpiryInBetween(es: seq<Event>)
    requires es == [Begin(REQUEST), Step(0), Step(0), Other(S.Expire(11)), Step(0), Step(0)]
    ensures var s := Run(Example(), es);
            StatusOf(s, "i", S.Expired) && |S.ReceiptsOf(s.base.receipts, "i")| == 1
  {
    var s0 := Example();
    var s3 := Next(Next(Next(s0, es[0]), es[1]), es[2]);
    assert s3.calls == [Call(REQUEST, 1, Settled)];
    var s6 := Next(Next(Next(s3, es[3]), es[4]), es[5]);
    RunSix(s0, es);
    assert s6.base.receipts == [] + [S.Receipt("i", REQUEST.proof, 1)];
    S.AppendedReceipt([], S.Receipt("i", REQUEST.proof, 1), "i");
  }

  /** From nothing: an expiry between the settlement and the marking leaves a settled, receipted invoice expired;
      paid is then not the same as having a receipt. */
  lemma ExpiryOvertakesMark() returns (es: seq<Event>)
    ensures forall e | e in es :: Legal(e)
    ensures var s := Run(START, es);
            StatusOf(s, "i", S.Expired) && |S.ReceiptsOf(s.base.receipts, "i")| == 1
  {
    var rest := [Begin(REQUEST), Step(0), Step(0), Other(S.Expire(11)), Step(0), Step(0)];
    ExpiryInBetween(rest);
    es := Prologue() + rest;
    FromNothing(rest);
  }

  lemma RunSix(s: State, es: seq<Event>)
    requires |es| == 6
    ensures Run(s, es) == Next(Next(Next(Next(Next(Next(s, es[0]), es[1]), es[2]), es[3]), es[4]), es[5])
  {
    RunTwo(s, es);
    RunTwo(Next(Next(s, es[0]), es[1]), es[2..]);
    RunTwo(Next(Next(Next(Next(s, es[0]), es[1]), es[2]), es[3]), es[2..][2..]);
  }
}
