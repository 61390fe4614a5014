/** Verifying a payment proof against an invoice and settling it: admission checks, settlement by proof
    type, marking the invoice paid, issuing the receipt. Here a call of verifyPayment is one step. The
    outcomes of signature, adapter and rate-limit checks come with the request. */
module Settlement {
  import opened Wrappers
  import Credit
  import Channels

  datatype Status = Pending | Paid | Expired | Cancelled

  datatype Invoice = Invoice(nonce: string, amount: int, status: Status, expiresAt: int)

  /** signedFor is the invoice identifier in the proof, which its signature covers together with the nonce of a
      credit proof, or with the channel and the sequence of a channel proof. */
  datatype Proof =
    | PrepaidCredit(payer: string, nonce: string, signedFor: string)
    | ChannelSpend(payer: string, nonce: string, channel: string, sequence: int, signedFor: string)
    | SignedAuth(payer: string)
    | TxHash(payer: string, nonce: string, rail: string, hash: string)
    | XrplPayment(payer: string, nonce: string, hash: string)
    | UnknownProof(payer: string)

  /** refusal: what the signature or adapter check answers, if it refuses; limited: the rate limiter refused. */
  datatype Request = Request(invoice: string, nonce: string, proof: Proof, refusal: Option<Code>, limited: bool, now: int)

  datatype Receipt = Receipt(invoice: string, proof: Proof, amount: int)

  /** A channel spend that went through, kept as history: the server has no table for it. */
  datatype Spend = Spend(invoice: string, channel: string, sequence: int, amount: int)

  datatype State = State(
    invoices: map<string, Invoice>,
    ledger: Credit.State,
    rows: Channels.Rows,
    receipts: seq<Receipt>,
    spends: seq<Spend>)

  datatype Code =
    | InvoiceNotFound | InvoiceRedeemed | InvoiceExpired | InvoiceInvalid | NonceMismatch | RateLimited
    | InvalidProof | InsufficientAmount | ChannelSequenceInvalid | Internal
    | RailNotAllowed | AssetNotAllowed | ServerMisconfigured
    | TxNotFound | TxFailed | TxMismatch | TxPending | TxLookupUnavailable

  // ---------------------------------------------------------------------------
  // The stages of a call
  // ---------------------------------------------------------------------------

  predicate HasNonce(p: Proof) {
    !p.SignedAuth? && !p.UnknownProof?
  }

  /** The checks against the invoice row that was read. */
  function LookupGuard(s: State, q: Request): Option<Code> {
    if q.invoice !in s.invoices then Some(InvoiceNotFound)
    else
      var invoice := s.invoices[q.invoice];
      if invoice.status.Paid? then Some(InvoiceRedeemed)
      else if invoice.status.Expired? then Some(InvoiceExpired)
      else if !invoice.status.Pending? then Some(InvoiceInvalid)
      else if invoice.expiresAt < q.now then Some(InvoiceExpired)
      else if HasNonce(q.proof) && q.proof.nonce != invoice.nonce then Some(NonceMismatch)
      else None
  }

  /** The replay guard reads the row again, and the rate limiter is asked. */
  function ReplayGuard(s: State, q: Request): Option<Code> {
    if q.invoice in s.invoices && s.invoices[q.invoice].nonce == q.nonce && s.invoices[q.invoice].status.Paid? then
      Some(NonceMismatch)
    else if q.limited then Some(RateLimited)
    else None
  }

  predicate Charges(p: Proof) {
    p.PrepaidCredit? || p.SignedAuth?
  }

  /** Every refused proof is invalid, except that a transaction adapter has codes of its own. */
  function Refusal(q: Request): Option<Code> {
    if q.proof.UnknownProof? then Some(InvalidProof)
    else if q.refusal.None? || q.proof.TxHash? then q.refusal
    else Some(InvalidProof)
  }

  /** Why a settlement fails. Every channel error is reported under one code. */
  function SettleGuard(s: State, q: Request, amount: int): Option<Code> {
    if Refusal(q).Some? then Refusal(q)
    else if Charges(q.proof) then
      if !Credit.CanDebit(s.ledger, q.proof.payer, amount) then Some(InsufficientAmount)
      else if !Credit.Insertable(s.ledger, Credit.Charge) then Some(Internal)
      else None
    else if q.proof.ChannelSpend? then
      if Channels.SpendGuard(s.rows, q.proof.channel, q.proof.sequence, amount).Some? then Some(ChannelSequenceInvalid)
      else None
    else None
  }

  /** The transaction of the settlement; on-chain proofs move nothing here. */
  function SettledBy(s: State, q: Request, amount: int): State {
    if SettleGuard(s, q, amount).Some? then s
    else if Charges(q.proof) then
      s.(ledger := Credit.Debited(s.ledger, Credit.Charge, q.proof.payer, amount, q.invoice))
    else if q.proof.ChannelSpend? then
      s.(rows := Channels.SpentChannel(s.rows, q.proof.channel, q.proof.sequence, amount),
         spends := s.spends + [Spend(q.invoice, q.proof.channel, q.proof.sequence, amount)])
    else s
  }

  function MarkedPaid(s: State, id: string): State {
    if id in s.invoices && s.invoices[id].status.Pending? then
      s.(invoices := s.invoices[id := s.invoices[id].(status := Paid)])
    else s
  }

  function Receipted(s: State, q: Request, amount: int): State {
    s.(receipts := s.receipts + [Receipt(q.invoice, q.proof, amount)])
  }

  /** The first check that fails, in the order of the code. */
  function VerifyGuard(s: State, q: Request): Option<Code> {
    if LookupGuard(s, q).Some? then LookupGuard(s, q)
    else if ReplayGuard(s, q).Some? then ReplayGuard(s, q)
    else SettleGuard(s, q, s.invoices[q.invoice].amount)
  }

  function Completed(s: State, q: Request, amount: int): State {
    Receipted(MarkedPaid(SettledBy(s, q, amount), q.invoice), q, amount)
  }

  function Verified(s: State, q: Request): State {
    if VerifyGuard(s, q).Some? then s
    else Completed(s, q, s.invoices[q.invoice].amount)
  }

  function ExpiredAt(s: State, now: int): State {
    s.(invoices := map id | id in s.invoices ::
         if s.invoices[id].status.Pending? && s.invoices[id].expiresAt < now
         then s.invoices[id].(status := Expired) else s.invoices[id])
  }

  predicate NonceTaken(invoices: map<string, Invoice>, nonce: string) {
    exists id | id in invoices :: invoices[id].nonce == nonce
  }

  /** The table refuses a second invoice of the same identifier or nonce. */
  function Created(s: State, id: string, nonce: string, amount: int, expiresAt: int): State {
    if id in s.invoices || NonceTaken(s.invoices, nonce) then s
    else s.(invoices := s.invoices[id := Invoice(nonce, amount, Pending, expiresAt)])
  }

  // ---------------------------------------------------------------------------
  // Runs
  // ---------------------------------------------------------------------------

  const EMPTY := State(map[], Credit.State(map[], [], None), map[], [], [])

  datatype Event =
    | Create(id: string, nonce: string, amount: int, expiresAt: int)
    | Verify(request: Request)
    | Expire(now: int)
    | Account(event: Credit.Event)         // deposits, escrow, freezes
    | OpenChannel(channel: string, owner: string, deposit: int)
    | CloseChannel(channel: string)

  /** Charges are made by settlements only. */
  predicate NotACharge(e: Event) {
    !(e.Account? && e.event.Take? && e.event.kind.Charge?) && !(e.Account? && e.event.Add? && e.event.kind.Charge?)
  }

  function Next(s: State, e: Event): State {
    match e
    case Create(id, nonce, amount, expiresAt) => Created(s, id, nonce, amount, expiresAt)
    case Verify(q) => Verified(s, q)
    case Expire(now) => ExpiredAt(s, now)
    case Account(event) => s.(ledger := Credit.Next(s.ledger, event))
    case OpenChannel(channel, owner, deposit) => s.(rows := Channels.OpenedChannel(s.rows, channel, owner, deposit))
    case CloseChannel(channel) => s.(rows := Channels.ClosedChannel(s.rows, channel))
  }

  function Run(s: State, es: seq<Event>): State
    decreases |es|
  {
    if es == [] then s else Run(Next(s, es[0]), es[1..])
  }

  // ---------------------------------------------------------------------------
  // Settlement at most once
  // ---------------------------------------------------------------------------

  function ReceiptsOf(receipts: seq<Receipt>, id: string): seq<Receipt> {
    if receipts == [] then []
    else
      var front, last := ReceiptsOf(receipts[..|receipts| - 1], id), receipts[|receipts| - 1];
      if last.invoice == id then front + [last] else front
  }

  function ChargesOf(movements: seq<Credit.Movement>, id: string): seq<Credit.Movement> {
    if movements == [] then []
    else
      var front, last := ChargesOf(movements[..|movements| - 1], id), movements[|movements| - 1];
      if last.kind.Charge? && last.reference == id then front + [last] else front
  }

  function SpendsOf(spends: seq<Spend>, id: string): seq<Spend> {
    if spends == [] then []
    else
      var front, last := SpendsOf(spends[..|spends| - 1], id), spends[|spends| - 1];
      if last.invoice == id then front + [last] else front
  }

  /** What a receipt's proof type leaves behind: one charge of the payer, one spend of the channel, or
      nothing, always of the invoice's amount. */
  predicate BackedBy(r: Receipt, charges: seq<Credit.Movement>, spends: seq<Spend>) {
    && (if Charges(r.proof) then |charges| == 1 && charges[0].wallet == r.proof.payer && charges[0].amount == r.amount
        else charges == [])
    && (if r.proof.ChannelSpend? then
          spends == [Spend(r.invoice, r.proof.channel, r.proof.sequence, r.amount)]
        else spends == [])
  }

  /** An invoice is paid iff it has a receipt; then it has exactly one, of its amount, backed by exactly one
      settlement; otherwise nothing was settled for it. */
  predicate SettledOnce(s: State, id: string) {
    var receipts := ReceiptsOf(s.receipts, id);
    var charges := ChargesOf(s.ledger.movements, id);
    var spends := SpendsOf(s.spends, id);
    if id in s.invoices && s.invoices[id].status.Paid? then
      && |receipts| == 1
      && receipts[0].invoice == id && receipts[0].amount == s.invoices[id].amount
      && BackedBy(receipts[0], charges, spends)
    else receipts == [] && charges == [] && spends == []
  }

  lemma AppendedReceipt(receipts: seq<Receipt>, r: Receipt, id: string)
    ensures ReceiptsOf(receipts + [r], id)
         == if r.invoice == id then ReceiptsOf(receipts, id) + [r] else ReceiptsOf(receipts, id)
  {
    assert (receipts + [r])[..|receipts|] == receipts;
  }

  lemma AppendedMovement(movements: seq<Credit.Movement>, m: Credit.Movement, id: string)
    ensures ChargesOf(movements + [m], id)
         == if m.kind.Charge? && m.reference == id then ChargesOf(movements, id) + [m] else ChargesOf(movements, id)
  {
    assert (movements + [m])[..|movements|] == movements;
  }

  lemma AppendedSpend(spends: seq<Spend>, x: Spend, id: string)
    ensures SpendsOf(spends + [x], id)
         == if x.invoice == id then SpendsOf(spends, id) + [x] else SpendsOf(spends, id)
  {
    assert (spends + [x])[..|spends|] == spends;
  }

  /** What one settlement adds to the charges and spends of every invoice. */
  lemma SettlementAdds(s: State, q: Request, amount: int, id: string)
    requires SettleGuard(s, q, amount).None?
    ensures var s' := SettledBy(s, q, amount);
            var charges, charges' := ChargesOf(s.ledger.movements, id), ChargesOf(s'.ledger.movements, id);
            && s'.invoices == s.invoices && s'.receipts == s.receipts
            && (if Charges(q.proof) && q.invoice == id then
                  |charges'| == |charges| + 1 && charges' == charges + [charges'[|charges|]]
                  && charges'[|charges|].wallet == q.proof.payer && charges'[|charges|].amount == amount
                else charges' == charges)
            && SpendsOf(s'.spends, id)
               == if q.proof.ChannelSpend? && q.invoice == id
                  then SpendsOf(s.spends, id) + [Spend(id, q.proof.channel, q.proof.sequence, amount)]
                  else SpendsOf(s.spends, id)
  {
    var s' := SettledBy(s, q, amount);
    if Charges(q.proof) {
      AppendedMovement(s.ledger.movements, s'.ledger.movements[|s.ledger.movements|], id);
    } else if q.proof.ChannelSpend? {
      AppendedSpend(s.spends, s'.spends[|s.spends|], id);
    }
  }

  /** Nothing that concerns this invoice differs. */
  predicate SameFor(s: State, s': State, id: string) {
    && ReceiptsOf(s'.receipts, id) == ReceiptsOf(s.receipts, id)
    && ChargesOf(s'.ledger.movements, id) == ChargesOf(s.ledger.movements, id)
    && SpendsOf(s'.spends, id) == SpendsOf(s.spends, id)
    && (id in s'.invoices <==> id in s.invoices)
    && (id in s.invoices ==> s'.invoices[id] == s.invoices[id])
  }

  lemma OtherInvoice(s: State, q: Request, amount: int, id: string)
    requires SettleGuard(s, q, amount).None? && q.invoice != id
    ensures SameFor(s, Completed(s, q, amount), id)
  {
    SettlementAdds(s, q, amount, id);
    AppendedReceipt(s.receipts, Receipt(q.invoice, q.proof, amount), id);
  }

  lemma StillSettledOnce(s: State, s': State, id: string)
    requires SettledOnce(s, id) && SameFor(s, s', id)
    ensures SettledOnce(s', id)
  {
  }

  lemma CompletedItself(s: State, q: Request, amount: int)
    requires SettledOnce(s, q.invoice) && SettleGuard(s, q, amount).None?
    requires q.invoice in s.invoices && s.invoices[q.invoice].status.Pending? && s.invoices[q.invoice].amount == amount
    ensures SettledOnce(Completed(s, q, amount), q.invoice)
  {
    var r := Receipt(q.invoice, q.proof, amount);
    SettlementAdds(s, q, amount, q.invoice);
    AppendedReceipt(s.receipts, r, q.invoice);
    var s1 := SettledBy(s, q, amount);
    assert BackedBy(r, ChargesOf(s1.ledger.movements, q.invoice), SpendsOf(s1.spends, q.invoice));
  }

  lemma VerifiedOnce(s: State, q: Request, id: string)
    requires SettledOnce(s, id)
    ensures SettledOnce(Verified(s, q), id)
  {
    if VerifyGuard(s, q).None? {
      var amount := s.invoices[q.invoice].amount;
      if q.invoice == id {
        CompletedItself(s, q, amount);
      } else {
        OtherInvoice(s, q, amount, id);
        StillSettledOnce(s, Completed(s, q, amount), id);
      }
    }
  }

  lemma OtherMovements(s: Credit.State, e: Credit.Event, id: string)
    requires !(e.Take? && e.kind.Charge?) && !(e.Add? && e.kind.Charge?)
    ensures ChargesOf(Credit.Next(s, e).movements, id) == ChargesOf(s.movements, id)
  {
    var s' := Credit.Next(s, e);
    if s'.movements != s.movements { AppendedMovement(s.movements, s'.movements[|s.movements|], id); }
  }

  lemma NextOnce(s: State, e: Event, id: string)
    requires SettledOnce(s, id) && NotACharge(e)
    ensures SettledOnce(Next(s, e), id)
  {
    match e
    case Verify(q) => VerifiedOnce(s, q, id);
    case Account(event) => OtherMovements(s.ledger, event, id);
    case _ =>
  }

  /** In every run of creations, verifications, expiries, account and channel operations, every invoice is
      settled at most once, and is paid exactly when it has its one receipt. */
  lemma {:induction false} RunOnce(s: State, es: seq<Event>, id: string)
    requires SettledOnce(s, id) && forall e | e in es :: NotACharge(e)
    ensures SettledOnce(Run(s, es), id)
    decreases |es|
  {
    if es != [] {
      assert es[0] in es;
      NextOnce(s, es[0], id);
      RunOnce(Next(s, es[0]), es[1..], id);
    }
  }

  /** Only the status of a pending invoice changes. */
  predicate Kept(before: Invoice, after: Invoice) {
    && after == before.(status := after.status)
    && (!before.status.Pending? ==> after == before)
  }

  lemma NextStatus(s: State, e: Event, id: string)
    requires id in s.invoices
    ensures id in Next(s, e).invoices && Kept(s.invoices[id], Next(s, e).invoices[id])
  {
  }

  /** Paid and expired are final, and no other field of an invoice ever changes. */
  lemma {:induction false} StatusIsFinal(s: State, es: seq<Event>, id: string)
    requires id in s.invoices
    ensures id in Run(s, es).invoices && Kept(s.invoices[id], Run(s, es).invoices[id])
    decreases |es|
  {
    if es != [] {
      NextStatus(s, es[0], id);
      StatusIsFinal(Next(s, es[0]), es[1..], id);
    }
  }

  // ---------------------------------------------------------------------------
  // Which requests are accepted, and what they do
  // ---------------------------------------------------------------------------

  /** Signature or adapter, rate limit, status, expiry and nonce all pass. */
  predicate Vetted(s: State, q: Request) {
    && q.refusal.None? && !q.proof.UnknownProof? && !q.limited
    && q.invoice in s.invoices
    && var invoice := s.invoices[q.invoice];
       && invoice.status.Pending? && q.now <= invoice.expiresAt
       && (q.proof.SignedAuth? || q.proof.nonce == invoice.nonce)
  }

  predicate HasFunds(ledger: Credit.State, payer: string, amount: int) {
    && payer in ledger.accounts && ledger.accounts[payer].balance >= amount && !ledger.accounts[payer].frozen
    && (ledger.checkedKinds.None? || Credit.Charge in ledger.checkedKinds.value)
  }

  /** The payer's account or the channel covers the invoice. */
  predicate CanPay(s: State, q: Request)
    requires q.invoice in s.invoices
  {
    var amount := s.invoices[q.invoice].amount;
    match q.proof
    case PrepaidCredit(payer, _, _) => HasFunds(s.ledger, payer, amount)
    case SignedAuth(payer) => HasFunds(s.ledger, payer, amount)
    case ChannelSpend(_, _, channel, sequence, _) =>
      channel in s.rows && s.rows[channel].open && sequence > s.rows[channel].sequence && amount <= s.rows[channel].available
    case _ => true
  }

  /** A request that is not vetted, or cannot be paid, changes nothing; any other marks its invoice paid and
      issues one receipt. */
  lemma AcceptedIff(s: State, q: Request)
    ensures Accepted(s, Verify(q)) <==> Vetted(s, q) && CanPay(s, q)
    ensures !(Vetted(s, q) && CanPay(s, q)) ==> Next(s, Verify(q)) == s
    ensures Vetted(s, q) && CanPay(s, q) ==>
              var s', invoice := Next(s, Verify(q)), s.invoices[q.invoice];
              && s'.invoices == s.invoices[q.invoice := invoice.(status := Paid)]
              && s'.receipts == s.receipts + [Receipt(q.invoice, q.proof, invoice.amount)]
  {
  }

  /** Credit proofs take the amount from the payer and record it; channel proofs move it from available to
      spent; on-chain proofs move nothing. */
  lemma AcceptedMoves(s: State, q: Request)
    requires Vetted(s, q) && CanPay(s, q)
    ensures var s', amount := Next(s, Verify(q)), s.invoices[q.invoice].amount;
            && (q.proof.PrepaidCredit? || q.proof.SignedAuth? ==>
                  var account := s.ledger.accounts[q.proof.payer];
                  && s'.rows == s.rows
                  && s'.ledger.accounts == s.ledger.accounts[q.proof.payer := account.(balance := account.balance - amount)]
                  && s'.ledger.movements == s.ledger.movements
                       + [Credit.Movement(q.proof.payer, Credit.Charge, amount, account.balance - amount, q.invoice)])
            && (q.proof.ChannelSpend? ==>
                  var row := s.rows[q.proof.channel];
                  && s'.ledger == s.ledger
                  && s'.rows == s.rows[q.proof.channel := row.(sequence := q.proof.sequence, spent := row.spent + amount,
                                                               available := row.available - amount)])
            && (q.proof.TxHash? || q.proof.XrplPayment? ==> s'.ledger == s.ledger && s'.rows == s.rows)
  {
  }

  /** The answers to requests that fail on the invoice itself. */
  lemma InvoiceAnswers(s: State, q: Request)
    ensures q.invoice !in s.invoices ==> VerifyGuard(s, q) == Some(InvoiceNotFound)
    ensures q.invoice in s.invoices ==>
              var invoice := s.invoices[q.invoice];
              && (invoice.status.Paid? ==> VerifyGuard(s, q) == Some(InvoiceRedeemed))
              && (invoice.status.Expired? ==> VerifyGuard(s, q) == Some(InvoiceExpired))
              && (invoice.status.Cancelled? ==> VerifyGuard(s, q) == Some(InvoiceInvalid))
              && (invoice.status.Pending? && invoice.expiresAt < q.now ==> VerifyGuard(s, q) == Some(InvoiceExpired))
  {
  }

  /** The answers to those that fail later: nonce, then rate limit, then proof, then funds. */
  lemma ProofAnswers(s: State, q: Request)
    requires q.invoice in s.invoices && s.invoices[q.invoice].status.Pending? && q.now <= s.invoices[q.invoice].expiresAt
    ensures var wrong := !q.proof.SignedAuth? && !q.proof.UnknownProof? && q.proof.nonce != s.invoices[q.invoice].nonce;
            && (wrong ==> VerifyGuard(s, q) == Some(NonceMismatch))
            && (!wrong && q.limited ==> VerifyGuard(s, q) == Some(RateLimited))
            && (!wrong && !q.limited && q.proof.UnknownProof? ==> VerifyGuard(s, q) == Some(InvalidProof))
            && (!wrong && !q.limited && !q.proof.UnknownProof? && q.refusal.Some? ==>
                  VerifyGuard(s, q) == if q.proof.TxHash? then q.refusal else Some(InvalidProof))
    ensures Vetted(s, q) && !CanPay(s, q) ==>
              VerifyGuard(s, q) == if q.proof.ChannelSpend? then Some(ChannelSequenceInvalid)
                                   else if HasFunds(s.ledger.(checkedKinds := None), q.proof.payer, s.invoices[q.invoice].amount)
                                   then Some(Internal) else Some(InsufficientAmount)
  {
  }

  /** A receipt was issued by the i-th event, a vetted and payable request at that point of the run. */
  predicate IssuedBy(s: State, es: seq<Event>, r: Receipt, i: int) {
    && 0 <= i < |es| && es[i].Verify?
    && var before, q := Run(s, es[..i]), es[i].request;
       Vetted(before, q) && CanPay(before, q) && r == Receipt(q.invoice, q.proof, before.invoices[q.invoice].amount)
  }

  lemma {:induction false} RunSnoc(s: State, es: seq<Event>)
    requires es != []
    ensures Run(s, es) == Next(Run(s, es[..|es| - 1]), es[|es| - 1])
    decreases |es|
  {
    if |es| == 1 {
      assert es[1..] == [] && es[..0] == [];
    } else {
      RunSnoc(Next(s, es[0]), es[1..]);
      assert es[1..][..|es| - 2] == es[..|es| - 1][1..];
    }
  }

  lemma IssuedLater(s: State, es: seq<Event>, n: nat, r: Receipt, i: int)
    requires n <= |es| && IssuedBy(s, es[..n], r, i)
    ensures IssuedBy(s, es, r, i)
  {
    assert es[..n][..i] == es[..i];
  }

  /** Every receipt of a run from nothing stems from a vetted request that could be paid. */
  lemma {:induction false} ReceiptsAreVetted(es: seq<Event>, r: Receipt) returns (i: int)
    requires r in Run(EMPTY, es).receipts
    ensures IssuedBy(EMPTY, es, r, i)
    decreases |es|
  {
    assert es != [];
    var front, e := es[..|es| - 1], es[|es| - 1];
    var before := Run(EMPTY, front);
    RunSnoc(EMPTY, es);
    NextReceipts(before, e);
    if r in before.receipts {
      i := ReceiptsAreVetted(front, r);
      IssuedLater(EMPTY, es, |es| - 1, r, i);
    } else {
      i := |es| - 1;
      AcceptedIff(before, e.request);
    }
  }

  /** An invoice keeps for good the nonce, amount and expiry it was created with. */
  lemma InvoiceKeepsTerms(s: State, es: seq<Event>, id: string, nonce: string, amount: int, expiresAt: int)
    requires id !in s.invoices && forall other | other in s.invoices :: s.invoices[other].nonce != nonce
    ensures Next(s, Create(id, nonce, amount, expiresAt)).invoices == s.invoices[id := Invoice(nonce, amount, Pending, expiresAt)]
    ensures var s' := Run(Next(s, Create(id, nonce, amount, expiresAt)), es);
            id in s'.invoices && s'.invoices[id] == Invoice(nonce, amount, s'.invoices[id].status, expiresAt)
  {
    StatusIsFinal(Next(s, Create(id, nonce, amount, expiresAt)), es, id);
  }

  /** An expiry ends exactly the overdue pending invoices. */
  lemma ExpiryMeans(s: State, now: int)
    ensures var s' := Next(s, Expire(now));
            && s' == s.(invoices := s'.invoices) && s'.invoices.Keys == s.invoices.Keys
            && forall id | id in s.invoices ::
                 s'.invoices[id] == if s.invoices[id].status.Pending? && s.invoices[id].expiresAt < now
                                    then s.invoices[id].(status := Expired) else s.invoices[id]
  {
  }

  // ---------------------------------------------------------------------------
  // What a proof pays for
  // ---------------------------------------------------------------------------

  /** Which transaction a spelling of a hash on a rail denotes: upper and lower case may be the same. */
  type Canon = ((string, string)) -> string

  function TransactionOf(canon: Canon, p: Proof): Option<string> {
    match p
    case TxHash(_, _, rail, hash) => Some(canon((rail, hash)))
    case XrplPayment(_, _, hash) => Some(canon(("xrpl", hash)))
    case _ => None
  }

  /** Channel spends were signed for the invoices they settled. */
  predicate SignedForIt(s: State) {
    forall i | 0 <= i < |s.receipts| && s.receipts[i].proof.ChannelSpend? ::
      s.receipts[i].proof.signedFor == s.receipts[i].invoice
  }

  /** Channel spends were signed by the owners of their channels. */
  predicate ByOwner(s: State) {
    forall i | 0 <= i < |s.receipts| && s.receipts[i].proof.ChannelSpend? :: IsOwner(s.rows, s.receipts[i].proof)
  }

  predicate IsOwner(rows: Channels.Rows, p: Proof)
    requires p.ChannelSpend?
  {
    p.channel in rows && rows[p.channel].owner == p.payer
  }

  /** No transaction backs two receipts. */
  predicate UsedOnce(canon: Canon, s: State) {
    forall i, j | 0 <= i < j < |s.receipts| ::
      TransactionOf(canon, s.receipts[i].proof).None?
      || TransactionOf(canon, s.receipts[i].proof) != TransactionOf(canon, s.receipts[j].proof)
  }

  /** What a caller would have to check before a request: a channel proof names its invoice; the owner of the
      channel signed it; a transaction has no receipt yet. */
  predicate NamesItsInvoice(q: Request) {
    q.proof.ChannelSpend? ==> q.proof.signedFor == q.invoice
  }

  predicate FromOwner(s: State, q: Request) {
    q.proof.ChannelSpend? ==> IsOwner(s.rows, q.proof)
  }

  predicate Unused(canon: Canon, s: State, q: Request) {
    TransactionOf(canon, q.proof).Some? ==>
      forall r | r in s.receipts :: TransactionOf(canon, r.proof) != TransactionOf(canon, q.proof)
  }

  predicate Accepted(s: State, e: Event) {
    e.Verify? && VerifyGuard(s, e.request).None?
  }

  /** The accepted requests of a run all do so. */
  predicate AllNameInvoices(s: State, es: seq<Event>)
    decreases |es|
  {
    es != [] ==> (Accepted(s, es[0]) ==> NamesItsInvoice(es[0].request)) && AllNameInvoices(Next(s, es[0]), es[1..])
  }

  predicate AllFromOwners(s: State, es: seq<Event>)
    decreases |es|
  {
    es != [] ==> (Accepted(s, es[0]) ==> FromOwner(s, es[0].request)) && AllFromOwners(Next(s, es[0]), es[1..])
  }

  predicate AllUnused(canon: Canon, s: State, es: seq<Event>)
    decreases |es|
  {
    es != [] ==> (Accepted(s, es[0]) ==> Unused(canon, s, es[0].request)) && AllUnused(canon, Next(s, es[0]), es[1..])
  }

  function NewReceipt(s: State, q: Request): Receipt
    requires VerifyGuard(s, q).None?
  {
    Receipt(q.invoice, q.proof, s.invoices[q.invoice].amount)
  }

  lemma NextReceipts(s: State, e: Event)
    ensures Next(s, e).receipts == if Accepted(s, e) then s.receipts + [NewReceipt(s, e.request)] else s.receipts
  {
  }

  /** Channels keep their owners. */
  predicate OwnersKept(rows: Channels.Rows, rows': Channels.Rows) {
    forall id | id in rows :: id in rows' && rows'[id].owner == rows[id].owner
  }

  lemma NextOwners(s: State, e: Event)
    ensures OwnersKept(s.rows, Next(s, e).rows)
  {
  }

  lemma {:induction false} ReceiptsGrow(s: State, es: seq<Event>)
    ensures s.receipts <= Run(s, es).receipts && OwnersKept(s.rows, Run(s, es).rows)
    decreases |es|
  {
    if es != [] {
      NextReceipts(s, es[0]);
      NextOwners(s, es[0]);
      ReceiptsGrow(Next(s, es[0]), es[1..]);
    }
  }

  lemma NextSignedForIt(s: State, e: Event)
    requires SignedForIt(s)
    ensures SignedForIt(Next(s, e)) <==> (Accepted(s, e) ==> NamesItsInvoice(e.request))
  {
    NextReceipts(s, e);
    if Accepted(s, e) { assert Next(s, e).receipts[|s.receipts|] == NewReceipt(s, e.request); }
  }

  /** Nothing compares the invoice in a proof with the invoice it is submitted for, so channel spends are
      signed for what they settle exactly when the accepted requests were. */
  lemma {:induction false} SignedForItIff(s: State, es: seq<Event>)
    requires SignedForIt(s)
    ensures SignedForIt(Run(s, es)) <==> AllNameInvoices(s, es)
    decreases |es|
  {
    if es != [] {
      var s1 := Next(s, es[0]);
      NextSignedForIt(s, es[0]);
      ReceiptsGrow(s1, es[1..]);
      if SignedForIt(s1) { SignedForItIff(s1, es[1..]); }
    }
  }

  lemma NextByOwner(s: State, e: Event)
    requires ByOwner(s)
    ensures ByOwner(Next(s, e)) <==> (Accepted(s, e) ==> FromOwner(s, e.request))
    ensures Accepted(s, e) && e.request.proof.ChannelSpend? ==> e.request.proof.channel in s.rows
  {
    NextReceipts(s, e);
    NextOwners(s, e);
    if Accepted(s, e) { assert Next(s, e).receipts[|s.receipts|] == NewReceipt(s, e.request); }
  }

  /** A spend by a stranger stays one. */
  lemma StrangerStays(s: State, es: seq<Event>, i: nat)
    requires i < |s.receipts| && s.receipts[i].proof.ChannelSpend? && s.receipts[i].proof.channel in s.rows
    requires !IsOwner(s.rows, s.receipts[i].proof)
    ensures !ByOwner(Run(s, es))
  {
    ReceiptsGrow(s, es);
    assert Run(s, es).receipts[i] == s.receipts[i];
  }

  /** Nor is the payer compared with the owner of the channel: all spends are by owners exactly when the accepted
      requests were. */
  lemma {:induction false} ByOwnerIff(s: State, es: seq<Event>)
    requires ByOwner(s)
    ensures ByOwner(Run(s, es)) <==> AllFromOwners(s, es)
    decreases |es|
  {
    if es != [] {
      var s1 := Next(s, es[0]);
      NextByOwner(s, es[0]);
      if ByOwner(s1) {
        ByOwnerIff(s1, es[1..]);
      } else {
        NextReceipts(s, es[0]);
        NextOwners(s, es[0]);
        StrangerStays(s1, es[1..], |s.receipts|);
      }
    }
  }

  lemma NextUsedOnce(canon: Canon, s: State, e: Event)
    requires UsedOnce(canon, s)
    ensures UsedOnce(canon, Next(s, e)) <==> (Accepted(s, e) ==> Unused(canon, s, e.request))
  {
    NextReceipts(s, e);
    if Accepted(s, e) {
      var all, r := Next(s, e).receipts, NewReceipt(s, e.request);
      assert all[|s.receipts|] == r;
      if UsedOnce(canon, Next(s, e)) && TransactionOf(canon, r.proof).Some? {
        forall x | x in s.receipts ensures TransactionOf(canon, x.proof) != TransactionOf(canon, r.proof) {
          var i :| 0 <= i < |s.receipts| && s.receipts[i] == x;
          assert all[i] == x;
        }
      }
    }
  }

  /** Nothing records a transaction that was used, so no transaction backs two receipts, however its hash is
      spelled, exactly when every accepted request brought a new one. */
  lemma {:induction false} UsedOnceIff(canon: Canon, s: State, es: seq<Event>)
    requires UsedOnce(canon, s)
    ensures UsedOnce(canon, Run(s, es)) <==> AllUnused(canon, s, es)
    decreases |es|
  {
    if es != [] {
      var s1 := Next(s, es[0]);
      NextUsedOnce(canon, s, es[0]);
      ReceiptsGrow(s1, es[1..]);
      if UsedOnce(canon, s1) { UsedOnceIff(canon, s1, es[1..]); }
    }
  }

  /** The checks do not look at any of this: the answer is the same whatever invoice a channel proof names and
      whoever signed it, and a request with a transaction is answered as before after another invoice was
      settled, by the same transaction or not. */
  lemma ChecksIgnoreThem(s: State, q: Request, payer: string, signedFor: string, first: Request)
    ensures q.proof.ChannelSpend? ==>
              VerifyGuard(s, q) == VerifyGuard(s, q.(proof := q.proof.(payer := payer, signedFor := signedFor)))
    ensures (q.proof.TxHash? || q.proof.XrplPayment?) && first.invoice != q.invoice ==>
              VerifyGuard(Verified(s, first), q) == VerifyGuard(s, q)
  {
  }

  predicate DistinctNonces(s: State) {
    forall i, j | i in s.invoices && j in s.invoices && s.invoices[i].nonce == s.invoices[j].nonce :: i == j
  }

  lemma NextDistinctNonces(s: State, e: Event)
    requires DistinctNonces(s)
    ensures DistinctNonces(Next(s, e))
  {
  }

  lemma {:induction false} NoncesStayDistinct(s: State, es: seq<Event>)
    requires DistinctNonces(s)
    ensures DistinctNonces(Run(s, es))
    decreases |es|
  {
    if es != [] {
      NextDistinctNonces(s, es[0]);
      NoncesStayDistinct(Next(s, es[0]), es[1..]);
    }
  }

  /** Prepaid credit is bound after all, through the nonce: in every reachable state a credit proof signed for an
      existing invoice and its nonce can settle no other invoice. */
  lemma CreditIsBound(es: seq<Event>, q: Request)
    requires q.proof.PrepaidCredit?
    requires var invoices := Run(EMPTY, es).invoices;
             q.proof.signedFor in invoices && invoices[q.proof.signedFor].nonce == q.proof.nonce
    requires VerifyGuard(Run(EMPTY, es), q).None?
    ensures q.proof.signedFor == q.invoice
  {
    NoncesStayDistinct(EMPTY, es);
  }

  /** Two invoices from nothing. */
  function TwoInvoices(): State {
    Next(Next(EMPTY, Create("i", "n", 1, 10)), Create("j", "m", 1, 10))
  }

  lemma TwoInvoicesHeld()
    ensures TwoInvoices().invoices == map["i" := Invoice("n", 1, Pending, 10), "j" := Invoice("m", 1, Pending, 10)]
    ensures TwoInvoices() == EMPTY.(invoices := TwoInvoices().invoices)
  {
    var s1 := Next(EMPTY, Create("i", "n", 1, 10));
    assert s1.invoices == map["i" := Invoice("n", 1, Pending, 10)];
  }

  lemma RunTwo(s: State, es: seq<Event>)
    requires |es| >= 2
    ensures Run(s, es) == Run(Next(Next(s, es[0]), es[1]), es[2..])
  {
    assert es[1..][1..] == es[2..];
  }

  lemma RunFour(s: State, es: seq<Event>)
    requires |es| == 4
    ensures Run(s, es) == Next(Next(Next(Next(s, es[0]), es[1]), es[2]), es[3])
  {
    RunTwo(s, es);
    RunTwo(Next(Next(s, es[0]), es[1]), es[2..]);
  }

  /** One transaction, in one or two spellings, and two invoices: both requests are accepted. */
  lemma OneTransferTwoReceipts(canon: Canon, a: string, b: string) returns (es: seq<Event>)
    requires canon(("base", a)) == canon(("base", b))
    ensures !UsedOnce(canon, Run(EMPTY, es))
  {
    var q := Request("i", "n", TxHash("w", "n", "base", a), None, false, 0);
    var p := Request("j", "m", TxHash("w", "m", "base", b), None, false, 0);
    es := [Create("i", "n", 1, 10), Create("j", "m", 1, 10), Verify(q), Verify(p)];
    TwoInvoicesHeld();
    var s2 := TwoInvoices();
    var s3 := Next(s2, Verify(q));
    ChecksIgnoreThem(s2, p, "", "", q);
    assert VerifyGuard(s2, q).None? && VerifyGuard(s2, p).None?;
    NextReceipts(s2, Verify(q));
    NextReceipts(s3, Verify(p));
    RunFour(EMPTY, es);
    assert Next(s3, Verify(p)).receipts[0].proof == q.proof && Next(s3, Verify(p)).receipts[1].proof == p.proof;
  }

  /** The request that submits a proof of any payer, signed for any invoice, for "j". */
  function ChannelRequest(payer: string, signedFor: string): Request {
    Request("j", "m", ChannelSpend(payer, "m", "c", 1, signedFor), None, false, 0)
  }

  /** A channel owned by "w". */
  function WithChannel(): State {
    Next(TwoInvoices(), OpenChannel("c", "w", 1))
  }

  lemma ChannelAccepts(payer: string, signedFor: string)
    ensures Accepted(WithChannel(), Verify(ChannelRequest(payer, signedFor)))
    ensures WithChannel().rows == map["c" := Channels.Channel("w", 1, 1, 0, 0, true)] && WithChannel().receipts == []
  {
    TwoInvoicesHeld();
  }

  lemma AnyChannelProof(payer: string, signedFor: string) returns (es: seq<Event>)
    ensures var s, q := Run(EMPTY, es), ChannelRequest(payer, signedFor);
            && s.receipts == [Receipt("j", q.proof, 1)]
            && "c" in s.rows && s.rows["c"].owner == "w"
  {
    var q := ChannelRequest(payer, signedFor);
    es := [Create("i", "n", 1, 10), Create("j", "m", 1, 10), OpenChannel("c", "w", 1), Verify(q)];
    RunFour(EMPTY, es);
    TwoInvoicesHeld();
    ChannelAccepts(payer, signedFor);
    NextReceipts(WithChannel(), Verify(q));
    NextOwners(WithChannel(), Verify(q));
    assert NewReceipt(WithChannel(), q) == Receipt("j", q.proof, 1);
    assert [] + [Receipt("j", q.proof, 1)] == [Receipt("j", q.proof, 1)];
  }

  /** Signed for "i" it still settles "j"; signed by "v" it still spends the channel of "w". */
  lemma SpendForAnother() returns (es: seq<Event>, es': seq<Event>)
    ensures !SignedForIt(Run(EMPTY, es))
    ensures !ByOwner(Run(EMPTY, es'))
  {
    es := AnyChannelProof("w", "i");
    assert Run(EMPTY, es).receipts[0].proof.signedFor == "i";
    es' := AnyChannelProof("v", "j");
    assert Run(EMPTY, es').receipts[0].proof.payer == "v";
  }

  // ---------------------------------------------------------------------------
  // The service
  // ---------------------------------------------------------------------------

  class Facilitator {
    var invoices: map<string, Invoice>
    const credit: Credit.CreditLedger
    const channels: Channels.ChannelService
    var receipts: seq<Receipt>
    ghost var spends: seq<Spend>

    ghost function Model(): State
      reads this, credit, channels
    {
      State(invoices, credit.Model(), channels.rows, receipts, spends)
    }

    constructor (credit: Credit.CreditLedger, channels: Channels.ChannelService)
      ensures this.credit == credit && this.channels == channels
      ensures Model() == State(map[], credit.Model(), channels.rows, [], [])
    {
      this.credit, this.channels := credit, channels;
      invoices, receipts, spends := map[], [], [];
    }

    method CreateInvoice(id: string, nonce: string, amount: int, ttlSeconds: Option<int>, now: int)
      modifies this
      ensures Model() == Created(old(Model()), id, nonce, amount,
                                 now + 1000 * if ttlSeconds.Some? then ttlSeconds.value else 300)
    {
      var ttl := if ttlSeconds.Some? then ttlSeconds.value else 300;
      if id !in invoices && !NonceTaken(invoices, nonce) {
        invoices := invoices[id := Invoice(nonce, amount, Pending, now + 1000 * ttl)];
      }
    }

    method ExpireInvoices(now: int)
      modifies this
      ensures Model() == ExpiredAt(old(Model()), now)
    {
      invoices := map id | id in invoices ::
        if invoices[id].status.Pending? && invoices[id].expiresAt < now
        then invoices[id].(status := Expired) else invoices[id];
    }

    /** The settlement by proof type. */
    method Settle(q: Request, amount: int) returns (error: Option<Code>)
      modifies this, credit, channels
      ensures Model() == SettledBy(old(Model()), q, amount)
      ensures error == SettleGuard(old(Model()), q, amount)
    {
      if q.refusal.Some? { return Some(if q.proof.TxHash? then q.refusal.value else InvalidProof); }
      match q.proof {
        case PrepaidCredit(payer, _, _) => error := ChargePayer(payer, amount, q.invoice);
        case SignedAuth(payer) => error := ChargePayer(payer, amount, q.invoice);
        case ChannelSpend(_, _, channel, sequence, _) =>
          var spent := channels.SpendChannel(channel, sequence, amount);
          if spent.Err? { return Some(ChannelSequenceInvalid); }
          spends := spends + [Spend(q.invoice, channel, sequence, amount)];
          error := None;
        case TxHash(_, _, _, _) => error := None;
        case XrplPayment(_, _, _) => error := None;
        case UnknownProof(_) => error := Some(InvalidProof);
      }
    }

    method ChargePayer(payer: string, amount: int, invoice: string) returns (error: Option<Code>)
      modifies credit
      ensures credit.Model() == Credit.Debited(old(credit.Model()), Credit.Charge, payer, amount, invoice)
      ensures error == if !Credit.CanDebit(old(credit.Model()), payer, amount) then Some(InsufficientAmount)
                       else if !Credit.Insertable(old(credit.Model()), Credit.Charge) then Some(Internal) else None
    {
      var charged := credit.DebitWallet(Credit.Charge, payer, amount, invoice);
      match charged
      case Ok(_) => error := None;
      case Err(InsufficientBalance) => error := Some(InsufficientAmount);
      case Err(ConstraintViolation) => error := Some(Internal);
    }

    method VerifyPayment(q: Request) returns (error: Option<Code>)
      modifies this, credit, channels
      ensures Model() == Verified(old(Model()), q)
      ensures error == VerifyGuard(old(Model()), q)
    {
      if q.invoice !in invoices { return Some(InvoiceNotFound); }
      var invoice := invoices[q.invoice];
      if invoice.status.Paid? { return Some(InvoiceRedeemed); }
      if invoice.status.Expired? { return Some(InvoiceExpired); }
      if !invoice.status.Pending? { return Some(InvoiceInvalid); }
      if invoice.expiresAt < q.now { return Some(InvoiceExpired); }
      if HasNonce(q.proof) && q.proof.nonce != invoice.nonce { return Some(NonceMismatch); }
      if invoices[q.invoice].nonce == q.nonce && invoices[q.invoice].status == Paid { return Some(NonceMismatch); }
      if q.limited { return Some(RateLimited); }
      error := Settle(q, invoice.amount);
      if error.Some? { return; }
      if invoices[q.invoice].status == Pending {
        invoices := invoices[q.invoice := invoices[q.invoice].(status := Paid)];
      }
      receipts := receipts + [Receipt(q.invoice, q.proof, invoice.amount)];
    }
  }
}
