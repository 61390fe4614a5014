/** Checking a transaction of the UnyKorn chain against an invoice: what the node reports is merged from three
    calls, then seven checks are made in order. Lower-casing is a parameter. */
module UnykornTx {
  import opened Settlement
  import opened Units
  import opened Wrappers

  /** Fields a node may leave out are options. */
  datatype TxStatus = TxStatus(failed: bool, height: Option<int>, sender: Option<string>, receiver: Option<string>,
                               value: Option<Observed>, amount: Option<Observed>,
                               reference: Option<string>, memo: Option<string>)

  datatype EthReceipt = EthReceipt(failed: bool, height: Option<int>)

  datatype EthTx = EthTx(sender: Option<string>, receiver: Option<string>, value: Option<Observed>, input: Option<string>)

  datatype Report = Report(status: Option<TxStatus>, receipt: Option<EthReceipt>, tx: Option<EthTx>, latest: Option<int>)

  /** What the proof claims and what the invoice asks for. */
  datatype Claim = Claim(rail: string, payer: string, invoice: string)

  datatype Terms = Terms(asset: string, amount: string, receiver: string)

  type Lowering = string -> string

  function Else<T>(a: Option<T>, b: Option<T>): Option<T> {
    if a.Some? then a else b
  }

  function OrEmpty(a: Option<string>): string {
    if a.Some? then a.value else ""
  }

  function Sender(r: Report): string {
    OrEmpty(Else(if r.tx.Some? then r.tx.value.sender else None, if r.status.Some? then r.status.value.sender else None))
  }

  function Receiver(r: Report): string {
    OrEmpty(Else(if r.tx.Some? then r.tx.value.receiver else None, if r.status.Some? then r.status.value.receiver else None))
  }

  function ValueSeen(r: Report): Observed {
    var fromStatus := if r.status.Some? then Else(r.status.value.value, r.status.value.amount) else None;
    var seen := Else(if r.tx.Some? then r.tx.value.value else None, fromStatus);
    if seen.Some? then seen.value else Missing
  }

  function Height(r: Report): Option<int> {
    Else(if r.status.Some? then r.status.value.height else None, if r.receipt.Some? then r.receipt.value.height else None)
  }

  predicate Found(r: Report) {
    r.status.Some? || r.receipt.Some? || r.tx.Some?
  }

  predicate Failed(r: Report) {
    (r.status.Some? && r.status.value.failed) || (r.receipt.Some? && r.receipt.value.failed)
  }

  /** A missing height counts as confirmed. */
  predicate Confirmed(r: Report, confirmations: int) {
    r.latest.Some? && Height(r).Some? ==>
      var depth := r.latest.value - Height(r).value + 1;
      (if depth > 0 then depth else 0) >= confirmations
  }

  // ---------------------------------------------------------------------------
  // The reference text
  // ---------------------------------------------------------------------------

  /** The parts that are not empty, lower-cased and joined by spaces. */
  function Joined(lower: Lowering, parts: seq<string>): string {
    if parts == [] then ""
    else
      var front, last := Joined(lower, parts[..|parts| - 1]), parts[|parts| - 1];
      if last == "" then front
      else if NoneSet(parts[..|parts| - 1]) then lower(last)
      else front + " " + lower(last)
  }

  predicate NoneSet(parts: seq<string>) {
    forall p | p in parts :: p == ""
  }

  predicate OccursAt(text: string, part: string, i: int) {
    0 <= i <= |text| - |part| && text[i..i + |part|] == part
  }

  predicate Contains(text: string, part: string) {
    exists i | 0 <= i <= |text| :: OccursAt(text, part, i)
  }

  /** Reference, memo and input as reported, and then the invoice as the proof itself claims it. */
  function ReferenceText(lower: Lowering, r: Report, claim: Claim): string {
    Joined(lower, [if r.status.Some? then OrEmpty(r.status.value.reference) else "",
                   if r.status.Some? then OrEmpty(r.status.value.memo) else "",
                   if r.tx.Some? then OrEmpty(r.tx.value.input) else "",
                   claim.invoice])
  }

  /** The checks in their order, up to the last. */
  function OtherRefusal(lower: Lowering, r: Report, confirmations: int, claim: Claim, terms: Terms): Option<Code>
    requires IsDecimal(terms.amount)
    requires ValueSeen(r).Text? ==> IsDecimal(ValueSeen(r).amount)
  {
    if claim.rail != "unykorn-l1" then Some(RailNotAllowed)
    else if !Found(r) then Some(TxLookupUnavailable)
    else if Failed(r) then Some(TxFailed)
    else if !Confirmed(r, confirmations) then Some(TxPending)
    else if lower(Sender(r)) != "" && lower(Sender(r)) != lower(claim.payer) then Some(TxMismatch)
    else if lower(Receiver(r)) != "" && lower(Receiver(r)) != lower(terms.receiver) then Some(TxMismatch)
    else if !MatchesInvoiceAmount(terms.asset, terms.amount, ValueSeen(r)) then Some(TxMismatch)
    else None
  }

  /** And the last: the invoice is mentioned. */
  function Refused(lower: Lowering, r: Report, confirmations: int, claim: Claim, terms: Terms): Option<Code>
    requires IsDecimal(terms.amount)
    requires ValueSeen(r).Text? ==> IsDecimal(ValueSeen(r).amount)
  {
    var other, text := OtherRefusal(lower, r, confirmations, claim, terms), ReferenceText(lower, r, claim);
    if other.Some? then other
    else if text != "" && !Contains(text, lower(claim.invoice)) then Some(TxMismatch)
    else None
  }

  lemma Suffix(front: string, part: string)
    ensures Contains(front + part, part)
  {
    assert OccursAt(front + part, part, |front|);
  }

  /** The text ends with the very identifier that is looked for, whatever was reported. */
  lemma ReferenceIsFound(lower: Lowering, r: Report, claim: Claim)
    requires lower("") == ""
    ensures Contains(ReferenceText(lower, r, claim), lower(claim.invoice))
  {
    var text := ReferenceText(lower, r, claim);
    if claim.invoice == "" {
      assert OccursAt(text, "", 0);
    } else {
      var front := text[..|text| - |lower(claim.invoice)|];
      assert text == front + lower(claim.invoice);
      Suffix(front, lower(claim.invoice));
    }
  }

  // ---------------------------------------------------------------------------
  // The answer, in terms of what each call reported
  // ---------------------------------------------------------------------------

  /** The transaction names a sender, or it names none and the status does. */
  predicate SenderReported(r: Report, who: string) {
    || (r.tx.Some? && r.tx.value.sender == Some(who))
    || ((r.tx.Some? ==> r.tx.value.sender.None?) && r.status.Some? && r.status.value.sender == Some(who))
  }

  predicate ReceiverReported(r: Report, who: string) {
    || (r.tx.Some? && r.tx.value.receiver == Some(who))
    || ((r.tx.Some? ==> r.tx.value.receiver.None?) && r.status.Some? && r.status.value.receiver == Some(who))
  }

  /** The transaction's value comes first, then the status's value, then its amount. */
  predicate ValueReported(r: Report, v: Observed) {
    if r.tx.Some? && r.tx.value.value.Some? then v == r.tx.value.value.value
    else r.status.Some? && (r.status.value.value == Some(v) || (r.status.value.value.None? && r.status.value.amount == Some(v)))
  }

  /** The status's height comes before the receipt's. */
  predicate HeightReported(r: Report, h: int) {
    || (r.status.Some? && r.status.value.height == Some(h))
    || ((r.status.Some? ==> r.status.value.height.None?) && r.receipt.Some? && r.receipt.value.height == Some(h))
  }

  predicate FailureReported(r: Report) {
    || (r.status.Some? && r.status.value.failed)
    || (r.receipt.Some? && r.receipt.value.failed)
  }

  /** Both heights are known, and fewer blocks than asked for hold the transaction or follow it. */
  ghost predicate TooFresh(r: Report, confirmations: int) {
    exists h | HeightReported(r, h) ::
      r.latest.Some? && confirmations > 0 && r.latest.value - h + 1 < confirmations
  }

  /** A party that is named at all is the expected one, up to case. */
  ghost predicate PartiesAgree(lower: Lowering, r: Report, claim: Claim, terms: Terms) {
    && (forall who | SenderReported(r, who) :: lower(who) == "" || lower(who) == lower(claim.payer))
    && (forall who | ReceiverReported(r, who) :: lower(who) == "" || lower(who) == lower(terms.receiver))
  }

  lemma SenderIsReported(r: Report)
    ensures SenderReported(r, Sender(r)) || (Sender(r) == "" && forall who :: !SenderReported(r, who))
    ensures forall who | SenderReported(r, who) :: who == Sender(r)
  {
  }

  lemma ReceiverIsReported(r: Report)
    ensures ReceiverReported(r, Receiver(r)) || (Receiver(r) == "" && forall who :: !ReceiverReported(r, who))
    ensures forall who | ReceiverReported(r, who) :: who == Receiver(r)
  {
  }

  lemma ValueIsReported(r: Report)
    ensures ValueReported(r, ValueSeen(r)) || (ValueSeen(r).Missing? && forall v :: !ValueReported(r, v))
    ensures forall v | ValueReported(r, v) :: v == ValueSeen(r)
  {
  }

  lemma HeightIsReported(r: Report)
    ensures forall h :: HeightReported(r, h) <==> Height(r) == Some(h)
  {
  }

  lemma PartiesAgreeIff(lower: Lowering, r: Report, claim: Claim, terms: Terms)
    requires lower("") == ""
    ensures PartiesAgree(lower, r, claim, terms) <==>
              && (lower(Sender(r)) == "" || lower(Sender(r)) == lower(claim.payer))
              && (lower(Receiver(r)) == "" || lower(Receiver(r)) == lower(terms.receiver))
  {
    SenderIsReported(r);
    ReceiverIsReported(r);
  }

  lemma TooFreshIff(r: Report, confirmations: int)
    ensures TooFresh(r, confirmations) <==> !Confirmed(r, confirmations)
  {
    HeightIsReported(r);
    if !Confirmed(r, confirmations) { assert HeightReported(r, Height(r).value); }
  }

  /** So the last check refuses nothing: a transaction is accepted exactly when the other seven are passed. */
  lemma AcceptedIff(lower: Lowering, r: Report, confirmations: int, claim: Claim, terms: Terms)
    requires lower("") == "" && IsDecimal(terms.amount)
    requires forall v | ValueReported(r, v) :: v.Text? ==> IsDecimal(v.amount)
    ensures ValueSeen(r).Text? ==> IsDecimal(ValueSeen(r).amount)
    ensures Refused(lower, r, confirmations, claim, terms).None? <==>
              && claim.rail == "unykorn-l1"
              && (r.status.Some? || r.receipt.Some? || r.tx.Some?)
              && !FailureReported(r)
              && !TooFresh(r, confirmations)
              && PartiesAgree(lower, r, claim, terms)
              && exists v :: ValueReported(r, v) && MatchesInvoiceAmount(terms.asset, terms.amount, v)
  {
    ValueIsReported(r);
    ReferenceIsFound(lower, r, claim);
    PartiesAgreeIff(lower, r, claim, terms);
    TooFreshIff(r, confirmations);
  }

  /** Which code a refusal carries; every refusal that is none of the first four is a mismatch. */
  lemma CodesMean(lower: Lowering, r: Report, confirmations: int, claim: Claim, terms: Terms)
    requires IsDecimal(terms.amount)
    requires ValueSeen(r).Text? ==> IsDecimal(ValueSeen(r).amount)
    ensures var code := Refused(lower, r, confirmations, claim, terms);
            var found := r.status.Some? || r.receipt.Some? || r.tx.Some?;
            && (code == Some(RailNotAllowed) <==> claim.rail != "unykorn-l1")
            && (code == Some(TxLookupUnavailable) <==> claim.rail == "unykorn-l1" && !found)
            && (code == Some(TxFailed) <==> claim.rail == "unykorn-l1" && FailureReported(r))
            && (code == Some(TxPending) <==>
                  claim.rail == "unykorn-l1" && found && !FailureReported(r) && TooFresh(r, confirmations))
            && (code.Some? ==> code.value in {RailNotAllowed, TxLookupUnavailable, TxFailed, TxPending, TxMismatch})
  {
    TooFreshIff(r, confirmations);
  }

  function WithTexts(r: Report, reference: Option<string>, memo: Option<string>, input: Option<string>): Report {
    r.(status := if r.status.Some? then Some(r.status.value.(reference := reference, memo := memo)) else None,
       tx := if r.tx.Some? then Some(r.tx.value.(input := input)) else None)
  }

  /** The answer does not depend on what the transaction says it pays for, nor on the invoice that is claimed. */
  lemma ReferenceIsIgnored(lower: Lowering, r: Report, confirmations: int, claim: Claim, terms: Terms,
                           reference: Option<string>, memo: Option<string>, input: Option<string>, invoice: string)
    requires lower("") == "" && IsDecimal(terms.amount)
    requires ValueSeen(r).Text? ==> IsDecimal(ValueSeen(r).amount)
    ensures Refused(lower, WithTexts(r, reference, memo, input), confirmations, claim.(invoice := invoice), terms)
         == Refused(lower, r, confirmations, claim, terms)
  {
    var r', claim' := WithTexts(r, reference, memo, input), claim.(invoice := invoice);
    ReferenceIsFound(lower, r, claim);
    ReferenceIsFound(lower, r', claim');
    assert OtherRefusal(lower, r', confirmations, claim', terms) == OtherRefusal(lower, r, confirmations, claim, terms);
  }
}
