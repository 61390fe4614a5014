/** Payment channels: the server's channel rows, one SDK client per channel counting its own sequence, and
    a network between them that may lose, repeat and reorder the proofs it carries. */
module Channels {
  import opened Wrappers

  /** A row of payment_channels; owner is its wallet_address. */
  datatype Channel = Channel(owner: string, deposited: int, available: int, spent: int, sequence: int, open: bool)

  datatype ChannelError = NotFound | NotOpen | NotMonotonic | Insufficient

  /** The fields of a channel_spend proof that the protocol looks at. */
  datatype Proof = Proof(channel: string, sequence: int, invoice: string)

  // ---------------------------------------------------------------------------
  // The server
  // ---------------------------------------------------------------------------

  type Rows = map<string, Channel>

  function OpenedChannel(rows: Rows, id: string, owner: string, deposit: int): Rows {
    if id in rows then rows else rows[id := Channel(owner, deposit, deposit, 0, 0, true)]
  }

  /** Why a spend is refused, in the order the checks are made. */
  function SpendGuard(rows: Rows, id: string, sequence: int, amount: int): Option<ChannelError> {
    if id !in rows then Some(NotFound)
    else if !rows[id].open then Some(NotOpen)
    else if sequence <= rows[id].sequence then Some(NotMonotonic)
    else if amount > rows[id].available then Some(Insufficient)
    else None
  }

  function SpentChannel(rows: Rows, id: string, sequence: int, amount: int): Rows {
    if SpendGuard(rows, id, sequence, amount).Some? then rows
    else
      var row := rows[id];
      rows[id := row.(sequence := sequence, spent := row.spent + amount, available := row.available - amount)]
  }

  function ClosedChannel(rows: Rows, id: string): Rows {
    if id in rows && rows[id].open then rows[id := rows[id].(open := false)] else rows
  }

  class ChannelService {
    var rows: Rows

    constructor ()
      ensures rows == map[]
    {
      rows := map[];
    }

    method OpenChannel(id: string, owner: string, deposit: int)
      modifies this
      ensures rows == OpenedChannel(old(rows), id, owner, deposit)
    {
      if id !in rows { rows := rows[id := Channel(owner, deposit, deposit, 0, 0, true)]; }
    }

    method SpendChannel(id: string, sequence: int, amount: int) returns (r: Result<Channel, ChannelError>)
      modifies this
      ensures rows == SpentChannel(old(rows), id, sequence, amount)
      ensures r.Err? ==> SpendGuard(old(rows), id, sequence, amount) == Some(r.error)
      ensures r.Ok? ==> SpendGuard(old(rows), id, sequence, amount) == None && id in rows && r.value == rows[id]
    {
      if id !in rows { return Err(NotFound); }
      var row := rows[id];
      if !row.open { return Err(NotOpen); }
      if sequence <= row.sequence { return Err(NotMonotonic); }
      if amount > row.available { return Err(Insufficient); }
      row := row.(sequence := sequence, spent := row.spent + amount, available := row.available - amount);
      rows := rows[id := row];
      return Ok(row);
    }

    method CloseChannel(id: string) returns (r: Result<Channel, ChannelError>)
      modifies this
      ensures rows == ClosedChannel(old(rows), id)
      ensures r.Ok? <==> id in old(rows) && old(rows)[id].open
      ensures r.Ok? ==> id in rows && r.value == rows[id]
    {
      if id !in rows || !rows[id].open { return Err(NotFound); }
      rows := rows[id := rows[id].(open := false)];
      return Ok(rows[id]);
    }
  }

  // ---------------------------------------------------------------------------
  // The client
  // ---------------------------------------------------------------------------

  datatype ClientProof = ChannelSpend(proof: Proof) | PrepaidCredit(invoice: string, signed: bool)

  /** createChannelSpendProof: the proof and the new local sequence. */
  function CreateSpendProof(channel: string, sequence: int, invoice: string): (Proof, int) {
    (Proof(channel, sequence + 1, invoice), sequence + 1)
  }

  class Interceptor {
    const channel: Option<string>
    var sequence: int
    const preferChannel: bool
    const hasSecretKey: bool
    const hasCredit: bool

    constructor (channel: Option<string>, sequence: int, preferChannel: bool, hasSecretKey: bool, hasCredit: bool)
      ensures this.channel == channel && this.sequence == sequence && this.preferChannel == preferChannel
      ensures this.hasSecretKey == hasSecretKey && this.hasCredit == hasCredit
    {
      this.channel, this.sequence, this.preferChannel := channel, sequence, preferChannel;
      this.hasSecretKey, this.hasCredit := hasSecretKey, hasCredit;
    }

    /** The local sequence advances with every channel proof and with nothing else, whether or not the
        proof is ever accepted. */
    method BuildProof(invoice: string, acceptsChannel: bool, acceptsCredit: bool) returns (r: Option<ClientProof>)
      modifies this
      ensures r.Some? && r.value.ChannelSpend? <==> preferChannel && acceptsChannel && channel.Some? && hasSecretKey
      ensures r.Some? && r.value.ChannelSpend? ==>
                sequence == old(sequence) + 1 && r.value.proof == Proof(channel.value, sequence, invoice)
      ensures !(r.Some? && r.value.ChannelSpend?) ==> sequence == old(sequence)
      ensures !(preferChannel && acceptsChannel && channel.Some? && hasSecretKey) ==>
                r == if acceptsCredit && hasCredit then Some(PrepaidCredit(invoice, hasSecretKey)) else None
    {
      if preferChannel && acceptsChannel && channel.Some? && hasSecretKey {
        var (proof, newSequence) := CreateSpendProof(channel.value, sequence, invoice);
        sequence := newSequence;
        return Some(ChannelSpend(proof));
      }
      if acceptsCredit && hasCredit {
        return Some(PrepaidCredit(invoice, hasSecretKey));
      }
      return None;
    }
  }

  // ---------------------------------------------------------------------------
  // The protocol
  // ---------------------------------------------------------------------------

  /** An accepted spend: the proof it used, by its place among those its client issued, if it is one of them, and
      the invoice's amount. */
  datatype Accepted = Accepted(proof: Option<nat>, channel: string, sequence: int, amount: int)

  datatype State = State(rows: Rows, clients: map<string, int>, issued: seq<Proof>, accepted: seq<Accepted>)

  const START := State(map[], map[], [], [])

  datatype Event =
    | Open(id: string, owner: string, deposit: int)
    | Close(id: string)
    | Join(id: string, start: nat)        // the client of a channel is configured
    | Issue(id: string, invoice: string)  // it builds a proof
    | Deliver(k: nat, amount: int)        // the network hands over a copy of the k-th proof ever issued
    | Stray(proof: Proof, amount: int)    // a proof from elsewhere, signed with the key of any payer

  /** The server does not look at who signed a proof, only at its channel, its sequence and the amount. */
  function Taken(s: State, p: Proof, place: Option<nat>, amount: int): State {
    if SpendGuard(s.rows, p.channel, p.sequence, amount).Some? then s
    else
      s.(rows := SpentChannel(s.rows, p.channel, p.sequence, amount),
         accepted := s.accepted + [Accepted(place, p.channel, p.sequence, amount)])
  }

  function Next(s: State, e: Event): State {
    match e
    case Open(id, owner, deposit) => s.(rows := OpenedChannel(s.rows, id, owner, deposit))
    case Close(id) => s.(rows := ClosedChannel(s.rows, id))
    case Join(id, start) => if id in s.clients then s else s.(clients := s.clients[id := start])
    case Issue(id, invoice) =>
      if id !in s.clients then s
      else
        var (proof, newSequence) := CreateSpendProof(id, s.clients[id], invoice);
        s.(clients := s.clients[id := newSequence], issued := s.issued + [proof])
    case Deliver(k, amount) => if k < |s.issued| then Taken(s, s.issued[k], Some(k), amount) else s
    case Stray(proof, amount) => Taken(s, proof, None, amount)
  }

  function Run(s: State, es: seq<Event>): State
    decreases |es|
  {
    if es == [] then s else Run(Next(s, es[0]), es[1..])
  }

  function SpentOn(accepted: seq<Accepted>, id: string): int {
    if accepted == [] then 0
    else
      var last := accepted[|accepted| - 1];
      SpentOn(accepted[..|accepted| - 1], id) + if last.channel == id then last.amount else 0
  }

  function SequenceOf(s: State, id: string): int {
    if id in s.rows then s.rows[id].sequence else 0
  }

  /** Proofs of a channel carry strictly growing numbers, the last of which its client remembers. */
  predicate Issuing(s: State) {
    && (forall k | 0 <= k < |s.issued| :: s.issued[k].channel in s.clients)
    && (forall k | 0 <= k < |s.issued| :: 0 < s.issued[k].sequence <= s.clients[s.issued[k].channel])
    && (forall j, k | 0 <= j < k < |s.issued| && s.issued[j].channel == s.issued[k].channel ::
          s.issued[j].sequence < s.issued[k].sequence)
    && (forall id | id in s.clients :: s.clients[id] >= 0)
  }

  /** Accepted spends of a channel have growing numbers, and those that used issued proofs growing places; the
      row shows the newest number. */
  predicate Accepting(s: State) {
    && (forall i | 0 <= i < |s.accepted| && s.accepted[i].proof.Some? :: s.accepted[i].proof.value < |s.issued|)
    && (forall i | 0 <= i < |s.accepted| && s.accepted[i].proof.Some? ::
          var p := s.issued[s.accepted[i].proof.value];
          p.channel == s.accepted[i].channel && p.sequence == s.accepted[i].sequence)
    && (forall i | 0 <= i < |s.accepted| ::
          s.accepted[i].channel in s.rows && s.accepted[i].sequence <= s.rows[s.accepted[i].channel].sequence)
    && (forall i, j | 0 <= i < j < |s.accepted| && s.accepted[i].channel == s.accepted[j].channel ::
          s.accepted[i].sequence < s.accepted[j].sequence)
    && (forall i, j | 0 <= i < j < |s.accepted| && s.accepted[i].channel == s.accepted[j].channel
                      && s.accepted[i].proof.Some? && s.accepted[j].proof.Some? ::
          s.accepted[i].proof.value < s.accepted[j].proof.value)
  }

  /** The money of one channel. */
  predicate Funds(s: State, id: string) {
    if id in s.rows then
      var row := s.rows[id];
      && row.available + row.spent == row.deposited
      && row.spent == SpentOn(s.accepted, id)
      && (row.deposited >= 0 ==> row.available >= 0)
    else SpentOn(s.accepted, id) == 0
  }

  lemma NextIssuing(s: State, e: Event)
    requires Issuing(s)
    ensures Issuing(Next(s, e))
  {
  }

  /** A proof that passes the sequence check was issued after every issued proof accepted on its channel. */
  lemma DeliveryIsLater(s: State, k: nat)
    requires Issuing(s) && Accepting(s) && k < |s.issued|
    requires s.issued[k].channel in s.rows && s.issued[k].sequence > s.rows[s.issued[k].channel].sequence
    ensures forall i | 0 <= i < |s.accepted| && s.accepted[i].channel == s.issued[k].channel
                       && s.accepted[i].proof.Some? :: s.accepted[i].proof.value < k
  {
    forall i | 0 <= i < |s.accepted| && s.accepted[i].channel == s.issued[k].channel && s.accepted[i].proof.Some?
      ensures s.accepted[i].proof.value < k
    {
      var j := s.accepted[i].proof.value;
      assert s.issued[j].sequence < s.issued[k].sequence;
    }
  }

  lemma TakenAccepting(s: State, p: Proof, place: Option<nat>, amount: int)
    requires Issuing(s) && Accepting(s)
    requires place.Some? ==> place.value < |s.issued| && s.issued[place.value] == p
    ensures Accepting(Taken(s, p, place, amount))
  {
    if SpendGuard(s.rows, p.channel, p.sequence, amount).None? && place.Some? { DeliveryIsLater(s, place.value); }
  }

  lemma NextAccepting(s: State, e: Event)
    requires Issuing(s) && Accepting(s)
    ensures Accepting(Next(s, e))
  {
    match e
    case Deliver(k, amount) => if k < |s.issued| { TakenAccepting(s, s.issued[k], Some(k), amount); }
    case Stray(proof, amount) => TakenAccepting(s, proof, None, amount);
    case _ =>
  }

  lemma TakenFunds(s: State, p: Proof, place: Option<nat>, amount: int, id: string)
    requires Accepting(s) && Funds(s, id)
    ensures Funds(Taken(s, p, place, amount), id)
  {
    var s' := Taken(s, p, place, amount);
    if s' != s { assert s'.accepted[..|s.accepted|] == s.accepted; }
  }

  lemma NextFunds(s: State, e: Event, id: string)
    requires Accepting(s) && Funds(s, id)
    ensures Funds(Next(s, e), id)
  {
    match e
    case Deliver(k, amount) => if k < |s.issued| { TakenFunds(s, s.issued[k], Some(k), amount, id); }
    case Stray(proof, amount) => TakenFunds(s, proof, None, amount, id);
    case _ =>
  }

  lemma {:induction false} RunKeeps(s: State, es: seq<Event>, id: string)
    requires Issuing(s) && Accepting(s) && Funds(s, id)
    ensures var s' := Run(s, es); Issuing(s') && Accepting(s') && Funds(s', id)
    decreases |es|
  {
    if es != [] {
      NextIssuing(s, es[0]);
      NextAccepting(s, es[0]);
      NextFunds(s, es[0], id);
      RunKeeps(Next(s, es[0]), es[1..], id);
    }
  }

  /** Over every run of servers, clients and network, and whatever other proofs turn up: the accepted spends of
      a channel have strictly growing numbers, so no proof of any origin settles twice, and those of its client's
      proofs are a subsequence of the issued ones; its available and spent amounts add up to the deposit, what is
      spent is the sum of the accepted amounts, and no deposit is ever overdrawn. */
  lemma ChannelSafety(es: seq<Event>, id: string)
    ensures var s := Run(START, es);
            && Issuing(s) && Accepting(s) && Funds(s, id)
            && (forall i, j | 0 <= i < j < |s.accepted| ::
                  s.accepted[i].channel != s.accepted[j].channel || s.accepted[i].sequence < s.accepted[j].sequence)
  {
    RunKeeps(START, es, id);
  }

  lemma {:induction false} SpentNonNegative(accepted: seq<Accepted>, id: string)
    requires forall a | a in accepted :: a.amount >= 0
    ensures SpentOn(accepted, id) >= 0
  {
    if accepted != [] {
      assert accepted[|accepted| - 1] in accepted;
      SpentNonNegative(accepted[..|accepted| - 1], id);
    }
  }

  function AcceptedOn(accepted: seq<Accepted>, id: string): seq<Accepted> {
    if accepted == [] then []
    else
      var front, last := AcceptedOn(accepted[..|accepted| - 1], id), accepted[|accepted| - 1];
      if last.channel == id then front + [last] else front
  }

  /** A closed channel never changes and accepts nothing more. */
  lemma {:induction false} ClosedForGood(s: State, es: seq<Event>, id: string)
    requires id in s.rows && !s.rows[id].open
    ensures var s' := Run(s, es);
            && id in s'.rows && s'.rows[id] == s.rows[id]
            && AcceptedOn(s'.accepted, id) == AcceptedOn(s.accepted, id)
    decreases |es|
  {
    if es != [] {
      var s1 := Next(s, es[0]);
      if s1.accepted != s.accepted { assert s1.accepted[..|s.accepted|] == s.accepted; }
      ClosedForGood(s1, es[1..], id);
    }
  }

  /** Closing a channel closes it for good, whatever follows, and leaves the others as they are. */
  lemma CloseCloses(s: State, es: seq<Event>, id: string)
    requires id in s.rows
    ensures var s' := Run(Next(s, Close(id)), es);
            && id in s'.rows && s'.rows[id] == s.rows[id].(open := false)
            && AcceptedOn(s'.accepted, id) == AcceptedOn(s.accepted, id)
    ensures Next(s, Close(id)) == s.(rows := s.rows[id := s.rows[id].(open := false)])
  {
    ClosedForGood(Next(s, Close(id)), es, id);
  }

  /** A new channel belongs to its owner, is open, and holds its deposit; an existing one is not touched. */
  lemma OpenOpens(s: State, id: string, owner: string, deposit: int)
    ensures Next(s, Open(id, owner, deposit)) ==
              if id in s.rows then s
              else s.(rows := s.rows[id := Channel(owner, deposit, deposit, 0, 0, true)])
  {
  }

  /** A spend is taken exactly when the channel is there and open, the sequence is new and the funds suffice;
      then the amount moves from available to spent. Anything else changes nothing. */
  lemma SpendTaken(s: State, p: Proof, amount: int)
    ensures var s' := Next(s, Stray(p, amount));
            if p.channel in s.rows && s.rows[p.channel].open && p.sequence > s.rows[p.channel].sequence
               && amount <= s.rows[p.channel].available then
              var row := s.rows[p.channel];
              && s'.rows == s.rows[p.channel := row.(sequence := p.sequence, spent := row.spent + amount,
                                                     available := row.available - amount)]
              && s'.accepted == s.accepted + [Accepted(None, p.channel, p.sequence, amount)]
            else s' == s
    ensures forall k: nat | k < |s.issued| && s.issued[k] == p ::
              Next(s, Deliver(k, amount)).rows == Next(s, Stray(p, amount)).rows
  {
  }

  /** The errors of a spend, in their order. */
  lemma SpendErrors(rows: Rows, id: string, sequence: int, amount: int)
    ensures id !in rows ==> SpendGuard(rows, id, sequence, amount) == Some(NotFound)
    ensures id in rows && !rows[id].open ==> SpendGuard(rows, id, sequence, amount) == Some(NotOpen)
    ensures id in rows && rows[id].open && sequence <= rows[id].sequence ==>
              SpendGuard(rows, id, sequence, amount) == Some(NotMonotonic)
    ensures id in rows && rows[id].open && sequence > rows[id].sequence && amount > rows[id].available ==>
              SpendGuard(rows, id, sequence, amount) == Some(Insufficient)
  {
  }

  // ---------------------------------------------------------------------------
  // In-order delivery
  // ---------------------------------------------------------------------------

  /** A network that loses proofs but neither repeats, reorders nor makes them up: each delivery takes a later
      proof than the one before; next is the first place not yet passed. */
  predicate InOrder(es: seq<Event>, next: nat)
    decreases |es|
  {
    es == [] ||
    if es[0].Deliver? then es[0].k >= next && InOrder(es[1..], es[0].k + 1)
    else !es[0].Stray? && InOrder(es[1..], next)
  }

  /** Every client starts at or above the sequence its channel's row shows. */
  predicate FreshClients(s: State, es: seq<Event>)
    decreases |es|
  {
    es != [] ==>
    && (es[0].Join? && es[0].id !in s.clients ==> es[0].start >= SequenceOf(s, es[0].id))
    && FreshClients(Next(s, es[0]), es[1..])
  }

  /** No delivery of the run is refused by the sequence check. */
  predicate SequenceNeverFails(s: State, es: seq<Event>)
    decreases |es|
  {
    es != [] ==>
    && (es[0].Deliver? && es[0].k < |s.issued| ==>
          var p := s.issued[es[0].k]; SpendGuard(s.rows, p.channel, p.sequence, es[0].amount) != Some(NotMonotonic))
    && SequenceNeverFails(Next(s, es[0]), es[1..])
  }

  predicate Ahead(s: State, next: nat) {
    && (forall k | next <= k < |s.issued| :: s.issued[k].sequence > SequenceOf(s, s.issued[k].channel))
    && (forall id | id in s.clients :: s.clients[id] >= SequenceOf(s, id))
  }

  lemma NextAhead(s: State, e: Event, next: nat)
    requires Issuing(s) && Ahead(s, next)
    requires e.Join? && e.id !in s.clients ==> e.start >= SequenceOf(s, e.id)
    requires !e.Stray? && (e.Deliver? ==> e.k >= next)
    ensures Ahead(Next(s, e), if e.Deliver? then e.k + 1 else next)
  {
  }

  /** With in-order delivery of nothing but their own proofs, and clients that start where their channels stand,
      no honest spend fails the sequence check, whatever is lost, refused for lack of funds or closed in between. */
  lemma {:induction false} InOrderSpends(s: State, es: seq<Event>, next: nat)
    requires Issuing(s) && Ahead(s, next) && InOrder(es, next) && FreshClients(s, es)
    ensures SequenceNeverFails(s, es)
    decreases |es|
  {
    if es != [] {
      NextIssuing(s, es[0]);
      NextAhead(s, es[0], next);
      InOrderSpends(Next(s, es[0]), es[1..], if es[0].Deliver? then es[0].k + 1 else next);
    }
  }

  /** The starting point matters: the first spend of a new client on an open channel passes the sequence
      check exactly when the client did not start below the row. */
  lemma FirstSpend(s: State, id: string, start: nat, invoice: string, amount: int)
    requires id in s.rows && s.rows[id].open && id !in s.clients
    ensures var s' := Next(Next(s, Join(id, start)), Issue(id, invoice));
            var p := s'.issued[|s.issued|];
            SpendGuard(s'.rows, p.channel, p.sequence, amount) != Some(NotMonotonic) <==> start >= s.rows[id].sequence
  {
  }
}
