/** The receipt batcher: an in-memory queue cut into Merkle batches. Creating a receipt and flushing a
    batch both wait for the database in the middle, so each is modelled as the steps between its waits
    and the steps of all calls interleave freely. A database write that fails is a step that never comes. */
module Receipts {
  import opened Basics
  import opened Wrappers
  import opened Merkle

  const BATCH_SIZE := 100

  /** One run of flushBatch: its slice and root, and which of its two writes have been done. */
  datatype Batch = Batch(id: string, items: seq<string>, root: string, stored: bool, marked: bool)

  /** A row of receipt_roots. */
  datatype RootRow = RootRow(merkleRoot: string, itemCount: nat)

  datatype State = State(
    rows: map<string, Option<string>>, // receipts: receipt_id to batch_id
    creating: set<string>,             // inserted, the caller not yet resumed
    queue: seq<string>,                // receiptQueue
    batches: seq<Batch>,               // flushes in the order they started
    roots: map<string, RootRow>,       // receipt_roots by batch_id
    pushed: seq<string>)               // every receipt ever queued, in order

  const EMPTY := State(map[], {}, [], [], map[], [])

  datatype Event =
    | Insert(receiptId: string)                 // createReceipt up to its INSERT
    | Resume(receiptId: string, flushId: string) // the rest of createReceipt
    | Flush(flushId: string)                    // the timer or the flush route
    | StoreRoot(k: nat)                         // flushBatch, first write
    | MarkReceipts(k: nat)                      // flushBatch, second write

  function StartFlush(h: HashFunction, s: State, flushId: string): State {
    if s.queue == [] then s
    else
      var n := if |s.queue| < BATCH_SIZE then |s.queue| else BATCH_SIZE;
      var items := s.queue[..n];
      s.(queue := s.queue[n..],
         batches := s.batches + [Batch(flushId, items, Root(h, LeafDigests(h, items)), false, false)])
  }

  function SetBatch(rows: map<string, Option<string>>, items: seq<string>, batchId: string): (rows': map<string, Option<string>>)
    ensures rows'.Keys == rows.Keys
    ensures forall id | id in rows :: rows'[id] == if id in items then Some(batchId) else rows[id]
  {
    map id | id in rows :: if id in items then Some(batchId) else rows[id]
  }

  predicate Storable(s: State, k: nat) {
    k < |s.batches| && !s.batches[k].stored && s.batches[k].id !in s.roots
  }

  predicate Markable(s: State, k: nat) {
    k < |s.batches| && s.batches[k].stored && !s.batches[k].marked
  }

  function Next(h: HashFunction, s: State, e: Event): State {
    match e
    case Insert(id) =>
      if id in s.rows then s else s.(rows := s.rows[id := None], creating := s.creating + {id})
    case Resume(id, flushId) =>
      if id !in s.creating then s
      else
        var s' := s.(creating := s.creating - {id}, queue := s.queue + [id], pushed := s.pushed + [id]);
        if |s'.queue| >= BATCH_SIZE then StartFlush(h, s', flushId) else s'
    case Flush(flushId) => StartFlush(h, s, flushId)
    case StoreRoot(k) =>
      if Storable(s, k) then
        var b := s.batches[k];
        s.(batches := s.batches[k := b.(stored := true)], roots := s.roots[b.id := RootRow(b.root, |b.items|)])
      else s
    case MarkReceipts(k) =>
      if Markable(s, k) then
        var b := s.batches[k];
        s.(batches := s.batches[k := b.(marked := true)],
           rows := SetBatch(s.rows, b.items, b.id))
      else s
  }

  function Run(h: HashFunction, s: State, es: seq<Event>): State
    decreases |es|
  {
    if es == [] then s else Run(h, Next(h, s, es[0]), es[1..])
  }

  // ---------------------------------------------------------------------------
  // Invariant
  // ---------------------------------------------------------------------------

  function Items(batches: seq<Batch>): seq<string> {
    if batches == [] then [] else batches[0].items + Items(batches[1..])
  }

  /** The batches in flush order, then the queue, are the receipts in push order; batches have 1 to 100
      items and the root of those items; the queue is short. */
  ghost predicate Partition(h: HashFunction, s: State) {
    && Items(s.batches) + s.queue == s.pushed
    && Distinct(s.pushed)
    && |s.queue| < BATCH_SIZE
    && forall k | 0 <= k < |s.batches| ::
         && 1 <= |s.batches[k].items| <= BATCH_SIZE
         && s.batches[k].root == Root(h, LeafDigests(h, s.batches[k].items))
  }

  /** The receipts table holds exactly the receipts queued so far and those whose caller is still waiting. */
  ghost predicate KnownRows(s: State) {
    && (forall id :: id in s.rows <==> id in s.pushed || id in s.creating)
    && (forall id | id in s.creating :: id !in s.pushed && s.rows[id] == None)
  }

  /** A stored batch has its own root and count under its own identifier. */
  ghost predicate RootRows(s: State) {
    && (forall k | 0 <= k < |s.batches| && s.batches[k].stored ::
          s.batches[k].id in s.roots && s.roots[s.batches[k].id] == RootRow(s.batches[k].root, |s.batches[k].items|))
    && (forall j, k | 0 <= j < k < |s.batches| && s.batches[j].stored && s.batches[k].stored ::
          s.batches[j].id != s.batches[k].id)
    && (forall k | 0 <= k < |s.batches| && s.batches[k].marked :: s.batches[k].stored)
  }

  ghost predicate MarkedIn(s: State, k: int, id: string) {
    0 <= k < |s.batches| && s.batches[k].marked && id in s.batches[k].items
  }

  /** A receipt carries a batch identifier iff it lies in a marked batch, and then it is that batch's. */
  ghost predicate Marks(s: State) {
    && (forall k, id | MarkedIn(s, k, id) :: id in s.rows && s.rows[id] == Some(s.batches[k].id))
    && (forall id | id in s.rows && s.rows[id].Some? :: exists k :: MarkedIn(s, k, id))
  }

  ghost predicate Inv(h: HashFunction, s: State) {
    Partition(h, s) && KnownRows(s) && RootRows(s) && Marks(s)
  }

  lemma {:induction false} ItemsAppend(batches: seq<Batch>, b: Batch)
    ensures Items(batches + [b]) == Items(batches) + b.items
  {
    if batches == [] {
      assert batches + [b] == [b];
      assert Items([b][1..]) == [];
    } else {
      ItemsAppend(batches[1..], b);
      assert (batches + [b])[1..] == batches[1..] + [b];
    }
  }

  lemma {:induction false} ItemsOfUpdate(batches: seq<Batch>, k: nat, b: Batch)
    requires k < |batches| && b.items == batches[k].items
    ensures Items(batches[k := b]) == Items(batches)
  {
    if k > 0 {
      ItemsOfUpdate(batches[1..], k - 1, b);
      assert batches[k := b][1..] == batches[1..][k - 1 := b];
    }
  }

  lemma {:induction false} ItemIsPushed(batches: seq<Batch>, k: nat, id: string)
    requires k < |batches| && id in batches[k].items
    ensures id in Items(batches)
  {
    if k > 0 { ItemIsPushed(batches[1..], k - 1, id); }
  }

  lemma DistinctConcat(s: seq<string>, t: seq<string>)
    requires Distinct(s + t)
    ensures Distinct(s) && Distinct(t)
    ensures forall x | x in s :: x !in t
  {
    assert forall i | 0 <= i < |s| :: (s + t)[i] == s[i];
    assert forall j | 0 <= j < |t| :: (s + t)[|s| + j] == t[j];
  }

  /** No receipt lies in two batches. */
  lemma {:induction false} BatchesDisjoint(batches: seq<Batch>, j: nat, k: nat, id: string)
    requires Distinct(Items(batches)) && j < |batches| && k < |batches|
    requires id in batches[j].items && id in batches[k].items
    ensures j == k
  {
    var head, tail := batches[0].items, Items(batches[1..]);
    if j == 0 || k == 0 {
      if j != k {
        DistinctConcat(head, tail);
        ItemIsPushed(batches[1..], j + k - 1, id);
      }
    } else {
      DistinctConcat(head, tail);
      BatchesDisjoint(batches[1..], j - 1, k - 1, id);
    }
  }

  lemma SlicePartition(h: HashFunction, s: State, flushId: string)
    requires Partition(h, s.(queue := [], pushed := Items(s.batches)))
    requires Items(s.batches) + s.queue == s.pushed && Distinct(s.pushed) && |s.queue| <= BATCH_SIZE
    ensures Partition(h, StartFlush(h, s, flushId))
  {
    if s.queue != [] {
      var s' := StartFlush(h, s, flushId);
      var b := s'.batches[|s.batches|];
      ItemsAppend(s.batches, b);
      assert b.items + s'.queue == s.queue;
    }
  }

  /** A further batch that is neither stored nor marked disturbs neither the roots nor the marks. */
  lemma UnstoredBatch(s: State, s': State, b: Batch)
    requires RootRows(s) && Marks(s) && !b.stored && !b.marked
    requires s'.batches == s.batches + [b] && s'.roots == s.roots && s'.rows == s.rows
    ensures RootRows(s') && Marks(s')
  {
    assert forall k, id :: MarkedIn(s', k, id) <==> MarkedIn(s, k, id);
  }

  /** Cutting a slice off the queue keeps everything; s need not have a short queue yet. */
  lemma StartFlushKeeps(h: HashFunction, s: State, flushId: string)
    requires Partition(h, s.(queue := [], pushed := Items(s.batches)))
    requires Items(s.batches) + s.queue == s.pushed && Distinct(s.pushed) && |s.queue| <= BATCH_SIZE
    requires KnownRows(s) && RootRows(s) && Marks(s)
    ensures Inv(h, StartFlush(h, s, flushId))
  {
    SlicePartition(h, s, flushId);
    if s.queue != [] {
      var s' := StartFlush(h, s, flushId);
      UnstoredBatch(s, s', s'.batches[|s.batches|]);
    }
  }

  lemma ResumeKeeps(h: HashFunction, s: State, id: string, flushId: string)
    requires Inv(h, s)
    ensures Inv(h, Next(h, s, Resume(id, flushId)))
  {
    if id in s.creating {
      var s' := s.(creating := s.creating - {id}, queue := s.queue + [id], pushed := s.pushed + [id]);
      assert Items(s.batches) + s'.queue == s'.pushed;
      assert KnownRows(s');
      assert forall k, x :: MarkedIn(s', k, x) <==> MarkedIn(s, k, x);
      if |s'.queue| >= BATCH_SIZE {
        DistinctConcat(Items(s.batches), s.queue);
        StartFlushKeeps(h, s', flushId);
      }
    }
  }

  lemma MarksAfterMark(s: State, s': State, k: nat)
    requires Distinct(Items(s.batches)) && KnownRows(s) && Marks(s)
    requires forall id | id in Items(s.batches) :: id in s.pushed
    requires k < |s.batches| && s.batches[k].stored && !s.batches[k].marked
    requires s' == s.(batches := s.batches[k := s.batches[k].(marked := true)],
                      rows := SetBatch(s.rows, s.batches[k].items, s.batches[k].id))
    ensures KnownRows(s') && Marks(s')
  {
    forall j, id | MarkedIn(s', j, id)
      ensures id in s'.rows && s'.rows[id] == Some(s'.batches[j].id)
    {
      ItemIsPushed(s.batches, j, id);
      if id in s.batches[k].items { BatchesDisjoint(s.batches, j, k, id); }
      assert j == k || MarkedIn(s, j, id);
    }
    forall id | id in s'.rows && s'.rows[id].Some? ensures exists j :: MarkedIn(s', j, id) {
      if id in s.batches[k].items {
        assert MarkedIn(s', k, id);
      } else {
        var j :| MarkedIn(s, j, id);
        assert MarkedIn(s', j, id);
      }
    }
    forall id | id in s'.creating ensures s'.rows[id] == None {
      if id in s.batches[k].items { ItemIsPushed(s.batches, k, id); }
    }
  }

  /** The two writes change neither the items nor the roots of the batches. */
  lemma WritePartition(h: HashFunction, s: State, s': State, k: nat)
    requires Partition(h, s) && k < |s.batches| == |s'.batches|
    requires s'.batches == s.batches[k := s.batches[k].(stored := s'.batches[k].stored, marked := s'.batches[k].marked)]
    requires s'.queue == s.queue && s'.pushed == s.pushed
    ensures Partition(h, s')
  {
    ItemsOfUpdate(s.batches, k, s'.batches[k]);
  }

  lemma StoreRootRows(h: HashFunction, s: State, k: nat)
    requires RootRows(s) && Storable(s, k)
    ensures RootRows(Next(h, s, StoreRoot(k)))
  {
  }

  lemma StoreRootKeeps(h: HashFunction, s: State, k: nat)
    requires Inv(h, s)
    ensures Inv(h, Next(h, s, StoreRoot(k)))
  {
    if Storable(s, k) {
      var s' := Next(h, s, StoreRoot(k));
      WritePartition(h, s, s', k);
      StoreRootRows(h, s, k);
      assert forall j, id :: MarkedIn(s', j, id) <==> MarkedIn(s, j, id);
    }
  }

  lemma MarkRootRows(h: HashFunction, s: State, k: nat)
    requires RootRows(s) && Markable(s, k)
    ensures RootRows(Next(h, s, MarkReceipts(k)))
  {
  }

  lemma MarkKeeps(h: HashFunction, s: State, k: nat)
    requires Inv(h, s)
    ensures Inv(h, Next(h, s, MarkReceipts(k)))
  {
    if Markable(s, k) {
      var s' := Next(h, s, MarkReceipts(k));
      WritePartition(h, s, s', k);
      MarkRootRows(h, s, k);
      DistinctConcat(Items(s.batches), s.queue);
      MarksAfterMark(s, s', k);
    }
  }

  lemma InsertKeeps(h: HashFunction, s: State, id: string)
    requires Inv(h, s)
    ensures Inv(h, Next(h, s, Insert(id)))
  {
    assert forall k, x :: MarkedIn(Next(h, s, Insert(id)), k, x) <==> MarkedIn(s, k, x);
  }

  lemma NextKeeps(h: HashFunction, s: State, e: Event)
    requires Inv(h, s)
    ensures Inv(h, Next(h, s, e))
  {
    match e
    case Insert(id) => InsertKeeps(h, s, id);
    case Resume(id, flushId) => ResumeKeeps(h, s, id, flushId);
    case Flush(flushId) =>
      DistinctConcat(Items(s.batches), s.queue);
      StartFlushKeeps(h, s, flushId);
    case StoreRoot(k) => StoreRootKeeps(h, s, k);
    case MarkReceipts(k) => MarkKeeps(h, s, k);
  }

  // ---------------------------------------------------------------------------
  // What the single steps achieve
  // ---------------------------------------------------------------------------

  /** A batch takes the front of the queue, a hundred receipts at most. Its root is that of the tree over the
      digests of its receipts, in their order. */
  lemma FlushMeans(h: HashFunction, s: State, flushId: string, leaves: seq<string>)
    requires s.queue != []
    requires var n := if |s.queue| < 100 then |s.queue| else 100;
             |leaves| == n && forall i | 0 <= i < n :: leaves[i] == h(s.queue[i])
    ensures var s', n := Next(h, s, Flush(flushId)), |leaves|;
            && s'.queue == s.queue[n..]
            && s'.batches == s.batches + [Batch(flushId, s.queue[..n], TreeRoot(h, leaves), false, false)]
            && s'.rows == s.rows && s'.roots == s.roots && s'.creating == s.creating
  {
    var items := s.queue[..|leaves|];
    assert LeafDigests(h, items) == leaves;
  }

  /** Every receipt of a batch can be shown to be in its root: the digest of its identifier climbs to it along
      the audit path of its place. */
  lemma ReceiptIncluded(h: HashFunction, s: State, k: nat, i: nat)
    requires Partition(h, s) && k < |s.batches| && i < |s.batches[k].items|
    ensures var b := s.batches[k];
            Climb(h, h(b.items[i]), AuditPath(h, LeafDigests(h, b.items), i)) == b.root
  {
    Inclusion(h, LeafDigests(h, s.batches[k].items), i);
  }

  /** The first half of a creation stores the receipt, without a batch, and nothing else. */
  lemma InsertMeans(h: HashFunction, s: State, id: string)
    ensures Next(h, s, Insert(id)) ==
              if id in s.rows then s else s.(rows := s.rows[id := None], creating := s.creating + {id})
  {
  }

  /** A creation cuts a batch exactly when it is the hundredth in the queue, and then takes all hundred. */
  lemma CreationMeans(h: HashFunction, s: State, id: string, flushId: string)
    requires |s.queue| < 100 && id in s.creating
    ensures var s', q := Next(h, s, Resume(id, flushId)), s.queue + [id];
            && s'.rows == s.rows && s'.creating == s.creating - {id}
            && if |q| == 100 then s'.queue == [] && |s'.batches| == |s.batches| + 1 && s'.batches[|s.batches|].items == q
               else s'.queue == q && s'.batches == s.batches
  {
    var q := s.queue + [id];
    if |q| == 100 { assert q[..100] == q && q[100..] == []; }
  }

  /** The two writes of a flush happen: the root row, and the identifier of the batch on exactly its receipts. */
  lemma WritesMean(h: HashFunction, s: State, k: nat)
    requires k < |s.batches|
    ensures !s.batches[k].stored && s.batches[k].id !in s.roots ==>
              var s', b := Next(h, s, StoreRoot(k)), s.batches[k];
              s'.roots == s.roots[b.id := RootRow(b.root, |b.items|)] && s'.batches == s.batches[k := b.(stored := true)]
    ensures s.batches[k].stored && !s.batches[k].marked ==>
              var s', b := Next(h, s, MarkReceipts(k)), s.batches[k];
              && s'.batches == s.batches[k := b.(marked := true)] && s'.rows.Keys == s.rows.Keys
              && forall id | id in s.rows :: s'.rows[id] == if id in b.items then Some(b.id) else s.rows[id]
  {
  }

  /** In every run, whatever the interleaving of creations and flushes. */
  lemma {:induction false} RunKeeps(h: HashFunction, s: State, es: seq<Event>)
    requires Inv(h, s)
    ensures Inv(h, Run(h, s, es))
    decreases |es|
  {
    if es != [] {
      NextKeeps(h, s, es[0]);
      RunKeeps(h, Next(h, s, es[0]), es[1..]);
    }
  }

  /** id points at batch k, the only one that holds it, whose row has the root and the count of its items. */
  ghost predicate Receipted(h: HashFunction, s: State, id: string, k: nat) {
    && k < |s.batches| && id in s.batches[k].items
    && (forall j | 0 <= j < |s.batches| && id in s.batches[j].items :: j == k)
    && id in s.rows && s.rows[id] == Some(s.batches[k].id)
    && s.batches[k].id in s.roots
    && s.roots[s.batches[k].id] == RootRow(Root(h, LeafDigests(h, s.batches[k].items)), |s.batches[k].items|)
  }

  ghost predicate AtRest(s: State) {
    s.creating == {} && s.queue == [] && forall k | 0 <= k < |s.batches| :: s.batches[k].marked
  }

  lemma SettledReceipt(h: HashFunction, s: State, id: string) returns (k: nat)
    requires Inv(h, s) && AtRest(s) && id in s.rows
    ensures Receipted(h, s, id, k)
  {
    assert Items(s.batches) == Items(s.batches) + s.queue;
    k := BatchOf(s.batches, id);
    assert MarkedIn(s, k, id);
    forall j | 0 <= j < |s.batches| && id in s.batches[j].items ensures j == k {
      BatchesDisjoint(s.batches, j, k, id);
    }
  }

  /** Once every creation and flush has finished and the queue is empty, each receipt points at exactly one
      stored batch, which holds it and whose row has the root and the count of its items. */
  lemma SettledReceipts(h: HashFunction, es: seq<Event>, id: string) returns (k: nat)
    requires AtRest(Run(h, EMPTY, es)) && id in Run(h, EMPTY, es).rows
    ensures Receipted(h, Run(h, EMPTY, es), id, k)
  {
    RunKeeps(h, EMPTY, es);
    k := SettledReceipt(h, Run(h, EMPTY, es), id);
  }

  lemma {:induction false} BatchOf(batches: seq<Batch>, id: string) returns (k: nat)
    requires id in Items(batches)
    ensures k < |batches| && id in batches[k].items
  {
    if id in batches[0].items {
      k := 0;
    } else {
      k := BatchOf(batches[1..], id);
      k := k + 1;
    }
  }

  // ---------------------------------------------------------------------------
  // The service
  // ---------------------------------------------------------------------------

  class ReceiptService {
    const h: HashFunction
    var rows: map<string, Option<string>>
    var creating: set<string>
    var queue: seq<string>
    var batches: seq<Batch>
    var roots: map<string, RootRow>
    ghost var pushed: seq<string>

    ghost function Model(): State
      reads this
    {
      State(rows, creating, queue, batches, roots, pushed)
    }

    constructor (h: HashFunction)
      ensures this.h == h && Model() == EMPTY
    {
      this.h := h;
      rows, creating, queue, batches, roots, pushed := map[], {}, [], [], map[], [];
    }

    method InsertReceipt(receiptId: string)
      modifies this
      ensures Model() == Next(h, old(Model()), Insert(receiptId))
    {
      if receiptId !in rows {
        rows := rows[receiptId := None];
        creating := creating + {receiptId};
      }
    }

    method ResumeCreate(receiptId: string, flushId: string)
      requires receiptId in creating
      modifies this
      ensures Model() == Next(h, old(Model()), Resume(receiptId, flushId))
    {
      creating := creating - {receiptId};
      queue := queue + [receiptId];
      pushed := pushed + [receiptId];
      if |queue| >= BATCH_SIZE {
        FlushBatch(flushId);
      }
    }

    method FlushBatch(flushId: string)
      modifies this
      ensures Model() == StartFlush(h, old(Model()), flushId)
    {
      if |queue| == 0 { return; }
      var n := if |queue| < BATCH_SIZE then |queue| else BATCH_SIZE;
      var items := queue[..n];
      queue := queue[n..];
      var root, _, _ := ComputeMerkleRoot(h, LeafDigests(h, items));
      batches := batches + [Batch(flushId, items, root, false, false)];
    }

    method InsertRoot(k: nat)
      requires k < |batches| && !batches[k].stored
      modifies this
      ensures Model() == Next(h, old(Model()), StoreRoot(k))
    {
      var b := batches[k];
      if b.id !in roots {
        roots := roots[b.id := RootRow(b.root, |b.items|)];
        batches := batches[k := b.(stored := true)];
      }
    }

    method UpdateReceipts(k: nat)
      requires k < |batches| && batches[k].stored && !batches[k].marked
      modifies this
      ensures Model() == Next(h, old(Model()), MarkReceipts(k))
    {
      var b := batches[k];
      rows := SetBatch(rows, b.items, b.id);
      batches := batches[k := b.(marked := true)];
    }
  }
}
