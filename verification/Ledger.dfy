/** The ledger engine. A submission takes a sequence number, commits a transaction and only then walks its
    legs through the balance cache; calls interleave at every one of those points. */
module Ledger {
  import opened Basics
  import opened Wrappers
  import opened Journal

  datatype Status = Waiting | Failed | Committed

  /** One call of submit: its entry, its number, and the legs the cache has not yet seen. */
  datatype Call = Call(entry: Entry, number: nat, status: Status, rest: seq<Leg>)

  datatype Posted = Posted(number: nat, entry: Entry)

  datatype State = State(
    sequence: nat,
    journal: seq<Posted>,
    cache: map<Key, int>,
    calls: seq<Call>,
    refused: seq<Leg>) // legs the cache turned down, in order

  datatype Event =
    | Submit(entry: Entry) // validate and take a number
    | Commit(t: nat)       // the transaction commits
    | Abort(t: nat)        // the database reports an error
    | Apply(t: nat)        // the next leg reaches the cache

  ghost function Next(s: State, e: Event): State {
    match e
    case Submit(entry) =>
      if Balanced(entry.legs) then
        s.(sequence := s.sequence + 1, calls := s.calls + [Call(entry, s.sequence + 1, Waiting, [])])
      else s
    case Commit(t) =>
      if t < |s.calls| && s.calls[t].status.Waiting? then
        var c := s.calls[t];
        s.(journal := s.journal + [Posted(c.number, c.entry)],
           calls := s.calls[t := c.(status := Committed, rest := c.entry.legs)])
      else s
    case Abort(t) =>
      if t < |s.calls| && s.calls[t].status.Waiting? then
        s.(calls := s.calls[t := s.calls[t].(status := Failed)])
      else s
    case Apply(t) =>
      if t < |s.calls| && s.calls[t].rest != [] then
        var c := s.calls[t];
        var leg := c.rest[0];
        s.(cache := Applied(s.cache, leg),
           calls := s.calls[t := c.(rest := c.rest[1..])],
           refused := if Refused(s.cache, leg) then s.refused + [leg] else s.refused)
      else s
  }

  ghost function Run(s: State, es: seq<Event>): State
    decreases |es|
  {
    if es == [] then s else Run(Next(s, es[0]), es[1..])
  }

  /** A ledger whose cache has just been loaded with the opening balances. */
  function Start(opening: map<Key, int>): State {
    State(0, [], opening, [], [])
  }

  // ---------------------------------------------------------------------------
  // Drift of the cache
  // ---------------------------------------------------------------------------

  /** What the committed entries add to a balance. */
  function Booked(journal: seq<Posted>, key: Key): int {
    if journal == [] then 0
    else Booked(journal[..|journal| - 1], key) + BalanceOf(journal[|journal| - 1].entry.legs, key)
  }

  /** What the legs still to be applied add to a balance. */
  function Outstanding(calls: seq<Call>, key: Key): int {
    if calls == [] then 0 else BalanceOf(calls[0].rest, key) + Outstanding(calls[1..], key)
  }

  /** The sum of the absolute values of the refused legs of a balance. */
  function Shortfall(refused: seq<Leg>, key: Key): int {
    -BalanceOf(refused, key)
  }

  /** Cache plus deltas still to apply is the journal balance plus the refused debits. The cache is negative
      only while it still shows a negative opening balance; from a non-negative one only debits are refused. */
  predicate Drift(opening: map<Key, int>, s: State, key: Key) {
    && Get(s.cache, key) + Outstanding(s.calls, key)
       == Get(opening, key) + Booked(s.journal, key) + Shortfall(s.refused, key)
    && (Get(s.cache, key) >= 0 || Get(s.cache, key) == Get(opening, key))
    && (Get(opening, key) >= 0 ==>
          forall leg | leg in s.refused && KeyOf(leg) == key :: leg.direction.Debit? && leg.money.amount > 0)
  }

  lemma {:induction false} OutstandingUpdate(calls: seq<Call>, t: nat, c: Call, key: Key)
    requires t < |calls|
    ensures Outstanding(calls[t := c], key)
         == Outstanding(calls, key) - BalanceOf(calls[t].rest, key) + BalanceOf(c.rest, key)
  {
    if t > 0 {
      OutstandingUpdate(calls[1..], t - 1, c, key);
      assert calls[t := c][1..] == calls[1..][t - 1 := c];
    }
  }

  lemma {:induction false} OutstandingAppend(calls: seq<Call>, c: Call, key: Key)
    ensures Outstanding(calls + [c], key) == Outstanding(calls, key) + BalanceOf(c.rest, key)
  {
    if calls == [] {
      assert calls + [c] == [c] && [c][1..] == [];
    } else {
      OutstandingAppend(calls[1..], c, key);
      assert (calls + [c])[1..] == calls[1..] + [c];
    }
  }

  /** A call that has not committed has nothing to apply. */
  predicate Tidy(s: State) {
    forall c | c in s.calls :: c.status.Waiting? ==> c.rest == []
  }

  lemma NextTidy(s: State, e: Event)
    requires Tidy(s)
    ensures Tidy(Next(s, e))
  {
  }

  lemma SubmitDrift(opening: map<Key, int>, s: State, entry: Entry, key: Key)
    requires Drift(opening, s, key)
    ensures Drift(opening, Next(s, Submit(entry)), key)
  {
    if Balanced(entry.legs) { OutstandingAppend(s.calls, Call(entry, s.sequence + 1, Waiting, []), key); }
  }

  lemma CommitDrift(opening: map<Key, int>, s: State, t: nat, key: Key)
    requires Drift(opening, s, key) && Tidy(s)
    ensures Drift(opening, Next(s, Commit(t)), key)
  {
    if t < |s.calls| && s.calls[t].status.Waiting? {
      var c := s.calls[t];
      assert c in s.calls;
      OutstandingUpdate(s.calls, t, c.(status := Committed, rest := c.entry.legs), key);
      assert (s.journal + [Posted(c.number, c.entry)])[..|s.journal|] == s.journal;
    }
  }

  lemma AbortDrift(opening: map<Key, int>, s: State, t: nat, key: Key)
    requires Drift(opening, s, key)
    ensures Drift(opening, Next(s, Abort(t)), key)
  {
    if t < |s.calls| { OutstandingUpdate(s.calls, t, s.calls[t].(status := Failed), key); }
  }

  lemma ApplyDrift(opening: map<Key, int>, s: State, t: nat, key: Key)
    requires Drift(opening, s, key)
    ensures Drift(opening, Next(s, Apply(t)), key)
  {
    if t < |s.calls| && s.calls[t].rest != [] {
      var c := s.calls[t];
      OutstandingUpdate(s.calls, t, c.(rest := c.rest[1..]), key);
      BalanceOfConcat(s.refused, [c.rest[0]], key);
      assert [c.rest[0]][1..] == [];
    }
  }

  lemma NextDrift(opening: map<Key, int>, s: State, e: Event, key: Key)
    requires Drift(opening, s, key) && Tidy(s)
    ensures Drift(opening, Next(s, e), key)
  {
    match e
    case Submit(entry) => SubmitDrift(opening, s, entry, key);
    case Commit(t) => CommitDrift(opening, s, t, key);
    case Abort(t) => AbortDrift(opening, s, t, key);
    case Apply(t) => ApplyDrift(opening, s, t, key);
  }

  lemma {:induction false} RunDrift(opening: map<Key, int>, s: State, es: seq<Event>, key: Key)
    requires Drift(opening, s, key) && Tidy(s)
    ensures Drift(opening, Run(s, es), key)
    decreases |es|
  {
    if es != [] {
      NextDrift(opening, s, es[0], key);
      NextTidy(s, es[0]);
      RunDrift(opening, Next(s, es[0]), es[1..], key);
    }
  }

  /** Over every interleaving, from any opening balance. */
  lemma CacheDrift(opening: map<Key, int>, es: seq<Event>, key: Key)
    ensures Drift(opening, Run(Start(opening), es), key)
  {
    RunDrift(opening, Start(opening), es, key);
  }

  predicate Quiescent(s: State) {
    forall c | c in s.calls :: c.rest == []
  }

  lemma {:induction false} NothingOutstanding(calls: seq<Call>, key: Key)
    requires forall c | c in calls :: c.rest == []
    ensures Outstanding(calls, key) == 0
  {
    if calls != [] {
      assert calls[0] in calls;
      NothingOutstanding(calls[1..], key);
    }
  }

  lemma {:induction false} ShortfallSign(refused: seq<Leg>, key: Key)
    requires forall leg | leg in refused && KeyOf(leg) == key :: leg.direction.Debit? && leg.money.amount > 0
    ensures Shortfall(refused, key) >= 0
    ensures Shortfall(refused, key) == 0 <==> forall leg | leg in refused :: KeyOf(leg) != key
  {
    if refused != [] {
      assert refused[0] in refused;
      ShortfallSign(refused[1..], key);
      assert forall leg :: leg in refused <==> leg == refused[0] || leg in refused[1..];
    }
  }

  /** At rest the cache is the books plus the refused legs; from a non-negative opening balance it is never below
      the books, and equals them iff no debit of that balance was refused, whatever the apply order. */
  lemma QuiescentCache(opening: map<Key, int>, es: seq<Event>, key: Key)
    requires Quiescent(Run(Start(opening), es))
    ensures var s := Run(Start(opening), es);
            var books := Get(opening, key) + Booked(s.journal, key);
            && Get(s.cache, key) == books + Shortfall(s.refused, key)
            && (Get(opening, key) >= 0 ==>
                  && Get(s.cache, key) >= books
                  && (Get(s.cache, key) == books <==> forall leg | leg in s.refused :: KeyOf(leg) != key))
  {
    CacheDrift(opening, es, key);
    var s := Run(Start(opening), es);
    NothingOutstanding(s.calls, key);
    if Get(opening, key) >= 0 { ShortfallSign(s.refused, key); }
  }

  // ---------------------------------------------------------------------------
  // The journal
  // ---------------------------------------------------------------------------

  function AllLegs(journal: seq<Posted>): seq<Leg> {
    if journal == [] then [] else AllLegs(journal[..|journal| - 1]) + journal[|journal| - 1].entry.legs
  }

  /** Booked balances are the balances of the posted legs. */
  lemma {:induction false} BookedIsBalance(journal: seq<Posted>, key: Key)
    ensures Booked(journal, key) == BalanceOf(AllLegs(journal), key)
  {
    if journal != [] {
      var front := journal[..|journal| - 1];
      BookedIsBalance(front, key);
      BalanceOfConcat(AllLegs(front), journal[|journal| - 1].entry.legs, key);
    }
  }

  lemma {:induction false} SideTotalConcat(a: seq<Leg>, b: seq<Leg>, direction: Direction, asset: Asset)
    ensures SideTotal(a + b, direction, asset) == SideTotal(a, direction, asset) + SideTotal(b, direction, asset)
  {
    if b == [] {
      assert a + b == a;
    } else {
      SideTotalConcat(a, b[..|b| - 1], direction, asset);
      assert (a + b)[..|a + b| - 1] == a + b[..|b| - 1];
    }
  }

  predicate IsPosted(journal: seq<Posted>, number: nat) {
    exists i :: 0 <= i < |journal| && journal[i].number == number
  }

  lemma PostedAppend(journal: seq<Posted>, p: Posted, number: nat)
    ensures IsPosted(journal + [p], number) <==> IsPosted(journal, number) || p.number == number
  {
    assert (journal + [p])[|journal|] == p;
    if IsPosted(journal, number) {
      var i :| 0 <= i < |journal| && journal[i].number == number;
      assert (journal + [p])[i].number == number;
    }
  }

  /** A call is committed iff the journal holds its entry under its number, and it holds it once. */
  ghost predicate Numbered(s: State) {
    && |s.calls| == s.sequence
    && (forall t | 0 <= t < |s.calls| :: s.calls[t].number == t + 1 && Balanced(s.calls[t].entry.legs))
    && (forall t | 0 <= t < |s.calls| :: s.calls[t].status.Committed? <==> IsPosted(s.journal, t + 1))
    && (forall i | 0 <= i < |s.journal| ::
          1 <= s.journal[i].number <= s.sequence && s.calls[s.journal[i].number - 1].entry == s.journal[i].entry)
    && (forall i, j | 0 <= i < j < |s.journal| :: s.journal[i].number != s.journal[j].number)
  }

  lemma CommitPosts(s: State, t: nat)
    requires Numbered(s) && t < |s.calls| && s.calls[t].status.Waiting?
    ensures var s' := Next(s, Commit(t));
            forall u | 0 <= u < |s'.calls| :: s'.calls[u].status.Committed? <==> IsPosted(s'.journal, u + 1)
  {
    var s' := Next(s, Commit(t));
    forall u | 0 <= u < |s'.calls| ensures s'.calls[u].status.Committed? <==> IsPosted(s'.journal, u + 1) {
      PostedAppend(s.journal, Posted(t + 1, s.calls[t].entry), u + 1);
    }
  }

  lemma CommitEntries(s: State, t: nat)
    requires Numbered(s) && t < |s.calls| && s.calls[t].status.Waiting?
    ensures var s' := Next(s, Commit(t));
            forall i | 0 <= i < |s'.journal| :: 1 <= s'.journal[i].number <= s'.sequence
              && s'.calls[s'.journal[i].number - 1].entry == s'.journal[i].entry
  {
    var s' := Next(s, Commit(t));
    assert forall i | 0 <= i < |s.journal| :: s'.journal[i] == s.journal[i];
    assert forall u | 0 <= u < |s.calls| :: s'.calls[u].entry == s.calls[u].entry;
  }

  lemma CommitNumbered(s: State, t: nat)
    requires Numbered(s) && t < |s.calls| && s.calls[t].status.Waiting?
    ensures Numbered(Next(s, Commit(t)))
  {
    CommitPosts(s, t);
    CommitEntries(s, t);
    assert !IsPosted(s.journal, t + 1);
    var s' := Next(s, Commit(t));
    assert forall i | 0 <= i < |s.journal| :: s'.journal[i] == s.journal[i];
  }

  lemma SubmitNumbered(s: State, entry: Entry)
    requires Numbered(s)
    ensures Numbered(Next(s, Submit(entry)))
  {
    assert !IsPosted(s.journal, s.sequence + 1);
  }

  /** Changing neither the journal nor which calls are committed. */
  lemma StillNumbered(s: State, s': State)
    requires Numbered(s)
    requires s'.journal == s.journal && s'.sequence == s.sequence && |s'.calls| == |s.calls|
    requires forall t | 0 <= t < |s.calls| ::
               s'.calls[t] == s.calls[t].(status := s'.calls[t].status, rest := s'.calls[t].rest)
    requires forall t | 0 <= t < |s.calls| :: s'.calls[t].status.Committed? <==> s.calls[t].status.Committed?
    ensures Numbered(s')
  {
  }

  lemma NextNumbered(s: State, e: Event)
    requires Numbered(s)
    ensures Numbered(Next(s, e))
  {
    match e
    case Submit(entry) => SubmitNumbered(s, entry);
    case Commit(t) => if t < |s.calls| && s.calls[t].status.Waiting? { CommitNumbered(s, t); }
    case Abort(t) => StillNumbered(s, Next(s, e));
    case Apply(t) => StillNumbered(s, Next(s, e));
  }

  lemma {:induction false} RunNumbered(s: State, es: seq<Event>)
    requires Numbered(s)
    ensures Numbered(Run(s, es))
    decreases |es|
  {
    if es != [] {
      NextNumbered(s, es[0]);
      RunNumbered(Next(s, es[0]), es[1..]);
    }
  }

  lemma {:induction false} BalancedJournal(journal: seq<Posted>, asset: Asset)
    requires forall i | 0 <= i < |journal| :: Balanced(journal[i].entry.legs)
    ensures SideTotal(AllLegs(journal), Debit, asset) == SideTotal(AllLegs(journal), Credit, asset)
  {
    if journal != [] {
      var front, legs := journal[..|journal| - 1], journal[|journal| - 1].entry.legs;
      BalancedJournal(front, asset);
      SideTotalConcat(AllLegs(front), legs, Debit, asset);
      SideTotalConcat(AllLegs(front), legs, Credit, asset);
    }
  }

  lemma PostedBalanced(s: State)
    requires Numbered(s)
    ensures forall i | 0 <= i < |s.journal| :: Balanced(s.journal[i].entry.legs)
  {
  }

  /** Conservation: in every run, no asset is created or destroyed over all the accounts, and every
      committed call is posted exactly once under its own number. */
  lemma Conservation(opening: map<Key, int>, es: seq<Event>, accounts: set<AccountId>, asset: Asset)
    requires Covers(accounts, AllLegs(Run(Start(opening), es).journal))
    ensures AccountsTotal(accounts, AllLegs(Run(Start(opening), es).journal), asset) == 0
    ensures Numbered(Run(Start(opening), es))
  {
    RunNumbered(Start(opening), es);
    var journal := Run(Start(opening), es).journal;
    PostedBalanced(Run(Start(opening), es));
    BalancedJournal(journal, asset);
    TotalIsNet(accounts, AllLegs(journal), asset);
  }

  // ---------------------------------------------------------------------------
  // A call that is not interleaved
  // ---------------------------------------------------------------------------

  /** The persistent state and the cache, without the bookkeeping of calls in flight. */
  datatype Books = Books(sequence: nat, journal: seq<Posted>, cache: map<Key, int>)

  ghost function Submitted(b: Books, entry: Entry, commits: bool): Books {
    if !Balanced(entry.legs) then b
    else if !commits then b.(sequence := b.sequence + 1)
    else Books(b.sequence + 1, b.journal + [Posted(b.sequence + 1, entry)], AppliedAll(b.cache, entry.legs))
  }

  function BooksOf(s: State): Books {
    Books(s.sequence, s.journal, s.cache)
  }

  function Applies(t: nat, n: nat): seq<Event> {
    seq(n, _ => Apply(t))
  }

  lemma {:induction false} ApplyAllLegs(s: State, t: nat)
    requires t < |s.calls|
    ensures var s' := Run(s, Applies(t, |s.calls[t].rest|));
            BooksOf(s') == BooksOf(s).(cache := AppliedAll(s.cache, s.calls[t].rest)) && |s'.calls| == |s.calls|
    decreases |s.calls[t].rest|
  {
    var n := |s.calls[t].rest|;
    if n > 0 {
      assert Applies(t, n)[1..] == Applies(t, n - 1);
      ApplyAllLegs(Next(s, Apply(t)), t);
    }
  }

  /** A whole call run on its own is one of the interleavings above. */
  lemma SerialIsARun(s: State, entry: Entry, commits: bool)
    requires Numbered(s) && Balanced(entry.legs)
    ensures exists es :: BooksOf(Run(s, es)) == Submitted(BooksOf(s), entry, commits)
  {
    var t := |s.calls|;
    var s1 := Next(s, Submit(entry));
    if commits {
      var s2 := Next(s1, Commit(t));
      ApplyAllLegs(s2, t);
      var es := [Submit(entry), Commit(t)] + Applies(t, |entry.legs|);
      assert es[1..][1..] == Applies(t, |entry.legs|);
      assert BooksOf(Run(s, es)) == Submitted(BooksOf(s), entry, commits);
    } else {
      var es := [Submit(entry), Abort(t)];
      assert es[1..][1..] == [];
      assert Run(s1, [Abort(t)]) == Run(Next(s1, Abort(t)), []);
      assert BooksOf(Run(s, es)) == Submitted(BooksOf(s), entry, commits);
    }
  }

  class Engine {
    const cache: BalanceCache
    var sequence: nat
    var journal: seq<Posted>

    ghost function Model(): Books
      reads this, cache
    {
      Books(sequence, journal, cache.inner)
    }

    constructor ()
      ensures fresh(cache) && Model() == Books(0, [], map[])
    {
      cache := new BalanceCache();
      sequence, journal := 0, [];
    }

    /** commits says whether the database accepts the transaction. */
    method Submit(entry: Entry, commits: bool) returns (r: Result<nat, FinError>)
      modifies this, cache
      ensures Model() == Submitted(old(Model()), entry, commits)
      ensures r.Ok? <==> Balanced(entry.legs) && commits
      ensures r.Ok? ==> r.value == sequence
      ensures Balanced(entry.legs) && !commits ==> r == Err(Database)
      ensures !Balanced(entry.legs) ==> r.Err? && r.error.LedgerUnbalanced?
    {
      var valid := Validate(entry.legs);
      if valid.Err? { return Err(valid.error); }
      sequence := sequence + 1;
      if !commits { return Err(Database); }
      journal := journal + [Posted(sequence, entry)];
      ghost var before := cache.inner;
      for i := 0 to |entry.legs|
        modifies cache
        invariant AppliedAll(cache.inner, entry.legs[i..]) == AppliedAll(before, entry.legs)
      {
        var leg := entry.legs[i];
        ghost var was := cache.inner;
        var _ := cache.ApplyDelta(KeyOf(leg), Signed(leg));
        assert cache.inner == Applied(was, leg);
        assert entry.legs[i..][1..] == entry.legs[i + 1..];
      }
      return Ok(sequence);
    }
  }
}
