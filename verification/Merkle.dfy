/** The Merkle root of a receipt batch: a level-by-level loop that promotes an odd last node,
    related to the recursive tree it computes and to the binding property the stored root is used for.
    The hash is a parameter: nothing below depends on which function it is. */
module Merkle {
  import opened Basics

  type HashFunction = string -> string

  // ---------------------------------------------------------------------------
  // Powers of two
  // ---------------------------------------------------------------------------

  /** The exponent of the largest power of two strictly below n. */
  function SplitExponent(n: nat): (e: nat)
    requires n >= 2
    ensures Pow2(e) < n <= 2 * Pow2(e)
  {
    if n == 2 then 0 else 1 + SplitExponent((n + 1) / 2)
  }

  function SplitPoint(n: nat): (k: nat)
    requires n >= 2
    ensures 1 <= k < n <= 2 * k
  {
    Pow2(SplitExponent(n))
  }

  /** The number of halvings (rounding up) that take n to one. */
  function CeilLog2(n: nat): (r: nat)
    requires n >= 1
    ensures n <= Pow2(r)
    ensures r > 0 ==> Pow2(r - 1) < n
  {
    if n == 1 then 0 else 1 + CeilLog2((n + 1) / 2)
  }

  lemma {:induction false} Pow2Monotone(a: nat, b: nat)
    requires a <= b
    ensures Pow2(a) <= Pow2(b)
  {
    if a < b { Pow2Monotone(a, b - 1); }
  }

  /** SplitPoint is the largest power of two below n. */
  lemma SplitPointIsLargest(n: nat, e: nat)
    requires n >= 2
    ensures Pow2(e) < n <==> Pow2(e) <= SplitPoint(n)
  {
    var top := SplitExponent(n);
    if e <= top { Pow2Monotone(e, top); } else { Pow2Monotone(top + 1, e); }
  }

  // ---------------------------------------------------------------------------
  // The tree and the rounds
  // ---------------------------------------------------------------------------

  /** The recursive tree: split at the largest power of two below the number of leaves. */
  function TreeRoot(h: HashFunction, leaves: seq<string>): string
    requires leaves != []
  {
    if |leaves| == 1 then leaves[0]
    else
      var k := SplitPoint(|leaves|);
      h(TreeRoot(h, leaves[..k]) + TreeRoot(h, leaves[k..]))
  }

  /** The root of a batch; the empty batch has the hash of the empty string. */
  function Root(h: HashFunction, leaves: seq<string>): string {
    if leaves == [] then h("") else TreeRoot(h, leaves)
  }

  /** The strings hashed at the inner nodes of the tree. */
  function Inputs(h: HashFunction, leaves: seq<string>): set<string>
    requires leaves != []
  {
    if |leaves| == 1 then {}
    else
      var k := SplitPoint(|leaves|);
      {TreeRoot(h, leaves[..k]) + TreeRoot(h, leaves[k..])} + Inputs(h, leaves[..k]) + Inputs(h, leaves[k..])
  }

  /** One round of the loop: hash neighbours, promote an odd last node. */
  function Round(h: HashFunction, level: seq<string>): (next: seq<string>)
    ensures |next| == (|level| + 1) / 2
  {
    if |level| <= 1 then level
    else [h(level[0] + level[1])] + Round(h, level[2..])
  }

  /** The strings that one round hashes. */
  function RoundInputs(level: seq<string>): set<string> {
    if |level| <= 1 then {} else {level[0] + level[1]} + RoundInputs(level[2..])
  }

  lemma RoundInputsOfPair(x: string, y: string, rest: seq<string>)
    ensures RoundInputs([x, y] + rest) == {x + y} + RoundInputs(rest)
  {
    assert ([x, y] + rest)[2..] == rest;
  }

  lemma {:induction false} RoundInputsConcat(a: seq<string>, b: seq<string>, half: nat)
    requires |a| == 2 * half
    ensures RoundInputs(a + b) == RoundInputs(a) + RoundInputs(b)
  {
    if a == [] {
      assert a + b == b;
    } else {
      var rest := a[2..];
      assert a == [a[0], a[1]] + rest;
      assert a + b == [a[0], a[1]] + (rest + b);
      RoundInputsConcat(rest, b, half - 1);
      RoundInputsOfPair(a[0], a[1], rest);
      RoundInputsOfPair(a[0], a[1], rest + b);
    }
  }

  lemma RoundOfPair(h: HashFunction, x: string, y: string, rest: seq<string>)
    ensures Round(h, [x, y] + rest) == [h(x + y)] + Round(h, rest)
  {
    assert ([x, y] + rest)[2..] == rest;
  }

  lemma {:induction false} RoundConcat(h: HashFunction, a: seq<string>, b: seq<string>, half: nat)
    requires |a| == 2 * half
    ensures Round(h, a + b) == Round(h, a) + Round(h, b)
  {
    if a == [] {
      assert a + b == b;
    } else {
      var rest := a[2..];
      assert a == [a[0], a[1]] + rest;
      assert a + b == [a[0], a[1]] + (rest + b);
      RoundConcat(h, rest, b, half - 1);
      RoundOfPair(h, a[0], a[1], rest);
      RoundOfPair(h, a[0], a[1], rest + b);
    }
  }

  lemma SplitPointHalves(n: nat)
    requires n >= 3
    ensures SplitPoint(n) == 2 * SplitPoint((n + 1) / 2)
  {
  }

  lemma HalfSplit(n: nat) returns (m: nat)
    requires n >= 3
    ensures m == SplitPoint((n + 1) / 2) && SplitPoint(n) == 2 * m
    ensures 1 <= m && 2 * m <= n
  {
    SplitPointHalves(n);
    m := SplitPoint((n + 1) / 2);
  }

  lemma Halves<T>(s: seq<T>, a: seq<T>, b: seq<T>, k: nat)
    requires s == a + b && k == |a|
    ensures s[..k] == a && s[k..] == b
  {
  }

  /** A round works on an even front and on the rest separately; where the tree of more than two nodes splits
      is such a place, and the tree of the round's result splits at its half. */
  lemma RoundSplitsAt(h: HashFunction, level: seq<string>, m: nat)
    requires 2 * m <= |level|
    ensures m <= |Round(h, level)|
    ensures Round(h, level)[..m] == Round(h, level[..2 * m]) && Round(h, level)[m..] == Round(h, level[2 * m..])
    ensures RoundInputs(level) == RoundInputs(level[..2 * m]) + RoundInputs(level[2 * m..])
  {
    var left, right := level[..2 * m], level[2 * m..];
    assert level == left + right;
    RoundConcat(h, left, right, m);
    RoundInputsConcat(left, right, m);
    Halves(Round(h, level), Round(h, left), Round(h, right), m);
  }

  lemma TwoLeaves(h: HashFunction, level: seq<string>)
    requires |level| == 2
    ensures Round(h, level) == [h(level[0] + level[1])] && TreeRoot(h, level) == h(level[0] + level[1])
    ensures RoundInputs(level) == Inputs(h, level) == {level[0] + level[1]}
  {
    assert level[..1] == [level[0]] && level[1..] == [level[1]] && level[2..] == [];
  }

  /** The tree over a list that splits into two others. */
  lemma TreeSplits(h: HashFunction, leaves: seq<string>, a: seq<string>, b: seq<string>)
    requires |leaves| >= 2 && leaves[..SplitPoint(|leaves|)] == a && leaves[SplitPoint(|leaves|)..] == b
    ensures a != [] && b != [] && TreeRoot(h, leaves) == h(TreeRoot(h, a) + TreeRoot(h, b))
    ensures Inputs(h, leaves) == {TreeRoot(h, a) + TreeRoot(h, b)} + Inputs(h, a) + Inputs(h, b)
  {
  }

  /** left and right are the subtrees of a tree over more than two nodes, and the round keeps them apart. */
  ghost predicate AreSubtrees(h: HashFunction, level: seq<string>, left: seq<string>, right: seq<string>)
    requires level != [] && left != [] && right != []
  {
    && |left| < |level| && |right| < |level|
    && TreeRoot(h, level) == h(TreeRoot(h, left) + TreeRoot(h, right))
    && TreeRoot(h, Round(h, level)) == h(TreeRoot(h, Round(h, left)) + TreeRoot(h, Round(h, right)))
    && RoundInputs(level) == RoundInputs(left) + RoundInputs(right)
    && Inputs(h, level) == {TreeRoot(h, left) + TreeRoot(h, right)} + Inputs(h, left) + Inputs(h, right)
    && Inputs(h, Round(h, level)) == {TreeRoot(h, Round(h, left)) + TreeRoot(h, Round(h, right))}
                                     + Inputs(h, Round(h, left)) + Inputs(h, Round(h, right))
  }

  lemma Subtrees(h: HashFunction, level: seq<string>) returns (left: seq<string>, right: seq<string>)
    requires |level| >= 3
    ensures |left| >= 2 && |right| >= 1 && AreSubtrees(h, level, left, right)
  {
    var m := HalfSplit(|level|);
    left, right := level[..2 * m], level[2 * m..];
    RoundSplitsAt(h, level, m);
    TreeSplits(h, level, left, right);
    var round, first, second := Round(h, level), Round(h, left), Round(h, right);
    assert |round| == (|level| + 1) / 2 && SplitPoint(|round|) == m;
    assert round[..m] == first && round[m..] == second;
    TreeSplits(h, round, first, second);
  }

  /** A round of the loop leaves the root of the tree unchanged. */
  lemma {:induction false} RoundKeepsRoot(h: HashFunction, level: seq<string>)
    requires |level| >= 2
    ensures TreeRoot(h, Round(h, level)) == TreeRoot(h, level)
    decreases |level|
  {
    if |level| == 2 {
      TwoLeaves(h, level);
    } else {
      var left, right := Subtrees(h, level);
      RoundKeepsRoot(h, left);
      if |right| > 1 { RoundKeepsRoot(h, right); }
    }
  }

  /** And what the tree hashes is what that round hashes and what the tree above it hashes. */
  lemma {:induction false} RoundKeepsInputs(h: HashFunction, level: seq<string>)
    requires |level| >= 2
    ensures Inputs(h, level) == RoundInputs(level) + Inputs(h, Round(h, level))
    decreases |level|
  {
    if |level| == 2 {
      TwoLeaves(h, level);
    } else {
      var left, right := Subtrees(h, level);
      HalfKept(h, left);
      HalfKept(h, right);
      RoundKeepsInputs(h, left);
      if |right| > 1 { RoundKeepsInputs(h, right); }
    }
  }

  lemma HalfKept(h: HashFunction, half: seq<string>)
    requires half != []
    ensures TreeRoot(h, Round(h, half)) == TreeRoot(h, half)
    ensures |half| == 1 ==> RoundInputs(half) == Inputs(h, half) == Inputs(h, Round(h, half)) == {}
  {
    if |half| > 1 { RoundKeepsRoot(h, half); }
  }

  lemma NextPair(h: HashFunction, level: seq<string>, i: nat)
    requires i + 1 < |level|
    ensures Round(h, level[i..]) == [h(level[i] + level[i + 1])] + Round(h, level[i + 2..])
    ensures RoundInputs(level[i..]) == {level[i] + level[i + 1]} + RoundInputs(level[i + 2..])
  {
    assert level[i..] == [level[i], level[i + 1]] + level[i + 2..];
    RoundOfPair(h, level[i], level[i + 1], level[i + 2..]);
    RoundInputsOfPair(level[i], level[i + 1], level[i + 2..]);
  }

  lemma LastNode(h: HashFunction, level: seq<string>)
    requires level != []
    ensures Round(h, level[|level| - 1..]) == [level[|level| - 1]] && RoundInputs(level[|level| - 1..]) == {}
  {
  }

  /** The inner loop: one pass over a level, two nodes at a time. */
  method HashLevel(h: HashFunction, level: seq<string>) returns (next: seq<string>, ghost hashed: set<string>)
    ensures next == Round(h, level) && hashed == RoundInputs(level)
  {
    next, hashed := [], {};
    var i := 0;
    while i < |level|
      invariant 0 <= i <= |level| + 1
      invariant i <= |level| ==> next + Round(h, level[i..]) == Round(h, level)
      invariant i <= |level| ==> hashed + RoundInputs(level[i..]) == RoundInputs(level)
      invariant i > |level| ==> next == Round(h, level) && hashed == RoundInputs(level)
    {
      if i + 1 < |level| {
        NextPair(h, level, i);
        hashed := hashed + {level[i] + level[i + 1]};
        next := next + [h(level[i] + level[i + 1])];
      } else {
        LastNode(h, level);
        next := next + [level[i]];
      }
      i := i + 2;
    }
  }

  /** The outer loop. It returns the root of the tree, after exactly ceil(log2 n) rounds that hash exactly the
      inputs of the inner nodes; an empty batch takes none. */
  method ComputeMerkleRoot(h: HashFunction, leaves: seq<string>)
    returns (root: string, ghost rounds: nat, ghost hashed: set<string>)
    ensures root == Root(h, leaves)
    ensures leaves == [] ==> root == h("")
    ensures rounds == if leaves == [] then 0 else CeilLog2(|leaves|)
    ensures hashed == if leaves == [] then {""} else Inputs(h, leaves)
  {
    rounds, hashed := 0, {};
    if |leaves| == 0 { return h(""), 0, {""}; }
    if |leaves| == 1 { return leaves[0], 0, {}; }
    var level := leaves;
    while |level| > 1
      invariant level != []
      invariant TreeRoot(h, level) == TreeRoot(h, leaves)
      invariant hashed + Inputs(h, level) == Inputs(h, leaves)
      invariant rounds + CeilLog2(|level|) == CeilLog2(|leaves|)
      decreases |level|
    {
      RoundKeepsRoot(h, level);
      RoundKeepsInputs(h, level);
      ghost var inputs;
      level, inputs := HashLevel(h, level);
      hashed := hashed + inputs;
      rounds := rounds + 1;
    }
    root := level[0];
  }

  // ---------------------------------------------------------------------------
  // Inclusion
  // ---------------------------------------------------------------------------

  /** A step of an audit path: the digest beside the node, and on which side it stands. */
  datatype Sibling = OnLeft(digest: string) | OnRight(digest: string)

  /** The siblings of a place, from its leaf up to the root. */
  function AuditPath(h: HashFunction, leaves: seq<string>, i: nat): seq<Sibling>
    requires i < |leaves|
    decreases |leaves|
  {
    if |leaves| == 1 then []
    else
      var k := SplitPoint(|leaves|);
      if i < k then AuditPath(h, leaves[..k], i) + [OnRight(TreeRoot(h, leaves[k..]))]
      else AuditPath(h, leaves[k..], i - k) + [OnLeft(TreeRoot(h, leaves[..k]))]
  }

  /** Hashing upwards along a path. */
  function Climb(h: HashFunction, digest: string, path: seq<Sibling>): string {
    if path == [] then digest
    else
      var below, last := Climb(h, digest, path[..|path| - 1]), path[|path| - 1];
      if last.OnLeft? then h(last.digest + below) else h(below + last.digest)
  }

  lemma ClimbOne(h: HashFunction, digest: string, path: seq<Sibling>, last: Sibling)
    ensures Climb(h, digest, path + [last])
         == if last.OnLeft? then h(last.digest + Climb(h, digest, path)) else h(Climb(h, digest, path) + last.digest)
  {
    assert (path + [last])[..|path|] == path;
  }

  /** The audit path of a place leads from its leaf to the root. */
  lemma {:induction false} Inclusion(h: HashFunction, leaves: seq<string>, i: nat)
    requires i < |leaves|
    ensures Climb(h, leaves[i], AuditPath(h, leaves, i)) == TreeRoot(h, leaves)
    decreases |leaves|
  {
    if |leaves| > 1 {
      var k := SplitPoint(|leaves|);
      var left, right := leaves[..k], leaves[k..];
      if i < k {
        Inclusion(h, left, i);
        ClimbOne(h, leaves[i], AuditPath(h, left, i), OnRight(TreeRoot(h, right)));
      } else {
        Inclusion(h, right, i - k);
        ClimbOne(h, leaves[i], AuditPath(h, right, i - k), OnLeft(TreeRoot(h, left)));
      }
    }
  }

  // ---------------------------------------------------------------------------
  // Binding
  // ---------------------------------------------------------------------------

  /** Every output of h is a digest of d characters (128 for a hexadecimal SHA-512 digest). */
  ghost predicate FixedDigest(h: HashFunction, d: nat) {
    forall x :: |h(x)| == d
  }

  predicate AllDigests(leaves: seq<string>, d: nat) {
    forall i | 0 <= i < |leaves| :: |leaves[i]| == d
  }

  lemma RootIsDigest(h: HashFunction, leaves: seq<string>, d: nat)
    requires FixedDigest(h, d) && AllDigests(leaves, d) && leaves != []
    ensures |TreeRoot(h, leaves)| == d
  {
  }

  /** Walks down two trees of the same shape and equal roots to an inner node of each whose two inputs
      differ and hash alike. */
  ghost function FindCollision(h: HashFunction, a: seq<string>, b: seq<string>, d: nat): (c: (string, string))
    requires |a| == |b| > 0 && a != b
    requires FixedDigest(h, d) && AllDigests(a, d) && AllDigests(b, d)
    requires TreeRoot(h, a) == TreeRoot(h, b)
    ensures c.0 in Inputs(h, a) && c.1 in Inputs(h, b)
    ensures c.0 != c.1 && h(c.0) == h(c.1)
    decreases |a|
  {
    assert |a| > 1;
    var k := SplitPoint(|a|);
    assert a == a[..k] + a[k..] && b == b[..k] + b[k..];
    var x := TreeRoot(h, a[..k]) + TreeRoot(h, a[k..]);
    var y := TreeRoot(h, b[..k]) + TreeRoot(h, b[k..]);
    if x != y then (x, y)
    else
      assert TreeRoot(h, a[..k]) == TreeRoot(h, b[..k]) && TreeRoot(h, a[k..]) == TreeRoot(h, b[k..]) by {
        RootIsDigest(h, a[..k], d);
        RootIsDigest(h, b[..k], d);
        assert x[..d] == y[..d] && x[d..] == y[d..];
      }
      if a[..k] != b[..k] then FindCollision(h, a[..k], b[..k], d)
      else FindCollision(h, a[k..], b[k..], d)
  }

  /** The leaf digests of a list of receipt identifiers. */
  function LeafDigests(h: HashFunction, ids: seq<string>): seq<string> {
    seq(|ids|, i requires 0 <= i < |ids| => h(ids[i]))
  }

  /** Everything that flushing a batch hashes: its identifiers, and the inputs of the inner nodes. */
  function Hashed(h: HashFunction, ids: seq<string>): set<string> {
    (set id | id in ids) + if ids == [] then {} else Inputs(h, LeafDigests(h, ids))
  }

  /** The stored pair (root, item_count) binds the receipt identifiers of a batch and their order: two batches
      that agree on the pair are the same batch, or something hashed for one collides with something else
      hashed for the other. */
  lemma RootBindsBatch(h: HashFunction, d: nat, ids: seq<string>, ids': seq<string>) returns (x: string, y: string)
    requires FixedDigest(h, d)
    requires |ids| == |ids'|
    requires Root(h, LeafDigests(h, ids)) == Root(h, LeafDigests(h, ids'))
    ensures ids == ids' || (x in Hashed(h, ids) && y in Hashed(h, ids') && x != y && h(x) == h(y))
  {
    x, y := "", "";
    var a, b := LeafDigests(h, ids), LeafDigests(h, ids');
    if a != b {
      var c := FindCollision(h, a, b, d);
      x, y := c.0, c.1;
    } else if i :| 0 <= i < |ids| && ids[i] != ids'[i] {
      assert a[i] == b[i];
      x, y := ids[i], ids'[i];
    }
  }

  predicate InjectiveOn(h: HashFunction, inputs: set<string>) {
    forall x, y | x in inputs && y in inputs && h(x) == h(y) :: x == y
  }

  /** So a hash that does not collide on the finitely many strings the two flushes hash tells the batches apart. */
  lemma RootDeterminesBatch(h: HashFunction, d: nat, ids: seq<string>, ids': seq<string>)
    requires FixedDigest(h, d) && InjectiveOn(h, Hashed(h, ids) + Hashed(h, ids'))
    ensures |ids| == |ids'| && Root(h, LeafDigests(h, ids)) == Root(h, LeafDigests(h, ids')) <==> ids == ids'
  {
    if |ids| == |ids'| && Root(h, LeafDigests(h, ids)) == Root(h, LeafDigests(h, ids')) {
      var x, y := RootBindsBatch(h, d, ids, ids');
    }
  }

  /** Why item_count is stored beside the root: whatever the hash, every list of two or more leaves
      shares its root with a strictly shorter list. */
  lemma CountIsNeeded(h: HashFunction, leaves: seq<string>)
    requires |leaves| >= 2
    ensures exists shorter: seq<string> ::
              0 < |shorter| < |leaves| && Root(h, shorter) == Root(h, leaves)
  {
    RoundKeepsRoot(h, leaves);
    assert 0 < |Round(h, leaves)| < |leaves|;
  }
}
