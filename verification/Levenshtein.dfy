/** The edit distance of the site assistant: a table filled row by row, proved to be the cost of the
    cheapest edit script, and from there a metric. */
module Levenshtein {
  import opened Basics

  // ---------------------------------------------------------------------------
  // Edit scripts
  // ---------------------------------------------------------------------------

  datatype Edit = Keep(c: char) | Substitute(from: char, to: char) | Delete(c: char) | Insert(c: char)

  type Script = seq<Edit>

  function Consumed(e: Edit): string {
    match e
    case Keep(c) => [c]
    case Substitute(from, _) => [from]
    case Delete(c) => [c]
    case Insert(_) => ""
  }

  function Produced(e: Edit): string {
    match e
    case Keep(c) => [c]
    case Substitute(_, to) => [to]
    case Delete(_) => ""
    case Insert(c) => [c]
  }

  function Source(s: Script): string {
    if s == [] then "" else Source(s[..|s| - 1]) + Consumed(s[|s| - 1])
  }

  function Target(s: Script): string {
    if s == [] then "" else Target(s[..|s| - 1]) + Produced(s[|s| - 1])
  }

  function Cost(s: Script): nat {
    if s == [] then 0 else Cost(s[..|s| - 1]) + if s[|s| - 1].Keep? then 0 else 1
  }

  predicate Turns(s: Script, a: string, b: string) {
    Source(s) == a && Target(s) == b
  }

  lemma Snoc(s: Script, e: Edit)
    ensures Source(s + [e]) == Source(s) + Consumed(e)
    ensures Target(s + [e]) == Target(s) + Produced(e)
    ensures Cost(s + [e]) == Cost(s) + if e.Keep? then 0 else 1
  {
    assert (s + [e])[..|s|] == s;
  }

  // ---------------------------------------------------------------------------
  // The recurrence
  // ---------------------------------------------------------------------------

  function Front(s: string): string
    requires s != ""
  {
    s[..|s| - 1]
  }

  function Last(s: string): char
    requires s != ""
  {
    s[|s| - 1]
  }

  function Distance(a: string, b: string): nat
    decreases |a| + |b|
  {
    if a == "" then |b|
    else if b == "" then |a|
    else if Last(a) == Last(b) then Distance(Front(a), Front(b))
    else 1 + Min(Min(Distance(Front(a), b), Distance(a, Front(b))), Distance(Front(a), Front(b)))
  }

  lemma {:induction false} Symmetric(a: string, b: string)
    ensures Distance(a, b) == Distance(b, a)
    decreases |a| + |b|
  {
    if a != "" && b != "" {
      Symmetric(Front(a), Front(b));
      Symmetric(Front(a), b);
      Symmetric(a, Front(b));
    }
  }

  /** One more character at the end of b changes the distance by at most one. */
  lemma {:induction false} OneCharacter(a: string, b: string)
    requires b != ""
    ensures Distance(a, b) <= Distance(a, Front(b)) + 1
    ensures Distance(a, Front(b)) <= Distance(a, b) + 1
    decreases |a| + |b|
  {
    if a != "" {
      Symmetric(a, Front(b));
      Symmetric(Front(a), Front(b));
      OneCharacter(Front(b), a);
      OneCharacter(Front(a), b);
    }
  }

  // ---------------------------------------------------------------------------
  // The distance is the cost of the cheapest script
  // ---------------------------------------------------------------------------

  /** The last edit of a cheapest script, and what is left for the ones before it. */
  lemma LastEdit(a: string, b: string) returns (a': string, b': string, e: Edit)
    requires a != "" || b != ""
    ensures a == a' + Consumed(e) && b == b' + Produced(e)
    ensures Distance(a, b) == Distance(a', b') + if e.Keep? then 0 else 1
  {
    if a != "" { assert a == Front(a) + [Last(a)]; }
    if b != "" { assert b == Front(b) + [Last(b)]; }
    if a == "" {
      a', b', e := a, Front(b), Insert(Last(b));
    } else if b == "" {
      a', b', e := Front(a), b, Delete(Last(a));
    } else if Last(a) == Last(b) {
      a', b', e := Front(a), Front(b), Keep(Last(a));
    } else if Distance(a, b) == 1 + Distance(Front(a), b) {
      a', b', e := Front(a), b, Delete(Last(a));
    } else if Distance(a, b) == 1 + Distance(a, Front(b)) {
      a', b', e := a, Front(b), Insert(Last(b));
    } else {
      a', b', e := Front(a), Front(b), Substitute(Last(a), Last(b));
    }
  }

  /** There is a script of that cost. */
  lemma {:induction false} Achieved(a: string, b: string) returns (s: Script)
    ensures Turns(s, a, b) && Cost(s) == Distance(a, b)
    decreases |a| + |b|
  {
    s := [];
    if a != "" || b != "" {
      var a', b', e := LastEdit(a, b);
      assert |Consumed(e)| + |Produced(e)| > 0;
      var front := Achieved(a', b');
      s := front + [e];
      Snoc(front, e);
    }
  }

  /** And no script is cheaper. */
  lemma {:induction false} Cheapest(s: Script)
    ensures Cost(s) >= Distance(Source(s), Target(s))
  {
    if s != [] {
      var front, e := s[..|s| - 1], s[|s| - 1];
      Cheapest(front);
      EditIsWorthIt(Source(front), Target(front), e);
    }
  }

  lemma EditIsWorthIt(a: string, b: string, e: Edit)
    ensures Distance(a + Consumed(e), b + Produced(e)) <= Distance(a, b) + if e.Keep? then 0 else 1
  {
    var a', b' := a + Consumed(e), b + Produced(e);
    if Consumed(e) != "" { assert Front(a') == a; } else { assert a' == a; }
    if Produced(e) != "" { assert Front(b') == b; } else { assert b' == b; }
    match e
    case Keep(_) =>
    case Substitute(_, _) =>
    case Insert(_) => OneCharacter(a, b');
    case Delete(_) =>
      OneCharacter(b, a');
      Symmetric(a', b);
      Symmetric(a, b);
  }

  /** The two together: the distance is the least cost over all scripts from a to b. */
  lemma DistanceIsLeastCost(a: string, b: string)
    ensures exists s: Script :: Turns(s, a, b) && Cost(s) == Distance(a, b)
    ensures forall s: Script | Turns(s, a, b) :: Distance(a, b) <= Cost(s)
  {
    var s := Achieved(a, b);
    forall s: Script | Turns(s, a, b) ensures Distance(a, b) <= Cost(s) {
      Cheapest(s);
    }
  }

  // ---------------------------------------------------------------------------
  // A metric
  // ---------------------------------------------------------------------------

  lemma {:induction false} FreeScriptKeeps(s: Script)
    requires Cost(s) == 0
    ensures Source(s) == Target(s)
  {
    if s != [] { FreeScriptKeeps(s[..|s| - 1]); }
  }

  lemma {:induction false} SelfIsZero(a: string)
    ensures Distance(a, a) == 0
  {
    if a != "" { SelfIsZero(Front(a)); }
  }

  lemma ZeroIffEqual(a: string, b: string)
    ensures Distance(a, b) == 0 <==> a == b
  {
    var s := Achieved(a, b);
    if Cost(s) == 0 { FreeScriptKeeps(s); }
    SelfIsZero(a);
  }

  /** The edit that does what one edit and then another do to the same character; nothing if the first
      inserts what the second deletes. */
  function Fused(e: Edit, f: Edit): Script {
    match (e, f)
    case (Insert(_), Delete(_)) => []
    case (Insert(_), Substitute(_, to)) => [Insert(to)]
    case (Insert(c), _) => [Insert(c)]
    case (Substitute(from, _), Delete(_)) => [Delete(from)]
    case (Substitute(from, _), Substitute(_, to)) => [Substitute(from, to)]
    case (Substitute(_, _), _) => [e]
    case (_, _) => [f]
  }

  lemma FusedMeans(e: Edit, f: Edit)
    requires |Produced(e)| == 1 && Produced(e) == Consumed(f)
    ensures |Fused(e, f)| <= 1 && Turns(Fused(e, f), Consumed(e), Produced(f))
    ensures Cost(Fused(e, f)) <= Cost([e]) + Cost([f])
  {
    Alone(e);
    Alone(f);
    if Fused(e, f) != [] { Alone(Fused(e, f)[0]); }
  }

  lemma Alone(e: Edit)
    ensures Turns([e], Consumed(e), Produced(e)) && Cost([e]) == if e.Keep? then 0 else 1
  {
    Snoc([], e);
    assert [] + [e] == [e];
  }

  lemma AppendShort(s: Script, t: Script)
    requires |t| <= 1
    ensures Turns(s + t, Source(s) + Source(t), Target(s) + Target(t)) && Cost(s + t) == Cost(s) + Cost(t)
  {
    if t == [] {
      assert s + t == s;
    } else {
      assert t == [t[0]];
      Alone(t[0]);
      Snoc(s, t[0]);
    }
  }

  /** A script is its front and its last edit. */
  lemma LastOf(s: Script)
    requires s != []
    ensures var front, e := s[..|s| - 1], s[|s| - 1];
            Turns(s, Source(front) + Consumed(e), Target(front) + Produced(e)) && Cost(s) == Cost(front) + Cost([e])
  {
    Alone(s[|s| - 1]);
  }

  /** Two scripts in a row can be done by one that costs no more. */
  lemma {:induction false} Compose(s: Script, t: Script) returns (u: Script)
    requires Target(s) == Source(t)
    ensures Turns(u, Source(s), Target(t)) && Cost(u) <= Cost(s) + Cost(t)
    decreases |s| + |t|
  {
    if s != [] && s[|s| - 1].Delete? {
      var e := s[|s| - 1];
      var front := Compose(s[..|s| - 1], t);
      Snoc(front, e);
      u := front + [e];
    } else if t != [] && t[|t| - 1].Insert? {
      var f := t[|t| - 1];
      var front := Compose(s, t[..|t| - 1]);
      Snoc(front, f);
      u := front + [f];
    } else if s == [] || t == [] {
      u := [];
    } else {
      u := ComposeLasts(s, t);
    }
  }

  /** The last edits meet on one character, which the first produces and the second consumes. */
  lemma {:induction false} ComposeLasts(s: Script, t: Script) returns (u: Script)
    requires s != [] && t != [] && Target(s) == Source(t)
    requires |Produced(s[|s| - 1])| == 1 && |Consumed(t[|t| - 1])| == 1
    ensures Turns(u, Source(s), Target(t)) && Cost(u) <= Cost(s) + Cost(t)
    decreases |s| + |t|, 0
  {
    var s', e, t', f := s[..|s| - 1], s[|s| - 1], t[..|t| - 1], t[|t| - 1];
    LastOf(s);
    LastOf(t);
    LastsMeet(Target(s'), Produced(e), Source(t'), Consumed(f));
    var front := Compose(s', t');
    FusedMeans(e, f);
    AppendShort(front, Fused(e, f));
    u := front + Fused(e, f);
  }

  lemma LastsMeet(a: string, x: string, b: string, y: string)
    requires |x| == |y| == 1 && a + x == b + y
    ensures a == b && x == y
  {
    assert (a + x)[..|a|] == a && (b + y)[..|b|] == b;
    assert (a + x)[|a|..] == x && (b + y)[|b|..] == y;
  }

  lemma TriangleInequality(a: string, b: string, c: string)
    ensures Distance(a, c) <= Distance(a, b) + Distance(b, c)
  {
    var s := Achieved(a, b);
    var t := Achieved(b, c);
    var u := Compose(s, t);
    Cheapest(u);
  }

  // ---------------------------------------------------------------------------
  // The table
  // ---------------------------------------------------------------------------

  lemma Cell(a: string, b: string, i: nat, j: nat)
    requires 1 <= i <= |a| && 1 <= j <= |b|
    ensures Distance(a[..i], b[..j]) ==
              if a[i - 1] == b[j - 1] then Distance(a[..i - 1], b[..j - 1])
              else 1 + Min(Min(Distance(a[..i - 1], b[..j]), Distance(a[..i], b[..j - 1])), Distance(a[..i - 1], b[..j - 1]))
  {
    assert Front(a[..i]) == a[..i - 1] && Front(b[..j]) == b[..j - 1];
  }

  type Table = seq<seq<nat>>

  predicate Shaped(a: string, b: string, t: Table) {
    |t| == |a| + 1 && forall i | 0 <= i <= |a| :: |t[i]| == |b| + 1
  }

  /** What an entry is, given its neighbours. */
  predicate Recurs(a: string, b: string, t: Table, i: nat, j: nat)
    requires Shaped(a, b, t) && i <= |a| && j <= |b|
  {
    t[i][j] == if i == 0 then j
               else if j == 0 then i
               else if a[i - 1] == b[j - 1] then t[i - 1][j - 1]
               else 1 + Min(Min(t[i - 1][j], t[i][j - 1]), t[i - 1][j - 1])
  }

  predicate IsTable(a: string, b: string, t: Table) {
    Shaped(a, b, t) && forall i, j | 0 <= i <= |a| && 0 <= j <= |b| :: Recurs(a, b, t, i, j)
  }

  /** The distances of all pairs of prefixes form such a table. */
  lemma DistanceTable(a: string, b: string) returns (t: Table)
    ensures IsTable(a, b, t) && t[|a|][|b|] == Distance(a, b)
  {
    t := seq(|a| + 1, i requires 0 <= i <= |a| =>
           seq(|b| + 1, j requires 0 <= j <= |b| => Distance(a[..i], b[..j])));
    forall i, j | 0 <= i <= |a| && 0 <= j <= |b| ensures Recurs(a, b, t, i, j) {
      if i > 0 && j > 0 { Cell(a, b, i, j); }
    }
    assert a[..|a|] == a && b[..|b|] == b;
  }

  method Compute(a: string, b: string) returns (r: nat)
    ensures r == Distance(a, b)
  {
    ghost var t := DistanceTable(a, b);
    var m, n := |a|, |b|;
    var dp := new nat[m + 1, n + 1]((_, _) => 0);
    for i := 0 to m + 1
      invariant forall k | 0 <= k < i :: dp[k, 0] == t[k][0]
    {
      dp[i, 0] := i;
      assert Recurs(a, b, t, i, 0);
    }
    for j := 0 to n + 1
      invariant forall k | 0 <= k <= m :: dp[k, 0] == t[k][0]
      invariant forall l | 0 <= l < j :: dp[0, l] == t[0][l]
    {
      dp[0, j] := j;
      assert Recurs(a, b, t, 0, j);
    }
    for i := 1 to m + 1
      invariant forall k | 0 <= k <= m :: dp[k, 0] == t[k][0]
      invariant forall k, l | 0 <= k < i && 0 <= l <= n :: dp[k, l] == t[k][l]
    {
      for j := 1 to n + 1
        invariant forall k | 0 <= k <= m :: dp[k, 0] == t[k][0]
        invariant forall k, l | 0 <= k < i && 0 <= l <= n :: dp[k, l] == t[k][l]
        invariant forall l | 0 <= l < j :: dp[i, l] == t[i][l]
      {
        assert Recurs(a, b, t, i, j);
        dp[i, j] := if a[i - 1] == b[j - 1] then dp[i - 1, j - 1]
                    else 1 + Min(Min(dp[i - 1, j], dp[i, j - 1]), dp[i - 1, j - 1]);
      }
    }
    r := dp[m, n];
  }
}
