/** Paid routes: compiling a pattern, matching a pathname and putting the parameters back. Patterns are
    literal characters, none of them special in a regular expression, and :name parameters that end a path
    segment; each becomes the group ([^/]+). */
module Routes {
  import opened Basics
  import opened Wrappers

  datatype Token = Literal(c: char) | Param(name: string)

  // ---------------------------------------------------------------------------
  // Patterns
  // ---------------------------------------------------------------------------

  predicate NameStart(c: char) {
    'a' <= c <= 'z' || 'A' <= c <= 'Z' || c == '_'
  }

  predicate NameChar(c: char) {
    NameStart(c) || '0' <= c <= '9'
  }

  /** Latin letters and the underscore; after the first character also digits. */
  lemma NameAlphabet(c: char)
    ensures NameStart(c) <==> 97 <= c as int <= 122 || 65 <= c as int <= 90 || c as int == 95
    ensures NameChar(c) <==> NameStart(c) || 48 <= c as int <= 57
  {
  }

  /** The length of the longest run of name characters at the front. */
  function NameLength(s: string): (n: nat)
    ensures n <= |s| && (forall i | 0 <= i < n :: NameChar(s[i])) && (n < |s| ==> !NameChar(s[n]))
  {
    if s == "" || !NameChar(s[0]) then 0
    else
      var n := NameLength(s[1..]);
      assert forall i | 0 < i <= n :: s[i] == s[1..][i - 1];
      1 + n
  }

  /** The parameters that the expression :([a-zA-Z_][a-zA-Z0-9_]*) finds, and the characters between them. */
  function Tokens(pattern: string): seq<Token>
    decreases |pattern|
  {
    if pattern == "" then []
    else if pattern[0] == ':' && |pattern| > 1 && NameStart(pattern[1]) then
      var n := NameLength(pattern[1..]);
      [Param(pattern[1..n + 1])] + Tokens(pattern[n + 1..])
    else [Literal(pattern[0])] + Tokens(pattern[1..])
  }

  predicate Special(c: char) {
    c == '\\' || c == '^' || c == '$' || c == '.' || c == '|' || c == '?' || c == '*' || c == '+'
    || c == '(' || c == ')' || c == '[' || c == ']' || c == '{' || c == '}'
  }

  /** No literal is special, and a parameter is followed by a slash or by nothing. */
  predicate Plain(ts: seq<Token>) {
    ts == [] ||
    (&& (ts[0].Literal? ==> !Special(ts[0].c))
     && (ts[0].Param? ==> |ts| == 1 || ts[1] == Literal('/'))
     && Plain(ts[1..]))
  }

  function Names(ts: seq<Token>): seq<string> {
    if ts == [] then []
    else if ts[0].Param? then [ts[0].name] + Names(ts[1..])
    else Names(ts[1..])
  }

  // ---------------------------------------------------------------------------
  // Matching
  // ---------------------------------------------------------------------------

  /** A value that the group ([^/]+) can capture. */
  predicate Segment(s: string) {
    s != "" && '/' !in s
  }

  predicate Segments(values: seq<string>) {
    forall v | v in values :: Segment(v)
  }

  /** The pattern with its parameters, in order, replaced by values. */
  function Filled(ts: seq<Token>, values: seq<string>): string
    requires |values| == |Names(ts)|
  {
    if ts == [] then ""
    else if ts[0].Literal? then [ts[0].c] + Filled(ts[1..], values)
    else values[0] + Filled(ts[1..], values[1..])
  }

  /** What the anchored regular expression means: the path is the pattern filled with segments. */
  predicate Captures(ts: seq<Token>, path: string, values: seq<string>) {
    |values| == |Names(ts)| && Segments(values) && Filled(ts, values) == path
  }

  /** The number of characters before the first slash. */
  function SlashAt(s: string): (n: nat)
    ensures n <= |s| && '/' !in s[..n] && (n < |s| ==> s[n] == '/')
  {
    if s == "" || s[0] == '/' then 0
    else
      var n := SlashAt(s[1..]);
      assert s[..n + 1] == [s[0]] + s[1..][..n];
      n + 1
  }

  /** The greedy match: a group takes everything up to the next slash. */
  function Match(ts: seq<Token>, path: string): Option<seq<string>>
    decreases |ts|
  {
    if ts == [] then if path == "" then Some([]) else None
    else if ts[0].Literal? then
      if path != "" && path[0] == ts[0].c then Match(ts[1..], path[1..]) else None
    else
      var n := SlashAt(path);
      if n == 0 then None
      else
        match Match(ts[1..], path[n..])
        case None => None
        case Some(values) => Some([path[..n]] + values)
  }

  /** A successful match captures. */
  lemma {:induction false} MatchCaptures(ts: seq<Token>, path: string)
    requires Match(ts, path).Some?
    ensures Captures(ts, path, Match(ts, path).value)
  {
    if ts != [] {
      if ts[0].Literal? {
        MatchCaptures(ts[1..], path[1..]);
        assert path == [path[0]] + path[1..];
      } else {
        var n := SlashAt(path);
        MatchCaptures(ts[1..], path[n..]);
        var values := Match(ts, path).value;
        assert values[1..] == Match(ts[1..], path[n..]).value;
        assert path == path[..n] + path[n..];
      }
    }
  }

  /** On a plain pattern whatever captures is what the match finds: no backtracking could find another. */
  lemma {:induction false} CapturesMatch(ts: seq<Token>, path: string, values: seq<string>)
    requires Plain(ts) && Captures(ts, path, values)
    ensures Match(ts, path) == Some(values)
  {
    if ts != [] {
      if ts[0].Literal? {
        CapturesMatch(ts[1..], path[1..], values);
      } else {
        var rest := Filled(ts[1..], values[1..]);
        assert values[0] in values;
        assert forall v | v in values[1..] :: v in values;
        assert rest != "" ==> rest[0] == '/';
        FirstSlash(values[0], rest);
        assert path[..|values[0]|] == values[0] && path[|values[0]|..] == rest;
        CapturesMatch(ts[1..], rest, values[1..]);
        assert values == [values[0]] + values[1..];
      }
    }
  }

  lemma {:induction false} FirstSlash(a: string, b: string)
    requires '/' !in a && (b != "" ==> b[0] == '/')
    ensures SlashAt(a + b) == |a|
  {
    if a == "" {
      assert a + b == b;
    } else {
      assert (a + b)[1..] == a[1..] + b;
      FirstSlash(a[1..], b);
    }
  }

  // ---------------------------------------------------------------------------
  // Interpolation
  // ---------------------------------------------------------------------------

  /** The own properties of a record of parameters. */
  type Params = map<string, string>

  /** The names every plain object inherits. */
  const INHERITED: set<string> := {
    "constructor", "hasOwnProperty", "isPrototypeOf", "propertyIsEnumerable", "toLocaleString", "toString", "valueOf",
    "__proto__", "__defineGetter__", "__defineSetter__", "__lookupGetter__", "__lookupSetter__"
  }

  /** What an inherited property is as text: the prototype for __proto__, a built-in function for the others. */
  function InheritedText(name: string): (text: string)
    requires name in INHERITED
    ensures |text| > |name| + 1
  {
    if name == "__proto__" then "[object Object]"
    else "function " + (if name == "constructor" then "Object" else name) + "() { [native code] }"
  }

  /** What a parameter is replaced by: its own value, or an inherited one, or :name again. */
  function ValueOf(params: Params, name: string): string {
    if name in params then params[name]
    else if name in INHERITED then InheritedText(name)
    else ":" + name
  }

  function Interpolated(ts: seq<Token>, params: Params): string {
    if ts == [] then ""
    else
      (match ts[0]
       case Literal(c) => [c]
       case Param(name) => ValueOf(params, name))
      + Interpolated(ts[1..], params)
  }

  function InterpolatePattern(pattern: string, params: Params): string {
    Interpolated(Tokens(pattern), params)
  }

  /** The pattern that the tokens are read from. */
  function Spelled(ts: seq<Token>): string {
    if ts == [] then ""
    else (if ts[0].Literal? then [ts[0].c] else ":" + ts[0].name) + Spelled(ts[1..])
  }

  predicate IsName(s: string) {
    s != "" && NameStart(s[0]) && forall i | 0 <= i < |s| :: NameChar(s[i])
  }

  /** No literal could have been part of a parameter: names are names and as long as they can be. */
  predicate LeftmostLongest(ts: seq<Token>) {
    ts == [] ||
    (&& (ts[0] == Literal(':') && |ts| > 1 && ts[1].Literal? ==> !NameStart(ts[1].c))
     && (ts[0].Param? ==> IsName(ts[0].name))
     && (ts[0].Param? && |ts| > 1 && ts[1].Literal? ==> !NameChar(ts[1].c))
     && LeftmostLongest(ts[1..]))
  }

  lemma {:induction false} NameLengthOf(name: string, rest: string)
    requires forall i | 0 <= i < |name| :: NameChar(name[i])
    requires rest != "" ==> !NameChar(rest[0])
    ensures NameLength(name + rest) == |name|
  {
    if name == "" {
      assert name + rest == rest;
    } else {
      assert (name + rest)[1..] == name[1..] + rest;
      NameLengthOf(name[1..], rest);
    }
  }

  lemma FirstCharacter(ts: seq<Token>)
    requires ts != []
    ensures Spelled(ts) != ""
    ensures Spelled(ts)[0] == if ts[0].Literal? then ts[0].c else ':'
  {
  }

  lemma LiteralToken(c: char, rest: string)
    requires c == ':' && rest != "" ==> !NameStart(rest[0])
    ensures Tokens([c] + rest) == [Literal(c)] + Tokens(rest)
  {
    assert ([c] + rest)[1..] == rest;
  }

  lemma ParamSlices(name: string, rest: string)
    ensures var pattern := ":" + name + rest;
            pattern[1..] == name + rest && pattern[1..|name| + 1] == name && pattern[|name| + 1..] == rest
  {
  }

  lemma ParamAt(pattern: string, n: nat)
    requires |pattern| > 1 && pattern[0] == ':' && NameStart(pattern[1]) && n == NameLength(pattern[1..])
    ensures Tokens(pattern) == [Param(pattern[1..n + 1])] + Tokens(pattern[n + 1..])
  {
    var rest := Tokens(pattern[n + 1..]);
    assert Tokens(pattern) == [Param(pattern[1..n + 1])] + rest;
  }

  lemma Prepend(t: Token, ts: seq<Token>)
    requires LeftmostLongest(ts)
    requires t == Literal(':') && ts != [] && ts[0].Literal? ==> !NameStart(ts[0].c)
    requires t.Param? ==> IsName(t.name) && (ts != [] && ts[0].Literal? ==> !NameChar(ts[0].c))
    ensures LeftmostLongest([t] + ts)
    ensures Spelled([t] + ts) == (if t.Literal? then [t.c] else ":" + t.name) + Spelled(ts)
  {
    assert ([t] + ts)[1..] == ts;
  }

  lemma FirstToken(pattern: string)
    ensures pattern == "" ==> Tokens(pattern) == []
    ensures pattern != "" ==> Tokens(pattern) != [] && (Tokens(pattern)[0].Literal? ==> Tokens(pattern)[0].c == pattern[0])
  {
  }

  /** The tokens of a pattern spell it, and are leftmost and longest. */
  lemma {:induction false} TokensSpell(pattern: string)
    ensures Spelled(Tokens(pattern)) == pattern
    ensures LeftmostLongest(Tokens(pattern))
    decreases |pattern|
  {
    if pattern != "" {
      if pattern[0] == ':' && |pattern| > 1 && NameStart(pattern[1]) {
        var n := NameLength(pattern[1..]);
        var name, rest := pattern[1..n + 1], pattern[n + 1..];
        assert pattern == ":" + name + rest;
        assert forall i | 0 <= i < n :: name[i] == pattern[1..][i];
        assert rest != "" ==> rest[0] == pattern[1..][n];
        TokensSpell(rest);
        FirstToken(rest);
        ParamAt(pattern, n);
        Prepend(Param(name), Tokens(rest));
      } else {
        var c, rest := pattern[0], pattern[1..];
        assert pattern == [c] + rest;
        TokensSpell(rest);
        FirstToken(rest);
        LiteralToken(c, rest);
        Prepend(Literal(c), Tokens(rest));
      }
    }
  }

  lemma ParamToken(name: string, rest: string)
    requires IsName(name) && (rest != "" ==> !NameChar(rest[0]))
    ensures Tokens(":" + name + rest) == [Param(name)] + Tokens(rest)
  {
    NameLengthOf(name, rest);
    ParamSlices(name, rest);
    assert (":" + name + rest)[1] == name[0];
    ParamAt(":" + name + rest, |name|);
  }

  lemma AfterFirst(ts: seq<Token>)
    requires LeftmostLongest(ts) && ts != []
    ensures var rest := Spelled(ts[1..]);
            rest != "" ==> (ts[0] == Literal(':') ==> !NameStart(rest[0])) && (ts[0].Param? ==> !NameChar(rest[0]))
  {
    if |ts| > 1 { FirstCharacter(ts[1..]); }
  }

  /** And they are the only such tokens that spell the pattern. */
  lemma {:induction false} TokensAreUnique(ts: seq<Token>)
    requires LeftmostLongest(ts)
    ensures Tokens(Spelled(ts)) == ts
  {
    if ts != [] {
      var first, rest := ts[0], Spelled(ts[1..]);
      TokensAreUnique(ts[1..]);
      AfterFirst(ts);
      if first.Literal? { LiteralToken(first.c, rest); } else { ParamToken(first.name, rest); }
      assert ts == [first] + ts[1..];
    }
  }

  predicate Inherits(ts: seq<Token>) {
    exists n | n in Names(ts) :: n in INHERITED
  }

  lemma {:induction false} InterpolatedSpells(ts: seq<Token>)
    ensures if Inherits(ts) then |Interpolated(ts, map[])| > |Spelled(ts)| else Interpolated(ts, map[]) == Spelled(ts)
  {
    if ts != [] {
      InterpolatedSpells(ts[1..]);
      assert forall n :: n in Names(ts) <==> (ts[0].Param? && n == ts[0].name) || n in Names(ts[1..]);
    }
  }

  /** With no values an interpolation gives the pattern back exactly when no parameter has an inherited name. */
  lemma NothingToInterpolate(pattern: string)
    ensures InterpolatePattern(pattern, map[]) == pattern <==> !Inherits(Tokens(pattern))
  {
    TokensSpell(pattern);
    InterpolatedSpells(Tokens(pattern));
  }

  /** The record of captured values: a later value replaces an earlier one of the same name, and assigning a
      string to __proto__ does nothing. */
  function Recorded(names: seq<string>, values: seq<string>): Params
    requires |names| == |values|
  {
    if names == [] then map[]
    else
      var last := |names| - 1;
      var before := Recorded(names[..last], values[..last]);
      if names[last] == "__proto__" then before else before[names[last] := values[last]]
  }

  function Looked(names: seq<string>, params: Params): (values: seq<string>)
    ensures |values| == |names|
  {
    seq(|names|, i requires 0 <= i < |names| => ValueOf(params, names[i]))
  }

  lemma LookedCons(name: string, names: seq<string>, params: Params)
    ensures Looked([name] + names, params) == [ValueOf(params, name)] + Looked(names, params)
  {
  }

  lemma {:induction false} InterpolatedIsFilled(ts: seq<Token>, params: Params)
    ensures Interpolated(ts, params) == Filled(ts, Looked(Names(ts), params))
  {
    if ts != [] {
      InterpolatedIsFilled(ts[1..], params);
      if ts[0].Param? {
        LookedCons(ts[0].name, Names(ts[1..]), params);
      }
    }
  }

  /** Captures of one name agree, and those of __proto__ with the text of a prototype. */
  predicate Consistent(names: seq<string>, values: seq<string>)
    requires |names| == |values|
  {
    && (forall i, j | 0 <= i < j < |names| && names[i] == names[j] :: values[i] == values[j])
    && (forall i | 0 <= i < |names| && names[i] == "__proto__" :: values[i] == InheritedText("__proto__"))
  }

  /** The record holds every other name, with the last value captured for it. */
  lemma {:induction false} RecordedAt(names: seq<string>, values: seq<string>, i: nat)
    requires |names| == |values| && i < |names| && names[i] != "__proto__"
    ensures names[i] in Recorded(names, values)
    ensures exists j :: i <= j < |names| && names[j] == names[i] && Recorded(names, values)[names[i]] == values[j]
  {
    var last := |names| - 1;
    if names[last] == names[i] {
      assert Recorded(names, values)[names[i]] == values[last];
    } else {
      RecordedAt(names[..last], values[..last], i);
    }
  }

  lemma {:induction false} RecordedKeys(names: seq<string>, values: seq<string>)
    requires |names| == |values|
    ensures forall n :: n in Recorded(names, values) <==> n in names && n != "__proto__"
  {
    if names != [] {
      var last := |names| - 1;
      RecordedKeys(names[..last], values[..last]);
      assert names == names[..last] + [names[last]];
    }
  }

  lemma LookedAt(names: seq<string>, values: seq<string>, i: nat) returns (j: nat)
    requires |names| == |values| && i < |names|
    ensures var looked := ValueOf(Recorded(names, values), names[i]);
            j < |names| && names[j] == names[i]
            && looked == if names[i] == "__proto__" then InheritedText("__proto__") else values[j]
  {
    RecordedKeys(names, values);
    if names[i] == "__proto__" {
      j := i;
    } else {
      RecordedAt(names, values, i);
      j :| i <= j < |names| && names[j] == names[i] && Recorded(names, values)[names[i]] == values[j];
    }
  }

  lemma PrototypeIsSegment()
    ensures Segment(InheritedText("__proto__"))
  {
    assert InheritedText("__proto__") == "[object Object]";
  }

  /** Enough for one place: all values of its name agree. */
  lemma LookedValue(names: seq<string>, values: seq<string>, i: nat)
    requires |names| == |values| && i < |names|
    requires forall j | 0 <= j < |names| :: names[j] == names[i] ==> values[j] == values[i]
    requires names[i] == "__proto__" ==> values[i] == InheritedText("__proto__")
    ensures ValueOf(Recorded(names, values), names[i]) == values[i]
  {
    var j := LookedAt(names, values, i);
  }

  lemma LookedIfConsistent(names: seq<string>, values: seq<string>)
    requires |names| == |values| && Consistent(names, values)
    ensures Looked(names, Recorded(names, values)) == values
  {
    var looked := Looked(names, Recorded(names, values));
    forall i | 0 <= i < |names| ensures looked[i] == values[i] {
      assert forall j | 0 <= j < |names| && names[j] == names[i] :: j < i || i < j || values[j] == values[i];
      LookedValue(names, values, i);
    }
  }

  lemma ConsistentIfLooked(names: seq<string>, values: seq<string>)
    requires |names| == |values| && Looked(names, Recorded(names, values)) == values
    ensures Consistent(names, values)
  {
    var looked := Looked(names, Recorded(names, values));
    forall i | 0 <= i < |names| && names[i] == "__proto__" ensures values[i] == InheritedText("__proto__") {
      var j := LookedAt(names, values, i);
      assert values[i] == looked[i];
    }
    forall i, j | 0 <= i < j < |names| && names[i] == names[j] ensures values[i] == values[j] {
      assert looked[i] == looked[j];
    }
  }

  lemma LookedConsistent(names: seq<string>, values: seq<string>)
    requires |names| == |values|
    ensures Looked(names, Recorded(names, values)) == values <==> Consistent(names, values)
  {
    if Consistent(names, values) {
      LookedIfConsistent(names, values);
    } else if Looked(names, Recorded(names, values)) == values {
      ConsistentIfLooked(names, values);
    }
  }

  lemma LookedSegments(names: seq<string>, values: seq<string>)
    requires |names| == |values| && Segments(values)
    ensures Segments(Looked(names, Recorded(names, values)))
  {
    var looked := Looked(names, Recorded(names, values));
    PrototypeIsSegment();
    forall i | 0 <= i < |names| ensures Segment(looked[i]) {
      var j := LookedAt(names, values, i);
      assert values[j] in values;
    }
  }

  /** Interpolating the matched parameters gives back the path exactly when parameters of one name captured
      one value (and __proto__ what it is replaced by); distinct names other than __proto__ always do. */
  lemma MatchThenInterpolate(ts: seq<Token>, path: string)
    requires Plain(ts) && Match(ts, path).Some?
    ensures var values := Match(ts, path).value;
            && |values| == |Names(ts)|
            && (Interpolated(ts, Recorded(Names(ts), values)) == path <==> Consistent(Names(ts), values))
            && (Distinct(Names(ts)) && "__proto__" !in Names(ts) ==> Interpolated(ts, Recorded(Names(ts), values)) == path)
  {
    MatchCaptures(ts, path);
    var names, values := Names(ts), Match(ts, path).value;
    LookedConsistent(names, values);
    LookedSegments(names, values);
    var params := Recorded(names, values);
    InterpolatedIsFilled(ts, params);
    var looked := Looked(names, params);
    if Filled(ts, looked) == path {
      CapturesMatch(ts, path, looked);
    }
  }

  /** Matching an interpolation of segments gives back those values, recorded under every name but __proto__. */
  lemma InterpolateThenMatch(ts: seq<Token>, params: Params)
    requires Plain(ts)
    requires forall n | n in Names(ts) :: n in params && Segment(params[n])
    ensures Match(ts, Interpolated(ts, params)) == Some(Looked(Names(ts), params))
    ensures Recorded(Names(ts), Looked(Names(ts), params)) == map n | n in Names(ts) && n != "__proto__" :: params[n]
  {
    var names, values := Names(ts), Looked(Names(ts), params);
    InterpolatedIsFilled(ts, params);
    CapturesMatch(ts, Interpolated(ts, params), values);
    RecordedKeys(names, values);
    forall n | n in names && n != "__proto__" ensures Recorded(names, values)[n] == params[n] {
      var i :| 0 <= i < |names| && names[i] == n;
      RecordedAt(names, values, i);
    }
  }

  // ---------------------------------------------------------------------------
  // The catalog
  // ---------------------------------------------------------------------------

  const PAID_ROUTES: seq<string> := [
    "/api/v1/agent/pay-api/:provider",
    "/api/v1/genesis/repro-pack/:suite",
    "/api/v1/trade/verify/:trade_id",
    "/api/v1/invoices/export/:format"
  ]

  datatype MatchResult = MatchResult(route: nat, params: Params)

  ghost predicate Matches(route: string, path: string) {
    exists values :: Captures(Tokens(route), path, values)
  }

  lemma MatchesIff(route: string, path: string)
    requires Plain(Tokens(route))
    ensures Matches(route, path) <==> Match(Tokens(route), path).Some?
  {
    var ts := Tokens(route);
    if Match(ts, path).Some? { MatchCaptures(ts, path); }
    forall values | Captures(ts, path, values) ensures Match(ts, path).Some? { CapturesMatch(ts, path, values); }
  }

  /** The first route that matches, with the values it captures. */
  method MatchRoute(routes: seq<string>, path: string) returns (r: Option<MatchResult>)
    requires forall route | route in routes :: Plain(Tokens(route))
    ensures r.None? <==> forall i | 0 <= i < |routes| :: !Matches(routes[i], path)
    ensures r.Some? ==>
              && r.value.route < |routes|
              && (forall i | 0 <= i < r.value.route :: !Matches(routes[i], path))
              && exists values :: Captures(Tokens(routes[r.value.route]), path, values)
                   && r.value.params == Recorded(Names(Tokens(routes[r.value.route])), values)
  {
    for i := 0 to |routes|
      invariant forall k | 0 <= k < i :: !Matches(routes[k], path)
    {
      var ts := Tokens(routes[i]);
      assert routes[i] in routes;
      MatchesIff(routes[i], path);
      var match_ := Match(ts, path);
      if match_.Some? {
        MatchCaptures(ts, path);
        var params := RecordParams(Names(ts), match_.value);
        return Some(MatchResult(i, params));
      }
    }
    return None;
  }

  method RecordParams(names: seq<string>, values: seq<string>) returns (params: Params)
    requires |names| == |values|
    ensures params == Recorded(names, values)
  {
    params := map[];
    for k := 0 to |names|
      invariant params == Recorded(names[..k], values[..k])
    {
      if names[k] != "__proto__" { params := params[names[k] := values[k]]; }
      assert names[..k + 1][..k] == names[..k] && values[..k + 1][..k] == values[..k];
    }
    assert names[..|names|] == names && values[..|names|] == values;
  }

  predicate PathChar(c: char) {
    NameChar(c) || c == '/' || c == '-'
  }

  predicate PathText(s: string) {
    forall i | 0 <= i < |s| :: PathChar(s[i])
  }

  lemma LiteralFirst(c: char, ts: seq<Token>)
    requires PathChar(c)
    ensures Names([Literal(c)] + ts) == Names(ts) && (Plain(ts) ==> Plain([Literal(c)] + ts))
  {
    assert ([Literal(c)] + ts)[1..] == ts;
  }

  lemma {:induction false} TokensOfLiterals(text: string, rest: string)
    requires PathText(text)
    ensures Names(Tokens(text + rest)) == Names(Tokens(rest))
    ensures Plain(Tokens(rest)) ==> Plain(Tokens(text + rest))
  {
    if text == "" {
      assert text + rest == rest;
    } else {
      assert PathChar(text[0]);
      assert text + rest == [text[0]] + (text[1..] + rest);
      TokensOfLiterals(text[1..], rest);
      LiteralToken(text[0], text[1..] + rest);
      LiteralFirst(text[0], Tokens(text[1..] + rest));
    }
  }

  /** A literal text followed by one last parameter. */
  lemma CatalogEntry(route: string, text: string, name: string)
    requires route == text + ":" + name && PathText(text) && IsName(name) && name != "__proto__"
    ensures PlainRoute(route)
  {
    var ts := [Param(name)];
    ParamToken(name, "");
    assert ":" + name + "" == ":" + name && ts + [] == ts;
    assert ts[1..] == [] && Plain(ts[1..]) && Names(ts[1..]) == [];
    assert Plain(ts) && Names(ts) == [name];
    TokensOfLiterals(text, ":" + name);
    assert route == text + (":" + name);
  }

  lemma AgentRoute()
    ensures PlainRoute(PAID_ROUTES[0])
  {
    CatalogEntry(PAID_ROUTES[0], "/api/v1/agent/pay-api/", "provider");
  }

  lemma GenesisRoute()
    ensures PlainRoute(PAID_ROUTES[1])
  {
    CatalogEntry(PAID_ROUTES[1], "/api/v1/genesis/repro-pack/", "suite");
  }

  lemma TradeRoute()
    ensures PlainRoute(PAID_ROUTES[2])
  {
    CatalogEntry(PAID_ROUTES[2], "/api/v1/trade/verify/", "trade_id");
  }

  lemma ExportRoute()
    ensures PlainRoute(PAID_ROUTES[3])
  {
    CatalogEntry(PAID_ROUTES[3], "/api/v1/invoices/export/", "format");
  }

  predicate PlainRoute(route: string) {
    Plain(Tokens(route)) && Distinct(Names(Tokens(route))) && "__proto__" !in Names(Tokens(route))
  }

  lemma CatalogIsPlain(i: nat)
    requires i < |PAID_ROUTES|
    ensures PlainRoute(PAID_ROUTES[i])
  {
    if i == 0 { AgentRoute(); } else if i == 1 { GenesisRoute(); } else if i == 2 { TradeRoute(); } else { ExportRoute(); }
  }

  /** So for every live route the resource an invoice names is the path that was requested. */
  method ResourceOf(path: string) returns (resource: Option<string>)
    ensures resource.Some? ==> resource.value == path
    ensures resource.None? <==> forall i | 0 <= i < |PAID_ROUTES| :: !Matches(PAID_ROUTES[i], path)
  {
    forall i: nat | i < |PAID_ROUTES| ensures PlainRoute(PAID_ROUTES[i]) {
      CatalogIsPlain(i);
    }
    var r := MatchRoute(PAID_ROUTES, path);
    if r.None? { return None; }
    var route := PAID_ROUTES[r.value.route];
    ghost var ts := Tokens(route);
    ghost var values :| Captures(ts, path, values) && r.value.params == Recorded(Names(ts), values);
    assert PlainRoute(route);
    CapturesMatch(ts, path, values);
    MatchThenInterpolate(ts, path);
    return Some(InterpolatePattern(route, r.value.params));
  }
}
