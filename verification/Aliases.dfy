/**
 Alias expansion: every alias, newest first, is scanned for over the token list and spliced in where
 it is found, in place.  Compared with the one-pass substitution the shell promises.
 */
module Aliases {
  import opened Seqs
  import opened Tokenizer

  /** The stored command is the body joined with single spaces. */
  datatype Alias = Alias(name: string, command: string)

  function Body(a: Alias): seq<string> {
    Tokenize(a.command, 0)
  }

  // ----- One alias -----

  /** One step of the scan at position i: splice the body in if the token is the name, and move on by one. */
  function ScanStep(tokens: seq<string>, i: nat, name: string, body: seq<string>): (seq<string>, nat)
    requires i < |tokens|
  {
    (if tokens[i] == name then tokens[..i] + body + tokens[i + 1..] else tokens, i + 1)
  }

  /** The scan after at most n steps. */
  function Scan(tokens: seq<string>, i: nat, name: string, body: seq<string>, n: nat): (seq<string>, nat)
    decreases n
  {
    if n == 0 || i >= |tokens| then (tokens, i)
    else
      var (t, j) := ScanStep(tokens, i, name, body);
      Scan(t, j, name, body, n - 1)
  }

  predicate Ended(state: (seq<string>, nat)) {
    state.1 >= |state.0|
  }

  /** A body that contains the alias's own name after its first token is met again and again. */
  predicate Recurs(name: string, body: seq<string>) {
    |body| > 1 && name in body[1..]
  }

  /**
   What a scan makes of a token list, if it ends.  The token after a spliced-in body is looked at
   next; so is the second token of the body, but never its first, and an empty body shields the
   token that moves into its place.
   */
  function Expanded(tokens: seq<string>, name: string, body: seq<string>): Option<seq<string>>
    decreases |tokens|
  {
    if tokens == [] then Some([])
    else if tokens[0] != name then Prepend([tokens[0]], Expanded(tokens[1..], name, body))
    else if Recurs(name, body) then None
    else if body != [] then Prepend(body, Expanded(tokens[1..], name, body))
    else if |tokens| == 1 then Some([])
    else Prepend([tokens[1]], Expanded(tokens[2..], name, body))
  }

  function Prepend(p: seq<string>, r: Option<seq<string>>): Option<seq<string>> {
    match r
    case None => None
    case Some(s) => Some(p + s)
  }

  /** How many more steps a scan takes. */
  function StepsLeft(tokens: seq<string>, name: string, body: seq<string>): nat
    decreases |tokens|
  {
    if tokens == [] then 0
    else if tokens[0] != name then 1 + StepsLeft(tokens[1..], name, body)
    else if body != [] then |body| + StepsLeft(tokens[1..], name, body)
    else if |tokens| == 1 then 1
    else 1 + StepsLeft(tokens[2..], name, body)
  }

  /** Tokens other than the name are passed over one by one. */
  lemma {:induction false} PassedOver(p: seq<string>, rest: seq<string>, name: string, body: seq<string>)
    requires name !in p
    ensures Expanded(p + rest, name, body) == Prepend(p, Expanded(rest, name, body))
    ensures StepsLeft(p + rest, name, body) == |p| + StepsLeft(rest, name, body)
  {
    if p == [] {
      assert p + rest == rest;
      assert Expanded(rest, name, body).Some? ==> [] + Expanded(rest, name, body).value == Expanded(rest, name, body).value;
    } else {
      assert p[0] in p && (p + rest)[0] == p[0] && (p + rest)[1..] == p[1..] + rest;
      PassedOver(p[1..], rest, name, body);
      var e := Expanded(rest, name, body);
      if e.Some? {
        assert [p[0]] + (p[1..] + e.value) == p + e.value;
      }
    }
  }

  /** What is left to scan once the body stands at position i and the scan has moved on. */
  lemma SpliceMovesOn(tokens: seq<string>, i: nat, name: string, body: seq<string>)
    requires i < |tokens| && tokens[i] == name && !Recurs(name, body)
    ensures var rest := tokens[i..];
      var (t, j) := ScanStep(tokens, i, name, body);
      && (body != [] ==>
        && j <= |t| && Expanded(t[j..], name, body) == Prepend(body[1..], Expanded(rest[1..], name, body))
        && StepsLeft(t[j..], name, body) == |body| - 1 + StepsLeft(rest[1..], name, body))
      && (body == [] ==> |t| == |tokens| - 1 && (if |rest| == 1 then j == |t| + 1 else j <= |t| && t[j..] == rest[2..]))
  {
    var rest := tokens[i..];
    var (t, j) := ScanStep(tokens, i, name, body);
    if body != [] {
      assert t[j..] == body[1..] + rest[1..];
      PassedOver(body[1..], rest[1..], name, body);
    } else {
      assert t == tokens[..i] + tokens[i + 1..];
    }
  }

  /** One step of the scan: the tokens passed so far, and what the rest will be expanded to. */
  ghost predicate Ahead(t: seq<string>, j: nat, name: string, body: seq<string>, result: Option<seq<string>>, left: nat) {
    if j <= |t| then
      && result == Prepend(t[..j], Expanded(t[j..], name, body))
      && left == StepsLeft(t[j..], name, body)
    else result == Some(t) && left == 0
  }

  lemma ScanStepKeeps(t: seq<string>, i: nat, name: string, body: seq<string>, result: Option<seq<string>>, left: nat)
    requires i < |t| && Ahead(t, i, name, body, result, left) && result.Some?
    ensures var (u, j) := ScanStep(t, i, name, body); left > 0 && Ahead(u, j, name, body, result, left - 1)
  {
    var rest := t[i..];
    var (u, j) := ScanStep(t, i, name, body);
    assert rest[0] == t[i] && rest[1..] == t[i + 1..];
    if t[i] != name {
      assert t[..i + 1] == t[..i] + [t[i]];
      PrependTwice(t[..i], [t[i]], Expanded(rest[1..], name, body));
    } else {
      SpliceMovesOn(t, i, name, body);
      if body != [] {
        assert u[..j] == t[..i] + [body[0]] && body == [body[0]] + body[1..];
        PrependTwice(t[..i], body, Expanded(rest[1..], name, body));
        PrependTwice(u[..j], body[1..], Expanded(rest[1..], name, body));
        assert t[..i] + body == u[..j] + body[1..];
      } else if |rest| == 1 {
        assert u == t[..i] && t[..i] + [] == t[..i];
      } else {
        assert u[..j] == t[..i] + [rest[1]];
        PrependTwice(t[..i], [rest[1]], Expanded(rest[2..], name, body));
      }
    }
  }

  lemma PrependTwice(p: seq<string>, q: seq<string>, r: Option<seq<string>>)
    ensures Prepend(p, Prepend(q, r)) == Prepend(p + q, r)
  {
    if r.Some? {
      assert p + (q + r.value) == p + q + r.value;
    }
  }

  /** A scan that ends leaves what `Expanded` says, after exactly `left` more steps. */
  lemma {:induction false} ScanReaches(t: seq<string>, i: nat, name: string, body: seq<string>, result: Option<seq<string>>, left: nat)
    requires Ahead(t, i, name, body, result, left) && result.Some?
    ensures var r := Scan(t, i, name, body, left); Ended(r) && r.0 == result.value
    ensures forall n :: 0 <= n < left ==> !Ended(Scan(t, i, name, body, n))
    decreases left
  {
    if i < |t| {
      var (u, j) := ScanStep(t, i, name, body);
      ScanStepKeeps(t, i, name, body, result, left);
      hide Ahead, ScanStep, Expanded, StepsLeft;
      ScanReaches(u, j, name, body, result, left - 1);
      forall n | 0 <= n < left ensures !Ended(Scan(t, i, name, body, n)) {
        if n > 0 {
          assert Scan(t, i, name, body, n) == Scan(u, j, name, body, n - 1);
        }
      }
    } else if i == |t| {
      assert t[i..] == [] && t[..i] == t && t + [] == t;
    }
  }

  /** Once a scan for a recurring alias has its name ahead, it never ends. */
  lemma {:induction false} NeverEnds(t: seq<string>, i: nat, name: string, body: seq<string>, n: nat)
    requires i < |t| && name in t[i..] && Recurs(name, body)
    ensures !Ended(Scan(t, i, name, body, n))
    decreases n
  {
    if n > 0 {
      var (u, j) := ScanStep(t, i, name, body);
      if t[i] == name {
        assert u[j..] == body[1..] + t[i + 1..];
      } else {
        assert t[i..][1..] == u[j..];
        assert name in t[i..] && t[i..][0] != name;
      }
      assert name in u[j..];
      NeverEnds(u, j, name, body, n - 1);
    }
  }

  lemma {:induction false} NoneMeansRecurs(tokens: seq<string>, name: string, body: seq<string>)
    ensures Expanded(tokens, name, body).None? <==> Recurs(name, body) && name in tokens
    decreases |tokens|
  {
    if tokens != [] {
      NoneMeansRecurs(tokens[1..], name, body);
      assert tokens == [tokens[0]] + tokens[1..];
      if |tokens| > 1 {
        NoneMeansRecurs(tokens[2..], name, body);
        assert tokens[1..] == [tokens[1]] + tokens[2..];
      }
    }
  }

  /**
   The scan of a token list for one alias ends exactly if the name is absent or does not come back in
   the body after its first token, and then it leaves what `Expanded` says.
   */
  lemma ScanMeansExpanded(tokens: seq<string>, name: string, body: seq<string>)
    ensures Expanded(tokens, name, body).None? <==> Recurs(name, body) && name in tokens
    ensures match Expanded(tokens, name, body)
      case None => forall n: nat :: !Ended(Scan(tokens, 0, name, body, n))
      case Some(r) => exists n: nat :: Ended(Scan(tokens, 0, name, body, n)) && Scan(tokens, 0, name, body, n).0 == r
  {
    NoneMeansRecurs(tokens, name, body);
    assert tokens[0..] == tokens;
    var e := Expanded(tokens, name, body);
    if e.None? {
      forall n: nat ensures !Ended(Scan(tokens, 0, name, body, n)) {
        NeverEnds(tokens, 0, name, body, n);
      }
    } else {
      var left := StepsLeft(tokens, name, body);
      assert tokens[..0] == [] && [] + e.value == e.value;
      assert Ahead(tokens, 0, name, body, e, left);
      ScanReaches(tokens, 0, name, body, e, left);
      assert Ended(Scan(tokens, 0, name, body, left));
    }
  }

  // ----- All aliases -----

  /** The passes over the stack, newest alias first. */
  function ExpandAll(stack: seq<Alias>, tokens: seq<string>): Option<seq<string>> {
    if stack == [] then Some(tokens)
    else
      match Expanded(tokens, stack[0].name, Body(stack[0]))
      case None => None
      case Some(t) => ExpandAll(stack[1..], t)
  }

  /** The body of the newest alias with this name, or the token itself. */
  function Meaning(stack: seq<Alias>, token: string): seq<string> {
    if stack == [] then [token] else if stack[0].name == token then Body(stack[0]) else Meaning(stack[1..], token)
  }

  /** One-pass substitution: every token is replaced by what it means, and what replaces it is not looked at again. */
  function Substitute(stack: seq<Alias>, tokens: seq<string>): seq<string> {
    if tokens == [] then [] else Meaning(stack, tokens[0]) + Substitute(stack, tokens[1..])
  }

  predicate NonEmptyBodies(stack: seq<Alias>) {
    forall k :: 0 <= k < |stack| ==> Body(stack[k]) != []
  }

  /**
   Where the renamings of a stack take a token: an alias with a body of one token renames.
   None if a longer body is met on the way.
   */
  function Rename(stack: seq<Alias>, token: string): Option<string> {
    if stack == [] then Some(token)
    else if stack[0].name != token then Rename(stack[1..], token)
    else if |Body(stack[0])| == 1 then Rename(stack[1..], Body(stack[0])[0])
    else None
  }

  /**
   A token whose translation stays as it is: its alias does not recur, and the older aliases rename
   every token of its body, if at all, back to itself.
   */
  predicate Settled(stack: seq<Alias>, token: string) {
    if stack == [] then true
    else if stack[0].name != token then Settled(stack[1..], token)
    else
      && !Recurs(token, Body(stack[0]))
      && forall k :: 0 <= k < |Body(stack[0])| ==> Rename(stack[1..], Body(stack[0])[k]) == Some(Body(stack[0])[k])
  }

  function Both(a: Option<seq<string>>, b: Option<seq<string>>): Option<seq<string>> {
    if a.None? || b.None? then None else Some(a.value + b.value)
  }

  lemma {:induction false} ExpandedAppend(a: seq<string>, b: seq<string>, name: string, body: seq<string>)
    requires body != []
    ensures Expanded(a + b, name, body) == Both(Expanded(a, name, body), Expanded(b, name, body))
  {
    var e, f := Expanded(a[if a == [] then 0 else 1..], name, body), Expanded(b, name, body);
    if a == [] {
      assert a + b == b;
      assert f.Some? ==> [] + f.value == f.value;
    } else {
      assert (a + b)[0] == a[0] && (a + b)[1..] == a[1..] + b;
      ExpandedAppend(a[1..], b, name, body);
      var p := if a[0] == name then body else [a[0]];
      assert e.Some? && f.Some? ==> p + (e.value + f.value) == p + e.value + f.value;
    }
  }

  /** With nonempty bodies every token is expanded on its own. */
  lemma {:induction false} ExpandAllAppend(stack: seq<Alias>, a: seq<string>, b: seq<string>)
    requires NonEmptyBodies(stack)
    ensures ExpandAll(stack, a + b) == Both(ExpandAll(stack, a), ExpandAll(stack, b))
  {
    if stack != [] {
      var name, body := stack[0].name, Body(stack[0]);
      ExpandedAppend(a, b, name, body);
      var e, f := Expanded(a, name, body), Expanded(b, name, body);
      if e.Some? && f.Some? {
        ExpandAllAppend(stack[1..], e.value, f.value);
      }
    }
  }

  lemma {:induction false} ExpandedGrows(tokens: seq<string>, name: string, body: seq<string>)
    requires body != []
    ensures Expanded(tokens, name, body).Some? ==> |Expanded(tokens, name, body).value| >= |tokens|
  {
    if tokens != [] {
      ExpandedGrows(tokens[1..], name, body);
    }
  }

  lemma {:induction false} ExpandAllGrows(stack: seq<Alias>, tokens: seq<string>)
    requires NonEmptyBodies(stack)
    ensures ExpandAll(stack, tokens).Some? ==> |ExpandAll(stack, tokens).value| >= |tokens|
  {
    if stack != [] {
      var e := Expanded(tokens, stack[0].name, Body(stack[0]));
      ExpandedGrows(tokens, stack[0].name, Body(stack[0]));
      if e.Some? {
        ExpandAllGrows(stack[1..], e.value);
      }
    }
  }

  lemma ExpandedOne(token: string, name: string, body: seq<string>)
    requires body != []
    ensures Expanded([token], name, body) ==
      if token != name then Some([token]) else if Recurs(name, body) then None else Some(body)
  {
    assert Expanded([], name, body) == Some([]);
    assert body + [] == body && [token] + [] == [token];
  }

  /** A single token survives the passes as a single token exactly along its renamings. */
  lemma {:induction false} RenameMeans(stack: seq<Alias>, token: string)
    requires NonEmptyBodies(stack)
    ensures match Rename(stack, token)
      case Some(w) => ExpandAll(stack, [token]) == Some([w])
      case None => ExpandAll(stack, [token]).Some? ==> |ExpandAll(stack, [token]).value| > 1
  {
    if stack != [] {
      var body := Body(stack[0]);
      ExpandedOne(token, stack[0].name, body);
      if stack[0].name != token {
        RenameMeans(stack[1..], token);
      } else if |body| == 1 {
        assert body == [body[0]];
        RenameMeans(stack[1..], body[0]);
      } else {
        ExpandAllGrows(stack[1..], body);
      }
    }
  }

  predicate AllKept(stack: seq<Alias>, tokens: seq<string>) {
    forall k :: 0 <= k < |tokens| ==> Rename(stack, tokens[k]) == Some(tokens[k])
  }

  /** The passes leave a token list as it is exactly if they leave each token as it is. */
  lemma {:induction false} KeptMeans(stack: seq<Alias>, tokens: seq<string>)
    requires NonEmptyBodies(stack)
    ensures ExpandAll(stack, tokens) == Some(tokens) <==> AllKept(stack, tokens)
  {
    if tokens == [] {
      NothingExpands(stack);
    } else {
      var first, rest := tokens[0], tokens[1..];
      assert tokens == [first] + rest;
      KeptMeans(stack, rest);
      RenameMeans(stack, first);
      ExpandAllAppend(stack, [first], rest);
      ExpandAllGrows(stack, [first]);
      ExpandAllGrows(stack, rest);
      assert AllKept(stack, tokens) <==> Rename(stack, first) == Some(first) && AllKept(stack, rest);
      SplitEqual(ExpandAll(stack, [first]), ExpandAll(stack, rest), [first], rest);
    }
  }

  lemma {:induction false} NothingExpands(stack: seq<Alias>)
    ensures ExpandAll(stack, []) == Some([])
  {
    if stack != [] {
      NothingExpands(stack[1..]);
    }
  }

  /** Two parts that can only have grown make up the original exactly if each is its original. */
  lemma SplitEqual(a: Option<seq<string>>, b: Option<seq<string>>, p: seq<string>, q: seq<string>)
    requires a.Some? ==> |a.value| >= |p|
    requires b.Some? ==> |b.value| >= |q|
    ensures Both(a, b) == Some(p + q) <==> a == Some(p) && b == Some(q)
  {
    if Both(a, b) == Some(p + q) {
      assert |a.value| == |p| && |b.value| == |q|;
      assert a.value == (a.value + b.value)[..|p|] && b.value == (a.value + b.value)[|p|..];
      assert p == (p + q)[..|p|] && q == (p + q)[|p|..];
    }
  }

  /** One token: in-place expansion gives its meaning exactly if the token is settled. */
  lemma {:induction false} TokenSettles(stack: seq<Alias>, token: string)
    requires NonEmptyBodies(stack)
    ensures ExpandAll(stack, [token]) == Some(Meaning(stack, token)) <==> Settled(stack, token)
    ensures ExpandAll(stack, [token]).Some? ==> |ExpandAll(stack, [token]).value| >= |Meaning(stack, token)|
  {
    if stack != [] {
      var body := Body(stack[0]);
      ExpandedOne(token, stack[0].name, body);
      if stack[0].name != token {
        TokenSettles(stack[1..], token);
      } else {
        KeptMeans(stack[1..], body);
        ExpandAllGrows(stack[1..], body);
      }
    }
  }

  predicate AllSettled(stack: seq<Alias>, tokens: seq<string>) {
    forall k :: 0 <= k < |tokens| ==> Settled(stack, tokens[k])
  }

  /**
   The main theorem.  With nonempty bodies, expanding in place gives the one-pass substitution exactly
   if every token of the command is settled.
   */
  lemma {:induction false} ExpansionIsSubstitution(stack: seq<Alias>, tokens: seq<string>)
    requires NonEmptyBodies(stack)
    ensures ExpandAll(stack, tokens) == Some(Substitute(stack, tokens)) <==> AllSettled(stack, tokens)
    ensures ExpandAll(stack, tokens).Some? ==> |ExpandAll(stack, tokens).value| >= |Substitute(stack, tokens)|
  {
    if tokens == [] {
      NothingExpands(stack);
    } else {
      var first, rest := tokens[0], tokens[1..];
      assert tokens == [first] + rest;
      ExpansionIsSubstitution(stack, rest);
      TokenSettles(stack, first);
      ExpandAllAppend(stack, [first], rest);
      assert AllSettled(stack, tokens) <==> Settled(stack, first) && AllSettled(stack, rest);
      SplitEqual(ExpandAll(stack, [first]), ExpandAll(stack, rest), Meaning(stack, first), Substitute(stack, rest));
    }
  }

  /** No alias recurs and no body contains the name of an older alias. */
  predicate Independent(stack: seq<Alias>) {
    && (forall p :: 0 <= p < |stack| ==> !Recurs(stack[p].name, Body(stack[p])))
    && forall p, q :: 0 <= p < q < |stack| ==> stack[q].name !in Body(stack[p])
  }

  lemma {:induction false} UnnamedKept(stack: seq<Alias>, token: string)
    requires forall q :: 0 <= q < |stack| ==> stack[q].name != token
    ensures Rename(stack, token) == Some(token)
  {
    if stack != [] {
      UnnamedKept(stack[1..], token);
    }
  }

  /** A condition on the aliases alone: then every command expands to its substitution. */
  lemma {:induction false} IndependentSettles(stack: seq<Alias>, token: string)
    requires Independent(stack)
    ensures Settled(stack, token)
  {
    if stack != [] {
      if stack[0].name != token {
        IndependentSettles(stack[1..], token);
      } else {
        var body := Body(stack[0]);
        forall k | 0 <= k < |body| ensures Rename(stack[1..], body[k]) == Some(body[k]) {
          assert body[k] in body;
          UnnamedKept(stack[1..], body[k]);
        }
      }
    }
  }

  lemma IndependentExpansion(stack: seq<Alias>, tokens: seq<string>)
    requires NonEmptyBodies(stack) && Independent(stack)
    ensures ExpandAll(stack, tokens) == Some(Substitute(stack, tokens))
  {
    forall k | 0 <= k < |tokens| ensures Settled(stack, tokens[k]) {
      IndependentSettles(stack, tokens[k]);
    }
    ExpansionIsSubstitution(stack, tokens);
  }

  // ----- Empty bodies -----

  predicate Doubled(tokens: seq<string>, name: string) {
    exists k :: 0 < k < |tokens| && tokens[k - 1] == name && tokens[k] == name
  }

  lemma {:induction false} SubstituteNothing(a: Alias, tokens: seq<string>)
    requires Body(a) == []
    ensures a.name !in Substitute([a], tokens)
    ensures a.name !in tokens ==> Substitute([a], tokens) == tokens
  {
    if tokens != [] {
      SubstituteNothing(a, tokens[1..]);
      assert tokens == [tokens[0]] + tokens[1..];
      assert Meaning([a], tokens[0]) == if a.name == tokens[0] then [] else [tokens[0]];
    }
  }

  /** An alias with an empty body deletes its occurrences, exactly if no two of them are adjacent. */
  lemma {:induction false} EmptyBodyDeletes(a: Alias, tokens: seq<string>)
    requires Body(a) == []
    ensures Expanded(tokens, a.name, []) == Some(Substitute([a], tokens)) <==> !Doubled(tokens, a.name)
    ensures Expanded(tokens, a.name, []).Some?
    decreases |tokens|
  {
    if tokens != [] {
      var rest := tokens[1..];
      assert Meaning([a], tokens[0]) == if a.name == tokens[0] then [] else [tokens[0]];
      if tokens[0] != a.name {
        EmptyBodyDeletes(a, rest);
        DoubledRest(tokens, a.name);
        SamePrefix([tokens[0]], Expanded(rest, a.name, []).value, Substitute([a], rest));
      } else if |tokens| > 1 {
        EmptyBodyDeletes(a, tokens[2..]);
        EmptyBodyPair(a, tokens);
      } else {
        assert rest == [] && Substitute([a], rest) == [];
        assert Meaning([a], tokens[0]) == [];
        assert Expanded(tokens, a.name, []) == Some([]);
        assert Substitute([a], tokens) == [];
      }
    }
  }

  lemma SamePrefix(p: seq<string>, x: seq<string>, y: seq<string>)
    ensures p + x == p + y <==> x == y
  {
    assert (p + x)[|p|..] == x && (p + y)[|p|..] == y;
  }

  lemma DoubledRest(tokens: seq<string>, name: string)
    requires tokens != [] && tokens[0] != name
    ensures Doubled(tokens, name) <==> Doubled(tokens[1..], name)
  {
    var rest := tokens[1..];
    if Doubled(tokens, name) {
      var k :| 0 < k < |tokens| && tokens[k - 1] == name && tokens[k] == name;
      assert rest[k - 1] == name && rest[k - 2] == name;
    }
    if Doubled(rest, name) {
      var k :| 0 < k < |rest| && rest[k - 1] == name && rest[k] == name;
      assert tokens[k + 1] == name && tokens[k] == name;
    }
  }

  lemma EmptyBodyPair(a: Alias, tokens: seq<string>)
    requires Body(a) == [] && |tokens| > 1 && tokens[0] == a.name
    requires Expanded(tokens[2..], a.name, []) == Some(Substitute([a], tokens[2..])) <==> !Doubled(tokens[2..], a.name)
    requires Expanded(tokens[2..], a.name, []).Some?
    ensures Expanded(tokens, a.name, []) == Some(Substitute([a], tokens)) <==> !Doubled(tokens, a.name)
  {
    var second, rest := tokens[1], tokens[2..];
    var e := Expanded(rest, a.name, []).value;
    assert tokens[1..][0] == second && tokens[1..][1..] == rest;
    assert Expanded(tokens, a.name, []) == Some([second] + e);
    assert Meaning([a], second) == if a.name == second then [] else [second];
    SubstituteNothing(a, rest);
    if second == a.name {
      assert tokens[1 - 1] == a.name && tokens[1] == a.name;
      assert Doubled(tokens, a.name);
      assert second in [second] + e;
      assert Substitute([a], tokens) == Substitute([a], rest);
    } else {
      assert Substitute([a], tokens) == [second] + Substitute([a], rest);
      SamePrefix([second], e, Substitute([a], rest));
      DoubledRest(tokens[1..], a.name);
      DoubledTail(tokens, a.name);
    }
  }

  lemma DoubledTail(tokens: seq<string>, name: string)
    requires |tokens| > 1 && tokens[1] != name
    ensures Doubled(tokens, name) <==> Doubled(tokens[1..], name)
  {
    var rest := tokens[1..];
    if Doubled(tokens, name) {
      var k :| 0 < k < |tokens| && tokens[k - 1] == name && tokens[k] == name;
      assert rest[k - 1] == name && rest[k - 2] == name;
    }
    if Doubled(rest, name) {
      var k :| 0 < k < |rest| && rest[k - 1] == name && rest[k] == name;
      assert tokens[k + 1] == name && tokens[k] == name;
    }
  }

  // ----- Definitions -----

  /** An expanded command that defines an alias. */
  predicate Defines(tokens: seq<string>) {
    |tokens| > 1 && tokens[0] == "alias" && "|" !in tokens
  }

  /** The alias stack after a command line, if its expansion ends. */
  function AfterLine(stack: seq<Alias>, tokens: seq<string>): Option<seq<Alias>>
    requires tokens != []
  {
    if tokens[0] == "exit" then Some(stack)
    else
      match ExpandAll(stack, tokens)
      case None => None
      case Some(t) => Some(if Defines(t) then [Alias(t[1], Join(t[2..]))] + stack else stack)
  }

  /** Names and stored bodies as the tokenizer would leave them. */
  predicate WellStored(stack: seq<Alias>) {
    forall k :: 0 <= k < |stack| ==> Proper(stack[k].name) && Join(Body(stack[k])) == stack[k].command
  }

  lemma {:induction false} ExpandedProper(tokens: seq<string>, name: string, body: seq<string>)
    requires AllProper(tokens) && AllProper(body)
    ensures Expanded(tokens, name, body).Some? ==> AllProper(Expanded(tokens, name, body).value)
    decreases |tokens|
  {
    if tokens != [] {
      ExpandedProper(tokens[1..], name, body);
      if |tokens| > 1 {
        ExpandedProper(tokens[2..], name, body);
      }
    }
  }

  lemma {:induction false} ExpandAllProper(stack: seq<Alias>, tokens: seq<string>)
    requires AllProper(tokens)
    ensures ExpandAll(stack, tokens).Some? ==> AllProper(ExpandAll(stack, tokens).value)
  {
    if stack != [] {
      TokensAreProper(stack[0].command, 0);
      ExpandedProper(tokens, stack[0].name, Body(stack[0]));
      var e := Expanded(tokens, stack[0].name, Body(stack[0]));
      if e.Some? {
        ExpandAllProper(stack[1..], e.value);
      }
    }
  }

  /** A definition stores exactly the tokens that follow the name, as far as a later expansion can tell. */
  lemma DefinitionRoundTrip(stack: seq<Alias>, tokens: seq<string>)
    requires tokens != [] && AllProper(tokens) && WellStored(stack) && AfterLine(stack, tokens).Some?
    ensures WellStored(AfterLine(stack, tokens).value)
    ensures tokens[0] != "exit" && Defines(ExpandAll(stack, tokens).value) ==>
      var t := ExpandAll(stack, tokens).value;
      var now := AfterLine(stack, tokens).value;
      now[0].name == t[1] && Body(now[0]) == t[2..] && now[1..] == stack
  {
    if tokens[0] != "exit" {
      ExpandAllProper(stack, tokens);
      var t := ExpandAll(stack, tokens).value;
      if Defines(t) {
        JoinRoundTrip(t[2..]);
      }
    }
  }

  /**
   Only a command of at least two tokens that starts with alias and has no pipe in it defines
   anything; every other line leaves the stack alone, and so does an exit line.
   */
  lemma StackGrowsIff(stack: seq<Alias>, tokens: seq<string>, t: seq<string>)
    requires tokens != [] && tokens[0] != "exit" && ExpandAll(stack, tokens) == Some(t)
    ensures AfterLine(stack, tokens).Some?
    ensures |AfterLine(stack, tokens).value| > |stack| <==> |t| > 1 && t[0] == "alias" && "|" !in t
    ensures |AfterLine(stack, tokens).value| > |stack| ==>
      AfterLine(stack, tokens).value[0] == Alias(t[1], Join(t[2..])) && AfterLine(stack, tokens).value[1..] == stack
    ensures |AfterLine(stack, tokens).value| <= |stack| ==> AfterLine(stack, tokens).value == stack
  {
    var now := AfterLine(stack, tokens).value;
    assert now == stack || now[1..] == stack;
  }

  /** A name that is defined again has its new meaning: whatever else is on the stack, the newest body is put in its place. */
  lemma NewestWins(stack: seq<Alias>, tokens: seq<string>, t: seq<string>, args: seq<string>)
    requires tokens != [] && AllProper(tokens) && WellStored(stack) && tokens[0] != "exit" && ExpandAll(stack, tokens) == Some(t)
    requires |t| > 2 && t[0] == "alias" && "|" !in t && t[1] !in t[2..] && t[1] !in args
    ensures AfterLine(stack, tokens).Some?
    ensures ExpandAll(AfterLine(stack, tokens).value, [t[1]] + args) == ExpandAll(stack, t[2..] + args)
  {
    DefinitionRoundTrip(stack, tokens);
    var now := AfterLine(stack, tokens).value;
    var name, body := t[1], t[2..];
    hide AfterLine, WellStored, Body;
    PassedOver(args, [], name, body);
    assert args + [] == args;
    ExpandedOne(name, name, body);
    ExpandedAppend([name], args, name, body);
  }

  // ----- A translation that is translated again -----

  function AfterLines(stack: seq<Alias>, lines: seq<seq<string>>): Option<seq<Alias>>
    requires forall k :: 0 <= k < |lines| ==> lines[k] != []
    decreases |lines|
  {
    if lines == [] then Some(stack)
    else
      match AfterLine(stack, lines[0])
      case None => None
      case Some(next) => AfterLines(next, lines[1..])
  }

  /** Definitions are never forgotten, and a line adds at most one. */
  lemma {:induction false} DefinitionsStay(stack: seq<Alias>, lines: seq<seq<string>>)
    requires forall k :: 0 <= k < |lines| ==> lines[k] != []
    requires AfterLines(stack, lines).Some?
    ensures var now := AfterLines(stack, lines).value;
      |stack| <= |now| <= |stack| + |lines| && now[|now| - |stack|..] == stack
    decreases |lines|
  {
    if lines != [] {
      var next := AfterLine(stack, lines[0]).value;
      assert next == stack || next[1..] == stack;
      DefinitionsStay(next, lines[1..]);
    }
  }

  lemma LetterBodies()
    ensures Body(Alias("x", "y")) == ["y"] && Body(Alias("y", "z")) == ["z"] && Body(Alias("w", "y")) == ["y"]
  {
    WordIsToken("y");
    WordIsToken("z");
  }

  /**
   The promise fails on a reachable stack: x is defined as y, then y as z, then w as x, which is
   stored as y because the definition is expanded too.  Now w translates to y, and y, an older
   alias, is translated again.
   */
  lemma TranslatedAgain()
    ensures var lines := [["alias", "x", "y"], ["alias", "y", "z"], ["alias", "w", "x"]];
      var stack := AfterLines([], lines);
      && stack == Some([Alias("w", "y"), Alias("y", "z"), Alias("x", "y")])
      && Substitute(stack.value, ["echo", "w"]) == ["echo", "y"]
      && ExpandAll(stack.value, ["echo", "w"]) == Some(["echo", "z"])
  {
    LetterBodies();
    var x, y, w := Alias("x", "y"), Alias("y", "z"), Alias("w", "y");
    var l1, l2, l3 := ["alias", "x", "y"], ["alias", "y", "z"], ["alias", "w", "x"];
    assert ExpandAll([], l1) == Some(l1);
    LineDefines([], l1, l1);
    assert l1[1] == "x" && l1[2] == "y" && [x] + [] == [x];
    assert AfterLine([], l1) == Some([x]);
    SpelledOut(l2, "x", ["y"]);
    assert ExpandAll([x], l2) == Some(l2) by {
      assert ExpandAll([], l2) == Some(l2) && [x][1..] == [];
    }
    LineDefines([x], l2, l2);
    assert l2[1] == "y" && l2[2] == "z" && [y] + [x] == [y, x];
    assert AfterLine([x], l2) == Some([y, x]);
    SpelledOut(l3, "y", ["z"]);
    SpelledOut(l3, "x", ["y"]);
    var t3 := ["alias", "w", "y"];
    assert ExpandAll([y, x], l3) == Some(t3) by {
      assert [y, x][1..] == [x] && [x][1..] == [] && ExpandAll([], t3) == Some(t3);
      assert ExpandAll([x], l3) == Some(t3);
    }
    LineDefines([y, x], l3, t3);
    assert t3[1] == "w" && t3[2] == "y" && [w] + [y, x] == [w, y, x];
    assert AfterLine([y, x], l3) == Some([w, y, x]);
    var lines := [l1, l2, l3];
    assert lines[1..] == [l2, l3] && [l2, l3][1..] == [l3] && [l3][1..] == [];
    var stack := [w, y, x];
    assert stack[1..] == [y, x] && [y, x][1..] == [x] && [x][1..] == [];
    SpelledPair("echo", "w", "w", ["y"]);
    SpelledPair("echo", "y", "y", ["z"]);
    SpelledPair("echo", "z", "x", ["y"]);
    assert ExpandAll([], ["echo", "z"]) == Some(["echo", "z"]);
    assert ExpandAll([x], ["echo", "z"]) == Some(["echo", "z"]);
    assert ExpandAll([y, x], ["echo", "y"]) == Some(["echo", "z"]);
    assert ["echo", "w"][1..] == ["w"] && ["w"][1..] == [];
    assert Meaning([], "echo") == ["echo"];
    assert Meaning([x], "echo") == ["echo"];
    assert Meaning([y, x], "echo") == ["echo"];
    assert Substitute(stack, ["w"]) == ["y"];
  }

  lemma LineDefines(stack: seq<Alias>, l: seq<string>, t: seq<string>)
    requires l != [] && l[0] != "exit" && ExpandAll(stack, l) == Some(t)
    requires |t| == 3 && t[0] == "alias" && t[1] != "|" && t[2] != "|"
    ensures AfterLine(stack, l) == Some([Alias(t[1], t[2])] + stack)
  {
    assert t[2..] == [t[2]];
    assert "|" !in t;
  }

  lemma SpelledPair(p: string, q: string, name: string, body: seq<string>)
    requires p != name && |body| == 1
    ensures Expanded([p, q], name, body) == Some([p, if q == name then body[0] else q])
  {
    assert [p, q][1..] == [q] && [p, q][0] == p;
    ExpandedOne(q, name, body);
    assert body == [body[0]] && !Recurs(name, body);
    var r := if q == name then body[0] else q;
    assert Expanded([q], name, body) == Some([r]);
    assert [p] + [r] == [p, r];
  }

  lemma SpelledOut(l: seq<string>, name: string, body: seq<string>)
    requires |l| == 3 && l[0] != name && l[1] != name && |body| == 1
    ensures Expanded(l, name, body) == Some([l[0], l[1], if l[2] == name then body[0] else l[2]])
  {
    assert l[1..] == [l[1], l[2]];
    SpelledPair(l[1], l[2], name, body);
    var r := if l[2] == name then body[0] else l[2];
    assert [l[0]] + [l[1], r] == [l[0], l[1], r];
  }

  // ----- The shell -----

  class Shell {
    /** The most recently defined alias comes first. */
    var stack: seq<Alias>

    constructor ()
      ensures stack == []
    {
      stack := [];
    }

    /** The three copying loops of a splice. */
    static method Splice(tokens: seq<string>, i: nat, aliasTokens: seq<string>) returns (r: seq<string>)
      requires i < |tokens|
      ensures r == tokens[..i] + aliasTokens + tokens[i + 1..]
    {
      ghost var want := tokens[..i] + aliasTokens + tokens[i + 1..];
      var n := |tokens| + |aliasTokens| - 1;
      var newTokens := new string[n](_ => "");
      var j := 0;
      while j < i
        invariant j <= i && forall x :: 0 <= x < j ==> newTokens[x] == want[x]
      {
        newTokens[j] := tokens[j];
        j := j + 1;
      }
      var k := 0;
      while k < |aliasTokens|
        invariant k <= |aliasTokens| && j == i + k && forall x :: 0 <= x < j ==> newTokens[x] == want[x]
      {
        newTokens[j] := aliasTokens[k];
        j, k := j + 1, k + 1;
      }
      k := i + 1;
      while k < |tokens|
        invariant i < k <= |tokens| && j == k - 1 + |aliasTokens| && forall x :: 0 <= x < j ==> newTokens[x] == want[x]
      {
        newTokens[j] := tokens[k];
        j, k := j + 1, k + 1;
      }
      r := newTokens[..];
      assert r == want;
    }

    /** The expansion loops.  They end exactly if `ExpandAll` has a value. */
    method ExpandTokens(tokens: seq<string>) returns (r: seq<string>)
      requires ExpandAll(stack, tokens).Some?
      ensures ExpandAll(stack, tokens) == Some(r)
    {
      r := tokens;
      for p := 0 to |stack|
        invariant ExpandAll(stack, tokens) == ExpandAll(stack[p..], r)
      {
        assert stack[p..][0] == stack[p] && stack[p..][1..] == stack[p + 1..];
        ghost var result, left := StartScan(r, stack[p].name, Body(stack[p]));
        var i := 0;
        while i < |r|
          invariant result.Some? && Ahead(r, i, stack[p].name, Body(stack[p]), result, left)
          decreases left
        {
          ScanStepKeeps(r, i, stack[p].name, Body(stack[p]), result, left);
          if r[i] == stack[p].name {
            var aliasTokens := ParseCommand(stack[p].command);
            r := Splice(r, i, aliasTokens);
          }
          i := i + 1;
          left := left - 1;
        }
        assert i == |r| ==> r[i..] == [] && r[..i] == r && r + [] == r;
      }
    }

    /** The alias part of run_command: expand, and if the command defines an alias, push it. */
    method RunAlias(tokens: seq<string>) returns (expanded: seq<string>)
      requires tokens != [] && AfterLine(stack, tokens).Some?
      modifies this
      ensures Some(stack) == AfterLine(old(stack), tokens)
      ensures tokens[0] == "exit" ==> stack == old(stack) && expanded == tokens
      ensures tokens[0] != "exit" ==> ExpandAll(old(stack), tokens) == Some(expanded)
      ensures tokens[0] != "exit" && |expanded| > 1 && expanded[0] == "alias" && "|" !in expanded ==>
        stack == [Alias(expanded[1], Join(expanded[2..]))] + old(stack)
      ensures !(tokens[0] != "exit" && |expanded| > 1 && expanded[0] == "alias" && "|" !in expanded) ==> stack == old(stack)
    {
      if tokens[0] == "exit" {
        return tokens;
      }
      expanded := ExpandTokens(tokens);
      if Defines(expanded) {
        var command := JoinTokens(expanded, 2);
        stack := [Alias(expanded[1], command)] + stack;
      }
    }
  }

  lemma StartScan(tokens: seq<string>, name: string, body: seq<string>) returns (result: Option<seq<string>>, left: nat)
    ensures result == Expanded(tokens, name, body) && Ahead(tokens, 0, name, body, result, left)
  {
    result, left := Expanded(tokens, name, body), StepsLeft(tokens, name, body);
    assert tokens[0..] == tokens && tokens[..0] == [];
    assert result.Some? ==> [] + result.value == result.value;
  }
}
