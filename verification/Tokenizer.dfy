/** The shell's tokenizer: maximal runs of non-delimiters, in order. */
module Tokenizer {
  import opened Seqs

  predicate Delimiter(c: char) {
    c == ' ' || c == '\t' || c == '\r' || c == '\U{000C}' || c == '\n' || c == '\U{000B}'
  }

  /** What a token looks like. */
  predicate Proper(w: string) {
    w != "" && forall k :: 0 <= k < |w| ==> !Delimiter(w[k])
  }

  predicate AllProper(ws: seq<string>) {
    forall k :: 0 <= k < |ws| ==> Proper(ws[k])
  }

  // ----- Specification -----

  /** Where the next token starts, from position i on. */
  function TokenStart(s: string, i: nat): (a: nat)
    requires i <= |s|
    ensures i <= a <= |s|
    decreases |s| - i
  {
    if i < |s| && Delimiter(s[i]) then TokenStart(s, i + 1) else i
  }

  /** Where the token that covers position i ends. */
  function TokenEnd(s: string, i: nat): (b: nat)
    requires i <= |s|
    ensures i <= b <= |s|
    decreases |s| - i
  {
    if i < |s| && !Delimiter(s[i]) then TokenEnd(s, i + 1) else i
  }

  /** The tokens of a command from position i on. */
  function Tokenize(s: string, i: nat): seq<string>
    requires i <= |s|
    decreases |s| - i
  {
    var a := TokenStart(s, i);
    if a == |s| then [] else [s[a..TokenEnd(s, a)]] + Tokenize(s, TokenEnd(s, a))
  }

  /** The tokens of a command joined with single spaces, as alias definitions are stored. */
  function Join(ws: seq<string>): string {
    if ws == [] then "" else if |ws| == 1 then ws[0] else ws[0] + " " + Join(ws[1..])
  }

  // ----- The loops -----

  /** One call of strtok from position `from` on: the token, if there is one, and where the next call resumes. */
  method Strtok(s: string, from: nat) returns (found: bool, token: string, next: nat)
    requires from <= |s|
    ensures next <= |s|
    ensures found <==> TokenStart(s, from) < |s|
    ensures found ==> from < next == TokenEnd(s, TokenStart(s, from)) && token == s[TokenStart(s, from)..next]
  {
    var a := from;
    while a < |s| && Delimiter(s[a])
      invariant from <= a <= |s| && TokenStart(s, from) == TokenStart(s, a)
    {
      a := a + 1;
    }
    if a == |s| {
      return false, "", a;
    }
    var b := a;
    while b < |s| && !Delimiter(s[b])
      invariant a <= b <= |s| && TokenEnd(s, a) == TokenEnd(s, b)
    {
      b := b + 1;
    }
    return true, s[a..b], b;
  }

  method ParseCommand(command: string) returns (tokens: seq<string>)
    ensures tokens == Tokenize(command, 0)
  {
    tokens := [];
    var found, curr, next := Strtok(command, 0);
    ghost var from := 0;
    while found
      invariant from <= |command| && next <= |command|
      invariant Tokenize(command, 0) == tokens + Tokenize(command, from)
      invariant found <==> TokenStart(command, from) < |command|
      invariant found ==>
        from < next == TokenEnd(command, TokenStart(command, from)) && curr == command[TokenStart(command, from)..next]
      decreases |command| - from
    {
      tokens := tokens + [curr];
      from := next;
      found, curr, next := Strtok(command, next);
    }
  }

  /** The strcat loop of an alias definition. */
  method JoinTokens(tokens: seq<string>, first: nat) returns (command: string)
    requires first <= |tokens|
    ensures command == Join(tokens[first..])
  {
    command := "";
    for i := first to |tokens|
      invariant Join(tokens[first..]) == command + Join(tokens[i..])
    {
      assert tokens[i..][1..] == tokens[i + 1..];
      command := command + tokens[i];
      if i < |tokens| - 1 {
        command := command + " ";
      }
    }
  }

  // ----- What tokenizing means -----

  /** A token starts at the first position that is not a delimiter. */
  lemma {:induction false} StartMeans(s: string, i: nat)
    requires i <= |s|
    ensures var a := TokenStart(s, i); (a < |s| ==> !Delimiter(s[a])) && forall k :: i <= k < a ==> Delimiter(s[k])
    decreases |s| - i
  {
    if i < |s| && Delimiter(s[i]) {
      StartMeans(s, i + 1);
    }
  }

  /** And ends before the next delimiter, so that tokens are maximal. */
  lemma {:induction false} EndMeans(s: string, i: nat)
    requires i <= |s|
    ensures var b := TokenEnd(s, i); (b < |s| ==> Delimiter(s[b])) && forall k :: i <= k < b ==> !Delimiter(s[k])
    ensures i < |s| && !Delimiter(s[i]) ==> TokenEnd(s, i) > i
    decreases |s| - i
  {
    if i < |s| && !Delimiter(s[i]) {
      EndMeans(s, i + 1);
    }
  }

  lemma {:induction false} TokensAreProper(s: string, i: nat)
    requires i <= |s|
    ensures AllProper(Tokenize(s, i))
    decreases |s| - i
  {
    var a := TokenStart(s, i);
    StartMeans(s, i);
    if a < |s| {
      EndMeans(s, a);
      TokensAreProper(s, TokenEnd(s, a));
    }
  }

  lemma {:induction false} StartShifts(w: string, n: nat, i: nat)
    requires n + i <= |w|
    ensures TokenStart(w, n + i) == n + TokenStart(w[n..], i)
    decreases |w| - i
  {
    if n + i < |w| {
      StartShifts(w, n, i + 1);
    }
  }

  lemma {:induction false} EndShifts(w: string, n: nat, i: nat)
    requires n + i <= |w|
    ensures TokenEnd(w, n + i) == n + TokenEnd(w[n..], i)
    decreases |w| - i
  {
    if n + i < |w| {
      EndShifts(w, n, i + 1);
    }
  }

  lemma SameSlice(w: string, n: nat, a: nat, b: nat)
    requires a <= b && n + b <= |w|
    ensures w[n + a..n + b] == w[n..][a..b]
  {
  }

  /** Two positions with the same next token and the same tokens after it. */
  lemma SameTokens(w: string, i: nat, s: string, j: nat)
    requires i <= |w| && j <= |s|
    requires TokenStart(w, i) == |w| <==> TokenStart(s, j) == |s|
    requires TokenStart(w, i) < |w| ==>
      var a, b := TokenStart(w, i), TokenStart(s, j);
      w[a..TokenEnd(w, a)] == s[b..TokenEnd(s, b)] && Tokenize(w, TokenEnd(w, a)) == Tokenize(s, TokenEnd(s, b))
    ensures Tokenize(w, i) == Tokenize(s, j)
  {
    hide TokenStart, TokenEnd;
  }

  /** What comes before the starting position does not matter. */
  lemma {:induction false} TokensShift(w: string, n: nat, i: nat)
    requires n + i <= |w|
    ensures Tokenize(w, n + i) == Tokenize(w[n..], i)
    decreases |w| - i
  {
    hide TokenStart, Tokenize;
    var s := w[n..];
    StartShifts(w, n, i);
    var a := TokenStart(s, i);
    StartMeans(s, i);
    if a < |s| {
      EndShifts(w, n, a);
      TokensShift(w, n, TokenEnd(s, a));
      SameSlice(w, n, a, TokenEnd(s, a));
    }
    SameTokens(w, n + i, s, i);
  }

  lemma {:induction false} StartInFront(s: string, d: char, t: string, i: nat)
    requires i <= |s| && Delimiter(d)
    ensures TokenStart(s + [d] + t, i) ==
      if TokenStart(s, i) < |s| then TokenStart(s, i) else |s| + 1 + TokenStart(t, 0)
    decreases |s| - i
  {
    var w := s + [d] + t;
    if i < |s| {
      assert w[i] == s[i];
      StartInFront(s, d, t, i + 1);
    } else {
      assert w[|s| + 1..] == t && w[|s|] == d;
      StartShifts(w, |s| + 1, 0);
    }
  }

  lemma {:induction false} EndInFront(s: string, d: char, t: string, i: nat)
    requires i <= |s| && Delimiter(d)
    ensures TokenEnd(s + [d] + t, i) == TokenEnd(s, i)
    decreases |s| - i
  {
    var w := s + [d] + t;
    if i < |s| {
      assert w[i] == s[i];
      EndInFront(s, d, t, i + 1);
    } else {
      assert w[|s|] == d;
    }
  }

  /** A delimiter separates: the tokens of the whole are those of the two sides, in order. */
  lemma {:induction false} DelimiterSeparates(s: string, d: char, t: string, i: nat)
    requires i <= |s| && Delimiter(d)
    ensures Tokenize(s + [d] + t, i) == Tokenize(s, i) + Tokenize(t, 0)
    decreases |s| - i
  {
    var w := s + [d] + t;
    StartInFront(s, d, t, i);
    var a := TokenStart(s, i);
    hide TokenStart, TokenEnd;
    if a < |s| {
      var b := TokenEnd(s, a);
      EndInFront(s, d, t, a);
      DelimiterSeparates(s, d, t, b);
      assert w[a..b] == s[a..b];
      assert [s[a..b]] + (Tokenize(s, b) + Tokenize(t, 0)) == ([s[a..b]] + Tokenize(s, b)) + Tokenize(t, 0);
    } else {
      AfterDelimiter(s, d, t, i);
    }
  }

  lemma AfterDelimiter(s: string, d: char, t: string, i: nat)
    requires i <= |s| && Delimiter(d) && TokenStart(s, i) == |s|
    ensures Tokenize(s + [d] + t, i) == Tokenize(t, 0)
  {
    var w := s + [d] + t;
    StartInFront(s, d, t, i);
    assert w[|s| + 1..] == t;
    StartShifts(w, |s| + 1, 0);
    TokensShift(w, |s| + 1, 0);
    hide TokenStart, TokenEnd;
    assert TokenStart(w, i) == TokenStart(w, |s| + 1);
  }

  /** A word without delimiters is one token. */
  lemma {:induction false} WordIsToken(w: string)
    requires Proper(w)
    ensures Tokenize(w, 0) == [w]
  {
    StartMeans(w, 0);
    EndMeans(w, 0);
    assert TokenStart(w, 0) == 0;
    assert TokenEnd(w, 0) == |w|;
    assert w[0..|w|] == w;
  }

  /** The round trip: a body joined with single spaces tokenizes to the same tokens. */
  lemma {:induction false} JoinRoundTrip(ws: seq<string>)
    requires AllProper(ws)
    ensures Tokenize(Join(ws), 0) == ws
  {
    if |ws| == 1 {
      WordIsToken(ws[0]);
    } else if |ws| > 1 {
      WordIsToken(ws[0]);
      JoinRoundTrip(ws[1..]);
      DelimiterSeparates(ws[0], ' ', Join(ws[1..]), 0);
    }
  }

  /** Retokenizing normalises: runs of delimiters count as one space, and nothing else changes. */
  lemma RetokenizeStable(s: string)
    ensures Tokenize(Join(Tokenize(s, 0)), 0) == Tokenize(s, 0)
  {
    TokensAreProper(s, 0);
    JoinRoundTrip(Tokenize(s, 0));
  }

  // ----- The law of tokenizing, in the characters themselves -----

  /**
   The words of the text from position `from` on, the m-th at starts[m] up to ends[m]: nonempty, free
   of blanks, bounded on both sides by a blank or the end of the text, in order; and whatever is
   not a blank is in some word.
   */
  ghost predicate Cut(s: string, from: nat, blanks: set<char>, words: seq<string>, starts: seq<nat>, ends: seq<nat>) {
    && from <= |s| && |starts| == |ends| == |words|
    && (forall m :: 0 <= m < |words| ==> from <= starts[m] < ends[m] <= |s| && words[m] == s[starts[m]..ends[m]])
    && (forall m :: 0 <= m < |words| && starts[m] != from ==> s[starts[m] - 1] in blanks)
    && (forall m :: 0 <= m < |words| && ends[m] != |s| ==> s[ends[m]] in blanks)
    && (forall m, k :: 0 <= m < |words| && starts[m] <= k < ends[m] ==> s[k] !in blanks)
    && (forall m, n :: 0 <= m < n < |words| ==> ends[m] <= starts[n])
    && (forall k :: from <= k < |s| && s[k] !in blanks ==> InWord(k, starts, ends))
  }

  ghost predicate InWord(k: nat, starts: seq<nat>, ends: seq<nat>) {
    exists m :: 0 <= m < |starts| == |ends| && starts[m] <= k < ends[m]
  }

  lemma NothingToCut(s: string, from: nat, blanks: set<char>)
    requires from <= |s| && forall k :: from <= k < |s| ==> s[k] in blanks
    ensures Cut(s, from, blanks, [], [], [])
  {
  }

  lemma InLaterWord(k: nat, a: nat, b: nat, starts: seq<nat>, ends: seq<nat>)
    requires InWord(k, starts, ends)
    ensures InWord(k, [a] + starts, [b] + ends)
  {
    var m :| 0 <= m < |starts| == |ends| && starts[m] <= k < ends[m];
    assert ([a] + starts)[m + 1] == starts[m] && ([b] + ends)[m + 1] == ends[m];
  }

  lemma CoversOneMore(s: string, from: nat, blanks: set<char>, a: nat, b: nat, starts: seq<nat>, ends: seq<nat>)
    requires from <= a < b <= |s| && |starts| == |ends|
    requires forall k :: b <= k < |s| && s[k] !in blanks ==> InWord(k, starts, ends)
    requires forall k :: from <= k < a ==> s[k] in blanks
    ensures forall k :: from <= k < |s| && s[k] !in blanks ==> InWord(k, [a] + starts, [b] + ends)
  {
    forall k | from <= k < |s| && s[k] !in blanks ensures InWord(k, [a] + starts, [b] + ends) {
      if k < b {
        assert ([a] + starts)[0] <= k < ([b] + ends)[0];
      } else {
        InLaterWord(k, a, b, starts, ends);
      }
    }
  }

  lemma CutOneMore(s: string, from: nat, blanks: set<char>, a: nat, b: nat, words: seq<string>, starts: seq<nat>, ends: seq<nat>)
    requires from <= a < b <= |s| && Cut(s, b, blanks, words, starts, ends)
    requires b < |s| ==> s[b] in blanks
    requires forall k :: a <= k < b ==> s[k] !in blanks
    requires forall k :: from <= k < a ==> s[k] in blanks
    ensures Cut(s, from, blanks, [s[a..b]] + words, [a] + starts, [b] + ends)
  {
    hide InWord;
    CoversOneMore(s, from, blanks, a, b, starts, ends);
    var words', starts', ends' := [s[a..b]] + words, [a] + starts, [b] + ends;
    forall m | 0 <= m < |words'|
      ensures from <= starts'[m] < ends'[m] <= |s| && words'[m] == s[starts'[m]..ends'[m]]
      ensures starts'[m] != from ==> s[starts'[m] - 1] in blanks
      ensures ends'[m] != |s| ==> s[ends'[m]] in blanks
      ensures forall k :: starts'[m] <= k < ends'[m] ==> s[k] !in blanks
      ensures m > 0 ==> b <= starts'[m]
    {
      if m > 0 {
        OneWord(s, b, blanks, words, starts, ends, m - 1);
      }
    }
    assert forall m, n :: 0 <= m < n < |words'| ==> ends'[m] <= starts'[n];
  }

  lemma OneWord(s: string, from: nat, blanks: set<char>, words: seq<string>, starts: seq<nat>, ends: seq<nat>, m: nat)
    requires Cut(s, from, blanks, words, starts, ends) && m < |words|
    ensures from <= starts[m] < ends[m] <= |s| && words[m] == s[starts[m]..ends[m]]
    ensures starts[m] != from ==> s[starts[m] - 1] in blanks
    ensures ends[m] != |s| ==> s[ends[m]] in blanks
    ensures forall k :: starts[m] <= k < ends[m] ==> s[k] !in blanks
  {
    hide InWord;
  }

  lemma SixBlanks(blanks: set<char>)
    requires blanks == {' ', '\t', '\r', '\U{000C}', '\n', '\U{000B}'}
    ensures forall c :: Delimiter(c) <==> c in blanks
  {
  }

  lemma {:induction false} CutsFrom(s: string, from: nat, blanks: set<char>) returns (starts: seq<nat>, ends: seq<nat>)
    requires from <= |s| && forall c :: Delimiter(c) <==> c in blanks
    ensures Cut(s, from, blanks, Tokenize(s, from), starts, ends)
    decreases |s| - from
  {
    hide Cut, TokenStart, TokenEnd, Delimiter;
    var a := TokenStart(s, from);
    StartMeans(s, from);
    if a < |s| {
      var b := TokenEnd(s, a);
      EndMeans(s, a);
      starts, ends := CutsFrom(s, b, blanks);
      CutOneMore(s, from, blanks, a, b, Tokenize(s, b), starts, ends);
      starts, ends := [a] + starts, [b] + ends;
    } else {
      NothingToCut(s, from, blanks);
      starts, ends := [], [];
    }
  }

  /** A command is cut at the six characters of the delimiter string and nowhere else. */
  lemma TokensCut(s: string, blanks: set<char>) returns (starts: seq<nat>, ends: seq<nat>)
    requires blanks == {' ', '\t', '\r', '\U{000C}', '\n', '\U{000B}'}
    ensures Cut(s, 0, blanks, Tokenize(s, 0), starts, ends)
  {
    SixBlanks(blanks);
    starts, ends := CutsFrom(s, 0, blanks);
  }

  /** The first word of a cut is where the scan finds it. */
  lemma FirstWord(s: string, from: nat, blanks: set<char>, words: seq<string>, starts: seq<nat>, ends: seq<nat>)
    requires Cut(s, from, blanks, words, starts, ends) && forall c :: Delimiter(c) <==> c in blanks
    ensures words == [] <==> TokenStart(s, from) == |s|
    ensures words != [] ==> TokenStart(s, from) == starts[0] && TokenEnd(s, starts[0]) == ends[0]
  {
    hide TokenStart, TokenEnd, Delimiter;
    var a := TokenStart(s, from);
    StartMeans(s, from);
    assert words != [] ==> s[starts[0]] !in blanks;
    if a < |s| {
      assert InWord(a, starts, ends);
      assert a == starts[0];
      EndMeans(s, a);
    }
  }

  lemma InRestOfWords(k: nat, starts: seq<nat>, ends: seq<nat>)
    requires InWord(k, starts, ends) && ends[0] <= k
    ensures InWord(k, starts[1..], ends[1..])
  {
    var m :| 0 <= m < |starts| == |ends| && starts[m] <= k < ends[m];
    assert starts[1..][m - 1] == starts[m] && ends[1..][m - 1] == ends[m];
  }

  lemma RestIsCut(s: string, from: nat, blanks: set<char>, words: seq<string>, starts: seq<nat>, ends: seq<nat>)
    requires Cut(s, from, blanks, words, starts, ends) && words != []
    ensures Cut(s, ends[0], blanks, words[1..], starts[1..], ends[1..])
  {
    hide InWord;
    forall k | ends[0] <= k < |s| && s[k] !in blanks ensures InWord(k, starts[1..], ends[1..]) {
      InRestOfWords(k, starts, ends);
    }
  }

  lemma {:induction false} CutIsTokenize(s: string, from: nat, blanks: set<char>, words: seq<string>, starts: seq<nat>, ends: seq<nat>)
    requires Cut(s, from, blanks, words, starts, ends) && forall c :: Delimiter(c) <==> c in blanks
    ensures words == Tokenize(s, from)
    decreases |words|
  {
    FirstWord(s, from, blanks, words, starts, ends);
    if words != [] {
      RestIsCut(s, from, blanks, words, starts, ends);
      assert words == [s[starts[0]..ends[0]]] + words[1..];
      hide Cut, TokenStart, TokenEnd, Delimiter;
      CutIsTokenize(s, ends[0], blanks, words[1..], starts[1..], ends[1..]);
    }
  }

  /** There is no other way to cut it: the law determines the tokens. */
  lemma CutIsUnique(s: string, blanks: set<char>, words: seq<string>, starts: seq<nat>, ends: seq<nat>)
    requires blanks == {' ', '\t', '\r', '\U{000C}', '\n', '\U{000B}'}
    requires Cut(s, 0, blanks, words, starts, ends)
    ensures words == Tokenize(s, 0)
  {
    hide Cut;
    SixBlanks(blanks);
    CutIsTokenize(s, 0, blanks, words, starts, ends);
  }

  /** The newline that ends a line read from the input makes no difference. */
  lemma NewlineIgnored(line: string)
    ensures Tokenize(line + "\n", 0) == Tokenize(line, 0)
  {
    DelimiterSeparates(line, '\n', "", 0);
    assert line + ['\n'] + "" == line + "\n";
  }

  /** Joining puts one space between two words and nothing around them. */
  lemma {:induction false} JoinAppend(a: seq<string>, b: seq<string>)
    ensures a != [] && b != [] ==> Join(a + b) == Join(a) + " " + Join(b)
    ensures forall w :: Join([w]) == w
    ensures Join([]) == ""
  {
    if |a| == 1 && b != [] {
      assert (a + b)[1..] == b;
    } else if |a| > 1 && b != [] {
      JoinAppend(a[1..], b);
      assert (a + b)[1..] == a[1..] + b;
      assert a[0] + " " + (Join(a[1..]) + " " + Join(b)) == a[0] + " " + Join(a[1..]) + " " + Join(b);
    }
  }

  /** The characters that are not delimiters. */
  function Ink(s: string): string {
    if s == "" then "" else (if Delimiter(s[0]) then "" else [s[0]]) + Ink(s[1..])
  }

  function Concat(ws: seq<string>): string {
    if ws == [] then "" else ws[0] + Concat(ws[1..])
  }

  lemma InkOf(s: string)
    requires s != ""
    ensures Ink(s) == (if Delimiter(s[0]) then "" else [s[0]]) + Ink(s[1..])
  {
  }

  lemma {:induction false} InkAppend(s: string, t: string)
    ensures Ink(s + t) == Ink(s) + Ink(t)
  {
    if s == "" {
      assert s + t == t;
    } else {
      InkAppend(s[1..], t);
      var u := s + t;
      assert u != "" && u[0] == s[0] && u[1..] == s[1..] + t;
      InkOf(u);
      InkOf(s);
      hide Ink;
      Associates(if Delimiter(s[0]) then "" else [s[0]], Ink(s[1..]), Ink(t));
    }
  }

  lemma {:induction false} InkOfBlank(s: string)
    requires forall k :: 0 <= k < |s| ==> Delimiter(s[k])
    ensures Ink(s) == ""
  {
    if s != "" {
      InkOfBlank(s[1..]);
    }
  }

  lemma {:induction false} InkOfWord(s: string)
    requires forall k :: 0 <= k < |s| ==> !Delimiter(s[k])
    ensures Ink(s) == s
  {
    if s != "" {
      InkOfWord(s[1..]);
      assert s == [s[0]] + s[1..];
    }
  }

  lemma InkSplit(s: string, i: nat, a: nat)
    requires i <= a <= |s|
    ensures Ink(s[i..]) == Ink(s[i..a]) + Ink(s[a..])
  {
    assert s[i..] == s[i..a] + s[a..];
    InkAppend(s[i..a], s[a..]);
  }

  lemma ConcatCons(w: string, ws: seq<string>)
    ensures Concat([w] + ws) == w + Concat(ws)
  {
    assert ([w] + ws)[1..] == ws;
  }

  /** No character is lost or moved: the tokens run together are the command without its delimiters. */
  lemma {:induction false} TokensKeepInk(s: string, i: nat)
    requires i <= |s|
    ensures Concat(Tokenize(s, i)) == Ink(s[i..])
    decreases |s| - i
  {
    var a := TokenStart(s, i);
    StartMeans(s, i);
    InkSplit(s, i, a);
    InkOfBlank(s[i..a]);
    if a < |s| {
      var b := TokenEnd(s, a);
      EndMeans(s, a);
      InkSplit(s, a, b);
      InkOfWord(s[a..b]);
      TokensKeepInk(s, b);
      ConcatCons(s[a..b], Tokenize(s, b));
    } else {
      assert s[a..] == "";
    }
  }
}
