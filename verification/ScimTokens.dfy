/**
 The filter's tokens: what splitting a string into tokens means, the loop that does it
 (scim/filter.go, tokenize), and the way back from tokens to a string.
 */
module ScimTokens {
  import opened Basics

  datatype Token = Word(val: string) | Quoted(val: string) | LParen | RParen | LBracket | RBracket | EOF

  predicate Blank(c: char) {
    c == ' ' || c == '\t'
  }

  /** What ends a word. A quote does not: it only matters where a token starts. */
  predicate Delimiter(c: char) {
    Blank(c) || c == '(' || c == ')' || c == '[' || c == ']'
  }

  function WordLength(s: string): (n: nat)
    ensures n <= |s|
    ensures forall k :: 0 <= k < n ==> !Delimiter(s[k])
    ensures n < |s| ==> Delimiter(s[n])
  {
    if s == "" || Delimiter(s[0]) then 0 else 1 + WordLength(s[1..])
  }

  predicate Escaped(s: string) {
    |s| > 1 && s[0] == '\\' && (s[1] == '"' || s[1] == '\\')
  }

  /** The value of a quoted string, given what follows its opening quote, and what follows its end. */
  function Unquote(s: string): (r: Option<(string, string)>)
    ensures r.Some? ==> |r.value.1| < |s|
  {
    if s == "" then None
    else if s[0] == '"' then Some(("", s[1..]))
    else
      var (c, rest) := if Escaped(s) then (s[1], s[2..]) else (s[0], s[1..]);
      match Unquote(rest)
      case None => None
      case Some((val, after)) => Some(([c] + val, after))
  }

  function Cons(t: Token, ts: Option<seq<Token>>): Option<seq<Token>> {
    if ts.None? then None else Some([t] + ts.value)
  }

  function Symbol(c: char): Option<Token> {
    match c
    case '(' => Some(LParen)
    case ')' => Some(RParen)
    case '[' => Some(LBracket)
    case ']' => Some(RBracket)
    case _ => None
  }

  /** The tokens of a string; None when a quoted string has no end. */
  function Scan(s: string): Option<seq<Token>>
    decreases |s|
  {
    if s == "" then Some([EOF])
    else if Blank(s[0]) then Scan(s[1..])
    else if Symbol(s[0]).Some? then Cons(Symbol(s[0]).value, Scan(s[1..]))
    else if s[0] == '"' then
      match Unquote(s[1..])
      case None => None
      case Some((val, rest)) => Cons(Quoted(val), Scan(rest))
    else
      var n := WordLength(s);
      Cons(Word(s[..n]), Scan(s[n..]))
  }

  function After(toks: seq<Token>, rest: Option<seq<Token>>): Option<seq<Token>> {
    if rest.None? then None else Some(toks + rest.value)
  }

  lemma AfterNone(r: Option<seq<Token>>)
    ensures After([], r) == r
  {
    if r.Some? {
      assert [] + r.value == r.value;
    }
  }

  lemma AfterCons(toks: seq<Token>, t: Token, r: Option<seq<Token>>)
    ensures After(toks, Cons(t, r)) == After(toks + [t], r)
  {
    if r.Some? {
      assert toks + ([t] + r.value) == (toks + [t]) + r.value;
    }
  }

  /** One turn of the loop: the token found at `i` of `s`, if any, and where the next turn starts. */
  lemma ScanStep(s: string, i: nat, toks: seq<Token>, toks': seq<Token>, i': nat)
    requires i < i' <= |s|
    requires Scan(s) == After(toks, Scan(s[i..]))
    requires
      || (toks' == toks && Scan(s[i..]) == Scan(s[i'..]))
      || exists t :: toks' == toks + [t] && Scan(s[i..]) == Cons(t, Scan(s[i'..]))
    ensures Scan(s) == After(toks', Scan(s[i'..]))
  {
    hide Scan;
    if t :| toks' == toks + [t] && Scan(s[i..]) == Cons(t, Scan(s[i'..])) {
      AfterCons(toks, t, Scan(s[i'..]));
    }
  }

  function Join(val: string, r: Option<(string, string)>): Option<(string, string)> {
    if r.None? then None else Some((val + r.value.0, r.value.1))
  }

  lemma JoinStep(val: string, s: string, c: char, rest: string)
    requires s != "" && s[0] != '"'
    requires (c, rest) == if Escaped(s) then (s[1], s[2..]) else (s[0], s[1..])
    ensures Join(val, Unquote(s)) == Join(val + [c], Unquote(rest))
  {
    if Unquote(rest).Some? {
      assert val + ([c] + Unquote(rest).value.0) == (val + [c]) + Unquote(rest).value.0;
    }
  }

  lemma WordEnds(s: string, n: nat)
    requires n <= |s|
    requires forall k :: 0 <= k < n ==> !Delimiter(s[k])
    requires n == |s| || Delimiter(s[n])
    ensures WordLength(s) == n
  {
  }

  lemma WordAt(s: string, i: nat, j: nat)
    requires i <= j <= |s| && i < |s|
    requires forall k :: i <= k < j ==> !Delimiter(s[k])
    requires j == |s| || Delimiter(s[j])
    requires !Delimiter(s[i]) && s[i] != '"'
    ensures i < j
    ensures Scan(s[i..]) == Cons(Word(s[i..j]), Scan(s[j..]))
  {
    WordEnds(s[i..], j - i);
    assert s[i..][..j - i] == s[i..j];
    assert s[i..][j - i..] == s[j..];
  }

  /** What is scanned next, words aside. */
  lemma ScanAt(s: string, i: nat)
    requires i <= |s|
    ensures i == |s| ==> Scan(s[i..]) == Some([EOF])
    ensures i < |s| && Blank(s[i]) ==> Scan(s[i..]) == Scan(s[i + 1..])
    ensures i < |s| && !Blank(s[i]) && Symbol(s[i]).Some? ==> Scan(s[i..]) == Cons(Symbol(s[i]).value, Scan(s[i + 1..]))
    ensures i < |s| && s[i] == '"' ==>
      Scan(s[i..]) == match Unquote(s[i + 1..])
                      case None => None
                      case Some((val, rest)) => Cons(Quoted(val), Scan(rest))
  {
    if i < |s| {
      assert s[i..][1..] == s[i + 1..];
    }
  }

  method Tokenize(s: string) returns (toks: seq<Token>, ok: bool)
    ensures ok <==> Scan(s).Some?
    ensures ok ==> toks == Scan(s).value
  {
    hide Scan, Unquote, WordLength, Cons;
    toks := [];
    var i, n := 0, |s|;
    assert s[0..] == s;
    AfterNone(Scan(s));
    while i < n
      invariant 0 <= i <= n == |s|
      invariant Scan(s) == After(toks, Scan(s[i..]))
    {
      ghost var was, start := toks, i;
      var c := s[i];
      ScanAt(s, i);
      if c == ' ' || c == '\t' {
        i := i + 1;
      } else if c == '(' {
        toks := toks + [LParen];
        i := i + 1;
      } else if c == ')' {
        toks := toks + [RParen];
        i := i + 1;
      } else if c == '[' {
        toks := toks + [LBracket];
        i := i + 1;
      } else if c == ']' {
        toks := toks + [RBracket];
        i := i + 1;
      } else if c == '"' {
        var val, j, closed := ReadQuoted(s, i + 1);
        if !closed {
          return toks, false;
        }
        toks := toks + [Quoted(val)];
        i := j + 1;
      } else {
        var j := ReadWord(s, i);
        toks := toks + [Word(s[i..j])];
        i := j;
      }
      ScanStep(s, start, was, toks, i);
    }
    ScanAt(s, n);
    toks := toks + [EOF];
    return toks, true;
  }

  /** The inner loop of Tokenize for a quoted string: `start` is just past the opening quote. */
  method ReadQuoted(s: string, start: nat) returns (val: string, j: nat, closed: bool)
    requires start <= |s|
    ensures closed <==> Unquote(s[start..]).Some?
    ensures closed ==> start <= j < |s| && Unquote(s[start..]).value == (val, s[j + 1..])
  {
    var n := |s|;
    val, j := "", start;
    assert Unquote(s[start..]).Some? ==> "" + Unquote(s[start..]).value.0 == Unquote(s[start..]).value.0;
    while j < n && s[j] != '"'
      invariant start <= j <= n
      invariant Unquote(s[start..]) == Join(val, Unquote(s[j..]))
    {
      if s[j] == '\\' && j + 1 < n && (s[j + 1] == '"' || s[j + 1] == '\\') {
        assert s[j..][2..] == s[j + 2..];
        JoinStep(val, s[j..], s[j + 1], s[j + 2..]);
        val := val + [s[j + 1]];
        j := j + 2;
      } else {
        assert s[j..][1..] == s[j + 1..];
        JoinStep(val, s[j..], s[j], s[j + 1..]);
        val := val + [s[j]];
        j := j + 1;
      }
    }
    closed := j < n;
    if closed {
      assert s[j..][1..] == s[j + 1..];
      assert val + "" == val;
    }
  }

  /** The inner loop of Tokenize for a word. */
  method ReadWord(s: string, i: nat) returns (j: nat)
    requires i < |s| && !Delimiter(s[i]) && s[i] != '"'
    ensures i < j <= |s| && Scan(s[i..]) == Cons(Word(s[i..j]), Scan(s[j..]))
  {
    j := i;
    while j < |s| && s[j] != ' ' && s[j] != '\t' && s[j] != '(' && s[j] != ')' && s[j] != '[' && s[j] != ']'
      invariant i <= j <= |s|
      invariant forall k :: i <= k < j ==> !Delimiter(s[k])
    {
      j := j + 1;
    }
    WordAt(s, i, j);
  }
}
