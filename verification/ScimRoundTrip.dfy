/**
 Printing a filter tree with the fewest parentheses and reading it back (scim/filter.go:162-374).
 Which trees the compiler can produce is stated exactly, the nesting limit included.
 */
module ScimRoundTrip {
  import opened Basics
  import opened AsciiText
  import opened ScimFilter
  import opened ScimTokens
  import opened ScimGrammar
  import opened ScimDerivation

  // ---- printing ------------------------------------------------------------------------------

  function OpName(op: Op): (name: string)
    ensures OpOf(name) == Some(op) && Lower(name) == name && name != "pr" && IsWord(name)
  {
    match op
    case Eq => "eq"
    case Ne => "ne"
    case Co => "co"
    case Sw => "sw"
    case Ew => "ew"
    case Gt => "gt"
    case Ge => "ge"
    case Lt => "lt"
    case Le => "le"
  }

  /** How a tree is spelled where an "or", an "and" or neither may stand without parentheses. */
  function OrForm(f: Filter): Derivation
    decreases f, 3
  {
    match f
    case Or(l, r) => Either(OrForm(l), "or", AndForm(r))
    case _ => AndForm(f)
  }

  function AndForm(f: Filter): Derivation
    decreases f, 2
  {
    match f
    case And(l, r) => Both(AndForm(l), "and", NotForm(r))
    case _ => NotForm(f)
  }

  function NotForm(f: Filter): Derivation
    decreases f, 1
  {
    match f
    case Or(l, r) => Grouped(Either(OrForm(l), "or", AndForm(r)))
    case And(l, r) => Grouped(Both(AndForm(l), "and", NotForm(r)))
    case Not(g) => Negated("not", OrForm(g))
    case ValuePath(attr, g) => Path(attr, OrForm(g))
    case Present(attr) => Has(attr, "pr")
    case Compare(attr, op, want) => Test(attr, OpName(op), Quoted(want))
  }

  function Escape(v: string): string {
    if v == "" then ""
    else (if v[0] == '"' || v[0] == '\\' then ['\\', v[0]] else [v[0]]) + Escape(v[1..])
  }

  function TokenText(t: Token): string {
    match t
    case Word(val) => val + " "
    case Quoted(val) => "\"" + Escape(val) + "\" "
    case LParen => "("
    case RParen => ") "
    case LBracket => "["
    case RBracket => "] "
    case EOF => ""
  }

  function Text(ts: seq<Token>): string {
    if ts == [] then "" else TokenText(ts[0]) + Text(ts[1..])
  }

  function Print(f: Filter): string {
    Text(Yield(OrForm(f)))
  }

  /** Text that scans as one word. */
  predicate IsWord(s: string) {
    s != "" && s[0] != '"' && forall k :: 0 <= k < |s| ==> !Delimiter(s[k])
  }

  predicate IsAttr(attr: string) {
    IsWord(attr) && Lower(attr) == attr && attr != "not"
  }

  predicate WellFormed(f: Filter) {
    match f
    case Or(l, r) => WellFormed(l) && WellFormed(r)
    case And(l, r) => WellFormed(l) && WellFormed(r)
    case Not(g) => WellFormed(g)
    case ValuePath(attr, g) => IsAttr(attr) && WellFormed(g)
    case Present(attr) => IsAttr(attr)
    case Compare(attr, _, _) => IsAttr(attr)
  }

  predicate Printable(f: Filter) {
    WellFormed(f) && 1 + Depth(OrForm(f)) <= MAX_FILTER_DEPTH
  }

  /** What the three forms have in common and where they differ. */
  lemma FormsRelate(f: Filter)
    ensures !f.Or? ==> OrForm(f) == AndForm(f)
    ensures !f.Or? && !f.And? ==> AndForm(f) == NotForm(f)
    ensures f.Or? ==> AndForm(f) == NotForm(f)
    ensures f.Or? || f.And? ==> NotForm(f) == Grouped(OrForm(f))
  {
  }

  /** Each form derives the tree where it may stand. */
  lemma {:induction false} FormsMean(f: Filter)
    requires WellFormed(f)
    ensures AtOr(OrForm(f)) && AtAnd(AndForm(f)) && AtNot(NotForm(f))
    ensures Meaning(OrForm(f)) == Meaning(AndForm(f)) == Meaning(NotForm(f)) == f
  {
    hide IsWord;
    FormsRelate(f);
    Keywords();
    match f
    case Or(l, r) =>
      FormsMean(l);
      FormsMean(r);
      NotIsAll(NotForm(f));
    case And(l, r) =>
      FormsMean(l);
      FormsMean(r);
      AndIsOr(AndForm(f));
    case Not(g) =>
      FormsMean(g);
      NotIsAll(NotForm(f));
    case ValuePath(attr, g) =>
      FormsMean(g);
      NotIsAll(NotForm(f));
    case Present(_) => NotIsAll(NotForm(f));
    case Compare(_, _, _) => NotIsAll(NotForm(f));
  }

  lemma NotIsAll(d: Derivation)
    ensures AtNot(d) ==> AtAnd(d) && AtOr(d)
  {
    AndIsOr(d);
  }

  lemma Keywords()
    ensures EqualFold("or", "or") && EqualFold("and", "and") && EqualFold("not", "not") && Lower("pr") == "pr"
    ensures forall attr :: IsAttr(attr) ==> !EqualFold(attr, "not")
  {
    assert Lower("not") == "not";
  }

  // ---- text back to tokens ---------------------------------------------------------------------

  predicate Clean(t: Token) {
    !t.EOF? && (t.Word? ==> IsWord(t.val))
  }

  predicate AllClean(ts: seq<Token>) {
    forall k :: 0 <= k < |ts| ==> Clean(ts[k])
  }

  lemma {:induction false} UnquoteEscape(v: string, rest: string)
    ensures Unquote(Escape(v) + "\"" + rest) == Some((v, rest))
  {
    var all := Escape(v) + "\"" + rest;
    if v == "" {
      assert all == "\"" + rest;
    } else {
      var head := if v[0] == '"' || v[0] == '\\' then ['\\', v[0]] else [v[0]];
      var more := Escape(v[1..]) + "\"" + rest;
      assert all == head + more;
      UnquoteEscape(v[1..], rest);
      assert all[|head|..] == more;
      assert v == [v[0]] + v[1..];
    }
  }

  lemma ScanWord(w: string, rest: string)
    requires IsWord(w)
    ensures Scan(w + " " + rest) == Cons(Word(w), Scan(rest))
  {
    var s := w + " " + rest;
    WordEnds(s, |w|);
    assert s[..|w|] == w;
    assert s[|w|..] == " " + rest;
    assert (" " + rest)[1..] == rest;
  }

  lemma ScanQuoted(v: string, rest: string)
    ensures Scan("\"" + Escape(v) + "\" " + rest) == Cons(Quoted(v), Scan(rest))
  {
    var s := "\"" + Escape(v) + "\" " + rest;
    assert s[1..] == Escape(v) + "\"" + (" " + rest);
    UnquoteEscape(v, " " + rest);
    assert (" " + rest)[1..] == rest;
  }

  lemma ScanSymbol(c: char, gap: string, rest: string)
    requires Symbol(c).Some? && (gap == "" || gap == " ")
    ensures Scan([c] + gap + rest) == Cons(Symbol(c).value, Scan(rest))
  {
    assert ([c] + gap + rest)[1..] == gap + rest;
    assert (" " + rest)[1..] == rest;
    assert "" + rest == rest;
  }

  lemma ScanToken(t: Token, rest: string)
    requires Clean(t)
    ensures Scan(TokenText(t) + rest) == Cons(t, Scan(rest))
  {
    match t
    case Word(val) => ScanWord(val, rest);
    case Quoted(val) => ScanQuoted(val, rest);
    case LParen => ScanSymbol('(', "", rest);
    case RParen => ScanSymbol(')', " ", rest);
    case LBracket => ScanSymbol('[', "", rest);
    case RBracket => ScanSymbol(']', " ", rest);
  }

  lemma {:induction false} ScanText(ts: seq<Token>)
    requires AllClean(ts)
    ensures Scan(Text(ts)) == Some(ts + [EOF])
  {
    hide TokenText, Clean, Symbol, WordLength, Unquote;
    if ts == [] {
      assert ts + [EOF] == [EOF];
    } else {
      ScanToken(ts[0], Text(ts[1..]));
      ScanText(ts[1..]);
      assert [ts[0]] + (ts[1..] + [EOF]) == ts + [EOF];
    }
  }

  /** Every word it is spelled with scans as one. */
  predicate Spelled(d: Derivation) {
    match d
    case Either(l, kw, r) => IsWord(kw) && Spelled(l) && Spelled(r)
    case Both(l, kw, r) => IsWord(kw) && Spelled(l) && Spelled(r)
    case Negated(kw, i) => IsWord(kw) && Spelled(i)
    case Grouped(i) => Spelled(i)
    case Path(name, i) => IsWord(name) && Spelled(i)
    case Has(name, op) => IsWord(name) && IsWord(op)
    case Test(name, op, value) => IsWord(name) && IsWord(op) && Clean(value)
  }

  lemma CleanJoin(xs: seq<Token>, ys: seq<Token>)
    ensures AllClean(xs + ys) <==> AllClean(xs) && AllClean(ys)
  {
    if AllClean(xs + ys) {
      forall k | 0 <= k < |xs| ensures Clean(xs[k]) {
        assert Clean((xs + ys)[k]);
      }
      forall k | 0 <= k < |ys| ensures Clean(ys[k]) {
        assert Clean((xs + ys)[|xs| + k]);
      }
    }
  }

  lemma CleanUnits(w: string)
    ensures AllClean([Word(w)]) <==> IsWord(w)
    ensures AllClean([LParen]) && AllClean([RParen]) && AllClean([LBracket]) && AllClean([RBracket])
    ensures forall t: Token :: AllClean([t]) <==> Clean(t)
  {
    forall t: Token ensures AllClean([t]) <==> Clean(t) {
      assert [t][0] == t;
    }
  }

  lemma {:induction false} CleanIsSpelled(d: Derivation)
    ensures AllClean(Yield(d)) <==> Spelled(d)
  {
    hide AllClean, IsWord, Clean;
    match d
    case Either(l, kw, r) =>
      CleanIsSpelled(l);
      CleanIsSpelled(r);
      CleanInfix(Yield(l), kw, Yield(r));
    case Both(l, kw, r) =>
      CleanIsSpelled(l);
      CleanIsSpelled(r);
      CleanInfix(Yield(l), kw, Yield(r));
    case Negated(kw, i) =>
      CleanIsSpelled(i);
      CleanGroup([Word(kw)], LParen, Yield(i), RParen);
      CleanUnits(kw);
    case Grouped(i) =>
      CleanIsSpelled(i);
      CleanJoin([LParen], Yield(i) + [RParen]);
      CleanJoin(Yield(i), [RParen]);
      CleanUnits("");
    case Path(name, i) =>
      CleanIsSpelled(i);
      CleanGroup([Word(name)], LBracket, Yield(i), RBracket);
      CleanUnits(name);
    case Has(name, op) => CleanPair(name, op);
    case Test(name, op, value) =>
      CleanPair(name, op);
      CleanJoin([Word(name), Word(op)], [value]);
      CleanUnits("");
  }

  lemma CleanPair(name: string, op: string)
    ensures AllClean([Word(name), Word(op)]) <==> IsWord(name) && IsWord(op)
  {
    assert [Word(name), Word(op)] == [Word(name)] + [Word(op)];
    CleanJoin([Word(name)], [Word(op)]);
    CleanUnits(name);
    CleanUnits(op);
  }

  lemma CleanGroup(head: seq<Token>, open: Token, body: seq<Token>, close: Token)
    requires |head| == 1 && (open.LParen? || open.LBracket?) && (close.RParen? || close.RBracket?)
    ensures AllClean([head[0], open] + (body + [close])) <==> AllClean(head) && AllClean(body)
  {
    assert [head[0], open] == head + [open];
    CleanJoin(head, [open]);
    CleanJoin([head[0], open], body + [close]);
    CleanJoin(body, [close]);
    CleanUnits("");
  }

  lemma CleanInfix(xs: seq<Token>, kw: string, ys: seq<Token>)
    ensures AllClean(xs + [Word(kw)] + ys) <==> IsWord(kw) && AllClean(xs) && AllClean(ys)
  {
    CleanJoin(xs + [Word(kw)], ys);
    CleanJoin(xs, [Word(kw)]);
    CleanUnits(kw);
  }

  lemma {:induction false} FormsAreSpelled(f: Filter)
    requires WellFormed(f)
    ensures Spelled(OrForm(f)) && Spelled(AndForm(f)) && Spelled(NotForm(f))
  {
    hide OpOf;
    FormsRelate(f);
    match f
    case Or(l, r) =>
      FormsAreSpelled(l);
      FormsAreSpelled(r);
    case And(l, r) =>
      FormsAreSpelled(l);
      FormsAreSpelled(r);
    case Not(g) => FormsAreSpelled(g);
    case ValuePath(_, g) => FormsAreSpelled(g);
    case Present(_) =>
    case Compare(_, _, _) =>
  }

  /** Printing and reading back gives the same tree whenever its nesting is within the limit. */
  lemma RoundTrip(f: Filter)
    requires Printable(f)
    ensures Parse(Print(f)) == Some(f)
    ensures Scan(Print(f)) == Some(Yield(OrForm(f)) + [EOF])
  {
    hide Scan, Text, OrForm, OrFrom, WellFormed, Yield, Meaning, Depth, AtOr;
    var d := OrForm(f);
    FormsMean(f);
    FormsAreSpelled(f);
    CleanIsSpelled(d);
    ScanText(Yield(d));
    DerivedIsRead(d);
  }

  // ---- every accepted string ---------------------------------------------------------------------

  lemma {:induction false} ScannedWords(s: string)
    requires Scan(s).Some?
    ensures forall t :: t in Scan(s).value && t.Word? ==> IsWord(t.val)
    decreases |s|
  {
    if s != "" {
      if Blank(s[0]) || Symbol(s[0]).Some? {
        ScannedWords(s[1..]);
      } else if s[0] == '"' {
        ScannedWords(Unquote(s[1..]).value.1);
      } else {
        var n := WordLength(s);
        assert n > 0 && IsWord(s[..n]);
        ScannedWords(s[n..]);
      }
    }
  }

  ghost predicate GoodWords(ts: seq<Token>) {
    forall t :: t in ts && t.Word? ==> IsWord(t.val)
  }

  lemma LowerIsAttr(w: string)
    requires IsWord(w) && !IsKw(Word(w), "not")
    ensures IsAttr(Lower(w))
  {
    LowerTwice(w);
    assert Lower("not") == "not";
    forall k | 0 <= k < |w| ensures !Delimiter(Lower(w)[k]) {
      assert !Delimiter(w[k]);
    }
  }

  lemma GoodIsSpelled(d: Derivation, ts: seq<Token>)
    requires AtOr(d) && GoodWords(ts) && Yield(d) + [EOF] == ts
    ensures Spelled(d)
  {
    YieldIsOpen(d);
    forall k | 0 <= k < |Yield(d)| ensures Clean(Yield(d)[k]) {
      assert ts[k] == Yield(d)[k];
    }
    CleanIsSpelled(d);
  }

  /** The parentheses a filter is spelled with, those of its negations included. */
  function Parens(d: Derivation): nat {
    match d
    case Either(l, _, r) => Parens(l) + Parens(r)
    case Both(l, _, r) => Parens(l) + Parens(r)
    case Negated(_, i) => 1 + Parens(i)
    case Grouped(i) => 1 + Parens(i)
    case Path(_, i) => Parens(i)
    case Has(_, _) => 0
    case Test(_, _, _) => 0
  }

  /** `d` nests no less and has no fewer parentheses than `form`. */
  predicate NoLess(d: Derivation, form: Derivation) {
    Depth(form) <= Depth(d) && Parens(form) <= Parens(d)
  }

  lemma FormsByLevel(f: Filter)
    ensures NoLess(AndForm(f), OrForm(f)) && NoLess(NotForm(f), AndForm(f)) && NoLess(Grouped(OrForm(f)), NotForm(f))
  {
    FormsRelate(f);
  }

  /** However a tree is spelled, its words are well formed and its printed form is no worse. */
  lemma {:induction false} PrintedIsLeast(d: Derivation)
    requires AtOr(d) && Spelled(d)
    ensures WellFormed(Meaning(d)) && NoLess(d, OrForm(Meaning(d)))
    ensures AtAnd(d) ==> NoLess(d, AndForm(Meaning(d)))
    ensures AtNot(d) ==> NoLess(d, NotForm(Meaning(d)))
  {
    hide IsWord, EqualFold;
    var f := Meaning(d);
    FormsRelate(f);
    FormsByLevel(f);
    match d
    case Either(l, _, r) =>
      assert !AtNot(d);
      AndIsOr(r);
      PrintedIsLeast(l);
      PrintedIsLeast(r);
    case Both(l, _, r) =>
      AndIsOr(l);
      NotIsAll(r);
      PrintedIsLeast(l);
      PrintedIsLeast(r);
    case Negated(_, i) =>
      InnerIsOr(d);
      PrintedIsLeast(i);
    case Grouped(i) =>
      InnerIsOr(d);
      PrintedIsLeast(i);
    case Path(name, i) =>
      InnerIsOr(d);
      PrintedIsLeast(i);
      NameIsAttr(d);
    case Has(name, _) => NameIsAttr(d);
    case Test(name, _, _) => NameIsAttr(d);
  }

  lemma NameIsAttr(d: Derivation)
    requires AtOr(d) && Spelled(d) && (d.Path? || d.Has? || d.Test?)
    ensures IsAttr(Lower(d.name))
  {
    assert AtAnd(d) && AtNot(d);
    LowerIsAttr(d.name);
  }

  /** The trees the compiler can read, from any string at all, are exactly the printable ones. */
  lemma ReadableExactlyWhenPrintable(f: Filter)
    ensures (exists s :: Parse(s) == Some(f)) <==> Printable(f)
  {
    hide Parse, Printable;
    if s :| Parse(s) == Some(f) {
      ParsedIsPrintable(s);
    }
    if Printable(f) {
      RoundTrip(f);
    }
  }

  /** How an accepted string spells its tree. */
  lemma ParsedIsSpelled(s: string) returns (d: Derivation)
    requires Parse(s).Some?
    ensures AtOr(d) && Spelled(d) && Meaning(d) == Parse(s).value && 1 + Depth(d) <= MAX_FILTER_DEPTH
    ensures Scan(s) == Some(Yield(d) + [EOF])
  {
    hide AtOr, Yield, Meaning, Depth, Spelled, GoodWords;
    ParseExactlyDerives(s, Parse(s).value);
    d :| AtOr(d) && Yield(d) + [EOF] == Scan(s).value && Meaning(d) == Parse(s).value && 1 + Depth(d) <= MAX_FILTER_DEPTH;
    assert GoodWords(Scan(s).value) by { WordsAreGood(s); }
    GoodIsSpelled(d, Scan(s).value);
  }

  lemma WordsAreGood(s: string)
    requires Scan(s).Some?
    ensures GoodWords(Scan(s).value)
  {
    ScannedWords(s);
  }

  lemma ParsedIsPrintable(s: string)
    requires Parse(s).Some?
    ensures Printable(Parse(s).value)
  {
    hide Parse, AtOr, Yield, Meaning, Spelled, WellFormed, OrForm;
    var d := ParsedIsSpelled(s);
    PrintedIsLeast(d);
  }

  /** Any accepted filter can be rewritten in printed form without changing its tree. */
  lemma PrintedFormIsEquivalent(s: string)
    requires Parse(s).Some?
    ensures Parse(Print(Parse(s).value)) == Parse(s)
  {
    hide Parse, Printable, Print;
    ParsedIsPrintable(s);
    RoundTrip(Parse(s).value);
  }

  function Count(t: Token, ts: seq<Token>): nat {
    multiset(ts)[t]
  }

  lemma CountJoin(t: Token, xs: seq<Token>, ys: seq<Token>)
    ensures Count(t, xs + ys) == Count(t, xs) + Count(t, ys)
  {
  }

  lemma CountUnits(x: Token, y: Token)
    ensures Count(LParen, [x]) == if x.LParen? then 1 else 0
    ensures Count(LParen, [x, y]) == Count(LParen, [x]) + Count(LParen, [y])
  {
    assert [x, y] == [x] + [y];
  }

  lemma {:induction false} ParensAreCounted(d: Derivation)
    requires AtOr(d)
    ensures Count(LParen, Yield(d)) == Parens(d)
  {
    hide Count, EqualFold;
    match d
    case Either(l, kw, r) =>
      AndIsOr(r);
      ParensAreCounted(l);
      ParensAreCounted(r);
      CountInfix(Yield(l), kw, Yield(r));
    case Both(l, kw, r) =>
      AndIsOr(l);
      NotIsAll(r);
      ParensAreCounted(l);
      ParensAreCounted(r);
      CountInfix(Yield(l), kw, Yield(r));
    case Negated(kw, i) =>
      InnerIsOr(d);
      ParensAreCounted(i);
      CountBrackets([Word(kw), LParen], Yield(i), RParen);
    case Grouped(i) =>
      InnerIsOr(d);
      ParensAreCounted(i);
      CountBrackets([LParen], Yield(i), RParen);
    case Path(name, i) =>
      InnerIsOr(d);
      ParensAreCounted(i);
      CountBrackets([Word(name), LBracket], Yield(i), RBracket);
    case Has(name, op) => CountPair(name, op, RParen);
    case Test(name, op, value) =>
      assert AtAnd(d) && AtNot(d);
      CountPair(name, op, value);
  }

  lemma CountPair(name: string, op: string, value: Token)
    requires !value.LParen?
    ensures Count(LParen, [Word(name), Word(op)]) == 0 && Count(LParen, [Word(name), Word(op)] + [value]) == 0
  {
    CountUnits(Word(name), Word(op));
    CountUnits(Word(op), value);
    CountUnits(value, value);
    CountJoin(LParen, [Word(name), Word(op)], [value]);
  }

  lemma CountInfix(xs: seq<Token>, kw: string, ys: seq<Token>)
    ensures Count(LParen, xs + [Word(kw)] + ys) == Count(LParen, xs) + Count(LParen, ys)
  {
    CountJoin(LParen, xs + [Word(kw)], ys);
    CountJoin(LParen, xs, [Word(kw)]);
    CountUnits(Word(kw), Word(kw));
  }

  lemma CountBrackets(open: seq<Token>, body: seq<Token>, close: Token)
    requires (|open| == 1 || (|open| == 2 && !open[0].LParen?)) && !close.LParen?
    ensures Count(LParen, open + (body + [close])) == Count(LParen, body) + if open[|open| - 1].LParen? then 1 else 0
  {
    CountJoin(LParen, open, body + [close]);
    CountJoin(LParen, body, [close]);
    if |open| == 2 {
      assert open == [open[0], open[1]];
      CountUnits(open[0], open[1]);
      CountUnits(open[1], close);
    } else {
      assert open == [open[0]];
      CountUnits(open[0], close);
    }
    CountUnits(close, close);
  }

  /** No string that compiles to a tree has fewer parentheses than the printed one. */
  lemma PrintHasFewestParentheses(s: string)
    requires Parse(s).Some?
    ensures var printed := Print(Parse(s).value);
            && Scan(s).Some? && Scan(printed).Some?
            && Count(LParen, Scan(printed).value) <= Count(LParen, Scan(s).value)
  {
    hide Parse, Print, AtOr, Yield, Meaning, Spelled, WellFormed, OrForm, Scan, Parens;
    var f := Parse(s).value;
    var d := ParsedIsSpelled(s);
    ParsedIsPrintable(s);
    RoundTrip(f);
    FormsMean(f);
    PrintedIsLeast(d);
    ParensAreCounted(d);
    ParensAreCounted(OrForm(f));
  }

  // ---- precedence ----------------------------------------------------------------------------------

  lemma {:induction false} TextOfBoth(xs: seq<Token>, ys: seq<Token>)
    ensures Text(xs + ys) == Text(xs) + Text(ys)
  {
    if xs == [] {
      assert xs + ys == ys;
    } else {
      assert (xs + ys)[1..] == xs[1..] + ys;
      TextOfBoth(xs[1..], ys);
    }
  }

  predicate Leaf(f: Filter) {
    WellFormed(f) && (f.Present? || f.Compare?)
  }

  lemma TextOfOne(t: Token)
    ensures Text([t]) == TokenText(t)
  {
    assert [t][1..] == [];
  }

  lemma JoinedText(xs: seq<Token>, t: Token, ys: seq<Token>)
    ensures Text(xs + [t] + ys) == Text(xs) + TokenText(t) + Text(ys)
  {
    hide Text, TokenText;
    TextOfBoth(xs + [t], ys);
    TextOfBoth(xs, [t]);
    TextOfOne(t);
  }

  lemma LeafPrints(f: Filter)
    requires Leaf(f)
    ensures OrForm(f) == AndForm(f) == NotForm(f) && Depth(NotForm(f)) == 0
  {
    FormsRelate(f);
  }

  lemma Regroup(a: string, b: string, c: string, d: string, e: string)
    ensures a + b + (c + d + e) == a + b + c + d + e
  {
  }

  /** x a y b z, grouped either way. */
  lemma InfixText(x: seq<Token>, a: string, y: seq<Token>, b: string, z: seq<Token>)
    ensures var text := Text(x) + (a + " ") + Text(y) + (b + " ") + Text(z);
            && Text(x + [Word(a)] + (y + [Word(b)] + z)) == text
            && Text((x + [Word(a)] + y) + [Word(b)] + z) == text
  {
    hide Text;
    JoinedText(x, Word(a), y + [Word(b)] + z);
    JoinedText(y, Word(b), z);
    Regroup(Text(x), a + " ", Text(y), b + " ", Text(z));
    JoinedText(x + [Word(a)] + y, Word(b), z);
    JoinedText(x, Word(a), y);
  }

  /** How the four combinations are spelled. */
  lemma InfixForms(p: Filter, q: Filter, r: Filter)
    requires Leaf(p) && Leaf(q) && Leaf(r)
    ensures var x, y, z := NotForm(p), NotForm(q), NotForm(r);
            && OrForm(Or(p, And(q, r))) == Either(x, "or", Both(y, "and", z))
            && OrForm(Or(And(p, q), r)) == Either(Both(x, "and", y), "or", z)
            && OrForm(Or(Or(p, q), r)) == Either(Either(x, "or", y), "or", z)
            && OrForm(And(And(p, q), r)) == Both(Both(x, "and", y), "and", z)
  {
    hide NotForm;
    LeafPrints(p);
    LeafPrints(q);
    LeafPrints(r);
    FormsRelate(And(p, q));
    FormsRelate(And(And(p, q), r));
    assert OrForm(Or(p, q)) == Either(NotForm(p), "or", NotForm(q));
  }

  lemma InfixPrintable(p: Filter, q: Filter, r: Filter)
    requires Leaf(p) && Leaf(q) && Leaf(r)
    ensures Printable(Or(p, And(q, r))) && Printable(Or(And(p, q), r))
    ensures Printable(Or(Or(p, q), r)) && Printable(And(And(p, q), r))
  {
    hide NotForm, AndForm, OrForm;
    LeafPrints(p);
    LeafPrints(q);
    LeafPrints(r);
    InfixForms(p, q, r);
    var x, y, z := NotForm(p), NotForm(q), NotForm(r);
    assert Depth(Both(x, "and", y)) == Depth(Both(y, "and", z)) == Depth(Either(x, "or", y)) == 0;
    assert WellFormed(And(p, q)) && WellFormed(And(q, r)) && WellFormed(Or(p, q));
  }

  lemma MixedPrints(p: Filter, q: Filter, r: Filter)
    requires Leaf(p) && Leaf(q) && Leaf(r)
    ensures Print(Or(p, And(q, r))) == Print(p) + "or " + Print(q) + "and " + Print(r)
    ensures Print(Or(And(p, q), r)) == Print(p) + "and " + Print(q) + "or " + Print(r)
  {
    hide Text, NotForm, AndForm, OrForm, Leaf;
    LeafPrints(p);
    LeafPrints(q);
    LeafPrints(r);
    InfixForms(p, q, r);
    var x, y, z := NotForm(p), NotForm(q), NotForm(r);
    assert Yield(Both(x, "and", y)) == Yield(x) + [Word("and")] + Yield(y);
    assert Yield(Both(y, "and", z)) == Yield(y) + [Word("and")] + Yield(z);
    InfixText(Yield(x), "or", Yield(y), "and", Yield(z));
    InfixText(Yield(x), "and", Yield(y), "or", Yield(z));
  }

  lemma SamePrints(p: Filter, q: Filter, r: Filter)
    requires Leaf(p) && Leaf(q) && Leaf(r)
    ensures Print(Or(Or(p, q), r)) == Print(p) + "or " + Print(q) + "or " + Print(r)
    ensures Print(And(And(p, q), r)) == Print(p) + "and " + Print(q) + "and " + Print(r)
  {
    hide Text, NotForm, AndForm, OrForm, Leaf;
    LeafPrints(p);
    LeafPrints(q);
    LeafPrints(r);
    InfixForms(p, q, r);
    var x, y, z := NotForm(p), NotForm(q), NotForm(r);
    assert Yield(Both(x, "and", y)) == Yield(x) + [Word("and")] + Yield(y);
    assert Yield(Either(x, "or", y)) == Yield(x) + [Word("or")] + Yield(y);
    InfixText(Yield(x), "or", Yield(y), "or", Yield(z));
    InfixText(Yield(x), "and", Yield(y), "and", Yield(z));
  }

  /** Without parentheses "and" binds tighter than "or", and both group to the left. */
  lemma Precedence(p: Filter, q: Filter, r: Filter)
    requires Leaf(p) && Leaf(q) && Leaf(r)
    ensures Parse(Print(p) + "or " + Print(q) + "and " + Print(r)) == Some(Or(p, And(q, r)))
    ensures Parse(Print(p) + "and " + Print(q) + "or " + Print(r)) == Some(Or(And(p, q), r))
    ensures Parse(Print(p) + "or " + Print(q) + "or " + Print(r)) == Some(Or(Or(p, q), r))
    ensures Parse(Print(p) + "and " + Print(q) + "and " + Print(r)) == Some(And(And(p, q), r))
  {
    hide Print, Parse, Printable, Leaf;
    MixedPrints(p, q, r);
    SamePrints(p, q, r);
    InfixPrintable(p, q, r);
    RoundTrip(Or(p, And(q, r)));
    RoundTrip(Or(And(p, q), r));
    RoundTrip(Or(Or(p, q), r));
    RoundTrip(And(And(p, q), r));
  }
}
