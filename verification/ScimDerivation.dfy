/**
 The filter grammar as derivations (section 3.4.2.2 of RFC 7644): which tokens spell a filter, with any
 parentheses and any spelling of the keywords, and which tree they mean. The parser of ScimGrammar accepts
 exactly what has a derivation within the nesting limit, and reads the tree that derivation means.
 */
module ScimDerivation {
  import opened Basics
  import opened AsciiText
  import opened ScimFilter
  import opened ScimTokens
  import opened ScimGrammar

  /** A filter as it is spelled. */
  datatype Derivation =
    | Either(left: Derivation, kw: string, right: Derivation)
    | Both(left: Derivation, kw: string, right: Derivation)
    | Negated(kw: string, inner: Derivation)
    | Grouped(inner: Derivation)
    | Path(name: string, inner: Derivation)
    | Has(name: string, op: string)
    | Test(name: string, op: string, value: Token)

  /** What may stand where an "or", an "and" or neither needs no parentheses. */
  predicate AtOr(d: Derivation)
    decreases d, 2
  {
    match d
    case Either(l, kw, r) => EqualFold(kw, "or") && AtOr(l) && AtAnd(r)
    case _ => AtAnd(d)
  }

  predicate AtAnd(d: Derivation)
    decreases d, 1
  {
    match d
    case Both(l, kw, r) => EqualFold(kw, "and") && AtAnd(l) && AtNot(r)
    case _ => AtNot(d)
  }

  predicate AtNot(d: Derivation)
    decreases d, 0
  {
    match d
    case Negated(kw, i) => EqualFold(kw, "not") && AtOr(i)
    case Grouped(i) => AtOr(i)
    case Path(name, i) => !EqualFold(name, "not") && AtOr(i)
    case Has(name, op) => !EqualFold(name, "not") && Lower(op) == "pr"
    case Test(name, op, value) =>
      !EqualFold(name, "not") && Lower(op) != "pr" && OpOf(Lower(op)).Some? && (value.Word? || value.Quoted?)
    case _ => false
  }

  /** The tokens it is spelled with. */
  function Yield(d: Derivation): (ts: seq<Token>)
    ensures ts != []
  {
    match d
    case Either(l, kw, r) => Yield(l) + [Word(kw)] + Yield(r)
    case Both(l, kw, r) => Yield(l) + [Word(kw)] + Yield(r)
    case Negated(kw, i) => [Word(kw), LParen] + (Yield(i) + [RParen])
    case Grouped(i) => [LParen] + (Yield(i) + [RParen])
    case Path(name, i) => [Word(name), LBracket] + (Yield(i) + [RBracket])
    case Has(name, op) => [Word(name), Word(op)]
    case Test(name, op, value) => [Word(name), Word(op)] + [value]
  }

  /** The tree it means. */
  function Meaning(d: Derivation): Filter {
    match d
    case Either(l, _, r) => Or(Meaning(l), Meaning(r))
    case Both(l, _, r) => And(Meaning(l), Meaning(r))
    case Negated(_, i) => Not(Meaning(i))
    case Grouped(i) => Meaning(i)
    case Path(name, i) => ValuePath(Lower(name), Meaning(i))
    case Has(name, _) => Present(Lower(name))
    case Test(name, op, value) =>
      Compare(Lower(name), if OpOf(Lower(op)).Some? then OpOf(Lower(op)).value else Eq,
              if value.Word? || value.Quoted? then value.val else "")
  }

  /** How deep its groups, negations and value paths nest. */
  function Depth(d: Derivation): nat {
    match d
    case Either(l, _, r) => Max(Depth(l), Depth(r))
    case Both(l, _, r) => Max(Depth(l), Depth(r))
    case Negated(_, i) => 1 + Depth(i)
    case Grouped(i) => 1 + Depth(i)
    case Path(_, i) => 1 + Depth(i)
    case Has(_, _) => 0
    case Test(_, _, _) => 0
  }

  /** The tokens spell a filter that means this tree, within the nesting limit. */
  ghost predicate Derives(ts: seq<Token>, f: Filter) {
    exists d :: AtOr(d) && Yield(d) + [EOF] == ts && Meaning(d) == f && 1 + Depth(d) <= 40
  }

  // ---- where tokens stand ------------------------------------------------------------------------------

  predicate At(ts: seq<Token>, pos: nat, xs: seq<Token>) {
    pos + |xs| <= |ts| && ts[pos..pos + |xs|] == xs
  }

  lemma AtSplits(ts: seq<Token>, pos: nat, xs: seq<Token>, ys: seq<Token>)
    requires At(ts, pos, xs + ys)
    ensures At(ts, pos, xs) && At(ts, pos + |xs|, ys)
  {
    assert (xs + ys)[..|xs|] == xs && (xs + ys)[|xs|..] == ys;
  }

  lemma AtJoins(ts: seq<Token>, pos: nat, xs: seq<Token>, ys: seq<Token>)
    requires At(ts, pos, xs) && At(ts, pos + |xs|, ys)
    ensures At(ts, pos, xs + ys)
  {
    var all := xs + ys;
    assert ts[pos..pos + |all|] == ts[pos..pos + |xs|] + ts[pos + |xs|..pos + |all|];
  }

  lemma OneAt(ts: seq<Token>, pos: nat, x: Token)
    ensures At(ts, pos, [x]) <==> pos < |ts| && ts[pos] == x
  {
    if pos < |ts| {
      assert ts[pos..pos + 1] == [ts[pos]];
    }
  }

  lemma PairAt(ts: seq<Token>, pos: nat, x: Token, y: Token)
    ensures At(ts, pos, [x, y]) <==> pos + 1 < |ts| && ts[pos] == x && ts[pos + 1] == y
  {
    if pos + 1 < |ts| {
      assert ts[pos..pos + 2] == [ts[pos], ts[pos + 1]];
    }
  }

  /** An operator between its operands. */
  lemma InfixAt(ts: seq<Token>, pos: nat, xs: seq<Token>, kw: string, ys: seq<Token>)
    ensures At(ts, pos, xs + [Word(kw)] + ys)
            <==> At(ts, pos, xs) && pos + |xs| < |ts| && ts[pos + |xs|] == Word(kw) && At(ts, pos + |xs| + 1, ys)
  {
    OneAt(ts, pos + |xs|, Word(kw));
    if At(ts, pos, xs + [Word(kw)] + ys) {
      AtSplits(ts, pos, xs + [Word(kw)], ys);
      AtSplits(ts, pos, xs, [Word(kw)]);
    } else if At(ts, pos, xs) && At(ts, pos + |xs|, [Word(kw)]) && At(ts, pos + |xs| + 1, ys) {
      AtJoins(ts, pos, xs, [Word(kw)]);
      AtJoins(ts, pos, xs + [Word(kw)], ys);
    }
  }

  // ---- what is derived is read ---------------------------------------------------------------------------

  /** An open "or" list: reading on after `d`. */
  lemma {:induction false} OrReads(d: Derivation, ts: seq<Token>, pos: nat, depth: nat)
    requires AtOr(d) && Ended(ts) && At(ts, pos, Yield(d)) && depth + Depth(d) <= MAX_FILTER_DEPTH
    requires pos + |Yield(d)| < |ts| && !IsKw(ts[pos + |Yield(d)|], "and")
    ensures var first := AndFrom(ts, pos, depth);
            first.Some? && OrRest(first.value.0, ts, first.value.1, depth) == OrRest(Meaning(d), ts, pos + |Yield(d)|, depth)
    decreases d, 3
  {
    hide Ended, AtAnd, AtNot, AndFrom, EqualFold, At, OpOf;
    if d.Either? {
      var mid := pos + |Yield(d.left)|;
      InfixAt(ts, pos, Yield(d.left), d.kw, Yield(d.right));
      KwIs(d.kw);
      OrReads(d.left, ts, pos, depth);
      AndReads(d.right, ts, mid + 1, depth);
    } else {
      AndReads(d, ts, pos, depth);
    }
  }

  lemma KwIs(kw: string)
    ensures EqualFold(kw, "or") ==> IsKw(Word(kw), "or") && !IsKw(Word(kw), "and")
    ensures EqualFold(kw, "and") ==> IsKw(Word(kw), "and")
  {
    assert Lower("or") == "or" && Lower("and") == "and";
  }

  lemma {:induction false} AndReads(d: Derivation, ts: seq<Token>, pos: nat, depth: nat)
    requires AtAnd(d) && Ended(ts) && At(ts, pos, Yield(d)) && depth + Depth(d) <= MAX_FILTER_DEPTH
    requires pos + |Yield(d)| < |ts| && !IsKw(ts[pos + |Yield(d)|], "and")
    ensures AndFrom(ts, pos, depth) == Some((Meaning(d), pos + |Yield(d)|))
    decreases d, 2
  {
    AndReadsOn(d, ts, pos, depth);
  }

  /** An open "and" list: reading on after `d`. */
  lemma {:induction false} AndReadsOn(d: Derivation, ts: seq<Token>, pos: nat, depth: nat)
    requires AtAnd(d) && Ended(ts) && At(ts, pos, Yield(d)) && depth + Depth(d) <= MAX_FILTER_DEPTH
    requires pos + |Yield(d)| < |ts|
    ensures var first := NotFrom(ts, pos, depth);
            first.Some? && AndRest(first.value.0, ts, first.value.1, depth) == AndRest(Meaning(d), ts, pos + |Yield(d)|, depth)
    decreases d, 1
  {
    hide Ended, AtOr, AtNot, NotFrom, EqualFold, At;
    if d.Both? {
      var mid := pos + |Yield(d.left)|;
      InfixAt(ts, pos, Yield(d.left), d.kw, Yield(d.right));
      KwIs(d.kw);
      AndReadsOn(d.left, ts, pos, depth);
      NotReads(d.right, ts, mid + 1, depth);
    } else {
      NotReads(d, ts, pos, depth);
    }
  }

  lemma {:induction false} NotReads(d: Derivation, ts: seq<Token>, pos: nat, depth: nat)
    requires AtNot(d) && Ended(ts) && At(ts, pos, Yield(d)) && depth + Depth(d) <= MAX_FILTER_DEPTH
    requires pos + |Yield(d)| < |ts|
    ensures NotFrom(ts, pos, depth) == Some((Meaning(d), pos + |Yield(d)|))
    decreases d, 0
  {
    hide AttrExpFrom, EqualFold;
    match d
    case Negated(kw, i) =>
      AtSplits(ts, pos, [Word(kw), LParen], Yield(i) + [RParen]);
      PairAt(ts, pos, Word(kw), LParen);
      ClosedReads(i, ts, pos + 2, depth, RParen);
    case Grouped(i) =>
      AtSplits(ts, pos, [LParen], Yield(i) + [RParen]);
      OneAt(ts, pos, LParen);
      ClosedReads(i, ts, pos + 1, depth, RParen);
    case Path(_, _) => AttrExpReads(d, ts, pos, depth);
    case Has(_, _) => AttrExpReads(d, ts, pos, depth);
    case Test(_, _, _) => AttrExpReads(d, ts, pos, depth);
  }

  lemma {:induction false} AttrExpReads(d: Derivation, ts: seq<Token>, pos: nat, depth: nat)
    requires d.Path? || d.Has? || d.Test?
    requires AtNot(d) && Ended(ts) && At(ts, pos, Yield(d)) && depth + Depth(d) <= MAX_FILTER_DEPTH
    requires pos + |Yield(d)| < |ts|
    ensures !IsKw(ts[pos], "not") && ts[pos].Word?
    ensures AttrExpFrom(ts, pos, depth) == Some((Meaning(d), pos + |Yield(d)|))
    decreases d, 0, 0
  {
    match d
    case Path(name, i) =>
      AtSplits(ts, pos, [Word(name), LBracket], Yield(i) + [RBracket]);
      PairAt(ts, pos, Word(name), LBracket);
      ClosedReads(i, ts, pos + 2, depth, RBracket);
    case Has(name, op) => PairAt(ts, pos, Word(name), Word(op));
    case Test(name, op, value) =>
      AtSplits(ts, pos, [Word(name), Word(op)], [value]);
      PairAt(ts, pos, Word(name), Word(op));
      OneAt(ts, pos + 2, value);
  }

  /** A whole filter and the bracket that ends it. */
  lemma {:induction false} ClosedReads(d: Derivation, ts: seq<Token>, pos: nat, depth: nat, end: Token)
    requires AtOr(d) && Ended(ts) && (end.RParen? || end.RBracket?) && At(ts, pos, Yield(d) + [end])
    requires depth + 1 + Depth(d) <= MAX_FILTER_DEPTH
    ensures Closed(ts, pos, depth, end) == Some((Meaning(d), pos + |Yield(d)| + 1))
    decreases d, 4
  {
    hide AtOr, Depth, Yield, Meaning, AndFrom;
    AtSplits(ts, pos, Yield(d), [end]);
    OneAt(ts, pos + |Yield(d)|, end);
    OrReads(d, ts, pos, depth + 1);
  }

  // ---- what is read is derived ---------------------------------------------------------------------------

  /** `d` spells what a parse read from `pos` on. */
  ghost predicate Spells(d: Derivation, ts: seq<Token>, pos: nat, depth: nat, r: Parsed) {
    r.Some? && At(ts, pos, Yield(d)) && r.value == (Meaning(d), pos + |Yield(d)|) && depth + Depth(d) <= MAX_FILTER_DEPTH
  }

  lemma {:induction false} OrBuilds(ts: seq<Token>, pos: nat, depth: nat) returns (d: Derivation)
    requires Ended(ts) && pos < |ts| && OrFrom(ts, pos, depth).Some?
    ensures AtOr(d) && Spells(d, ts, pos, depth + 1, OrFrom(ts, pos, depth))
    decreases |ts| - pos, 4
  {
    hide AtOr, AtAnd, AtNot, Ended, AndFrom, Yield, Meaning, Depth;
    var first := AndBuilds(ts, pos, depth + 1);
    AndIsOr(first);
    d := OrRestBuilds(first, ts, pos, depth + 1);
  }

  lemma AndIsOr(d: Derivation)
    ensures AtNot(d) ==> AtAnd(d)
    ensures AtAnd(d) ==> AtOr(d)
  {
    if d.Either? {
      assert !AtNot(d);
    } else if d.Both? {
      assert !AtNot(d);
    }
  }

  /** Brackets start afresh. */
  lemma InnerIsOr(d: Derivation)
    requires AtOr(d) && (d.Negated? || d.Grouped? || d.Path?)
    ensures AtOr(d.inner)
  {
    assert AtAnd(d);
    assert AtNot(d);
  }

  /** Reading on after `left`, which was read from `pos` on. */
  lemma {:induction false} OrRestBuilds(left: Derivation, ts: seq<Token>, pos: nat, depth: nat) returns (d: Derivation)
    requires Ended(ts) && AtOr(left) && At(ts, pos, Yield(left)) && depth + Depth(left) <= MAX_FILTER_DEPTH
    requires pos + |Yield(left)| < |ts| && OrRest(Meaning(left), ts, pos + |Yield(left)|, depth).Some?
    ensures AtOr(d) && Spells(d, ts, pos, depth, OrRest(Meaning(left), ts, pos + |Yield(left)|, depth))
    decreases |ts| - pos - |Yield(left)|, 3
  {
    hide AtAnd, AtNot, Ended, AndFrom, EqualFold, At;
    var at := pos + |Yield(left)|;
    d := left;
    if IsKw(ts[at], "or") {
      var right := AndBuilds(ts, at + 1, depth);
      InfixAt(ts, pos, Yield(left), ts[at].val, Yield(right));
      d := OrRestBuilds(Either(left, ts[at].val, right), ts, pos, depth);
    }
  }

  lemma {:induction false} AndBuilds(ts: seq<Token>, pos: nat, depth: nat) returns (d: Derivation)
    requires Ended(ts) && pos < |ts| && depth <= MAX_FILTER_DEPTH && AndFrom(ts, pos, depth).Some?
    ensures AtAnd(d) && Spells(d, ts, pos, depth, AndFrom(ts, pos, depth))
    decreases |ts| - pos, 3
  {
    hide AtOr, AtAnd, AtNot, Ended, NotFrom, Yield, Meaning, Depth;
    var first := NotBuilds(ts, pos, depth);
    AndIsOr(first);
    d := AndRestBuilds(first, ts, pos, depth);
  }

  lemma {:induction false} AndRestBuilds(left: Derivation, ts: seq<Token>, pos: nat, depth: nat) returns (d: Derivation)
    requires Ended(ts) && AtAnd(left) && At(ts, pos, Yield(left)) && depth + Depth(left) <= MAX_FILTER_DEPTH
    requires pos + |Yield(left)| < |ts| && AndRest(Meaning(left), ts, pos + |Yield(left)|, depth).Some?
    ensures AtAnd(d) && Spells(d, ts, pos, depth, AndRest(Meaning(left), ts, pos + |Yield(left)|, depth))
    decreases |ts| - pos - |Yield(left)|, 2
  {
    hide AtOr, AtNot, Ended, NotFrom, EqualFold, At;
    var at := pos + |Yield(left)|;
    d := left;
    if IsKw(ts[at], "and") {
      var right := NotBuilds(ts, at + 1, depth);
      InfixAt(ts, pos, Yield(left), ts[at].val, Yield(right));
      d := AndRestBuilds(Both(left, ts[at].val, right), ts, pos, depth);
    }
  }

  lemma {:induction false} NotBuilds(ts: seq<Token>, pos: nat, depth: nat) returns (d: Derivation)
    requires Ended(ts) && pos < |ts| && depth <= MAX_FILTER_DEPTH && NotFrom(ts, pos, depth).Some?
    ensures AtNot(d) && Spells(d, ts, pos, depth, NotFrom(ts, pos, depth))
    decreases |ts| - pos, 2
  {
    hide AtAnd, AtOr, AttrExpFrom, Ended, Yield, Meaning, Depth, Spells;
    if IsKw(ts[pos], "not") {
      d := NegationBuilds(ts, pos, depth);
    } else if ts[pos].LParen? {
      d := GroupBuilds(ts, pos, depth);
    } else {
      d := AttrExpBuilds(ts, pos, depth);
    }
  }

  lemma {:induction false} NegationBuilds(ts: seq<Token>, pos: nat, depth: nat) returns (d: Derivation)
    requires Ended(ts) && pos < |ts| && depth <= MAX_FILTER_DEPTH && NotFrom(ts, pos, depth).Some? && IsKw(ts[pos], "not")
    ensures AtNot(d) && Spells(d, ts, pos, depth, NotFrom(ts, pos, depth))
    decreases |ts| - pos, 1
  {
    hide AtAnd, AtOr, AttrExpFrom, Closed, EqualFold, Ended;
    var i := ClosedBuilds(ts, pos + 2, depth, RParen);
    d := Negated(ts[pos].val, i);
    PairAt(ts, pos, ts[pos], LParen);
    AtJoins(ts, pos, [ts[pos], LParen], Yield(i) + [RParen]);
  }

  lemma {:induction false} GroupBuilds(ts: seq<Token>, pos: nat, depth: nat) returns (d: Derivation)
    requires Ended(ts) && pos < |ts| && depth <= MAX_FILTER_DEPTH && NotFrom(ts, pos, depth).Some? && ts[pos].LParen?
    ensures AtNot(d) && Spells(d, ts, pos, depth, NotFrom(ts, pos, depth))
    decreases |ts| - pos, 1
  {
    hide AtAnd, AtOr, AttrExpFrom, Closed, EqualFold;
    var i := ClosedBuilds(ts, pos + 1, depth, RParen);
    d := Grouped(i);
    OneAt(ts, pos, LParen);
    AtJoins(ts, pos, [LParen], Yield(i) + [RParen]);
  }

  lemma {:induction false} AttrExpBuilds(ts: seq<Token>, pos: nat, depth: nat) returns (d: Derivation)
    requires Ended(ts) && pos < |ts| && depth <= MAX_FILTER_DEPTH && AttrExpFrom(ts, pos, depth).Some?
    requires !IsKw(ts[pos], "not")
    ensures AtNot(d) && Spells(d, ts, pos, depth, AttrExpFrom(ts, pos, depth))
    decreases |ts| - pos, 1
  {
    hide AtAnd, AtOr, Closed, EqualFold, Spells;
    if ts[pos + 1].LBracket? {
      d := PathBuilds(ts, pos, depth);
    } else if Lower(ts[pos + 1].val) == "pr" {
      d := Has(ts[pos].val, ts[pos + 1].val);
      HasSpells(ts, pos, depth);
    } else {
      d := Test(ts[pos].val, ts[pos + 1].val, ts[pos + 2]);
      TestSpells(ts, pos, depth);
    }
  }

  lemma {:induction false} PathBuilds(ts: seq<Token>, pos: nat, depth: nat) returns (d: Derivation)
    requires Ended(ts) && pos < |ts| && depth <= MAX_FILTER_DEPTH && AttrExpFrom(ts, pos, depth).Some?
    requires !IsKw(ts[pos], "not") && ts[pos + 1].LBracket?
    ensures AtNot(d) && Spells(d, ts, pos, depth, AttrExpFrom(ts, pos, depth))
    decreases |ts| - pos, 0
  {
    hide AtAnd, AtOr, Closed, EqualFold, OpOf;
    var i := ClosedBuilds(ts, pos + 2, depth, RBracket);
    d := Path(ts[pos].val, i);
    PairAt(ts, pos, ts[pos], LBracket);
    AtJoins(ts, pos, [ts[pos], LBracket], Yield(i) + [RBracket]);
  }

  lemma HasSpells(ts: seq<Token>, pos: nat, depth: nat)
    requires Ended(ts) && pos < |ts| && depth <= MAX_FILTER_DEPTH && AttrExpFrom(ts, pos, depth).Some?
    requires ts[pos + 1].Word? && Lower(ts[pos + 1].val) == "pr"
    ensures Spells(Has(ts[pos].val, ts[pos + 1].val), ts, pos, depth, AttrExpFrom(ts, pos, depth))
  {
    hide OpOf;
    PairAt(ts, pos, ts[pos], ts[pos + 1]);
  }

  lemma TestSpells(ts: seq<Token>, pos: nat, depth: nat)
    requires Ended(ts) && pos < |ts| && depth <= MAX_FILTER_DEPTH && AttrExpFrom(ts, pos, depth).Some?
    requires ts[pos + 1].Word? && Lower(ts[pos + 1].val) != "pr"
    ensures Spells(Test(ts[pos].val, ts[pos + 1].val, ts[pos + 2]), ts, pos, depth, AttrExpFrom(ts, pos, depth))
  {
    hide OpOf;
    PairAt(ts, pos, ts[pos], ts[pos + 1]);
    OneAt(ts, pos + 2, ts[pos + 2]);
    AtJoins(ts, pos, [ts[pos], ts[pos + 1]], [ts[pos + 2]]);
  }

  lemma {:induction false} ClosedBuilds(ts: seq<Token>, pos: nat, depth: nat, end: Token) returns (d: Derivation)
    requires Ended(ts) && pos < |ts| && !end.EOF? && Closed(ts, pos, depth, end).Some?
    ensures AtOr(d) && At(ts, pos, Yield(d) + [end]) && depth + 1 + Depth(d) <= MAX_FILTER_DEPTH
    ensures Closed(ts, pos, depth, end) == Some((Meaning(d), pos + |Yield(d)| + 1))
    decreases |ts| - pos, 5
  {
    hide OrFrom, AtOr, Yield, Meaning, Depth;
    d := OrBuilds(ts, pos, depth);
    OneAt(ts, pos + |Yield(d)|, end);
    AtJoins(ts, pos, Yield(d), [end]);
  }

  // ---- the grammar's language ------------------------------------------------------------------------------

  /** Derived tokens hold no end of input. */
  lemma {:induction false} YieldIsOpen(d: Derivation)
    requires AtOr(d)
    ensures forall t :: t in Yield(d) ==> !t.EOF?
  {
    match d
    case Either(l, _, r) =>
      AndIsOr(r);
      YieldIsOpen(l);
      YieldIsOpen(r);
    case Both(l, _, r) =>
      AndIsOr(l);
      AndIsOr(r);
      YieldIsOpen(l);
      YieldIsOpen(r);
    case Negated(_, i) =>
      InnerIsOr(d);
      YieldIsOpen(i);
    case Grouped(i) =>
      InnerIsOr(d);
      YieldIsOpen(i);
    case Path(_, i) =>
      InnerIsOr(d);
      YieldIsOpen(i);
    case Has(_, _) =>
    case Test(_, _, _) =>
      assert AtAnd(d) && AtNot(d);
  }

  lemma DerivedIsRead(d: Derivation)
    requires AtOr(d) && 1 + Depth(d) <= MAX_FILTER_DEPTH
    ensures Ended(Yield(d) + [EOF]) && OrFrom(Yield(d) + [EOF], 0, 0) == Some((Meaning(d), |Yield(d)|))
  {
    hide Yield, Meaning, Depth, AtOr, AndFrom;
    var ts := Yield(d) + [EOF];
    YieldIsOpen(d);
    assert At(ts, 0, Yield(d));
    OrReads(d, ts, 0, 1);
  }

  /**
   The parser accepts a string, as this tree, exactly when its tokens have a derivation within the limit
   that means this tree. So no string has two readings.
   */
  lemma ParseExactlyDerives(s: string, f: Filter)
    ensures Parse(s) == Some(f) <==> Scan(s).Some? && Derives(Scan(s).value, f)
  {
    hide Scan, OrFrom, Yield, Meaning, Depth, AtOr;
    ScanEnds(s);
    if Scan(s).Some? {
      var ts := Scan(s).value;
      if Parse(s) == Some(f) {
        var d := OrBuilds(ts, 0, 0);
        assert Yield(d) + [EOF] == ts;
        assert Derives(ts, f);
      }
      if Derives(ts, f) {
        var d :| AtOr(d) && Yield(d) + [EOF] == ts && Meaning(d) == f && 1 + Depth(d) <= MAX_FILTER_DEPTH;
        DerivedIsRead(d);
      }
    }
  }
}
