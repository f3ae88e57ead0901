/**
 The filter compiler in its own imperative form (scim/filter.go:213-374): a parser that moves through
 the tokens and builds the predicate on the way, without ever building a tree. Each method is proved
 against the grammar in ScimGrammar and the predicate against the meaning of the tree read.
 */
module ScimParser {
  import opened Basics
  import opened AsciiText
  import opened ScimFilter
  import opened ScimTokens
  import opened ScimGrammar

  type Pred = Resource -> bool

  ghost predicate Means(p: Pred, f: Filter) {
    forall r :: p(r) <==> Holds(f, r)
  }

  /** What a parse method returns, and where it leaves the parser, against the grammar. */
  ghost predicate Agrees(spec: Parsed, pred: Pred, ok: bool, pos: nat) {
    && (ok <==> spec.Some?)
    && (ok ==> pos == spec.value.1 && Means(pred, spec.value.0))
  }

  const NIL: Pred := _ => false

  function EitherOf(l: Pred, r: Pred): Pred {
    (res: Resource) => l(res) || r(res)
  }

  function BothOf(l: Pred, r: Pred): Pred {
    (res: Resource) => l(res) && r(res)
  }

  function Opposite(inner: Pred): Pred {
    (res: Resource) => !inner(res)
  }

  function AnyElem(attr: string, inner: Pred): Pred {
    (res: Resource) => exists e <- res.Multi(attr) :: inner(AsResource(e))
  }

  function HasValue(attr: string): Pred {
    (res: Resource) => res.Scalar(attr).Some? && res.Scalar(attr).value != ""
  }

  function Matches(attr: string, op: Op, want: string): Pred {
    (res: Resource) => MatchAttr(res.Scalar(attr), op, want)
  }

  class Parser {
    const toks: seq<Token>
    var pos: nat
    var depth: nat
    /** The parseOr calls that have passed the depth check and not yet returned. */
    ghost var frames: nat
    /** The most there ever were. */
    ghost var peak: nat

    constructor (toks: seq<Token>)
      ensures this.toks == toks && pos == 0 && depth == frames == peak == 0
    {
      this.toks := toks;
      pos, depth := 0, 0;
      frames, peak := 0, 0;
    }

    ghost predicate Ready()
      reads this
    {
      Ended(toks) && pos < |toks| && depth == frames <= MAX_FILTER_DEPTH && peak <= MAX_FILTER_DEPTH
    }

    /** After a parse method. An error leaves depth one too high when the depth check raised it. */
    twostate predicate Unwound(ok: bool)
      reads this
    {
      && frames == old(frames)
      && old(peak) <= peak <= MAX_FILTER_DEPTH
      && (if ok then depth == frames else frames <= depth <= frames + 1)
    }

    function Peek(): Token
      requires pos < |toks|
      reads this
    {
      toks[pos]
    }

    method Next() returns (t: Token)
      requires pos < |toks|
      modifies this`pos
      ensures t == toks[old(pos)] && pos == old(pos) + 1
    {
      t := toks[pos];
      pos := pos + 1;
    }

    method ParseOr() returns (pred: Pred, ok: bool)
      requires Ready()
      modifies this
      ensures Agrees(OrFrom(toks, old(pos), old(depth)), pred, ok, pos) && Unwound(ok)
      decreases |toks| - pos, 4
    {
      ghost var from, base := pos, depth;
      depth := depth + 1;
      if depth > MAX_FILTER_DEPTH {
        return NIL, false;
      }
      frames, peak := frames + 1, Max(peak, frames + 1);
      pred, ok := ParseAnd();
      if ok {
        ghost var f := AndFrom(toks, from, depth).value.0;
        while IsKw(Peek(), "or")
          invariant Ready() && frames == base + 1 && old(peak) <= peak && from < pos
          invariant OrFrom(toks, from, base) == OrRest(f, toks, pos, depth) && Means(pred, f)
          decreases |toks| - pos
        {
          var _ := Next();
          ghost var at := pos;
          var right;
          right, ok := ParseAnd();
          if !ok {
            break;
          }
          pred, f := EitherOf(pred, right), Or(f, AndFrom(toks, at, depth).value.0);
        }
      }
      depth := depth - 1;
      frames := frames - 1;
    }

    method ParseAnd() returns (pred: Pred, ok: bool)
      requires Ready()
      modifies this
      ensures Agrees(AndFrom(toks, old(pos), old(depth)), pred, ok, pos) && Unwound(ok)
      decreases |toks| - pos, 3
    {
      ghost var from := pos;
      pred, ok := ParseNot();
      if !ok {
        return;
      }
      ghost var f := NotFrom(toks, from, depth).value.0;
      while IsKw(Peek(), "and")
        invariant Ready() && depth == old(depth) && old(peak) <= peak && from < pos
        invariant AndFrom(toks, from, depth) == AndRest(f, toks, pos, depth) && Means(pred, f)
        decreases |toks| - pos
      {
        var _ := Next();
        ghost var at := pos;
        var right;
        right, ok := ParseNot();
        if !ok {
          return;
        }
        pred, f := BothOf(pred, right), And(f, NotFrom(toks, at, depth).value.0);
      }
    }

    method ParseNot() returns (pred: Pred, ok: bool)
      requires Ready()
      modifies this
      ensures Agrees(NotFrom(toks, old(pos), old(depth)), pred, ok, pos) && Unwound(ok)
      decreases |toks| - pos, 2
    {
      if IsKw(Peek(), "not") {
        var _ := Next();
        if !Peek().LParen? {
          return NIL, false;
        }
        var _ := Next();
        pred, ok := ParseOr();
        if !ok || !Peek().RParen? {
          return NIL, false;
        }
        var _ := Next();
        pred := Opposite(pred);
        return;
      }
      pred, ok := ParsePrimary();
    }

    method ParsePrimary() returns (pred: Pred, ok: bool)
      requires Ready() && !IsKw(toks[pos], "not")
      modifies this
      ensures Agrees(NotFrom(toks, old(pos), old(depth)), pred, ok, pos) && Unwound(ok)
      decreases |toks| - pos, 1
    {
      if Peek().LParen? {
        var _ := Next();
        pred, ok := ParseOr();
        if !ok || !Peek().RParen? {
          return NIL, false;
        }
        var _ := Next();
        return;
      }
      pred, ok := ParseAttrExp();
    }

    method ParseAttrExp() returns (pred: Pred, ok: bool)
      requires Ready()
      modifies this
      ensures Agrees(AttrExpFrom(toks, old(pos), old(depth)), pred, ok, pos) && Unwound(ok)
      decreases |toks| - pos, 0
    {
      var at := Next();
      if !at.Word? {
        return NIL, false;
      }
      var attr := Lower(at.val);
      if Peek().LBracket? {
        var _ := Next();
        pred, ok := ParseOr();
        if !ok || !Peek().RBracket? {
          return NIL, false;
        }
        var _ := Next();
        pred := AnyElem(attr, pred);
        return;
      }
      var opTok := Next();
      if !opTok.Word? {
        return NIL, false;
      }
      var op := Lower(opTok.val);
      if op == "pr" {
        return HasValue(attr), true;
      }
      if OpOf(op).None? {
        return NIL, false;
      }
      var vt := Next();
      if !vt.Word? && !vt.Quoted? {
        return NIL, false;
      }
      return Matches(attr, OpOf(op).value, vt.val), true;
    }
  }

  /**
   For any string: the compiler ends, never reads past the last token, never holds more than 40 open
   parseOr calls, and accepts exactly what the grammar accepts, with a predicate that is the meaning
   of the tree.
   */
  method CompileFilter(s: string) returns (pred: Pred, ok: bool, ghost peak: nat)
    ensures ok <==> Parse(s).Some?
    ensures ok ==> forall r :: pred(r) <==> Holds(Parse(s).value, r)
    ensures peak <= MAX_FILTER_DEPTH
  {
    peak := 0;
    var toks, scanned := Tokenize(s);
    if !scanned {
      return NIL, false, peak;
    }
    ScanEnds(s);
    var p := new Parser(toks);
    pred, ok := p.ParseOr();
    peak := p.peak;
    if ok && !p.Peek().EOF? {
      return NIL, false, peak;
    }
  }
}
