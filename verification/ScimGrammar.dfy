/**
 The filter grammar on tokens: what the recursive-descent parser accepts and builds
 (scim/filter.go:213-374), as functions. `depth` counts the parseOr calls already open.
 */
module ScimGrammar {
  import opened Basics
  import opened AsciiText
  import opened ScimFilter
  import opened ScimTokens

  const MAX_FILTER_DEPTH := 40

  predicate IsKw(t: Token, kw: string) {
    t.Word? && EqualFold(t.val, kw)
  }

  function OpOf(name: string): Option<Op> {
    match name
    case "eq" => Some(Eq)
    case "ne" => Some(Ne)
    case "co" => Some(Co)
    case "sw" => Some(Sw)
    case "ew" => Some(Ew)
    case "gt" => Some(Gt)
    case "ge" => Some(Ge)
    case "lt" => Some(Lt)
    case "le" => Some(Le)
    case _ => None
  }

  /** As Tokenize delivers them: EOF ends the tokens and occurs nowhere else. */
  predicate Ended(ts: seq<Token>) {
    ts != [] && ts[|ts| - 1].EOF? && forall k :: 0 <= k < |ts| - 1 ==> !ts[k].EOF?
  }

  /** A tree and the position after it. */
  type Parsed = Option<(Filter, nat)>

  /** A parse that succeeds moves forward and stops at EOF at the latest. */
  predicate Within(ts: seq<Token>, from: nat, r: Parsed) {
    r.Some? ==> from < r.value.1 < |ts|
  }

  function OrFrom(ts: seq<Token>, pos: nat, depth: nat): (r: Parsed)
    requires Ended(ts) && pos < |ts|
    ensures Within(ts, pos, r)
    decreases |ts| - pos, 4
  {
    if depth + 1 > MAX_FILTER_DEPTH then None
    else
      match AndFrom(ts, pos, depth + 1)
      case None => None
      case Some((left, p)) => OrRest(left, ts, p, depth + 1)
  }

  function OrRest(left: Filter, ts: seq<Token>, pos: nat, depth: nat): (r: Parsed)
    requires Ended(ts) && pos < |ts|
    ensures r.Some? ==> pos <= r.value.1 < |ts|
    decreases |ts| - pos, 3
  {
    if !IsKw(ts[pos], "or") then Some((left, pos))
    else
      match AndFrom(ts, pos + 1, depth)
      case None => None
      case Some((right, p)) => OrRest(Or(left, right), ts, p, depth)
  }

  function AndFrom(ts: seq<Token>, pos: nat, depth: nat): (r: Parsed)
    requires Ended(ts) && pos < |ts|
    ensures Within(ts, pos, r)
    decreases |ts| - pos, 3
  {
    match NotFrom(ts, pos, depth)
    case None => None
    case Some((left, p)) => AndRest(left, ts, p, depth)
  }

  function AndRest(left: Filter, ts: seq<Token>, pos: nat, depth: nat): (r: Parsed)
    requires Ended(ts) && pos < |ts|
    ensures r.Some? ==> pos <= r.value.1 < |ts|
    decreases |ts| - pos, 2
  {
    if !IsKw(ts[pos], "and") then Some((left, pos))
    else
      match NotFrom(ts, pos + 1, depth)
      case None => None
      case Some((right, p)) => AndRest(And(left, right), ts, p, depth)
  }

  function NotFrom(ts: seq<Token>, pos: nat, depth: nat): (r: Parsed)
    requires Ended(ts) && pos < |ts|
    ensures Within(ts, pos, r)
    decreases |ts| - pos, 2
  {
    if IsKw(ts[pos], "not") then
      if !ts[pos + 1].LParen? then None
      else
        match Closed(ts, pos + 2, depth, RParen)
        case None => None
        case Some((inner, p)) => Some((Not(inner), p))
    else if ts[pos].LParen? then Closed(ts, pos + 1, depth, RParen)
    else AttrExpFrom(ts, pos, depth)
  }

  /** A filter and the bracket that ends it. */
  function Closed(ts: seq<Token>, pos: nat, depth: nat, end: Token): (r: Parsed)
    requires Ended(ts) && pos < |ts| && !end.EOF?
    ensures Within(ts, pos, r)
    decreases |ts| - pos, 5
  {
    match OrFrom(ts, pos, depth)
    case None => None
    case Some((inner, p)) => if ts[p] == end then Some((inner, p + 1)) else None
  }

  function AttrExpFrom(ts: seq<Token>, pos: nat, depth: nat): (r: Parsed)
    requires Ended(ts) && pos < |ts|
    ensures Within(ts, pos, r)
    decreases |ts| - pos, 1
  {
    if !ts[pos].Word? then None
    else
      var attr := Lower(ts[pos].val);
      if ts[pos + 1].LBracket? then
        match Closed(ts, pos + 2, depth, RBracket)
        case None => None
        case Some((inner, p)) => Some((ValuePath(attr, inner), p))
      else if !ts[pos + 1].Word? then None
      else
        var op := Lower(ts[pos + 1].val);
        if op == "pr" then Some((Present(attr), pos + 2))
        else if OpOf(op).None? then None
        else if ts[pos + 2].Word? || ts[pos + 2].Quoted? then
          Some((Compare(attr, OpOf(op).value, ts[pos + 2].val), pos + 3))
        else None
  }

  lemma {:induction false} ScanEnds(s: string)
    ensures Scan(s).Some? ==> Ended(Scan(s).value)
    decreases |s|
  {
    if s != "" {
      if Blank(s[0]) || Symbol(s[0]).Some? {
        ScanEnds(s[1..]);
      } else if s[0] == '"' {
        if Unquote(s[1..]).Some? {
          ScanEnds(Unquote(s[1..]).value.1);
        }
      } else {
        ScanEnds(s[WordLength(s)..]);
      }
    }
  }

  /** The tree of a filter string; None when it is refused. */
  function Parse(s: string): Option<Filter> {
    ScanEnds(s);
    match Scan(s)
    case None => None
    case Some(ts) =>
      match OrFrom(ts, 0, 0)
      case None => None
      case Some((f, p)) => if ts[p].EOF? then Some(f) else None
  }
}
