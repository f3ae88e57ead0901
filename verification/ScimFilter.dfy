/** Filter trees and what they mean (scim/filter.go; section 3.4.2.2 of RFC 7644). */
module ScimFilter {
  import opened Basics
  import opened AsciiText

  datatype Op = Eq | Ne | Co | Sw | Ew | Gt | Ge | Lt | Le

  datatype Filter =
    | Or(left: Filter, right: Filter)
    | And(left: Filter, right: Filter)
    | Not(inner: Filter)
    | ValuePath(attr: string, inner: Filter)
    | Present(attr: string)
    | Compare(attr: string, op: Op, want: string)

  /** A sub-value a value path looks at, under lower-cased names. */
  type Elem = map<string, string>

  /** The attributes a filter can see, under lower-cased names. */
  datatype Resource = Resource(scalars: map<string, string>, multis: map<string, seq<Elem>>) {
    function Scalar(attr: string): Option<string> {
      if Lower(attr) in scalars then Some(scalars[Lower(attr)]) else None
    }

    function Multi(attr: string): seq<Elem> {
      if Lower(attr) in multis then multis[Lower(attr)] else []
    }
  }

  function AsResource(e: Elem): Resource {
    Resource(e, map[])
  }

  datatype User = User(id: string, email: string, name: string, disabled: bool)

  function IfSet(attrs: set<string>, value: string): map<string, string> {
    if value == "" then map[] else map a | a in attrs :: value
  }

  function UserResource(u: User): Resource {
    Resource(
      IfSet({"username", "emails", "emails.value", "externalid"}, u.email)
      + IfSet({"name", "name.formatted", "displayname"}, u.name)
      + map["id" := u.id, "active" := if u.disabled then "false" else "true"],
      if u.email == "" then map[]
      else map["emails" := [map["value" := u.email, "primary" := "true"]]])
  }

  function MemberElems(members: seq<User>): seq<Elem> {
    seq(|members|, i requires 0 <= i < |members| => map["value" := members[i].id, "display" := members[i].email])
  }

  function GroupResource(id: string, name: string, members: seq<User>): Resource {
    Resource(IfSet({"displayname"}, name) + map["id" := id], map["members" := MemberElems(members)])
  }

  /** A comparison never matches an absent attribute, "ne" included. */
  predicate MatchAttr(have: Option<string>, op: Op, want: string) {
    have.Some?
    && var h, w := Lower(have.value), Lower(want);
    match op
    case Eq => h == w
    case Ne => h != w
    case Co => Contains(h, w)
    case Sw => w <= h
    case Ew => HasSuffix(h, w)
    case Gt => Less(w, h)
    case Ge => !Less(h, w)
    case Lt => Less(h, w)
    case Le => !Less(w, h)
  }

  /** What a filter tree means for a resource. */
  predicate Holds(f: Filter, r: Resource) {
    match f
    case Or(a, b) => Holds(a, r) || Holds(b, r)
    case And(a, b) => Holds(a, r) && Holds(b, r)
    case Not(a) => !Holds(a, r)
    case ValuePath(attr, a) => exists e <- r.Multi(attr) :: Holds(a, AsResource(e))
    case Present(attr) => r.Scalar(attr).Some? && r.Scalar(attr).value != ""
    case Compare(attr, op, want) => MatchAttr(r.Scalar(attr), op, want)
  }

  /**
   A present attribute is below, equal to or above any value, exactly one of them, and the other
   comparisons follow; an absent one satisfies no comparison.
   */
  lemma ComparisonsAgree(attr: string, want: string, r: Resource)
    ensures var met := (op: Op) => Holds(Compare(attr, op, want), r);
      if r.Scalar(attr).None? then
        forall op :: !met(op)
      else
        && (met(Lt) || met(Eq) || met(Gt))
        && !(met(Lt) && met(Eq)) && !(met(Eq) && met(Gt)) && !(met(Lt) && met(Gt))
        && (met(Ne) <==> !met(Eq))
        && (met(Ge) <==> !met(Lt))
        && (met(Le) <==> !met(Gt))
        && (met(Eq) <==> met(Le) && met(Ge))
        && (met(Sw) ==> met(Co))
        && (met(Ew) ==> met(Co))
  {
    if r.Scalar(attr).Some? {
      var h, w := Lower(r.Scalar(attr).value), Lower(want);
      LessIsTotal(h, w);
      assert h == h[0..];
    }
  }

  /** "not (a eq v)" and "a ne v" part ways exactly on resources without a. */
  lemma NotEqIsNotNe(attr: string, want: string, r: Resource)
    ensures (Holds(Not(Compare(attr, Eq, want)), r) <==> Holds(Compare(attr, Ne, want), r))
            <==> r.Scalar(attr).Some?
  {
  }

  ghost predicate Begins(h: string, w: string) {
    exists rest :: h == w + rest
  }

  ghost predicate Finishes(h: string, w: string) {
    exists start :: h == start + w
  }

  /** `w` begins somewhere in `h`. */
  ghost predicate Includes(h: string, w: string) {
    exists start :: start <= h && Begins(h[|start|..], w)
  }

  /** What each operator asks of the two texts, case aside. */
  lemma OperatorsMean(attr: string, want: string, r: Resource)
    requires r.Scalar(attr).Some?
    ensures var h, w := Lower(r.Scalar(attr).value), Lower(want);
      && (Holds(Compare(attr, Lt, want), r) <==> Precedes(h, w))
      && (Holds(Compare(attr, Gt, want), r) <==> Precedes(w, h))
      && (Holds(Compare(attr, Eq, want), r) <==> h == w)
      && (Holds(Compare(attr, Sw, want), r) <==> Begins(h, w))
      && (Holds(Compare(attr, Ew, want), r) <==> Finishes(h, w))
      && (Holds(Compare(attr, Co, want), r) <==> Includes(h, w))
  {
    hide Precedes, Less, Begins, Finishes, Includes, Contains, HasSuffix;
    var h, w := Lower(r.Scalar(attr).value), Lower(want);
    LessIsPrecedes(h, w);
    LessIsPrecedes(w, h);
    BeginsIsPrefix(h, w);
    FinishesIsSuffix(h, w);
    IncludesIsContains(h, w);
  }

  lemma BeginsIsPrefix(h: string, w: string)
    ensures w <= h <==> Begins(h, w)
  {
    if w <= h {
      assert h == w + h[|w|..];
    }
  }

  lemma FinishesIsSuffix(h: string, w: string)
    ensures HasSuffix(h, w) <==> Finishes(h, w)
  {
    if HasSuffix(h, w) {
      assert h == h[..|h| - |w|] + w;
    }
  }

  lemma IncludesIsContains(h: string, w: string)
    ensures Contains(h, w) <==> Includes(h, w)
  {
    hide Begins;
    if i :| 0 <= i <= |h| && w <= h[i..] {
      BeginsIsPrefix(h[i..], w);
      assert h[..i] <= h && h[|h[..i]|..] == h[i..];
    }
    if start :| start <= h && Begins(h[|start|..], w) {
      BeginsIsPrefix(h[|start|..], w);
    }
  }

  /** The filter with every name and value in lower case. */
  function Folded(f: Filter): Filter {
    match f
    case Or(a, b) => Or(Folded(a), Folded(b))
    case And(a, b) => And(Folded(a), Folded(b))
    case Not(a) => Not(Folded(a))
    case ValuePath(attr, a) => ValuePath(Lower(attr), Folded(a))
    case Present(attr) => Present(Lower(attr))
    case Compare(attr, op, want) => Compare(Lower(attr), op, Lower(want))
  }

  /** A filter does not tell upper from lower case, at any depth. */
  lemma {:induction false} CaseIsIgnored(f: Filter, r: Resource)
    ensures Holds(Folded(f), r) <==> Holds(f, r)
  {
    match f
    case Or(a, b) =>
      CaseIsIgnored(a, r);
      CaseIsIgnored(b, r);
    case And(a, b) =>
      CaseIsIgnored(a, r);
      CaseIsIgnored(b, r);
    case Not(a) => CaseIsIgnored(a, r);
    case ValuePath(attr, a) =>
      LowerTwice(attr);
      forall e | e in r.Multi(attr) ensures Holds(Folded(a), AsResource(e)) <==> Holds(a, AsResource(e)) {
        CaseIsIgnored(a, AsResource(e));
      }
    case Present(attr) => LowerTwice(attr);
    case Compare(attr, _, want) =>
      LowerTwice(attr);
      LowerTwice(want);
  }

  /** `members[value eq "id"]` selects the groups with a member of that id. */
  lemma MembersByValue(id: string, name: string, members: seq<User>, want: string)
    ensures Holds(ValuePath("members", Compare("value", Eq, want)), GroupResource(id, name, members))
            <==> exists k :: 0 <= k < |members| && EqualFold(members[k].id, want)
  {
    var g, elems := GroupResource(id, name, members), MemberElems(members);
    assert Lower("members") == "members" && Lower("value") == "value";
    assert g.Multi("members") == elems;
    forall k | 0 <= k < |members|
      ensures Holds(Compare("value", Eq, want), AsResource(elems[k])) <==> EqualFold(members[k].id, want)
    {
      assert AsResource(elems[k]).Scalar("value") == Some(members[k].id);
    }
    if k :| 0 <= k < |members| && EqualFold(members[k].id, want) {
      assert elems[k] in elems;
    }
  }

  /**
   `emails[...]` selects the users with an address that the inner filter accepts. An element has no
   multi-valued attributes of its own, so a value path directly inside another accepts none.
   */
  lemma EmailsByValue(u: User, f: Filter)
    ensures f.ValuePath? ==> !Holds(ValuePath("emails", f), UserResource(u))
    ensures Holds(ValuePath("emails", f), UserResource(u))
            <==> u.email != "" && Holds(f, AsResource(map["value" := u.email, "primary" := "true"]))
  {
    assert Lower("emails") == "emails";
  }
}
