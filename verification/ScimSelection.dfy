/**
 What filters select, as a provider writes them: the texts of single tests, the attributes of users and
 groups they see, and the laws of "and", "or" and "not" (scim/filter.go).
 */
module ScimSelection {
  import opened Basics
  import opened AsciiText
  import opened ScimFilter
  import opened ScimTokens
  import opened ScimGrammar
  import opened ScimDerivation
  import opened ScimRoundTrip

  /** The text is read, and the filter it means holds for the resource. */
  predicate Selects(text: string, r: Resource) {
    Parse(text).Some? && Holds(Parse(text).value, r)
  }

  /** "a pr" holds exactly if "a eq v" does for some v that is not empty. */
  lemma PresentMeansValue(attr: string, r: Resource)
    ensures Holds(Present(attr), r) <==> exists v :: v != "" && Holds(Compare(attr, Eq, v), r)
  {
    if Holds(Present(attr), r) {
      assert Holds(Compare(attr, Eq, r.Scalar(attr).value), r);
    }
    if v :| v != "" && Holds(Compare(attr, Eq, v), r) {
      assert |Lower(v)| == |v|;
    }
  }

  /** The laws of a Boolean algebra, which "and", "or" and "not" obey on every resource. */
  lemma LogicLaws(f: Filter, g: Filter, h: Filter, r: Resource)
    ensures !Holds(And(f, Not(f)), r) && Holds(Or(f, Not(f)), r)
    ensures (Holds(And(f, g), r) <==> Holds(And(g, f), r)) && (Holds(Or(f, g), r) <==> Holds(Or(g, f), r))
    ensures (Holds(And(f, Or(f, g)), r) <==> Holds(f, r)) && (Holds(Or(f, And(f, g)), r) <==> Holds(f, r))
    ensures Holds(And(f, Or(g, h)), r) <==> Holds(Or(And(f, g), And(f, h)), r)
    ensures Holds(Not(And(f, g)), r) <==> Holds(Or(Not(f), Not(g)), r)
    ensures Holds(Not(Or(f, g)), r) <==> Holds(And(Not(f), Not(g)), r)
    ensures Holds(Not(Not(f)), r) <==> Holds(f, r)
  {
    assert Holds(Or(g, h), r) <==> Holds(g, r) || Holds(h, r);
    assert Holds(And(f, g), r) <==> Holds(f, r) && Holds(g, r);
    assert Holds(And(f, h), r) <==> Holds(f, r) && Holds(h, r);
    assert Holds(Or(f, g), r) <==> Holds(f, r) || Holds(g, r);
    assert Holds(Not(f), r) <==> !Holds(f, r);
    assert Holds(Not(g), r) <==> !Holds(g, r);
  }

  // ---- single tests as text --------------------------------------------------------------------------

  lemma DerivationIsRead(d: Derivation)
    requires AtOr(d) && Spelled(d) && 1 + Depth(d) <= MAX_FILTER_DEPTH
    ensures Parse(Text(Yield(d))) == Some(Meaning(d))
  {
    hide Scan, Text, OrFrom, Yield, Meaning, Depth, AtOr;
    CleanIsSpelled(d);
    ScanText(Yield(d));
    DerivedIsRead(d);
  }

  /** A name that is not a keyword where an attribute is expected. */
  predicate IsName(name: string) {
    IsWord(name) && !EqualFold(name, "not")
  }

  function TestText(name: string, op: string, want: string): string {
    Text([Word(name), Word(op)] + [Quoted(want)])
  }

  lemma TestIsRead(name: string, op: string, want: string)
    requires IsName(name) && IsWord(op) && Lower(op) == op != "pr" && OpOf(op).Some?
    ensures Parse(TestText(name, op, want)) == Some(Compare(Lower(name), OpOf(op).value, want))
  {
    hide Scan, Text, OrFrom;
    var d := Test(name, op, Quoted(want));
    assert AtNot(d) && AtAnd(d) && AtOr(d);
    DerivationIsRead(d);
  }

  lemma PresenceIsRead(name: string)
    requires IsName(name)
    ensures Parse(Text([Word(name), Word("pr")])) == Some(Present(Lower(name)))
  {
    hide Scan, Text, OrFrom;
    assert Lower("pr") == "pr";
    var d := Has(name, "pr");
    assert AtNot(d) && AtAnd(d) && AtOr(d);
    DerivationIsRead(d);
  }

  /** The operators, by name: each asks of the attribute's value and the wanted one, case aside, what it says. */
  lemma OperatorsByName(name: string, want: string, r: Resource)
    requires IsName(name) && r.Scalar(name).Some?
    ensures var h, w := Lower(r.Scalar(name).value), Lower(want);
            && (Selects(TestText(name, "eq", want), r) <==> h == w)
            && (Selects(TestText(name, "ne", want), r) <==> h != w)
            && (Selects(TestText(name, "lt", want), r) <==> Precedes(h, w))
            && (Selects(TestText(name, "gt", want), r) <==> Precedes(w, h))
            && (Selects(TestText(name, "le", want), r) <==> h == w || Precedes(h, w))
            && (Selects(TestText(name, "ge", want), r) <==> h == w || Precedes(w, h))
            && (Selects(TestText(name, "sw", want), r) <==> Begins(h, w))
            && (Selects(TestText(name, "ew", want), r) <==> Finishes(h, w))
            && (Selects(TestText(name, "co", want), r) <==> Includes(h, w))
  {
    hide Parse, Precedes, Begins, Finishes, Includes, TestText, Holds;
    var a := Lower(name);
    LowerTwice(name);
    assert r.Scalar(a) == r.Scalar(name);
    TestsAreRead(name, want);
    OperatorsMean(a, want, r);
    RestFollow(a, want, r);
  }

  lemma RestFollow(attr: string, want: string, r: Resource)
    requires r.Scalar(attr).Some?
    ensures var met := (op: Op) => Holds(Compare(attr, op, want), r);
            && (met(Ne) <==> !met(Eq)) && (met(Ge) <==> met(Eq) || met(Gt)) && (met(Le) <==> met(Eq) || met(Lt))
  {
    hide Holds;
    ComparisonsAgree(attr, want, r);
  }

  lemma TestsAreRead(name: string, want: string)
    requires IsName(name)
    ensures var a := Lower(name);
            && Parse(TestText(name, "eq", want)) == Some(Compare(a, Eq, want))
            && Parse(TestText(name, "ne", want)) == Some(Compare(a, Ne, want))
            && Parse(TestText(name, "lt", want)) == Some(Compare(a, Lt, want))
            && Parse(TestText(name, "gt", want)) == Some(Compare(a, Gt, want))
            && Parse(TestText(name, "le", want)) == Some(Compare(a, Le, want))
            && Parse(TestText(name, "ge", want)) == Some(Compare(a, Ge, want))
            && Parse(TestText(name, "sw", want)) == Some(Compare(a, Sw, want))
            && Parse(TestText(name, "ew", want)) == Some(Compare(a, Ew, want))
            && Parse(TestText(name, "co", want)) == Some(Compare(a, Co, want))
  {
    hide Parse, TestText;
    TestIsRead(name, OpName(Eq), want);
    TestIsRead(name, OpName(Ne), want);
    TestIsRead(name, OpName(Lt), want);
    TestIsRead(name, OpName(Gt), want);
    TestIsRead(name, OpName(Le), want);
    TestIsRead(name, OpName(Ge), want);
    TestIsRead(name, OpName(Sw), want);
    TestIsRead(name, OpName(Ew), want);
    TestIsRead(name, OpName(Co), want);
  }

  // ---- users and groups -----------------------------------------------------------------------------------

  /** What the two tests ask of an attribute. */
  lemma TestsAsk(name: string, want: string, r: Resource)
    requires IsName(name)
    ensures Selects(TestText(name, "eq", want), r) <==> r.Scalar(name).Some? && EqualFold(r.Scalar(name).value, want)
    ensures Selects(Text([Word(name), Word("pr")]), r) <==> r.Scalar(name).Some? && r.Scalar(name).value != ""
  {
    hide Parse, TestText, Text, IsName;
    TestsAreRead(name, want);
    PresenceIsRead(name);
    LowerTwice(name);
  }

  lemma UsersByAddress(u: User, name: string, want: string)
    requires IsName(name) && Lower(name) in {"username", "emails", "emails.value", "externalid"}
    ensures Selects(TestText(name, "eq", want), UserResource(u)) <==> u.email != "" && EqualFold(u.email, want)
    ensures Selects(Text([Word(name), Word("pr")]), UserResource(u)) <==> u.email != ""
  {
    hide Selects, TestText, Text, IsName, Lower;
    TestsAsk(name, want, UserResource(u));
  }

  lemma UsersByName(u: User, name: string, want: string)
    requires IsName(name) && Lower(name) in {"name", "name.formatted", "displayname"}
    ensures Selects(TestText(name, "eq", want), UserResource(u)) <==> u.name != "" && EqualFold(u.name, want)
    ensures Selects(Text([Word(name), Word("pr")]), UserResource(u)) <==> u.name != ""
  {
    hide Selects, TestText, Text, IsName, Lower;
    TestsAsk(name, want, UserResource(u));
  }

  lemma UsersById(u: User, name: string, want: string)
    requires IsName(name) && Lower(name) == "id"
    ensures Selects(TestText(name, "eq", want), UserResource(u)) <==> EqualFold(u.id, want)
    ensures Selects(Text([Word(name), Word("pr")]), UserResource(u)) <==> u.id != ""
  {
    hide Selects, TestText, Text, IsName, Lower;
    TestsAsk(name, want, UserResource(u));
  }

  lemma UsersByActive(u: User, name: string, want: string)
    requires IsName(name) && Lower(name) == "active"
    ensures Selects(TestText(name, "eq", want), UserResource(u)) <==> EqualFold(want, if u.disabled then "false" else "true")
    ensures Selects(Text([Word(name), Word("pr")]), UserResource(u)) <==> true
  {
    hide Selects, TestText, Text, IsName, Lower;
    TestsAsk(name, want, UserResource(u));
  }

  /** Tests of equality and presence select the users whose own data say so. */
  lemma UsersByAttribute(u: User, name: string, want: string)
    requires IsName(name)
    ensures var r := UserResource(u);
            var equal, present := Selects(TestText(name, "eq", want), r), Selects(Text([Word(name), Word("pr")]), r);
            && (Lower(name) in {"username", "emails", "emails.value", "externalid"} ==>
                  (equal <==> u.email != "" && EqualFold(u.email, want)) && (present <==> u.email != ""))
            && (Lower(name) in {"name", "name.formatted", "displayname"} ==>
                  (equal <==> u.name != "" && EqualFold(u.name, want)) && (present <==> u.name != ""))
            && (Lower(name) == "id" ==> (equal <==> EqualFold(u.id, want)) && (present <==> u.id != ""))
            && (Lower(name) == "active" ==> (equal <==> EqualFold(want, if u.disabled then "false" else "true")) && present)
  {
    hide Selects, TestText, Text, IsName, Lower, UserResource, EqualFold;
    if Lower(name) in {"username", "emails", "emails.value", "externalid"} {
      UsersByAddress(u, name, want);
    }
    if Lower(name) in {"name", "name.formatted", "displayname"} {
      UsersByName(u, name, want);
    }
    if Lower(name) == "id" {
      UsersById(u, name, want);
    }
    if Lower(name) == "active" {
      UsersByActive(u, name, want);
    }
  }

  lemma GroupsByAttribute(id: string, display: string, members: seq<User>, name: string, want: string)
    requires IsName(name)
    ensures var r := GroupResource(id, display, members);
            var equal, present := Selects(TestText(name, "eq", want), r), Selects(Text([Word(name), Word("pr")]), r);
            && (Lower(name) == "displayname" ==> (equal <==> display != "" && EqualFold(display, want)) && (present <==> display != ""))
            && (Lower(name) == "id" ==> (equal <==> EqualFold(id, want)) && (present <==> id != ""))
  {
    hide Selects, TestText, Text, IsName, Lower;
    TestsAsk(name, want, GroupResource(id, display, members));
  }

  lemma TextOfTwo(a: Token, b: Token)
    ensures Text([a, b]) == TokenText(a) + TokenText(b)
  {
    hide Text, TokenText;
    assert [a, b] == [a] + [b];
    TextOfBoth([a], [b]);
    TextOfOne(a);
    TextOfOne(b);
  }

  lemma TrueIsPlain()
    ensures Escape("true") == "true"
  {
    assert Escape("e") == "e" by {
      assert "e"[1..] == "";
    }
    assert Escape("ue") == "ue" by {
      assert "ue"[1..] == "e";
    }
    assert Escape("rue") == "rue" by {
      assert "rue"[1..] == "ue";
    }
    assert "true"[1..] == "rue";
  }

  lemma PresentText()
    ensures Text([Word("userName"), Word("pr")]) == "userName pr "
  {
    hide Text;
    TextOfTwo(Word("userName"), Word("pr"));
  }

  lemma ActiveText()
    ensures TestText("active", "eq", "true") == "active eq \"true\" "
  {
    hide Text, Escape;
    TextOfBoth([Word("active"), Word("eq")], [Quoted("true")]);
    TextOfTwo(Word("active"), Word("eq"));
    TextOfOne(Quoted("true"));
    TrueIsPlain();
  }

  lemma PlainNames()
    ensures IsName("userName") && Lower("userName") == "username" && IsName("active") && Lower("active") == "active"
    ensures EqualFold("true", "true") && !EqualFold("true", "false")
  {
    assert |Lower("userName")| == 8 && |Lower("active")| == 6 && |Lower("not")| == 3 && |Lower("true")| == 4 && |Lower("false")| == 5;
  }

  /** In plain letters: who has an address, and who may sign in. */
  lemma PresentAndActive(u: User)
    ensures Selects("userName pr ", UserResource(u)) <==> u.email != ""
    ensures Selects("active eq \"true\" ", UserResource(u)) <==> !u.disabled
  {
    hide Parse, Text, TestText, Selects, UserResource, IsName, Lower, EqualFold;
    PlainNames();
    PresentText();
    ActiveText();
    UsersByAttribute(u, "userName", "");
    UsersByAttribute(u, "active", "true");
  }
}
