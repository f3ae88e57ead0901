/**
 The directory as one organization's identity provider sees it (orgdirectory.go): which calls reach the
 store, what they cannot change, and who may be in an organization's groups.
 */
module OrgView {
  import opened Basics
  import opened OrgRoles
  import opened IdentityRecords
  import opened IdentityRuns

  // ---- subject namespaces --------------------------------------------------------------------------------

  function Digit(d: nat): char
    requires d < 10
  {
    '0' + d as char
  }

  function Decimal(n: nat): (s: string)
    ensures s != "" && forall k :: 0 <= k < |s| ==> '0' <= s[k] <= '9'
  {
    if n < 10 then [Digit(n)] else Decimal(n / 10) + [Digit(n % 10)]
  }

  function Prefix(org: Id): string {
    "scim:org" + Decimal(org) + ":"
  }

  /** A subject a provider's user name became goes into the organization's namespace; others stay. */
  function NsSub(org: Id, sub: string): string {
    if Prefix(org) <= sub then sub
    else if "scim:" <= sub then Prefix(org) + sub[5..]
    else sub
  }

  lemma {:induction false} DecimalIsInjective(a: nat, b: nat)
    requires Decimal(a) == Decimal(b)
    ensures a == b
  {
    var s := Decimal(a);
    assert s[|s| - 1] == Digit(a % 10) == Digit(b % 10);
    if a >= 10 && b >= 10 {
      assert Decimal(a / 10) == s[..|s| - 1] == Decimal(b / 10);
      DecimalIsInjective(a / 10, b / 10);
    }
  }

  /** The digits a text starts with. */
  function DigitsLength(s: string): nat {
    if s == "" || !('0' <= s[0] <= '9') then 0 else 1 + DigitsLength(s[1..])
  }

  lemma {:induction false} DigitsEnd(d: string, rest: string)
    requires forall k :: 0 <= k < |d| ==> '0' <= d[k] <= '9'
    ensures DigitsLength(d + ":" + rest) == |d|
  {
    var s := d + ":" + rest;
    if d != "" {
      assert s[1..] == d[1..] + ":" + rest;
      DigitsEnd(d[1..], rest);
    }
  }

  lemma PrefixTellsOrg(org: Id, sub: string)
    requires Prefix(org) <= sub
    ensures var n := DigitsLength(sub[8..]); 8 + n <= |sub| && sub[8..8 + n] == Decimal(org)
  {
    var d, rest := Decimal(org), sub[|Prefix(org)|..];
    assert sub == Prefix(org) + rest;
    assert sub[8..] == d + ":" + rest;
    DigitsEnd(d, rest);
    assert (d + ":" + rest)[..|d|] == d;
  }

  /** No subject is in the namespace of two organizations. */
  lemma NamespacesAreDisjoint(a: Id, b: Id, sub: string)
    requires Prefix(a) <= sub && Prefix(b) <= sub
    ensures a == b
  {
    PrefixTellsOrg(a, sub);
    PrefixTellsOrg(b, sub);
    DecimalIsInjective(a, b);
  }

  /** The user name without the organization's own prefix, if it has it. */
  function Bare(org: Id, name: string): string {
    var own := "org" + Decimal(org) + ":";
    if own <= name then name[|own|..] else name
  }

  lemma SharedStart(p: string, a: string, b: string)
    ensures p + a <= p + b <==> a <= b
    ensures (p + b)[|p|..] == b
  {
    assert (p + a)[|p|..] == a && (p + b)[|p|..] == b;
    if p + a <= p + b {
      assert (p + b)[..|p + a|] == p + a;
      assert forall k :: 0 <= k < |a| ==> b[k] == (p + b)[|p| + k] == (p + a)[|p| + k] == a[k];
    }
    if a <= b {
      assert b == a + b[|a|..];
      assert p + b == (p + a) + b[|a|..];
    }
  }

  lemma NsSubOfName(org: Id, name: string)
    ensures NsSub(org, "scim:" + name) == Prefix(org) + Bare(org, name)
  {
    var own := "org" + Decimal(org) + ":";
    assert Prefix(org) == "scim:" + own;
    SharedStart("scim:", own, name);
    if own <= name {
      assert name == own + name[|own|..];
      assert "scim:" + name == Prefix(org) + name[|own|..];
    }
  }

  /** Two user names of one provider are one account exactly when they differ by the prefix at most. */
  lemma NamesCollideExactlyWhen(org: Id, x: string, y: string)
    ensures NsSub(org, "scim:" + x) == NsSub(org, "scim:" + y) <==> Bare(org, x) == Bare(org, y)
  {
    NsSubOfName(org, x);
    NsSubOfName(org, y);
    var a, b := Prefix(org) + Bare(org, x), Prefix(org) + Bare(org, y);
    assert a[|Prefix(org)|..] == Bare(org, x) && b[|Prefix(org)|..] == Bare(org, y);
  }

  /** Such a pair: "x" and "org1:x" in organization 1. */
  lemma PrefixedNameCollides()
    ensures NsSub(1, "scim:x") == NsSub(1, "scim:org1:x") == "scim:org1:x"
  {
    assert Decimal(1) == "1";
    assert Prefix(1) == "scim:org1:";
    NsSubOfName(1, "x");
    assert "scim:" + "x" == "scim:x";
    assert Prefix(1) <= "scim:org1:x";
    assert Bare(1, "x") == "x";
  }

  // ---- the calls -----------------------------------------------------------------------------------------------

  datatype Call =
    | Provision(sub: string, address: string, name: string, verified: bool)
    | SetDisabled(id: Id, disabled: bool)
    | AddGroup(name: string)
    | DropGroup(group: Id)
    | Add(id: Id, group: Id)
    | Take(id: Id, group: Id)
    | AddMany(ids: seq<Id>, group: Id)
    | TakeMany(ids: seq<Id>, group: Id)

  /** OrgRole finds the organization and the membership. */
  predicate HasRole(dir: Directory, org: Id, id: Id) {
    org in dir.orgs && IsMember(dir, org, id)
  }

  predicate GroupInOrg(dir: Directory, org: Id, group: Id) {
    group in dir.groups && dir.groups[group].org == org
  }

  function OrgMembersOf(dir: Directory, org: Id, ids: seq<Id>): seq<Id> {
    if ids == [] then []
    else
      OrgMembersOf(dir, org, ids[..|ids| - 1])
      + if HasRole(dir, org, ids[|ids| - 1]) then [ids[|ids| - 1]] else []
  }

  /** Whether the view passes a provisioning on to the store. */
  ghost predicate Accepts(db: Db, org: Id, sub: string, address: string) {
    && Prefix(org) <= NsSub(org, sub)
    && var existing := ByEmail(db.users, Norm(address));
       existing.Some? ==> db.users[existing.value].sub == NsSub(org, sub)
  }

  function EnsureMember(db: Db, org: Id, id: Id): Db {
    if HasRole(db.dir, org, id) then db else SetMember(db, org, id, MEMBER)
  }

  ghost function Provisioned(db: Db, org: Id, sub: string, address: string, name: string, verified: bool): (Db, Option<Id>) {
    if !Accepts(db, org, sub, address) then (db, None)
    else
      var (db', who) := Login(db, NsSub(org, sub), address, name, verified);
      if who.None? then (db, None)
      else
        var joined := EnsureMember(db', org, who.value);
        (joined, if HasRole(joined.dir, org, who.value) then who else None)
  }

  ghost function Apply(db: Db, org: Id, c: Call): Db {
    match c
    case Provision(sub, address, name, verified) => Provisioned(db, org, sub, address, name, verified).0
    case SetDisabled(id, disabled) =>
      if disabled && HasRole(db.dir, org, id) && !db.dir.members[org][id].Owner?
      then db.(dir := RemoveMember(db.dir, org, id)) else db
    case AddGroup(name) => if org in db.dir.orgs then db.(dir := CreateGroup(db.dir, org, name)) else db
    case DropGroup(group) => if GroupInOrg(db.dir, org, group) then db.(dir := DeleteGroup(db.dir, group)) else db
    case Add(id, group) =>
      if GroupInOrg(db.dir, org, group) && HasRole(db.dir, org, id)
      then db.(dir := AddToGroup(db.dir, id, group)) else db
    case Take(id, group) =>
      if GroupInOrg(db.dir, org, group) then db.(dir := RemoveFromGroup(db.dir, id, group)) else db
    case AddMany(ids, group) =>
      if GroupInOrg(db.dir, org, group)
      then db.(dir := AddAll(db.dir, OrgMembersOf(db.dir, org, ids), group)) else db
    case TakeMany(ids, group) =>
      if GroupInOrg(db.dir, org, group) then db.(dir := RemoveAll(db.dir, ids, group)) else db
  }

  ghost function Exec(db: Db, org: Id, cs: seq<Call>): Db {
    if cs == [] then db else Apply(Exec(db, org, cs[..|cs| - 1]), org, cs[|cs| - 1])
  }

  // ---- what a view cannot touch --------------------------------------------------------------------------------

  /** Everything that is not the organization's. */
  ghost function OtherUsers(users: Users, org: Id): Users {
    map i | i in users && !(Prefix(org) <= users[i].sub) :: users[i]
  }

  function OtherMembers(dir: Directory, org: Id): map<Id, map<Id, Role>> {
    dir.members - {org}
  }

  function OtherGroups(dir: Directory, org: Id): map<Id, Group> {
    map g | g in dir.groups && dir.groups[g].org != org :: dir.groups[g]
  }

  /** Who is in a group that is not the organization's. */
  ghost function OtherPlaces(dir: Directory, org: Id): iset<(Id, Id)> {
    iset u: Id, g: Id | g in OtherGroups(dir, org) && g in GroupsOf(dir, u) :: (u, g)
  }

  ghost predicate SameOutside(db: Db, db': Db, org: Id) {
    && OtherUsers(db'.users, org) == OtherUsers(db.users, org)
    && db'.creds == db.creds && db'.sessions == db.sessions
    && db'.dir.orgs == db.dir.orgs && db'.dir.lastOrg == db.dir.lastOrg
    && OtherMembers(db'.dir, org) == OtherMembers(db.dir, org)
    && OtherGroups(db'.dir, org) == OtherGroups(db.dir, org)
    && OtherPlaces(db'.dir, org) == OtherPlaces(db.dir, org)
  }

  /** A provisioning the view accepts never adopts, rebinds or deletes another account. */
  lemma ProvisionedStaysInNamespace(db: Db, org: Id, sub: string, address: string, name: string, verified: bool)
    requires Inv(db) && Accepts(db, org, sub, address)
    ensures var (db', who) := Login(db, NsSub(org, sub), address, name, verified);
            && OtherUsers(db'.users, org) == OtherUsers(db.users, org)
            && db'.creds == db.creds && db'.sessions == db.sessions && db'.dir == db.dir
  {
    hide Norm, Cascade, Prefix, NsSub, Inv, OtherUsers;
    var ns := NsSub(org, sub);
    var existing := ByEmail(db.users, Norm(address));
    if existing.Some? {
      assert db.users[existing.value].sub == ns;
      assert BySub(db.users, ns).Some?;
    }
    var users' := Login(db, ns, address, name, verified).0.users;
    NoRowYet(db);
    OnlyThatSubject(db.users, users', ns, org);
  }

  lemma NoRowYet(db: Db)
    requires Inv(db)
    ensures db.lastUser + 1 !in db.users
  {
  }

  lemma OnlyThatSubject(users: Users, users': Users, ns: string, org: Id)
    requires Prefix(org) <= ns
    requires forall i :: i in users' && (i !in users || users'[i] != users[i]) ==> users'[i].sub == ns
    requires forall i :: i in users && (i !in users' || users'[i] != users[i]) ==> users[i].sub == ns
    ensures OtherUsers(users', org) == OtherUsers(users, org)
  {
    hide Prefix;
  }

  lemma EnsureMemberStays(db: Db, org: Id, id: Id)
    ensures SameOutside(db, EnsureMember(db, org, id), org)
  {
    var db' := EnsureMember(db, org, id);
    assert OtherMembers(db'.dir, org) == OtherMembers(db.dir, org);
    assert OtherPlaces(db'.dir, org) == OtherPlaces(db.dir, org);
  }

  lemma SameOutsideJoins(a: Db, b: Db, c: Db, org: Id)
    requires SameOutside(a, b, org) && SameOutside(b, c, org)
    ensures SameOutside(a, c, org)
  {
  }

  lemma PlacesSame(dir: Directory, dir': Directory, org: Id)
    requires OtherGroups(dir', org) == OtherGroups(dir, org)
    requires forall u: Id, g: Id :: g in OtherGroups(dir, org) ==> (g in GroupsOf(dir', u) <==> g in GroupsOf(dir, u))
    ensures OtherPlaces(dir', org) == OtherPlaces(dir, org)
  {
  }

  lemma {:induction false} AddAllPlaces(dir: Directory, ids: seq<Id>, group: Id)
    ensures var dir' := AddAll(dir, ids, group);
            && dir'.groups == dir.groups && dir'.members == dir.members && dir'.orgs == dir.orgs
            && dir'.lastOrg == dir.lastOrg && dir'.lastGroup == dir.lastGroup
            && (forall u: Id, g: Id :: g in GroupsOf(dir', u) <==> g in GroupsOf(dir, u) || (g == group && u in ids && u != 0 && g != 0))
  {
    if ids != [] {
      var rest, last := ids[..|ids| - 1], ids[|ids| - 1];
      AddAllPlaces(dir, rest, group);
      assert ids == rest + [last];
      var before, after := AddAll(dir, rest, group), AddAll(dir, ids, group);
      assert forall u: Id :: GroupsOf(after, u)
                             == if u == last && u != 0 && group != 0 then GroupsOf(before, u) + {group}
                                else GroupsOf(before, u);
    }
  }

  lemma {:induction false} RemoveAllPlaces(dir: Directory, ids: seq<Id>, group: Id)
    ensures var dir' := RemoveAll(dir, ids, group);
            && dir'.groups == dir.groups && dir'.members == dir.members && dir'.orgs == dir.orgs
            && dir'.lastOrg == dir.lastOrg && dir'.lastGroup == dir.lastGroup
            && (forall u: Id, g: Id :: g in GroupsOf(dir', u) <==> g in GroupsOf(dir, u) && !(g == group && u in ids && u != 0 && g != 0))
  {
    if ids != [] {
      var rest, last := ids[..|ids| - 1], ids[|ids| - 1];
      RemoveAllPlaces(dir, rest, group);
      assert ids == rest + [last];
      var before, after := RemoveAll(dir, rest, group), RemoveAll(dir, ids, group);
      assert forall u: Id :: GroupsOf(after, u)
                             == if u == last && u != 0 && group != 0 then GroupsOf(before, u) - {group}
                                else GroupsOf(before, u);
    }
  }

  /** Outside users, credentials and sessions: the parts that change a directory alone. */
  lemma SameByPlaces(db: Db, dir': Directory, org: Id)
    requires dir'.orgs == db.dir.orgs && dir'.lastOrg == db.dir.lastOrg
    requires OtherMembers(dir', org) == OtherMembers(db.dir, org) && OtherGroups(dir', org) == OtherGroups(db.dir, org)
    requires forall u: Id, g: Id :: g in OtherGroups(db.dir, org) ==> (g in GroupsOf(dir', u) <==> g in GroupsOf(db.dir, u))
    ensures SameOutside(db, db.(dir := dir'), org)
  {
    hide OtherUsers, OtherMembers, OtherGroups;
    PlacesSame(db.dir, dir', org);
  }

  lemma DirectoryStays(db: Db, org: Id, c: Call)
    requires Inv(db) && !c.Provision?
    ensures SameOutside(db, Apply(db, org, c), org)
  {
    hide Rows, MembersAreUsers, OtherUsers, OtherPlaces, SameOutside, GroupNamed;
    if c.AddMany? || c.TakeMany? {
      BatchStays(db, org, c);
    } else {
      var dir' := Apply(db, org, c).dir;
      assert Apply(db, org, c) == db.(dir := dir');
      SameByPlaces(db, dir', org);
    }
  }

  lemma BatchStays(db: Db, org: Id, c: Call)
    requires c.AddMany? || c.TakeMany?
    ensures SameOutside(db, Apply(db, org, c), org)
  {
    hide OtherUsers, OtherPlaces, SameOutside, AddAll, RemoveAll, OrgMembersOf;
    if c.AddMany? {
      AddAllPlaces(db.dir, OrgMembersOf(db.dir, org, c.ids), c.group);
    } else {
      RemoveAllPlaces(db.dir, c.ids, c.group);
    }
    SameByPlaces(db, Apply(db, org, c).dir, org);
  }

  lemma CallStaysInside(db: Db, org: Id, c: Call)
    requires Inv(db)
    ensures SameOutside(db, Apply(db, org, c), org)
  {
    hide Inv, Accepts, Login, EnsureMember, SameOutside;
    if c.Provision? {
      assert SameOutside(db, db, org) by { SameOutsideSelf(db, org); }
      if Accepts(db, org, c.sub, c.address) {
        ProvisionedStaysInNamespace(db, org, c.sub, c.address, c.name, c.verified);
        var (db', who) := Login(db, NsSub(org, c.sub), c.address, c.name, c.verified);
        SameParts(db, db', org);
        if who.Some? {
          EnsureMemberStays(db', org, who.value);
          SameOutsideJoins(db, db', EnsureMember(db', org, who.value), org);
        }
      }
    } else {
      DirectoryStays(db, org, c);
    }
  }

  lemma SameOutsideSelf(db: Db, org: Id)
    ensures SameOutside(db, db, org)
  {
  }

  lemma SameParts(db: Db, db': Db, org: Id)
    requires OtherUsers(db'.users, org) == OtherUsers(db.users, org)
    requires db'.creds == db.creds && db'.sessions == db.sessions && db'.dir == db.dir
    ensures SameOutside(db, db', org)
  {
  }

  // ---- every call keeps the store's invariant ------------------------------------------------------------------

  lemma CallKeepsInv(db: Db, org: Id, c: Call)
    requires Inv(db)
    ensures Inv(Apply(db, org, c))
  {
    hide Rows, Login, Accepts, AddAll, RemoveAll, OrgMembersOf, GroupNamed;
    match c
    case Provision(sub, address, name, verified) =>
      if Accepts(db, org, sub, address) {
        LoginKeeps(db, NsSub(org, sub), address, name, verified);
      }
    case SetDisabled(_, _) =>
    case AddGroup(_) =>
    case DropGroup(_) =>
    case Add(_, _) =>
    case Take(_, _) =>
    case AddMany(ids, group) => AddAllPlaces(db.dir, OrgMembersOf(db.dir, org, ids), group);
    case TakeMany(ids, group) => RemoveAllPlaces(db.dir, ids, group);
  }

  /**
   Whatever an organization's provider calls through its view, every user outside its namespace, every
   credential and session, every other organization's membership, and every group that is not its own
   with the people in it, is as before.
   */
  lemma {:induction false} ViewIsConfined(db: Db, org: Id, cs: seq<Call>)
    requires Inv(db)
    ensures SameOutside(db, Exec(db, org, cs), org) && Inv(Exec(db, org, cs))
  {
    hide Inv, SameOutside, Apply;
    if cs == [] {
      SameOutsideSelf(db, org);
    } else {
      var before := Exec(db, org, cs[..|cs| - 1]);
      ViewIsConfined(db, org, cs[..|cs| - 1]);
      CallKeepsInv(before, org, cs[|cs| - 1]);
      CallStaysInside(before, org, cs[|cs| - 1]);
      SameOutsideJoins(db, before, Exec(db, org, cs), org);
    }
  }

  /** In particular another organization's own accounts are untouched. */
  lemma OtherNamespacesUntouched(db: Db, org: Id, other: Id, cs: seq<Call>, i: Id)
    requires Inv(db) && org != other && i in db.users && Prefix(other) <= db.users[i].sub
    ensures i in Exec(db, org, cs).users && Exec(db, org, cs).users[i] == db.users[i]
  {
    hide Exec, Inv, Prefix;
    ViewIsConfined(db, org, cs);
    if Prefix(org) <= db.users[i].sub {
      NamespacesAreDisjoint(org, other, db.users[i].sub);
    }
    assert i in OtherUsers(db.users, org);
    assert OtherUsers(Exec(db, org, cs).users, org)[i] == db.users[i];
  }

  // ---- filtering a batch by membership ----------------------------------------------------------------------------

  function ListedAmong(listed: set<Id>, ids: seq<Id>): seq<Id> {
    if ids == [] then []
    else ListedAmong(listed, ids[..|ids| - 1]) + if ids[|ids| - 1] in listed then [ids[|ids| - 1]] else []
  }

  lemma {:induction false} ScanIsLookup(users: Users, dir: Directory, org: Id, ids: seq<Id>)
    requires org in dir.orgs && forall u :: u in MembersOf(dir, org) ==> u in users
    ensures ListedAmong(Listed(users, dir, org), ids) == OrgMembersOf(dir, org, ids)
  {
    if ids != [] {
      ScanIsLookup(users, dir, org, ids[..|ids| - 1]);
    }
  }

  predicate PathsAgree(users: Users, dir: Directory, org: Id, ids: seq<Id>) {
    ListedAmong(Listed(users, dir, org), ids) == OrgMembersOf(dir, org, ids)
  }

  /** One read of the member list and a lookup per id agree on every batch exactly when members are users. */
  lemma PathsAgreeExactlyWhen(users: Users, dir: Directory, org: Id)
    requires org in dir.orgs
    ensures (forall ids :: PathsAgree(users, dir, org, ids)) <==> forall u :: u in MembersOf(dir, org) ==> u in users
  {
    if forall u :: u in MembersOf(dir, org) ==> u in users {
      forall ids ensures PathsAgree(users, dir, org, ids) {
        ScanIsLookup(users, dir, org, ids);
      }
    } else {
      var u :| u in MembersOf(dir, org) && u !in users;
      var one: seq<Id> := [u];
      assert one[..|one| - 1] == [] && HasRole(dir, org, u);
      assert OrgMembersOf(dir, org, one) == OrgMembersOf(dir, org, []) + one;
      assert ListedAmong(Listed(users, dir, org), one) == ListedAmong(Listed(users, dir, org), []) + [];
      assert |OrgMembersOf(dir, org, one)| == 1 && |ListedAmong(Listed(users, dir, org), one)| == 0;
      assert !PathsAgree(users, dir, org, one);
    }
  }

  // ---- people in an organization's groups are in the organization -----------------------------------------------------

  predicate Placed(m: map<Id, set<Id>>, user: Id, group: Id) {
    user in m && group in m[user]
  }

  /** The group has been issued and, if it is an organization's, the user is in the organization. */
  predicate MayBeIn(dir: Directory, user: Id, group: Id) {
    group <= dir.lastGroup
    && (group in dir.groups && dir.groups[group].org != 0 ==> IsMember(dir, dir.groups[group].org, user))
  }

  /** No one is in a group of an organization without being in the organization, now or when it is created. */
  ghost predicate GroupsWithin(dir: Directory) {
    forall u: Id, g: Id :: Placed(dir.memberships, u, g) ==> MayBeIn(dir, u, g)
  }

  /** Enough to look at what is new, and at whom the groups and memberships that changed admit. */
  lemma WithinStep(dir: Directory, dir': Directory)
    requires GroupsWithin(dir)
    requires forall u: Id, g: Id :: Placed(dir'.memberships, u, g) ==>
      (Placed(dir.memberships, u, g) && MayBeIn(dir, u, g) ==> MayBeIn(dir', u, g))
      && (Placed(dir.memberships, u, g) || MayBeIn(dir', u, g))
    ensures GroupsWithin(dir')
  {
    hide MayBeIn, Placed;
    forall u: Id, g: Id | Placed(dir'.memberships, u, g) ensures MayBeIn(dir', u, g) {
      assert Placed(dir.memberships, u, g) ==> MayBeIn(dir, u, g);
    }
  }

  lemma DirectoryKeepsWithin(db: Db, org: Id, c: Call)
    requires Inv(db) && GroupsWithin(db.dir) && !c.Provision?
    ensures GroupsWithin(Apply(db, org, c).dir)
  {
    hide Rows, MembersAreUsers, AddAll, RemoveAll, OrgMembersOf, GroupNamed, GroupsWithin;
    var dir, dir' := db.dir, Apply(db, org, c).dir;
    if c.AddMany? {
      MembersOnly(dir, org, c.ids);
      AddAllPlaces(dir, OrgMembersOf(dir, org, c.ids), c.group);
      PlacedIsIn(dir);
      PlacedIsIn(dir');
    } else if c.TakeMany? {
      RemoveAllPlaces(dir, c.ids, c.group);
      PlacedIsIn(dir);
      PlacedIsIn(dir');
    }
    WithinStep(dir, dir');
  }

  lemma PlacedIsIn(dir: Directory)
    ensures forall u: Id, g: Id :: Placed(dir.memberships, u, g) <==> g in GroupsOf(dir, u)
  {
  }

  lemma {:induction false} MembersOnly(dir: Directory, org: Id, ids: seq<Id>)
    ensures forall u :: u in OrgMembersOf(dir, org, ids) <==> u in ids && HasRole(dir, org, u)
  {
    if ids != [] {
      MembersOnly(dir, org, ids[..|ids| - 1]);
      assert ids == ids[..|ids| - 1] + [ids[|ids| - 1]];
    }
  }

  lemma CallKeepsWithin(db: Db, org: Id, c: Call)
    requires Inv(db) && GroupsWithin(db.dir)
    ensures GroupsWithin(Apply(db, org, c).dir)
  {
    hide Inv, Login, GroupsWithin;
    if c.Provision? {
      if Accepts(db, org, c.sub, c.address) {
        ProvisionedStaysInNamespace(db, org, c.sub, c.address, c.name, c.verified);
        var (db', who) := Login(db, NsSub(org, c.sub), c.address, c.name, c.verified);
        if who.Some? {
          JoinKeepsWithin(db', org, who.value, MEMBER);
        }
      }
    } else {
      DirectoryKeepsWithin(db, org, c);
    }
  }

  lemma JoinKeepsWithin(db: Db, org: Id, id: Id, role: Role)
    requires GroupsWithin(db.dir)
    ensures GroupsWithin(SetMember(db, org, id, role).dir)
  {
    hide GroupsWithin;
    WithinStep(db.dir, SetMember(db, org, id, role).dir);
  }

  lemma CascadeKeepsWithin(db: Db, id: Id)
    requires GroupsWithin(db.dir)
    ensures GroupsWithin(Cascade(db, id).dir)
  {
    hide GroupsWithin, Unkeyed, Tombstoned;
    WithinStep(db.dir, Cascade(db, id).dir);
  }

  /** The store's own group verb does not look at the organization: its callers must. */
  predicate Respects(dir: Directory, e: Event) {
    e.Enter? && e.id != 0 && e.group != 0 ==> MayBeIn(dir, e.id, e.group)
  }

  lemma EventKeepsWithin(db: Db, e: Event)
    requires Inv(db) && GroupsWithin(db.dir)
    ensures GroupsWithin(IdentityRuns.Apply(db, e).dir) <==> Respects(db.dir, e)
  {
    hide GroupsWithin, Rows, MembersAreUsers, Norm, Cascade, Attach, GroupNamed, MayBeIn;
    match e
    case SignIn(sub, address, _, _) =>
      var existing := ByEmail(db.users, Norm(address));
      if existing.Some? {
        CascadeKeepsWithin(db, existing.value);
      }
    case Erase(id) => CascadeKeepsWithin(db, id);
    case Enter(id, group) => EnterKeepsWithin(db.dir, id, group);
    case Join(org, id, role) => JoinKeepsWithin(db, org, id, role);
    case _ => RestKeepsWithin(db, e);
  }

  lemma RestKeepsWithin(db: Db, e: Event)
    requires Inv(db) && GroupsWithin(db.dir)
    requires !e.SignIn? && !e.Erase? && !e.Enter? && !e.Join?
    ensures GroupsWithin(IdentityRuns.Apply(db, e).dir)
  {
    hide GroupsWithin, Rows, MembersAreUsers, Norm, Attach, GroupNamed;
    WithinStep(db.dir, IdentityRuns.Apply(db, e).dir);
  }

  lemma EnterKeepsWithin(dir: Directory, id: Id, group: Id)
    requires GroupsWithin(dir)
    ensures GroupsWithin(AddToGroup(dir, id, group)) <==> Respects(dir, Enter(id, group))
  {
    var dir' := AddToGroup(dir, id, group);
    if id != 0 && group != 0 {
      assert Placed(dir'.memberships, id, group);
      assert MayBeIn(dir', id, group) <==> MayBeIn(dir, id, group);
      if MayBeIn(dir, id, group) {
        WithinStep(dir, dir');
      }
    }
  }

  /**
   The view's own group verb checks and adds in two store calls. Its add, on its own, is the direct verb:
   someone who leaves the organization between the two is left in the group.
   */
  lemma SplitAddLeavesOutsider(db: Db, org: Id, id: Id, group: Id)
    requires Inv(db) && GroupsWithin(db.dir) && org != 0 && id != 0
    requires GroupInOrg(db.dir, org, group) && HasRole(db.dir, org, id)
    ensures var left := IdentityRuns.Apply(db, Leave(org, id));
            !Respects(left.dir, Enter(id, group)) && !GroupsWithin(IdentityRuns.Apply(left, Enter(id, group)).dir)
  {
    hide GroupsWithin, Rows, MembersAreUsers;
    var left := IdentityRuns.Apply(db, Leave(org, id));
    RestKeepsWithin(db, Leave(org, id));
    ApplyKeeps(db, Leave(org, id));
    assert group in left.dir.groups && left.dir.groups[group].org == org && !IsMember(left.dir, org, id);
    EventKeepsWithin(left, Enter(id, group));
  }

  datatype Step = Store(event: Event) | View(org: Id, call: Call)

  ghost function Do(db: Db, s: Step): Db {
    match s
    case Store(event) => IdentityRuns.Apply(db, event)
    case View(org, call) => Apply(db, org, call)
  }

  ghost function Run(db: Db, ss: seq<Step>): Db {
    if ss == [] then db else Do(Run(db, ss[..|ss| - 1]), ss[|ss| - 1])
  }

  /**
   Over any mix of calls through any views, each taken as one step, and directly on the store, removals and
   deletions included, an organization's groups hold only its members, as long as the direct group verb is
   given only members.
   */
  lemma {:induction false} GroupsStayWithin(db: Db, ss: seq<Step>)
    requires Inv(db) && GroupsWithin(db.dir)
    requires forall k :: 0 <= k < |ss| && ss[k].Store? ==> Respects(Run(db, ss[..k]).dir, ss[k].event)
    ensures Inv(Run(db, ss)) && GroupsWithin(Run(db, ss).dir)
  {
    hide Inv, GroupsWithin, Respects, Apply, IdentityRuns.Apply;
    if ss != [] {
      var rest, s := ss[..|ss| - 1], ss[|ss| - 1];
      forall k | 0 <= k < |rest| && rest[k].Store? ensures Respects(Run(db, rest[..k]).dir, rest[k].event) {
        assert rest[..k] == ss[..k] && rest[k] == ss[k];
      }
      GroupsStayWithin(db, rest);
      var before := Run(db, rest);
      match s
      case Store(event) =>
        ApplyKeeps(before, event);
        assert Respects(Run(db, ss[..|rest|]).dir, ss[|rest|].event);
        EventKeepsWithin(before, event);
      case View(org, call) =>
        CallKeepsInv(before, org, call);
        CallKeepsWithin(before, org, call);
    }
  }
}
