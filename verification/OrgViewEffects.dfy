/**
 What an organization's own calls do inside it (orgdirectory.go): who ends up a member, in which role, and
 who is in its groups. OrgView says what they leave alone.
 */
module OrgViewEffects {
  import opened Basics
  import opened AsciiText
  import opened OrgRoles
  import opened IdentityRecords
  import opened IdentityEffects
  import Runs = IdentityRuns
  import V = OrgView

  /**
   Provisioning is accepted exactly for an organization there is, a subject of its namespace, and an address
   no one else has. The account then has this subject, address and name, and is a member: in the role it had,
   or as a plain one.
   */
  lemma ProvisionsExactly(db: Db, org: Id, sub: string, address: string, name: string, verified: bool)
    requires Runs.Inv(db)
    ensures var (db', who) := V.Provisioned(db, org, sub, address, name, verified); var ns := V.NsSub(org, sub);
            && (who.Some? <==> org in db.dir.orgs && V.Prefix(org) <= ns
                               && forall i :: i in db.users && db.users[i].email == Norm(address) ==> db.users[i].sub == ns)
            && (who.Some? ==>
                  && who.value in db'.users && db'.users[who.value].sub == ns
                  && db'.users[who.value].email == Norm(address) && db'.users[who.value].name == name
                  && RoleIn(db'.dir, org, who.value)
                     == if RoleIn(db.dir, org, who.value).Some? then RoleIn(db.dir, org, who.value) else Some(MEMBER))
  {
    hide Norm, V.Prefix, V.NsSub, Login, V.Accepts, Runs.Inv;
    AcceptsExactly(db, org, sub, address);
    if V.Accepts(db, org, sub, address) {
      AcceptedLogsIn(db, org, sub, address, name, verified);
    }
  }

  lemma AcceptsExactly(db: Db, org: Id, sub: string, address: string)
    requires Runs.Inv(db)
    ensures var ns := V.NsSub(org, sub);
            V.Accepts(db, org, sub, address)
            <==> V.Prefix(org) <= ns && forall i :: i in db.users && db.users[i].email == Norm(address) ==> db.users[i].sub == ns
  {
    hide Norm, V.Prefix, V.NsSub;
  }

  lemma AcceptedLogsIn(db: Db, org: Id, sub: string, address: string, name: string, verified: bool)
    requires Runs.Inv(db) && V.Accepts(db, org, sub, address)
    ensures var ns := V.NsSub(org, sub); var (db', who) := Login(db, ns, address, name, verified);
            && db'.dir == db.dir && who.Some? && who.value in db'.users && db'.users[who.value].sub == ns
            && db'.users[who.value].email == Norm(address) && db'.users[who.value].name == name
  {
    hide Norm, V.Prefix, V.NsSub, Cascade, Bootstrap, V.Accepts;
    AcceptedIsFor(db, org, sub, address);
    hide Runs.Inv;
  }

  lemma AcceptedIsFor(db: Db, org: Id, sub: string, address: string)
    requires Runs.Inv(db) && V.Accepts(db, org, sub, address)
    ensures V.Prefix(org) <= V.NsSub(org, sub)
    ensures forall i :: i in db.users && db.users[i].email == Norm(address) ==> db.users[i].sub == V.NsSub(org, sub)
    ensures ByEmail(db.users, Norm(address)).Some? ==> BySub(db.users, V.NsSub(org, sub)) == ByEmail(db.users, Norm(address))
  {
    hide Norm, V.Prefix, V.NsSub;
  }

  /** Deprovisioning takes exactly a member who is no owner out of the organization and its groups. */
  lemma DeprovisionsExactly(db: Db, org: Id, id: Id, disabled: bool)
    requires org != 0 && id != 0
    ensures var db' := V.Apply(db, org, V.SetDisabled(id, disabled)); var role := RoleIn(db.dir, org, id);
            if disabled && org in db.dir.orgs && role.Some? && !role.value.Owner? then
              && OnlyDirectory(db, db')
              && (forall o: Id, u: Id :: RoleIn(db'.dir, o, u) == if o == org && u == id then None else RoleIn(db.dir, o, u))
              && (forall u: Id, g: Id :: InGroup(db'.dir, u, g) <==> InGroup(db.dir, u, g) && !(u == id && OfOrg(db.dir, g, org)))
            else db' == db
  {
    LeavesExactly(db, org, id);
  }

  /** A batch add puts exactly the members among the ids into a group, if it is the organization's. */
  lemma AddsExactly(db: Db, org: Id, ids: seq<Id>, group: Id)
    requires group != 0 && 0 !in ids
    ensures var dir' := V.Apply(db, org, V.AddMany(ids, group)).dir;
            forall u: Id, g: Id :: InGroup(dir', u, g) <==>
              InGroup(db.dir, u, g)
              || (g == group && u in ids && OfOrg(db.dir, group, org) && org in db.dir.orgs && RoleIn(db.dir, org, u).Some?)
  {
    hide AddAll, V.OrgMembersOf;
    V.MembersOnly(db.dir, org, ids);
    V.AddAllPlaces(db.dir, V.OrgMembersOf(db.dir, org, ids), group);
    PlaceIsGroup(db.dir);
    PlaceIsGroup(V.Apply(db, org, V.AddMany(ids, group)).dir);
  }

  lemma RemovesExactly(db: Db, org: Id, ids: seq<Id>, group: Id)
    requires group != 0 && 0 !in ids
    ensures var dir' := V.Apply(db, org, V.TakeMany(ids, group)).dir;
            forall u: Id, g: Id :: InGroup(dir', u, g) <==>
              InGroup(db.dir, u, g) && !(g == group && u in ids && OfOrg(db.dir, group, org))
  {
    hide RemoveAll;
    V.RemoveAllPlaces(db.dir, ids, group);
    PlaceIsGroup(db.dir);
    PlaceIsGroup(V.Apply(db, org, V.TakeMany(ids, group)).dir);
  }

  /** The calls for one user do the same for it. */
  lemma PlacesOneExactly(db: Db, org: Id, id: Id, group: Id)
    requires group != 0 && id != 0
    ensures var added, taken := V.Apply(db, org, V.Add(id, group)).dir, V.Apply(db, org, V.Take(id, group)).dir;
            && (forall u: Id, g: Id :: InGroup(added, u, g) <==>
                  InGroup(db.dir, u, g)
                  || (g == group && u == id && OfOrg(db.dir, group, org) && org in db.dir.orgs && RoleIn(db.dir, org, u).Some?))
            && (forall u: Id, g: Id :: InGroup(taken, u, g) <==>
                  InGroup(db.dir, u, g) && !(g == group && u == id && OfOrg(db.dir, group, org)))
  {
  }

  lemma PlaceIsGroup(dir: Directory)
    ensures forall u: Id, g: Id :: InGroup(dir, u, g) <==> g in GroupsOf(dir, u)
  {
  }
}
