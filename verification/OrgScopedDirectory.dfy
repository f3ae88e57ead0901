/**
 The organization's view in its own imperative form (orgdirectory.go): each call checks the store, and
 then changes it. The check and the change are taken as one step.
 */
module OrgScopedDirectory {
  import opened Basics
  import opened OrgRoles
  import opened IdentityRecords
  import opened IdentityStore
  import opened IdentityRuns
  import V = OrgView

  const ORG_MEMBER_SCAN_MIN := 16

  datatype Outcome = Done | NoUser | NoGroup | NoOrg | OwnerStays

  class OrgScopedDir {
    const store: Store
    const org: Id

    constructor (store: Store, org: Id)
      ensures this.store == store && this.org == org
    {
      this.store := store;
      this.org := org;
    }

    method UpsertExternalUser(sub: string, address: string, name: string, verified: bool) returns (who: Option<Id>)
      requires Unique(store.users)
      modifies store
      ensures (store.Contents(), who) == V.Provisioned(old(store.Contents()), org, sub, address, name, verified)
    {
      hide Login, Unique, ByEmail, V.Prefix, V.NsSub, Norm;
      var ns := V.NsSub(org, sub);
      if !(V.Prefix(org) <= ns) {
        return None;
      }
      var existing := store.FindByEmail(address);
      if existing.Some? && store.users[existing.value].sub != ns {
        return None;
      }
      who := store.UpsertUserOnLogin(ns, address, name, verified);
      if who.None? {
        LoginRefused(old(store.Contents()), ns, address, name, verified);
        return None;
      }
      var joined := EnsureMember(who.value);
      if !joined {
        return None;
      }
    }

    /** Never touches a membership that is there. */
    method EnsureMember(id: Id) returns (ok: bool)
      modifies store
      ensures store.Contents() == V.EnsureMember(old(store.Contents()), org, id)
      ensures ok <==> V.HasRole(store.Dir(), org, id)
    {
      if org !in store.orgs {
        return false;
      }
      if org in store.orgMembers && id in store.orgMembers[org] {
        return true;
      }
      ok := store.SetOrgMember(org, id, MEMBER);
    }

    /** Disabling takes the user out of the organization; the account stays. */
    method SetUserDisabled(id: Id, disabled: bool) returns (o: Outcome)
      modifies store
      ensures store.Contents() == V.Apply(old(store.Contents()), org, V.SetDisabled(id, disabled))
      ensures o.OwnerStays? <==> disabled && V.HasRole(old(store.Dir()), org, id) && old(store.orgMembers)[org][id].Owner?
    {
      if org !in store.orgs {
        return NoOrg;
      }
      if org !in store.orgMembers || id !in store.orgMembers[org] {
        return if disabled then Done else NoUser;
      }
      if !disabled {
        return Done;
      }
      if store.orgMembers[org][id].Owner? {
        return OwnerStays;
      }
      store.RemoveOrgMember(org, id);
      return Done;
    }

    /** This organization's members among the ids, in order: by looking each up, or by one read of the list. */
    method OrgMembersOf(ids: seq<Id>) returns (out: seq<Id>, ok: bool)
      requires MembersAreUsers(store.users, store.orgMembers)
      ensures ok <==> org in store.orgs || ids == []
      ensures ok ==> out == V.OrgMembersOf(store.Dir(), org, ids)
    {
      out := [];
      if |ids| < ORG_MEMBER_SCAN_MIN {
        for i := 0 to |ids|
          invariant out == V.OrgMembersOf(store.Dir(), org, ids[..i])
          invariant i > 0 ==> org in store.orgs
        {
          assert ids[..i + 1][..i] == ids[..i];
          if org !in store.orgs {
            return [], false;
          }
          if org in store.orgMembers && ids[i] in store.orgMembers[org] {
            out := out + [ids[i]];
          }
        }
        assert ids[..|ids|] == ids;
        return out, true;
      }
      var members, found := store.OrgMembers(org);
      if !found {
        return [], false;
      }
      var isMember: set<Id> := {};
      for i := 0 to |members|
        invariant isMember == set u | u in members[..i]
      {
        assert members[..i + 1] == members[..i] + [members[i]];
        isMember := isMember + {members[i]};
      }
      assert members[..|members|] == members;
      assert isMember == Listed(store.users, store.Dir(), org);
      for i := 0 to |ids|
        invariant out == V.ListedAmong(isMember, ids[..i])
      {
        assert ids[..i + 1][..i] == ids[..i];
        if ids[i] in isMember {
          out := out + [ids[i]];
        }
      }
      assert ids[..|ids|] == ids;
      V.ScanIsLookup(store.users, store.Dir(), org, ids);
      return out, true;
    }

    method AddUsersToGroup(ids: seq<Id>, group: Id) returns (o: Outcome)
      requires MembersAreUsers(store.users, store.orgMembers)
      modifies store
      ensures store.Contents() == V.Apply(old(store.Contents()), org, V.AddMany(ids, group))
      ensures o.NoGroup? <==> !V.GroupInOrg(old(store.Dir()), org, group)
    {
      if group !in store.groups || store.groups[group].org != org {
        return NoGroup;
      }
      var members, ok := OrgMembersOf(ids);
      if !ok {
        NoMembers(store.Dir(), org, ids);
        return NoOrg;
      }
      store.AddUsersToGroup(members, group);
      return Done;
    }
  }

  lemma LoginRefused(db: Db, sub: string, address: string, name: string, verified: bool)
    requires Login(db, sub, address, name, verified).1.None?
    ensures Login(db, sub, address, name, verified).0 == db
  {
    hide Norm, Cascade;
  }

  lemma {:induction false} NoMembers(dir: Directory, org: Id, ids: seq<Id>)
    requires org !in dir.orgs
    ensures V.OrgMembersOf(dir, org, ids) == []
  {
    if ids != [] {
      NoMembers(dir, org, ids[..|ids| - 1]);
    }
  }
}
