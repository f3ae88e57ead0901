/**
 The in-memory identity store in its own imperative form (store/memory/memory.go,
 store/memory/directory.go, store/memory/orgs.go): maps changed in place under one lock, with cascades
 that delete while they iterate in no particular order, and a token list filtered in place.
 */
module IdentityStore {
  import opened Basics
  import opened OrgRoles
  import opened IdentityRecords

  // ---- one more turn of each loop ------------------------------------------------------------------------

  function KeptExcept(m: map<string, Id>, id: Id, todo: set<string>): map<string, Id> {
    map k | k in m && (k in todo || m[k] != id) :: m[k]
  }

  function WithoutExcept(m: map<Id, map<Id, Role>>, id: Id, todo: set<Id>): map<Id, map<Id, Role>> {
    map k | k in m :: if k in todo then m[k] else m[k] - {id}
  }

  function TombstonedExcept(m: map<string, Session>, id: Id, todo: set<string>): map<string, Session> {
    map k | k in m :: if k !in todo && m[k].user == id then m[k].(revoked := true) else m[k]
  }

  function UngroupedExcept(m: map<Id, set<Id>>, gone: set<Id>, todo: set<Id>): map<Id, set<Id>> {
    map u | u in m :: if u in todo then m[u] else m[u] - gone
  }

  lemma KeptOneMore(m: map<string, Id>, id: Id, todo: set<string>, k: string)
    requires k in todo && k in m
    ensures var before := KeptExcept(m, id, todo);
            && k in before && before[k] == m[k]
            && KeptExcept(m, id, todo - {k}) == if m[k] == id then before - {k} else before
  {
  }

  lemma WithoutOneMore(m: map<Id, map<Id, Role>>, id: Id, todo: set<Id>, k: Id)
    requires k in todo && k in m
    ensures var before := WithoutExcept(m, id, todo);
            && k in before && before[k] == m[k]
            && WithoutExcept(m, id, todo - {k}) == before[k := m[k] - {id}]
  {
  }

  lemma TombstonedOneMore(m: map<string, Session>, id: Id, todo: set<string>, k: string)
    requires k in todo && k in m
    ensures var before := TombstonedExcept(m, id, todo);
            && k in before && before[k] == m[k]
            && TombstonedExcept(m, id, todo - {k}) == if m[k].user == id then before[k := m[k].(revoked := true)] else before
  {
  }

  lemma UngroupedOneMore(m: map<Id, set<Id>>, gone: set<Id>, todo: set<Id>, u: Id)
    requires u in todo && u in m
    ensures var before := UngroupedExcept(m, gone, todo);
            && u in before && before[u] == m[u]
            && UngroupedExcept(m, gone, todo - {u}) == before[u := m[u] - gone]
  {
  }

  /** The user out of these groups. */
  function Left(m: map<Id, set<Id>>, user: Id, gone: set<Id>): map<Id, set<Id>> {
    if user in m then m[user := m[user] - gone] else m
  }

  lemma LeftStart(m: map<Id, set<Id>>, user: Id, own: set<Id>, todo: set<Id>)
    requires own <= todo
    ensures Left(m, user, own - todo) == m
  {
    assert own - todo == {};
    assert user in m ==> m[user] - {} == m[user];
  }

  lemma LeftOneMore(m: map<Id, set<Id>>, user: Id, own: set<Id>, todo: set<Id>, g: Id)
    requires g in todo
    ensures var before := Left(m, user, own - todo);
            && (user in before <==> user in m)
            && Left(m, user, own - (todo - {g}))
               == if g in own && user in m then before[user := before[user] - {g}] else before
  {
    var gone := own - todo;
    assert own - (todo - {g}) == gone + if g in own then {g} else {};
    if user in m {
      assert m[user] - (gone + {g}) == m[user] - gone - {g};
      assert g in own ==> m[user := m[user] - gone][user := m[user] - gone - {g}] == m[user := m[user] - (gone + {g})];
      assert gone + {} == gone;
    }
  }

  lemma UniqueFinds(users: Users, i: Id)
    requires Unique(users) && i in users
    ensures ByEmail(users, users[i].email) == Some(i) && BySub(users, users[i].sub) == Some(i)
  {
  }

  lemma CascadeKeepsCount(db: Db, id: Id)
    ensures Cascade(db, id).lastUser == db.lastUser
  {
  }

  class Store {
    var users: Users
    var userSeq: nat
    var passwords: map<Id, string>
    var totp: map<Id, string>
    var recovery: map<Id, set<string>>
    var passkeys: map<string, Id>
    var links: map<string, Id>
    var tokens: seq<Token>
    var sessions: map<string, Session>
    var groups: map<Id, Group>
    var groupSeq: nat
    var memberships: map<Id, set<Id>>
    var orgs: map<Id, string>
    var orgSeq: nat
    var orgMembers: map<Id, map<Id, Role>>

    ghost function Creds(): Credentials
      reads this
    {
      Credentials(passwords, totp, recovery, passkeys, links, tokens)
    }

    ghost function Dir(): Directory
      reads this
    {
      Directory(groups, groupSeq, memberships, orgs, orgSeq, orgMembers)
    }

    ghost function Contents(): Db
      reads this
    {
      Db(users, userSeq, Creds(), sessions, Dir())
    }

    constructor ()
      ensures Contents() == EMPTY_DB
    {
      users, userSeq := map[], 0;
      passwords, totp, recovery, passkeys, links, tokens := map[], map[], map[], map[], map[], [];
      sessions := map[];
      groups, groupSeq, memberships := map[], 0, map[];
      orgs, orgSeq, orgMembers := map[], 0, map[];
    }

    method FindByEmail(address: string) returns (r: Option<Id>)
      requires Unique(users)
      ensures r == ByEmail(users, Norm(address))
    {
      var email := Norm(address);
      var todo := users.Keys;
      while todo != {}
        invariant todo <= users.Keys
        invariant forall i :: i in users && i !in todo ==> users[i].email != email
        decreases |todo|
      {
        var i :| i in todo;
        if users[i].email == email {
          UniqueFinds(users, i);
          return Some(i);
        }
        todo := todo - {i};
      }
      return None;
    }

    method FindBySub(sub: string) returns (r: Option<Id>)
      requires Unique(users)
      ensures r == BySub(users, sub)
    {
      var todo := users.Keys;
      while todo != {}
        invariant todo <= users.Keys
        invariant forall i :: i in users && i !in todo ==> users[i].sub != sub
        decreases |todo|
      {
        var i :| i in todo;
        if users[i].sub == sub {
          UniqueFinds(users, i);
          return Some(i);
        }
        todo := todo - {i};
      }
      return None;
    }

    method UpsertUserOnLogin(sub: string, address: string, name: string, emailVerified: bool) returns (r: Option<Id>)
      requires Unique(users)
      modifies this
      ensures (Contents(), r) == Login(old(Contents()), sub, address, name, emailVerified)
    {
      hide Cascade, Norm, ByEmail, BySub, Unique;
      var email := Norm(address);
      NormTwice(address);
      var known := FindBySub(sub);
      if known.Some? {
        var u := users[known.value];
        if email != u.email {
          var other := FindByEmail(email);
          if other.Some? && other.value != known.value {
            return None;
          }
        }
        users := users[known.value := u.(email := email, name := name)];
        if emailVerified {
          users := users[known.value := users[known.value].(verified := true)];
        }
        assert users == old(users)[known.value := User(sub, email, name, u.verified || emailVerified, u.disabled)];
        return known;
      }
      var existing := FindByEmail(email);
      if existing.Some? {
        var u := users[existing.value];
        var bootstrap := "bootstrap:" <= u.sub;
        if bootstrap || u.verified {
          if !bootstrap && !emailVerified {
            return None;
          }
          users := users[existing.value := u.(sub := sub, name := name)];
          if emailVerified {
            users := users[existing.value := users[existing.value].(verified := true)];
          }
          assert users == old(users)[existing.value := User(sub, email, name, u.verified || emailVerified, u.disabled)];
          return existing;
        }
        if !emailVerified {
          return None;
        }
        CascadeKeepsCount(Contents(), existing.value);
        DeleteCascade(existing.value);
      }
      userSeq := userSeq + 1;
      users := users[userSeq := User(sub, email, name, emailVerified, false)];
      return Some(userSeq);
    }

    method CreateLocalUser(sub: string, address: string, name: string) returns (r: Option<Id>)
      requires Unique(users)
      modifies this
      ensures Contents() == CreateLocal(old(Contents()), sub, address, name)
      ensures r == if ByEmail(old(users), Norm(address)).Some? then None else Some(old(userSeq) + 1)
    {
      var existing := FindByEmail(address);
      if existing.Some? {
        return None;
      }
      userSeq := userSeq + 1;
      users := users[userSeq := User(sub, Norm(address), name, false, false)];
      return Some(userSeq);
    }

    method ChangeEmail(id: Id, address: string) returns (ok: bool)
      modifies this`users
      ensures Contents() == SetEmail(old(Contents()), id, address)
      ensures ok <==> !exists i :: i in old(users) && old(users)[i].email == Norm(address) && i != id
    {
      var email := Norm(address);
      var todo := users.Keys;
      while todo != {}
        invariant todo <= users.Keys && users == old(users)
        invariant forall i :: i in users && i !in todo ==> !(users[i].email == email && i != id)
        decreases |todo|
      {
        var i :| i in todo;
        if users[i].email == email && i != id {
          return false;
        }
        todo := todo - {i};
      }
      if id in users {
        users := users[id := users[id].(email := email, verified := true)];
      }
      return true;
    }

    /** A user and everything keyed to it. */
    method DeleteCascade(id: Id)
      modifies this
      ensures Contents() == Cascade(old(Contents()), id)
    {
      hide Forgotten, Unkeyed, Tombstoned;
      ghost var was := Contents();
      DropCredentials(id);
      Forget(id);
      Tombstone(id);
      users := users - {id};
      assert Contents() == Db(was.users - {id}, was.lastUser, Creds(), sessions, Dir());
    }

    method Forget(id: Id)
      modifies this`memberships, this`orgMembers
      ensures Dir() == Forgotten(old(Dir()), id)
    {
      memberships := memberships - {id};
      DropMember(id);
    }

    method DropCredentials(id: Id)
      modifies this`passwords, this`totp, this`recovery, this`passkeys, this`links, this`tokens
      ensures Creds() == Unkeyed(old(Creds()), id)
    {
      passwords := passwords - {id};
      totp := totp - {id};
      recovery := recovery - {id};
      passkeys := DropOwned(passkeys, id);
      links := DropOwned(links, id);
      DropTokens(id);
    }

    method DropMember(id: Id)
      modifies this`orgMembers
      ensures orgMembers == Without(old(orgMembers), id)
    {
      var todo := orgMembers.Keys;
      assert WithoutExcept(orgMembers, id, todo) == orgMembers;
      while todo != {}
        invariant todo <= old(orgMembers).Keys
        invariant orgMembers == WithoutExcept(old(orgMembers), id, todo)
        decreases |todo|
      {
        var o :| o in todo;
        WithoutOneMore(old(orgMembers), id, todo, o);
        orgMembers := orgMembers[o := orgMembers[o] - {id}];
        todo := todo - {o};
      }
    }

    /** The loop both passkeys and links go through. */
    static method DropOwned(m: map<string, Id>, id: Id) returns (r: map<string, Id>)
      ensures r == map k | k in m && m[k] != id :: m[k]
    {
      r := m;
      var todo := m.Keys;
      while todo != {}
        invariant todo <= m.Keys
        invariant r == KeptExcept(m, id, todo)
        decreases |todo|
      {
        var k :| k in todo;
        KeptOneMore(m, id, todo, k);
        if r[k] == id {
          r := r - {k};
        }
        todo := todo - {k};
      }
    }

    method DropTokens(id: Id)
      modifies this`tokens
      ensures tokens == Kept(old(tokens), id)
    {
      var kept := [];
      for i := 0 to |tokens|
        invariant kept == Kept(tokens[..i], id)
      {
        assert tokens[..i + 1][..i] == tokens[..i];
        if tokens[i].owner != id {
          kept := kept + [tokens[i]];
        }
      }
      assert tokens[..|tokens|] == tokens;
      tokens := kept;
    }

    method Tombstone(id: Id)
      modifies this`sessions
      ensures sessions == Tombstoned(old(sessions), id)
    {
      var todo := sessions.Keys;
      assert TombstonedExcept(sessions, id, todo) == sessions;
      while todo != {}
        invariant todo <= old(sessions).Keys
        invariant sessions == TombstonedExcept(old(sessions), id, todo)
        decreases |todo|
      {
        var k :| k in todo;
        TombstonedOneMore(old(sessions), id, todo, k);
        if sessions[k].user == id {
          sessions := sessions[k := sessions[k].(revoked := true)];
        }
        todo := todo - {k};
      }
    }

    // ---- organizations and groups ------------------------------------------------------------------------

    method SetOrgMember(org: Id, user: Id, role: Role) returns (ok: bool)
      modifies this`orgMembers
      ensures Contents() == SetMember(old(Contents()), org, user, role)
      ensures ok <==> org in orgs && user in users
    {
      if org !in orgs || user !in users {
        return false;
      }
      if org !in orgMembers {
        var none: map<Id, Role> := map[];
        orgMembers := orgMembers[org := none];
      }
      var members: map<Id, Role> := orgMembers[org];
      members := members[user := role];
      orgMembers := orgMembers[org := members];
      return true;
    }

    /** The members that are users; the sort by address is not modelled. */
    method OrgMembers(org: Id) returns (out: seq<Id>, ok: bool)
      ensures ok <==> org in orgs
      ensures ok ==> forall u :: u in out <==> u in Listed(users, Dir(), org)
    {
      if org !in orgs {
        return [], false;
      }
      out := [];
      var members := if org in orgMembers then orgMembers[org] else map[];
      var todo := members.Keys;
      while todo != {}
        invariant todo <= members.Keys
        invariant forall u :: u in out <==> u in members && u in users && u !in todo
        decreases |todo|
      {
        var u :| u in todo;
        if u in users {
          out := out + [u];
        }
        todo := todo - {u};
      }
      return out, true;
    }

    method RemoveOrgMember(org: Id, user: Id)
      modifies this`orgMembers, this`memberships
      ensures Dir() == RemoveMember(old(Dir()), org, user)
    {
      if org == 0 || user == 0 {
        return;
      }
      ghost var own, was := Owned(Dir(), org), memberships;
      if org in orgMembers {
        orgMembers := orgMembers[org := orgMembers[org] - {user}];
      }
      ghost var members := orgMembers;
      var todo := groups.Keys;
      LeftStart(memberships, user, own, todo);
      while todo != {}
        invariant todo <= groups.Keys && orgMembers == members
        invariant memberships == Left(was, user, own - todo)
        decreases |todo|
      {
        var g :| g in todo;
        LeftOneMore(was, user, own, todo, g);
        if groups[g].org == org {
          if user in memberships {
            memberships := memberships[user := memberships[user] - {g}];
          }
        }
        todo := todo - {g};
      }
      assert own - {} == own;
    }

    /** Takes groups out of every user's set. */
    method Ungroup(gone: set<Id>)
      modifies this`memberships
      ensures memberships == Ungrouped(old(memberships), gone)
    {
      var todo := memberships.Keys;
      assert UngroupedExcept(memberships, gone, todo) == memberships;
      while todo != {}
        invariant todo <= old(memberships).Keys
        invariant memberships == UngroupedExcept(old(memberships), gone, todo)
        decreases |todo|
      {
        var u :| u in todo;
        UngroupedOneMore(old(memberships), gone, todo, u);
        memberships := memberships[u := memberships[u] - gone];
        todo := todo - {u};
      }
    }

    method RemoveGroup(group: Id)
      modifies this`groups, this`memberships
      ensures Dir() == DeleteGroup(old(Dir()), group)
    {
      groups := groups - {group};
      Ungroup({group});
    }

    method RemoveOrg(org: Id)
      modifies this`orgs, this`orgMembers, this`groups, this`memberships
      ensures Dir() == DeleteOrg(old(Dir()), org)
    {
      if org == 0 {
        return;
      }
      orgs := orgs - {org};
      orgMembers := orgMembers - {org};
      RemoveGroupsOf(org);
    }

    method RemoveGroupsOf(org: Id)
      modifies this`groups, this`memberships
      ensures groups == old(groups) - Owned(old(Dir()), org)
      ensures memberships == Ungrouped(old(memberships), Owned(old(Dir()), org))
    {
      hide Ungrouped;
      ghost var own, was := Owned(Dir(), org), memberships;
      var todo := groups.Keys;
      assert own - todo == {};
      UngroupedNone(memberships);
      while todo != {}
        invariant todo <= groups.Keys && todo <= old(groups).Keys
        invariant groups == old(groups) - (own - todo)
        invariant memberships == Ungrouped(was, own - todo)
        decreases |todo|
      {
        var g :| g in todo;
        GoneOneMore(old(groups), was, own, todo, g);
        if groups[g].org == org {
          groups := groups - {g};
          Ungroup({g});
        }
        todo := todo - {g};
      }
      assert own - {} == own;
    }

    method AddUsersToGroup(ids: seq<Id>, group: Id)
      modifies this`memberships
      ensures Dir() == AddAll(old(Dir()), ids, group)
    {
      if group == 0 {
        NoneAdded(Dir(), ids);
        return;
      }
      for i := 0 to |ids|
        invariant Dir() == AddAll(old(Dir()), ids[..i], group)
      {
        assert ids[..i + 1][..i] == ids[..i];
        if ids[i] == 0 {
          continue;
        }
        if ids[i] !in memberships {
          memberships := memberships[ids[i] := {}];
        }
        memberships := memberships[ids[i] := memberships[ids[i]] + {group}];
      }
      assert ids[..|ids|] == ids;
    }
  }

  lemma UngroupedTwice(m: map<Id, set<Id>>, a: set<Id>, b: set<Id>)
    ensures Ungrouped(Ungrouped(m, a), b) == Ungrouped(m, a + b)
  {
    var twice, once := Ungrouped(Ungrouped(m, a), b), Ungrouped(m, a + b);
    forall u | u in m ensures twice[u] == once[u] {
      assert m[u] - a - b == m[u] - (a + b);
    }
  }

  lemma GoneOneMore(groups: map<Id, Group>, m: map<Id, set<Id>>, own: set<Id>, todo: set<Id>, g: Id)
    requires g in todo && g in groups
    ensures g in groups - (own - todo) && (groups - (own - todo))[g] == groups[g]
    ensures groups - (own - (todo - {g})) == if g in own then groups - (own - todo) - {g} else groups - (own - todo)
    ensures Ungrouped(m, own - (todo - {g}))
            == if g in own then Ungrouped(Ungrouped(m, own - todo), {g}) else Ungrouped(m, own - todo)
  {
    if g in own {
      assert own - (todo - {g}) == (own - todo) + {g};
      UngroupedTwice(m, own - todo, {g});
    } else {
      assert own - (todo - {g}) == own - todo;
    }
  }

  lemma UngroupedNone(m: map<Id, set<Id>>)
    ensures Ungrouped(m, {}) == m
  {
    forall u | u in m ensures m[u] - {} == m[u] {
    }
  }

  lemma {:induction false} NoneAdded(dir: Directory, ids: seq<Id>)
    ensures AddAll(dir, ids, 0) == dir
  {
    if ids != [] {
      NoneAdded(dir, ids[..|ids| - 1]);
    }
  }
}
