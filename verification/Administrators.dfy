/** The identity tables: users and tenant memberships, and the two operations that must not lose the last administrator. */
module Administrators {
  import opened Basics

  datatype User = User(platformAdmin: bool, active: bool, identity: string)

  /** A user record as an edit leaves it; a missing status is stored as active. */
  datatype Draft = Draft(platformAdmin: bool, status: Option<bool>, identity: string)

  datatype Member = Member(admin: bool, active: bool)

  /** Memberships are keyed by tenant and user. */
  datatype Tables = Tables(users: map<string, User>, members: map<(string, string), Member>)

  datatype Update = Update(tenant: string, user: string, member: Member)

  datatype Refusal = LastPlatformAdmin | LastTenantAdmin | UserNotFound | UserDisabled | ImportCollision

  function DraftOf(u: User): Draft {
    Draft(u.platformAdmin, Some(u.active), u.identity)
  }

  predicate ActiveDraft(d: Draft) {
    d.status.None? || d.status.value
  }

  function Stored(d: Draft): User {
    User(d.platformAdmin, ActiveDraft(d), d.identity)
  }

  // ---- effective administrators ----

  predicate HasPlatformAdmin(t: Tables) {
    exists u :: u in t.users && t.users[u].platformAdmin && t.users[u].active
  }

  predicate Administers(t: Tables, tenant: string, user: string) {
    && (tenant, user) in t.members && t.members[(tenant, user)].admin && t.members[(tenant, user)].active
    && user in t.users && t.users[user].active
  }

  ghost predicate HasAdmin(t: Tables, tenant: string) {
    exists user :: Administers(t, tenant, user)
  }

  /** Every membership names an existing user. */
  predicate Named(t: Tables) {
    forall k | k in t.members :: k.1 in t.users
  }

  /** Where there is an active administrator row, there is an effective administrator. */
  ghost predicate Covered(t: Tables) {
    forall k | k in t.members && AdminRow(t, k) :: HasAdmin(t, k.0)
  }

  // ---- edit_users ----

  predicate ActiveIn(edited: map<string, Draft>, user: string) {
    user in edited && ActiveDraft(edited[user])
  }

  predicate KeepsPlatformAdmin(edited: map<string, Draft>) {
    exists u :: u in edited && edited[u].platformAdmin && edited[u].status == Some(true)
  }

  predicate AdminRow(t: Tables, k: (string, string)) {
    k in t.members && t.members[k].admin && t.members[k].active
  }

  /** Some user goes whose tenant is left without an active administrator. */
  predicate LosesTenantAdmin(t: Tables, edited: map<string, Draft>) {
    exists k :: k in t.members && AdminRow(t, k) && k.1 in t.users && !ActiveIn(edited, k.1)
      && forall other | other in t.members && other.0 == k.0 :: !(AdminRow(t, other) && ActiveIn(edited, other.1))
  }

  function PutAll(members: map<(string, string), Member>, updates: seq<Update>): map<(string, string), Member> {
    if updates == [] then members
    else
      var u := updates[|updates| - 1];
      PutAll(members, updates[..|updates| - 1])[(u.tenant, u.user) := u.member]
  }

  function Edited(t: Tables, edited: map<string, Draft>, updates: seq<Update>): Tables {
    var left := map k | k in t.members && !(k.1 in t.users && k.1 !in edited) :: t.members[k];
    Tables(map u | u in edited :: Stored(edited[u]), PutAll(left, updates))
  }

  function AfterEdit(t: Tables, edited: map<string, Draft>, updates: seq<Update>): (Tables, Option<Refusal>) {
    if HasPlatformAdmin(t) && !KeepsPlatformAdmin(edited) then (t, Some(LastPlatformAdmin))
    else if LosesTenantAdmin(t, edited) then (t, Some(LastTenantAdmin))
    else (Edited(t, edited, updates), None)
  }

  // ---- set_member ----

  predicate OnlyAdmin(t: Tables, tenant: string, user: string) {
    && Administers(t, tenant, user)
    && forall k | k in t.members && k.0 == tenant && k.1 != user :: !Administers(t, tenant, k.1)
  }

  function AfterSet(t: Tables, tenant: string, user: string, m: Member): (Tables, Option<Refusal>) {
    if user !in t.users then (t, Some(UserNotFound))
    else if m.active && !t.users[user].active then (t, Some(UserDisabled))
    else if OnlyAdmin(t, tenant, user) && !(m.admin && m.active) then (t, Some(LastTenantAdmin))
    else (t.(members := t.members[(tenant, user) := m]), None)
  }

  // ---- importing users ----

  datatype ImportRow = ImportRow(user: string, identity: string, member: Member)

  /** What the import's edit makes of the users, with the memberships it asks for; None if an id is taken by another identity. */
  function Imported(users: map<string, Draft>, tenant: string, rows: seq<ImportRow>): Option<(map<string, Draft>, seq<Update>)> {
    if rows == [] then Some((users, []))
    else
      var rest := Imported(users, tenant, rows[..|rows| - 1]);
      var row := rows[|rows| - 1];
      if rest.None? then None
      else
        var (drafts, updates) := rest.value;
        if row.user in drafts then if drafts[row.user].identity != row.identity then None else rest
        else Some((drafts[row.user := Draft(false, Some(true), row.identity)],
                   updates + [Update(tenant, row.user, row.member)]))
  }

  function Drafts(users: map<string, User>): map<string, Draft> {
    map u | u in users :: DraftOf(users[u])
  }

  function AfterImport(t: Tables, tenant: string, rows: seq<ImportRow>): (Tables, Option<Refusal>) {
    var result := Imported(Drafts(t.users), tenant, rows);
    if result.None? then (t, Some(ImportCollision)) else AfterEdit(t, result.value.0, result.value.1)
  }

  class IdentityStore {
    var users: map<string, User>
    var members: map<(string, string), Member>

    function Now(): Tables
      reads this
    {
      Tables(users, members)
    }

    constructor ()
      ensures Now() == Tables(map[], map[])
    {
      users, members := map[], map[];
    }

    /** One transaction around an edit that made `edited` of the users. */
    method EditUsers(edited: map<string, Draft>, updates: seq<Update>) returns (refused: Option<Refusal>)
      modifies this
      ensures (Now(), refused) == AfterEdit(old(Now()), edited, updates)
      ensures refused.Some? ==> Now() == old(Now())
      ensures refused.None? ==> users.Keys == edited.Keys
      ensures refused.None? ==>
                forall u | u in edited ::
                  u in users && users[u] == User(edited[u].platformAdmin, edited[u].status != Some(false), edited[u].identity)
    {
      var t := Now();
      if HasPlatformAdmin(t) && !KeepsPlatformAdmin(edited) {
        return Some(LastPlatformAdmin);
      }
      if LosesTenantAdmin(t, edited) {
        return Some(LastTenantAdmin);
      }
      members := map k | k in members && !(k.1 in users && k.1 !in edited) :: members[k];
      users := map u | u in edited :: Stored(edited[u]);
      ghost var left := members;
      for i := 0 to |updates|
        modifies this`members
        invariant members == PutAll(left, updates[..i])
      {
        assert updates[..i + 1][..i] == updates[..i];
        members := members[(updates[i].tenant, updates[i].user) := updates[i].member];
      }
      assert updates[..|updates|] == updates;
      return None;
    }

    method SetMember(tenant: string, user: string, m: Member) returns (refused: Option<Refusal>)
      modifies this
      ensures (Now(), refused) == AfterSet(old(Now()), tenant, user, m)
      ensures refused == Some(UserNotFound) <==> user !in old(users)
      ensures refused == Some(UserDisabled) <==> user in old(users) && m.active && !old(users)[user].active
      ensures refused.Some? ==> Now() == old(Now())
      ensures refused.None? ==> users == old(users) && members == old(members)[(tenant, user) := m]
    {
      if user !in users {
        return Some(UserNotFound);
      }
      if m.active && !users[user].active {
        return Some(UserDisabled);
      }
      var admins := set k | k in members && k.0 == tenant && members[k].admin && members[k].active
                              && k.1 in users && users[k.1].active;
      assert forall k | k in members && k.0 == tenant :: k == (tenant, k.1);
      assert forall k | k in members && k.0 == tenant :: k in admins <==> Administers(Now(), tenant, k.1);
      if (tenant, user) in admins && admins == {(tenant, user)} && !(m.admin && m.active) {
        return Some(LastTenantAdmin);
      }
      members := members[(tenant, user) := m];
      return None;
    }

    /** The import: new users with a membership each, existing ones skipped. */
    method ImportUsers(tenant: string, rows: seq<ImportRow>) returns (refused: Option<Refusal>)
      modifies this
      ensures (Now(), refused) == AfterImport(old(Now()), tenant, rows)
    {
      var drafts, updates: seq<Update> := Drafts(users), [];
      for i := 0 to |rows|
        invariant Imported(Drafts(users), tenant, rows[..i]) == Some((drafts, updates))
        invariant Now() == old(Now())
      {
        assert rows[..i + 1][..i] == rows[..i];
        if rows[i].user in drafts {
          if drafts[rows[i].user].identity != rows[i].identity {
            CollisionStays(Drafts(users), tenant, rows, i + 1);
            return Some(ImportCollision);
          }
        } else {
          drafts := drafts[rows[i].user := Draft(false, Some(true), rows[i].identity)];
          updates := updates + [Update(tenant, rows[i].user, rows[i].member)];
        }
      }
      assert rows[..|rows|] == rows;
      refused := EditUsers(drafts, updates);
    }
  }

  lemma {:induction false} CollisionStays(users: map<string, Draft>, tenant: string, rows: seq<ImportRow>, k: nat)
    requires k <= |rows| && Imported(users, tenant, rows[..k]).None?
    ensures Imported(users, tenant, rows).None?
  {
    if k < |rows| {
      var front := rows[..|rows| - 1];
      assert front[..k] == rows[..k];
      CollisionStays(users, tenant, front, k);
    } else {
      assert rows[..k] == rows;
    }
  }

  // ---- what is refused, and what an accepted request leaves ----

  /** An edit without memberships of its own, had it been accepted. */
  function Would(t: Tables, edited: map<string, Draft>): Tables {
    Edited(t, edited, [])
  }

  /** Every record of the edit says whether its user is active. */
  predicate Explicit(edited: map<string, Draft>) {
    forall u | u in edited :: edited[u].status.Some?
  }

  lemma WouldAdminister(t: Tables, edited: map<string, Draft>, tenant: string, user: string)
    requires Named(t)
    ensures Administers(Would(t, edited), tenant, user)
            <==> (tenant, user) in t.members && AdminRow(t, (tenant, user)) && ActiveIn(edited, user)
  {
  }

  /** An edit is refused for a tenant's sake exactly if a tenant with an effective administrator would have none left. */
  lemma TenantRefusedExactly(t: Tables, edited: map<string, Draft>)
    requires Named(t) && Covered(t)
    ensures LosesTenantAdmin(t, edited) <==> exists tenant :: HasAdmin(t, tenant) && !HasAdmin(Would(t, edited), tenant)
  {
    forall tenant, user
      ensures Administers(Would(t, edited), tenant, user)
              <==> (tenant, user) in t.members && AdminRow(t, (tenant, user)) && ActiveIn(edited, user)
    {
      WouldAdminister(t, edited, tenant, user);
    }
    hide Would;
    if LosesTenantAdmin(t, edited) {
      var k :| k in t.members && AdminRow(t, k) && k.1 in t.users && !ActiveIn(edited, k.1)
        && forall other | other in t.members && other.0 == k.0 :: !(AdminRow(t, other) && ActiveIn(edited, other.1));
      assert HasAdmin(t, k.0) && !HasAdmin(Would(t, edited), k.0);
    }
    if tenant :| HasAdmin(t, tenant) && !HasAdmin(Would(t, edited), tenant) {
      var user :| Administers(t, tenant, user);
      assert !Administers(Would(t, edited), tenant, user) && AdminRow(t, (tenant, user));
      forall other | other in t.members && other.0 == tenant ensures !(AdminRow(t, other) && ActiveIn(edited, other.1)) {
        assert !Administers(Would(t, edited), tenant, other.1);
      }
    }
  }

  /**
   An edit is refused for the platform's sake exactly if it would lose its active administrators, provided every
   record says whether its user is active; a record that does not say so is no administrator to this check.
   */
  lemma PlatformRefusedExactly(t: Tables, edited: map<string, Draft>)
    ensures HasPlatformAdmin(t) && !KeepsPlatformAdmin(edited) <==>
              HasPlatformAdmin(t) && !HasPlatformAdmin(Would(t, map u | u in edited && edited[u].status.Some? :: edited[u]))
    ensures Explicit(edited) ==>
              (HasPlatformAdmin(t) && !KeepsPlatformAdmin(edited) <==> HasPlatformAdmin(t) && !HasPlatformAdmin(Would(t, edited)))
  {
    var said := map u | u in edited && edited[u].status.Some? :: edited[u];
    if KeepsPlatformAdmin(edited) {
      var u :| u in edited && edited[u].platformAdmin && edited[u].status == Some(true);
      assert u in Would(t, said).users && u in Would(t, edited).users;
    }
    if HasPlatformAdmin(Would(t, said)) {
      var u :| u in Would(t, said).users && Would(t, said).users[u].platformAdmin && Would(t, said).users[u].active;
      assert edited[u].platformAdmin && edited[u].status == Some(true);
    }
    if Explicit(edited) && HasPlatformAdmin(Would(t, edited)) {
      var u :| u in Would(t, edited).users && Would(t, edited).users[u].platformAdmin && Would(t, edited).users[u].active;
      assert edited[u].platformAdmin && edited[u].status == Some(true);
    }
  }

  /** An administrator whose record does not say that it is active, though it is stored as active. */
  predicate Silent(edited: map<string, Draft>) {
    exists u :: u in edited && edited[u].platformAdmin && edited[u].status.None?
  }

  /** The check refuses what would be lost, and nothing else, exactly if it finds an administrator or none is silent. */
  lemma PlatformAgreesExactly(t: Tables, edited: map<string, Draft>)
    ensures (KeepsPlatformAdmin(edited) <==> HasPlatformAdmin(Would(t, edited))) <==> KeepsPlatformAdmin(edited) || !Silent(edited)
  {
    forall u | u in edited
      ensures u in Would(t, edited).users
      ensures Would(t, edited).users[u].platformAdmin && Would(t, edited).users[u].active
              <==> edited[u].platformAdmin && (edited[u].status == Some(true) || edited[u].status.None?)
    {
    }
  }

  /** Such an edit: the only administrator is kept, without a word on its status. */
  lemma SilentAdminRefused(identity: string)
    ensures var t := Tables(map["a" := User(true, true, identity)], map[]);
            var edited := map["a" := Draft(true, None, identity)];
            HasPlatformAdmin(t) && !KeepsPlatformAdmin(edited) && HasPlatformAdmin(Would(t, edited))
  {
    var t, edited := Tables(map["a" := User(true, true, identity)], map[]), map["a" := Draft(true, None, identity)];
    assert "a" in t.users && "a" in Would(t, edited).users;
  }

  /** A membership change is refused as the last administrator's exactly if its tenant would be left without one. */
  lemma MemberRefusedExactly(t: Tables, tenant: string, user: string, m: Member)
    ensures AfterSet(t, tenant, user, m).1 == Some(LastTenantAdmin) <==>
              && user in t.users && (m.active ==> t.users[user].active)
              && HasAdmin(t, tenant) && !HasAdmin(t.(members := t.members[(tenant, user) := m]), tenant)
  {
    var now := t.(members := t.members[(tenant, user) := m]);
    forall other | other != user ensures Administers(now, tenant, other) <==> Administers(t, tenant, other) {}
    if OnlyAdmin(t, tenant, user) && !(m.admin && m.active) {
      assert HasAdmin(t, tenant);
      assert forall other :: !Administers(now, tenant, other);
    }
    if HasAdmin(t, tenant) && !HasAdmin(now, tenant) {
      var a :| Administers(t, tenant, a);
      assert !Administers(now, tenant, a);
      forall k | k in t.members && k.0 == tenant && k.1 != user ensures !Administers(t, tenant, k.1) {
        assert !Administers(now, tenant, k.1);
      }
    }
  }

  /** Row `i` of an import is the first one for its user. */
  predicate FirstFor(rows: seq<ImportRow>, i: nat) {
    i < |rows| && forall j | 0 <= j < i :: rows[j].user != rows[i].user
  }

  /** Two rows, or a row and a stored user, claim one id for different identities. */
  predicate Collides(users: map<string, Draft>, rows: seq<ImportRow>) {
    || (exists i | 0 <= i < |rows| :: rows[i].user in users && users[rows[i].user].identity != rows[i].identity)
    || (exists i, j | 0 <= i < j < |rows| :: rows[i].user !in users && rows[i].user == rows[j].user && rows[i].identity != rows[j].identity)
  }

  /** The users an import leaves: a plain active user of the given identity for each new id, all others as they were. */
  predicate AsksUsers(users: map<string, Draft>, rows: seq<ImportRow>, drafts: map<string, Draft>) {
    && (forall u | u in drafts :: u in users || exists i | 0 <= i < |rows| :: rows[i].user == u)
    && (forall u | u in users :: u in drafts && drafts[u] == users[u])
    && (forall i | 0 <= i < |rows| ::
          rows[i].user in drafts
          && (rows[i].user !in users ==> drafts[rows[i].user] == Draft(false, Some(true), rows[i].identity)))
  }

  /** The membership row `i` asks for, if it is the first for a new user. */
  predicate AsksMember(users: map<string, Draft>, tenant: string, rows: seq<ImportRow>, i: nat, x: Update) {
    FirstFor(rows, i) && rows[i].user !in users && x == Update(tenant, rows[i].user, rows[i].member)
  }

  ghost predicate AsksMembers(users: map<string, Draft>, tenant: string, rows: seq<ImportRow>, updates: seq<Update>) {
    forall x :: x in updates <==> exists i: nat :: AsksMember(users, tenant, rows, i, x)
  }

  /** An import fails exactly on a collision, and otherwise asks for the users and memberships its rows say. */
  lemma {:induction false} ImportExactly(users: map<string, Draft>, tenant: string, rows: seq<ImportRow>)
    ensures Imported(users, tenant, rows).None? <==> Collides(users, rows)
    ensures var r := Imported(users, tenant, rows);
            r.Some? ==> AsksUsers(users, rows, r.value.0) && AsksMembers(users, tenant, rows, r.value.1)
  {
    if rows != [] {
      var front, last := rows[..|rows| - 1], rows[|rows| - 1];
      ImportExactly(users, tenant, front);
      assert rows == front + [last];
      var before := Imported(users, tenant, front);
      hide Imported, Collides, AsksUsers, AsksMembers;
      ImportLast(users, tenant, front, last);
      if before.Some? {
        CollidesNext(users, front, last, before.value.0);
        if last.user !in before.value.0 {
          NewRow(users, tenant, front, last, before.value.0, before.value.1);
        } else if before.value.0[last.user].identity == last.identity {
          OldRow(users, tenant, front, last, before.value.0, before.value.1);
        }
      } else {
        CollidesOn(users, front, last);
      }
    }
  }

  lemma ImportLast(users: map<string, Draft>, tenant: string, front: seq<ImportRow>, last: ImportRow)
    ensures Imported(users, tenant, front + [last]) ==
            var before := Imported(users, tenant, front);
            if before.None? then None
            else if last.user in before.value.0
            then if before.value.0[last.user].identity != last.identity then None else before
            else Some((before.value.0[last.user := Draft(false, Some(true), last.identity)],
                       before.value.1 + [Update(tenant, last.user, last.member)]))
  {
    assert (front + [last])[..|front|] == front;
  }

  lemma CollidesOn(users: map<string, Draft>, front: seq<ImportRow>, last: ImportRow)
    requires Collides(users, front)
    ensures Collides(users, front + [last])
  {
    var rows := front + [last];
    if i :| 0 <= i < |front| && front[i].user in users && users[front[i].user].identity != front[i].identity {
      assert rows[i].user in users && users[rows[i].user].identity != rows[i].identity;
    } else {
      var i, j :| 0 <= i < j < |front| && front[i].user !in users && front[i].user == front[j].user && front[i].identity != front[j].identity;
      assert rows[i].user !in users && rows[i].user == rows[j].user && rows[i].identity != rows[j].identity;
    }
  }

  /** One more row collides exactly with what the rows before it and the stored users claim for its id. */
  lemma CollidesNext(users: map<string, Draft>, front: seq<ImportRow>, last: ImportRow, drafts: map<string, Draft>)
    requires !Collides(users, front) && AsksUsers(users, front, drafts)
    ensures Collides(users, front + [last]) <==> last.user in drafts && drafts[last.user].identity != last.identity
  {
    var rows, n := front + [last], |front|;
    if last.user in drafts && drafts[last.user].identity != last.identity {
      if last.user in users {
        assert users[rows[n].user].identity != rows[n].identity;
      } else {
        var i :| 0 <= i < n && front[i].user == last.user;
        assert rows[i].user !in users && rows[i].user == rows[n].user && rows[i].identity != rows[n].identity;
      }
    }
    assert forall k | 0 <= k < n :: front[k] == rows[k];
    if Collides(users, rows) {
      if i :| 0 <= i < |rows| && rows[i].user in users && users[rows[i].user].identity != rows[i].identity {
        assert i == n;
      } else {
        var i, j :| 0 <= i < j < |rows| && rows[i].user !in users && rows[i].user == rows[j].user && rows[i].identity != rows[j].identity;
        assert j == n;
      }
    }
  }

  lemma OldRow(
    users: map<string, Draft>, tenant: string, front: seq<ImportRow>, last: ImportRow, drafts: map<string, Draft>, updates: seq<Update>)
    requires AsksUsers(users, front, drafts) && AsksMembers(users, tenant, front, updates) && last.user in drafts
    requires drafts[last.user].identity == last.identity
    ensures AsksUsers(users, front + [last], drafts) && AsksMembers(users, tenant, front + [last], updates)
  {
    var rows, n := front + [last], |front|;
    forall i | 0 <= i < |rows|
      ensures rows[i].user in drafts && (rows[i].user !in users ==> drafts[rows[i].user] == Draft(false, Some(true), rows[i].identity))
    {
      if i == n && last.user !in users {
        var j :| 0 <= j < n && front[j].user == last.user;
        assert drafts[front[j].user] == Draft(false, Some(true), front[j].identity);
      } else if i < n {
        assert rows[i] == front[i];
      }
    }
    forall u | u in drafts && u !in users ensures exists i | 0 <= i < |rows| :: rows[i].user == u {
      var i :| 0 <= i < n && front[i].user == u;
      assert rows[i].user == u;
    }
    forall x, i: nat ensures AsksMember(users, tenant, rows, i, x) <==> AsksMember(users, tenant, front, i, x) {
      if i == n && last.user !in users {
        var j :| 0 <= j < n && front[j].user == last.user;
        assert rows[j].user == rows[n].user;
      }
      FirstEarlier(front, last, i);
    }
  }

  lemma FirstEarlier(front: seq<ImportRow>, last: ImportRow, i: nat)
    ensures i < |front| ==> (FirstFor(front + [last], i) <==> FirstFor(front, i)) && (front + [last])[i] == front[i]
  {
    var rows := front + [last];
    assert forall j | 0 <= j < |front| :: rows[j] == front[j];
  }

  lemma NewRow(
    users: map<string, Draft>, tenant: string, front: seq<ImportRow>, last: ImportRow, drafts: map<string, Draft>, updates: seq<Update>)
    requires AsksUsers(users, front, drafts) && AsksMembers(users, tenant, front, updates) && last.user !in drafts
    ensures AsksUsers(users, front + [last], drafts[last.user := Draft(false, Some(true), last.identity)])
    ensures AsksMembers(users, tenant, front + [last], updates + [Update(tenant, last.user, last.member)])
  {
    var rows, n := front + [last], |front|;
    var added := Update(tenant, last.user, last.member);
    assert rows[n] == last && forall i | 0 <= i < n :: rows[i] == front[i];
    assert FirstFor(rows, n) && AsksMember(users, tenant, rows, n, added);
    forall x ensures x in updates + [added] <==> exists i: nat :: AsksMember(users, tenant, rows, i, x) {
      if i: nat :| AsksMember(users, tenant, front, i, x) {
        FirstEarlier(front, last, i);
        assert AsksMember(users, tenant, rows, i, x);
      }
      if i: nat :| AsksMember(users, tenant, rows, i, x) {
        FirstEarlier(front, last, i);
        assert i == n || AsksMember(users, tenant, front, i, x);
      }
    }
  }

  // ---- whole histories ----

  datatype Request =
    | Edit(edited: map<string, Draft>)
    | SetMember(tenant: string, user: string, member: Member)
    | Import(tenant: string, rows: seq<ImportRow>)

  function Step(t: Tables, r: Request): Tables {
    match r
    case Edit(edited) => AfterEdit(t, edited, []).0
    case SetMember(tenant, user, m) => AfterSet(t, tenant, user, m).0
    case Import(tenant, rows) => AfterImport(t, tenant, rows).0
  }

  function After(t: Tables, history: seq<Request>): Tables {
    if history == [] then t else Step(After(t, history[..|history| - 1]), history[|history| - 1])
  }

  /** The memberships an edit brings along are for active users it creates. */
  predicate ForNewUsers(t: Tables, edited: map<string, Draft>, updates: seq<Update>) {
    forall i | 0 <= i < |updates| :: ActiveIn(edited, updates[i].user) && updates[i].user !in t.users
  }

  lemma {:induction false} PutAllKeys(members: map<(string, string), Member>, updates: seq<Update>, k: (string, string))
    ensures k in PutAll(members, updates) ==>
              k in members || exists i :: 0 <= i < |updates| && updates[i].user == k.1
    ensures (forall i | 0 <= i < |updates| :: updates[i].user != k.1) ==>
              (k in members <==> k in PutAll(members, updates)) && (k in members ==> PutAll(members, updates)[k] == members[k])
  {
    if updates != [] {
      PutAllKeys(members, updates[..|updates| - 1], k);
    }
  }

  lemma EditKeepsNamed(t: Tables, edited: map<string, Draft>, updates: seq<Update>)
    requires Named(t) && ForNewUsers(t, edited, updates)
    ensures Named(AfterEdit(t, edited, updates).0)
  {
    var left := map k | k in t.members && !(k.1 in t.users && k.1 !in edited) :: t.members[k];
    forall k | k in PutAll(left, updates) ensures k.1 in edited {
      PutAllKeys(left, updates, k);
    }
  }

  lemma EditKeepsPlatformAdmin(t: Tables, edited: map<string, Draft>, updates: seq<Update>)
    requires HasPlatformAdmin(t)
    ensures HasPlatformAdmin(AfterEdit(t, edited, updates).0)
  {
    var (now, refused) := AfterEdit(t, edited, updates);
    if refused.None? {
      var u :| u in edited && edited[u].platformAdmin && edited[u].status == Some(true);
      assert u in now.users && now.users[u].platformAdmin && now.users[u].active;
    }
  }

  lemma EditKeepsAdmin(t: Tables, edited: map<string, Draft>, updates: seq<Update>, tenant: string)
    requires Named(t) && ForNewUsers(t, edited, updates) && HasAdmin(t, tenant)
    ensures HasAdmin(AfterEdit(t, edited, updates).0, tenant)
  {
    var (now, refused) := AfterEdit(t, edited, updates);
    var user :| Administers(t, tenant, user);
    if refused.None? {
      var k := (tenant, user);
      var kept := k;
      if !ActiveIn(edited, user) {
        assert AdminRow(t, k);
        kept :| kept in t.members && kept.0 == tenant && AdminRow(t, kept) && ActiveIn(edited, kept.1);
      }
      var left := map x | x in t.members && !(x.1 in t.users && x.1 !in edited) :: t.members[x];
      assert kept in left && left[kept] == t.members[kept];
      PutAllKeys(left, updates, kept);
      assert Administers(now, tenant, kept.1);
    }
  }

  lemma EditKeepsCovered(t: Tables, edited: map<string, Draft>, updates: seq<Update>)
    requires Named(t) && Covered(t) && ForNewUsers(t, edited, updates)
    ensures Covered(AfterEdit(t, edited, updates).0)
  {
    var (now, refused) := AfterEdit(t, edited, updates);
    if refused.None? {
      var left := map x | x in t.members && !(x.1 in t.users && x.1 !in edited) :: t.members[x];
      forall k | k in now.members && AdminRow(now, k) ensures HasAdmin(now, k.0) {
        PutAllKeys(left, updates, k);
        if i :| 0 <= i < |updates| && updates[i].user == k.1 {
          assert Administers(now, k.0, k.1);
        } else {
          assert AdminRow(t, k);
          EditKeepsAdmin(t, edited, updates, k.0);
        }
      }
    }
  }

  lemma SetKeepsCovered(t: Tables, tenant: string, user: string, m: Member)
    requires Covered(t)
    ensures Covered(AfterSet(t, tenant, user, m).0)
  {
    var (now, refused) := AfterSet(t, tenant, user, m);
    forall k | k in now.members && AdminRow(now, k) ensures HasAdmin(now, k.0) {
      if refused.None? && k == (tenant, user) {
        assert Administers(now, tenant, user);
      } else {
        assert AdminRow(t, k);
        SetKeepsAdmin(t, tenant, user, m, k.0);
      }
    }
  }

  lemma SetKeepsAdmin(t: Tables, tenant: string, user: string, m: Member, other: string)
    requires HasAdmin(t, other)
    ensures HasAdmin(AfterSet(t, tenant, user, m).0, other)
  {
    var (now, refused) := AfterSet(t, tenant, user, m);
    var a :| Administers(t, other, a);
    if (other, a) != (tenant, user) || (m.admin && m.active) || refused.Some? {
      assert Administers(now, other, a);
    } else {
      var k :| k in t.members && k.0 == tenant && k.1 != user && Administers(t, tenant, k.1);
      assert Administers(now, other, k.1);
    }
  }

  lemma {:induction false} ImportIsForNewUsers(t: Tables, tenant: string, rows: seq<ImportRow>)
    ensures var r := Imported(Drafts(t.users), tenant, rows);
            r.Some? ==>
              && ForNewUsers(t, r.value.0, r.value.1)
              && forall u | u in t.users :: u in r.value.0 && r.value.0[u] == DraftOf(t.users[u])
  {
    if rows != [] { ImportIsForNewUsers(t, tenant, rows[..|rows| - 1]); }
  }

  /** One request keeps every tenant's administration, the platform's, and the memberships' references. */
  lemma StepKeeps(t: Tables, r: Request, tenant: string)
    requires Named(t)
    ensures Named(Step(t, r))
    ensures Covered(t) ==> Covered(Step(t, r))
    ensures HasPlatformAdmin(t) ==> HasPlatformAdmin(Step(t, r))
    ensures HasAdmin(t, tenant) ==> HasAdmin(Step(t, r), tenant)
  {
    match r
    case Edit(edited) =>
      EditKeepsNamed(t, edited, []);
      if Covered(t) { EditKeepsCovered(t, edited, []); }
      if HasPlatformAdmin(t) { EditKeepsPlatformAdmin(t, edited, []); }
      if HasAdmin(t, tenant) { EditKeepsAdmin(t, edited, [], tenant); }
    case SetMember(other, user, m) =>
      if Covered(t) { SetKeepsCovered(t, other, user, m); }
      if HasAdmin(t, tenant) { SetKeepsAdmin(t, other, user, m, tenant); }
    case Import(other, rows) =>
      ImportIsForNewUsers(t, other, rows);
      var result := Imported(Drafts(t.users), other, rows);
      if result.Some? {
        var (edited, updates) := result.value;
        EditKeepsNamed(t, edited, updates);
        if Covered(t) { EditKeepsCovered(t, edited, updates); }
        if HasPlatformAdmin(t) { EditKeepsPlatformAdmin(t, edited, updates); }
        if HasAdmin(t, tenant) { EditKeepsAdmin(t, edited, updates, tenant); }
      }
  }

  /** Over any history a tenant that has an effective administrator keeps one, and so does the platform. */
  lemma {:induction false} AdministratorsStay(t: Tables, history: seq<Request>, tenant: string)
    requires Named(t)
    ensures Named(After(t, history))
    ensures HasPlatformAdmin(t) ==> HasPlatformAdmin(After(t, history))
    ensures HasAdmin(t, tenant) ==> HasAdmin(After(t, history), tenant)
  {
    if history != [] {
      AdministratorsStay(t, history[..|history| - 1], tenant);
      StepKeeps(After(t, history[..|history| - 1]), history[|history| - 1], tenant);
    }
  }

  /** Where every administrator row had an effective administrator, it always will. */
  lemma {:induction false} CoveredStays(t: Tables, history: seq<Request>)
    requires Named(t) && Covered(t)
    ensures Covered(After(t, history))
  {
    if history != [] {
      CoveredStays(t, history[..|history| - 1]);
      AdministratorsStay(t, history[..|history| - 1], "");
      StepKeeps(After(t, history[..|history| - 1]), history[|history| - 1], "");
    }
  }

  /** An edit that leaves every user as it was is refused for no administrator's sake. */
  lemma UnchangedUsersPass(t: Tables, edited: map<string, Draft>)
    requires Covered(t) && forall u | u in t.users :: u in edited && edited[u] == DraftOf(t.users[u])
    ensures !LosesTenantAdmin(t, edited) && (HasPlatformAdmin(t) ==> KeepsPlatformAdmin(edited))
  {
    forall k | k in t.members && AdminRow(t, k)
      ensures exists other :: other in t.members && other.0 == k.0 && AdminRow(t, other) && ActiveIn(edited, other.1)
    {
      assert HasAdmin(t, k.0);
      var user :| Administers(t, k.0, user);
      assert AdminRow(t, (k.0, user)) && ActiveIn(edited, user);
    }
    if u :| u in t.users && t.users[u].platformAdmin && t.users[u].active {
      assert u in edited && edited[u].platformAdmin && edited[u].status == Some(true);
    }
  }

  /** In a reachable state an import is never refused for the sake of an administrator. */
  lemma ImportNeverBlocked(history: seq<Request>, tenant: string, rows: seq<ImportRow>)
    ensures var refused := AfterImport(After(Tables(map[], map[]), history), tenant, rows).1;
            refused.None? || refused == Some(ImportCollision)
  {
    var t := After(Tables(map[], map[]), history);
    CoveredStays(Tables(map[], map[]), history);
    ImportIsForNewUsers(t, tenant, rows);
    var result := Imported(Drafts(t.users), tenant, rows);
    if result.Some? {
      hide After, Imported, LosesTenantAdmin, HasPlatformAdmin, KeepsPlatformAdmin, Covered;
      UnchangedUsersPass(t, result.value.0);
    }
  }
}
