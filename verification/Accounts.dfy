/** Users, administrators and sessions. */
module Accounts {
  import opened Common

  type UserId = string
  type Token = string

  datatype User = User(username: string, passwordHash: string, roles: seq<string>, disabled: bool)

  datatype Session = Session(userId: UserId, expiresAt: int)

  /** The roles and password hash a login saw. */
  datatype Credentials = Credentials(roles: seq<string>, passwordHash: string)

  datatype Update = Updated | Missing | FinalAdministrator | DuplicateName | BadInput

  const SUPPORTED_ROLES: seq<string> := ["admin", "operator", "ca_admin", "security_admin", "viewer"]

  predicate IsAdmin(u: User) {
    "admin" in u.roles
  }

  function EnabledAdmins(users: map<UserId, User>): set<UserId> {
    set id | id in users && !users[id].disabled && IsAdmin(users[id])
  }

  /** SQLite's `lower` on ASCII letters. */
  function Lower(s: string): string {
    seq(|s|, i requires 0 <= i < |s| => if 'A' <= s[i] <= 'Z' then s[i] + (32 as char) else s[i])
  }

  predicate NameTaken(users: map<UserId, User>, username: string, except: set<UserId>) {
    exists id | id in users && id !in except :: Lower(users[id].username) == Lower(username)
  }

  /** Every session belongs to an enabled user who still has the roles and the
      password hash the login saw. */
  ghost predicate SessionsHonest(
    users: map<UserId, User>, sessions: map<Token, Session>, starts: map<Token, Credentials>)
  {
    && sessions.Keys <= starts.Keys
    && forall t | t in sessions :: SessionHonest(users, sessions[t].userId, starts[t])
  }

  predicate SessionHonest(users: map<UserId, User>, id: UserId, start: Credentials) {
    id in users && !users[id].disabled && Credentials(users[id].roles, users[id].passwordHash) == start
  }

  function Without(sessions: map<Token, Session>, id: UserId): map<Token, Session> {
    map t | t in sessions && sessions[t].userId != id :: sessions[t]
  }

  predicate HasSession(sessions: map<Token, Session>, id: UserId) {
    exists t | t in sessions :: sessions[t].userId == id
  }

  /** Rewriting one user and perhaps revoking keeps the sessions honest exactly
      when they were revoked, or there were none, or nothing they rest on changed. */
  lemma RewriteHonest(
    users: map<UserId, User>, sessions: map<Token, Session>, starts: map<Token, Credentials>,
    id: UserId, user: User, revoke: bool)
    requires SessionsHonest(users, sessions, starts) && id in users
    ensures SessionsHonest(users[id := user], if revoke then Without(sessions, id) else sessions, starts) <==>
              || revoke || !HasSession(sessions, id)
              || (!user.disabled && user.roles == users[id].roles && user.passwordHash == users[id].passwordHash)
  {
    if HasSession(sessions, id) {
      var t :| t in sessions && sessions[t].userId == id;
      assert SessionHonest(users, id, starts[t]);
      if !revoke && SessionsHonest(users[id := user], sessions, starts) {
        assert SessionHonest(users[id := user], id, starts[t]);
      }
    }
  }

  /** With two enabled administrators, rewriting one leaves one. */
  lemma AnotherAdmin(users: map<UserId, User>, id: UserId, user: User)
    requires id in users && EnabledAdmins(users) != {}
    requires (!user.disabled && IsAdmin(user)) || users[id].disabled || !IsAdmin(users[id]) || |EnabledAdmins(users)| > 1
    ensures EnabledAdmins(users[id := user]) != {}
  {
    var admins, after := EnabledAdmins(users), EnabledAdmins(users[id := user]);
    if !user.disabled && IsAdmin(user) {
      assert id in after;
    } else {
      assert admins - {id} != {} by {
        assert admins <= {id} ==> |admins| <= 1 || id !in admins || admins == {id};
      }
      var other :| other in admins - {id};
      assert other in after;
    }
  }

  // ---- Names and administrators, written out ----

  predicate SameLetter(a: char, b: char) {
    || a == b
    || ('A' <= a <= 'Z' && a as int + 32 == b as int)
    || ('A' <= b <= 'Z' && b as int + 32 == a as int)
  }

  /** The same name, but for the case of its letters. */
  predicate SameName(a: string, b: string) {
    |a| == |b| && forall i | 0 <= i < |a| :: SameLetter(a[i], b[i])
  }

  predicate NamesUnique(users: map<UserId, User>) {
    forall id, other | id in users && other in users && SameName(users[id].username, users[other].username) :: id == other
  }

  /** Some other user has the name. */
  predicate HeldByOther(users: map<UserId, User>, id: UserId, name: string) {
    exists other | other in users && other != id :: SameName(users[other].username, name)
  }

  predicate AdminAmong(users: map<UserId, User>, except: set<UserId>) {
    exists id | id in users && id !in except :: !users[id].disabled && "admin" in users[id].roles
  }

  lemma LowerSame(a: string, b: string)
    ensures Lower(a) == Lower(b) <==> SameName(a, b)
  {
    if Lower(a) == Lower(b) {
      assert |Lower(a)| == |a| && |Lower(b)| == |b|;
      forall i | 0 <= i < |a| ensures SameLetter(a[i], b[i]) {
        assert Lower(a)[i] == Lower(b)[i];
      }
    }
  }

  lemma TakenIff(users: map<UserId, User>, username: string, except: set<UserId>)
    ensures NameTaken(users, username, except) <==>
            exists id | id in users && id !in except :: SameName(users[id].username, username)
  {
    forall id | id in users
      ensures Lower(users[id].username) == Lower(username) <==> SameName(users[id].username, username)
    {
      LowerSame(users[id].username, username);
    }
  }

  /** Giving a user a name that no other has keeps names unique. */
  lemma NameStaysUnique(users: map<UserId, User>, id: UserId, user: User)
    requires NamesUnique(users) && !HeldByOther(users, id, user.username)
    ensures NamesUnique(users[id := user])
  {
    var after := users[id := user];
    forall a, b | a in after && b in after && SameName(after[a].username, after[b].username) ensures a == b {
      SameNameBothWays(after[a].username, after[b].username);
    }
  }

  lemma SameNameBothWays(a: string, b: string)
    requires SameName(a, b)
    ensures SameName(b, a)
  {
  }

  lemma AdminsWrittenOut(users: map<UserId, User>)
    ensures EnabledAdmins(users) != {} <==> AdminAmong(users, {})
  {
    if EnabledAdmins(users) != {} {
      var id :| id in EnabledAdmins(users);
    }
    if AdminAmong(users, {}) {
      var id :| id in users && !users[id].disabled && "admin" in users[id].roles;
      assert id in EnabledAdmins(users);
    }
  }

  /** An enabled administrator is the last one exactly when there is no other. */
  lemma LastAdminIff(users: map<UserId, User>, id: UserId)
    requires id in users && !users[id].disabled && "admin" in users[id].roles
    ensures |EnabledAdmins(users)| <= 1 <==> !AdminAmong(users, {id})
  {
    var admins := EnabledAdmins(users);
    assert id in admins;
    assert admins == {id} + (admins - {id}) && |admins| == 1 + |admins - {id}|;
    if AdminAmong(users, {id}) {
      var other :| other in users && other != id && !users[other].disabled && "admin" in users[other].roles;
      assert other in admins - {id};
    } else {
      forall other | other in admins ensures other in {id} {
      }
      assert admins - {id} == {};
    }
  }

  /** What becomes of an attempt to rename a user and set the roles. */
  function Verdict(users: map<UserId, User>, id: UserId, username: string, roles: seq<string>): Update {
    if id !in users then Missing
    else if !users[id].disabled && IsAdmin(users[id]) && "admin" !in roles && |EnabledAdmins(users)| <= 1
    then FinalAdministrator
    else if NameTaken(users, username, {id}) then DuplicateName
    else Updated
  }

  /** An edit is refused for an unknown user, for the last enabled administrator's role,
      and for a name that another user has, in this order. */
  lemma VerdictIff(users: map<UserId, User>, id: UserId, username: string, roles: seq<string>)
    ensures var verdict := Verdict(users, id, username, roles);
            && (verdict == Missing <==> id !in users)
            && (verdict == FinalAdministrator <==>
                  && id in users && !users[id].disabled && "admin" in users[id].roles
                  && "admin" !in roles && !AdminAmong(users, {id}))
            && (verdict == DuplicateName <==>
                  id in users && verdict != FinalAdministrator && HeldByOther(users, id, username))
            && (verdict == Updated <==>
                  id in users && verdict != FinalAdministrator && !HeldByOther(users, id, username))
  {
    TakenIff(users, username, {id});
    if id in users && !users[id].disabled && "admin" in users[id].roles {
      LastAdminIff(users, id);
    }
  }

  /** What an accepted edit keeps. */
  lemma EditKeeps(users: map<UserId, User>, sessions: map<Token, Session>, starts: map<Token, Credentials>,
                  id: UserId, username: string, roles: seq<string>, revoke: bool)
    requires Verdict(users, id, username, roles) == Updated
    ensures var after := users[id := users[id].(username := username, roles := roles)];
            && (EnabledAdmins(users) != {} ==> EnabledAdmins(after) != {})
            && (NamesUnique(users) ==> NamesUnique(after))
            && (SessionsHonest(users, sessions, starts) ==>
                  (SessionsHonest(after, if revoke then Without(sessions, id) else sessions, starts) <==>
                     revoke || !HasSession(sessions, id) || roles == users[id].roles))
  {
    var user := users[id].(username := username, roles := roles);
    VerdictIff(users, id, username, roles);
    if EnabledAdmins(users) != {} {
      AnotherAdmin(users, id, user);
    }
    if NamesUnique(users) {
      NameStaysUnique(users, id, user);
    }
    if SessionsHonest(users, sessions, starts) {
      assert HasSession(sessions, id) ==> !users[id].disabled;
      RewriteHonest(users, sessions, starts, id, user, revoke);
    }
  }

  class AccountStore {
    var users: map<UserId, User>
    var sessions: map<Token, Session>
    ghost var starts: map<Token, Credentials>

    constructor ()
      ensures users == map[] && sessions == map[] && starts == map[]
    {
      users, sessions, starts := map[], map[], map[];
    }

    ghost predicate Honest()
      reads this
    {
      SessionsHonest(users, sessions, starts)
    }

    // ---- The database: one transaction each, with any arguments ----

    method InsertUser(id: UserId, username: string, passwordHash: string, roles: seq<string>) returns (ok: bool)
      modifies this`users
      ensures ok <==> id !in old(users) && !NameTaken(old(users), username, {})
      ensures ok <==> id !in old(users) && forall other | other in old(users) :: !SameName(old(users)[other].username, username)
      ensures users == if ok then old(users)[id := User(username, passwordHash, roles, false)] else old(users)
      ensures old(Honest()) ==> Honest()
      ensures EnabledAdmins(old(users)) <= EnabledAdmins(users)
      ensures old(NamesUnique(users)) ==> NamesUnique(users)
    {
      TakenIff(users, username, {});
      if id in users || NameTaken(users, username, {}) {
        return false;
      }
      if NamesUnique(users) {
        NameStaysUnique(users, id, User(username, passwordHash, roles, false));
      }
      users := users[id := User(username, passwordHash, roles, false)];
      ok := true;
    }

    /** `update_user_identity_and_roles` with the final administrator protected. */
    method UpdateIdentityAndRoles(id: UserId, username: string, roles: seq<string>, revoke: bool) returns (r: Update)
      modifies this`users, this`sessions
      ensures r == Verdict(old(users), id, username, roles)
      ensures r == DuplicateName <==>
                id in old(users) && r != FinalAdministrator && HeldByOther(old(users), id, username)
      ensures users == if r.Updated? then old(users)[id := old(users)[id].(username := username, roles := roles)]
                       else old(users)
      ensures sessions == if r.Updated? && revoke then Without(old(sessions), id) else old(sessions)
      ensures EnabledAdmins(old(users)) != {} ==> EnabledAdmins(users) != {}
      ensures old(Honest()) && r.Updated? ==>
                (Honest() <==> revoke || !HasSession(old(sessions), id) || roles == old(users)[id].roles)
      ensures old(Honest()) && !r.Updated? ==> Honest()
      ensures old(NamesUnique(users)) ==> NamesUnique(users)
    {
      VerdictIff(users, id, username, roles);
      if id !in users {
        return Missing;
      }
      var current := users[id];
      if !current.disabled && IsAdmin(current) && "admin" !in roles && |EnabledAdmins(users)| <= 1 {
        return FinalAdministrator;
      }
      if NameTaken(users, username, {id}) {
        return DuplicateName;
      }
      EditKeeps(users, sessions, starts, id, username, roles, revoke);
      users := users[id := current.(username := username, roles := roles)];
      if revoke {
        sessions := Without(sessions, id);
      }
      r := Updated;
    }

    /** `set_user_disabled` with the final administrator protected. */
    method SetDisabled(id: UserId, disabled: bool, revoke: bool) returns (r: Update)
      modifies this`users, this`sessions
      ensures r == if id !in old(users) then Missing
                   else if disabled && !old(users)[id].disabled && IsAdmin(old(users)[id])
                           && |EnabledAdmins(old(users))| <= 1 then FinalAdministrator
                   else Updated
      ensures users == if r.Updated? then old(users)[id := old(users)[id].(disabled := disabled)] else old(users)
      ensures sessions == if r.Updated? && revoke then Without(old(sessions), id) else old(sessions)
      ensures EnabledAdmins(old(users)) != {} ==> EnabledAdmins(users) != {}
      ensures old(Honest()) && r.Updated? ==> (Honest() <==> revoke || !HasSession(old(sessions), id) || !disabled)
      ensures old(Honest()) && !r.Updated? ==> Honest()
      ensures old(NamesUnique(users)) ==> NamesUnique(users)
    {
      if id !in users {
        return Missing;
      }
      var current := users[id];
      if disabled && !current.disabled && IsAdmin(current) && |EnabledAdmins(users)| <= 1 {
        return FinalAdministrator;
      }
      ghost var before, user := users, current.(disabled := disabled);
      if EnabledAdmins(before) != {} {
        AnotherAdmin(before, id, user);
      }
      if Honest() {
        RewriteHonest(before, sessions, starts, id, user, revoke);
      }
      users := users[id := current.(disabled := disabled)];
      if revoke {
        sessions := Without(sessions, id);
      }
      r := Updated;
    }

    /** `set_user_password_hash` with sessions revoked. */
    method SetPasswordHash(id: UserId, passwordHash: string) returns (r: Update)
      modifies this`users, this`sessions
      ensures r == if id in old(users) then Updated else Missing
      ensures users == if r.Updated? then old(users)[id := old(users)[id].(passwordHash := passwordHash)] else old(users)
      ensures sessions == if r.Updated? then Without(old(sessions), id) else old(sessions)
      ensures EnabledAdmins(users) == EnabledAdmins(old(users))
      ensures old(Honest()) ==> Honest()
      ensures old(NamesUnique(users)) ==> NamesUnique(users)
    {
      if id !in users {
        return Missing;
      }
      if Honest() {
        RewriteHonest(users, sessions, starts, id, users[id].(passwordHash := passwordHash), true);
      }
      users := users[id := users[id].(passwordHash := passwordHash)];
      sessions := Without(sessions, id);
      r := Updated;
    }

    /** `create_session` for the user a login saw. */
    method StartSession(token: Token, id: UserId, seen: User, expiresAt: int) returns (ok: bool)
      modifies this`sessions, this`starts
      ensures ok <==> token !in old(sessions) && id in users
      ensures sessions == if ok then old(sessions)[token := Session(id, expiresAt)] else old(sessions)
      ensures starts == if ok then old(starts)[token := Credentials(seen.roles, seen.passwordHash)] else old(starts)
      ensures old(Honest()) && ok ==>
                (Honest() <==> SessionHonest(users, id, Credentials(seen.roles, seen.passwordHash)))
      ensures old(Honest()) && !ok ==> Honest()
    {
      if token in sessions || id !in users {
        return false;
      }
      sessions := sessions[token := Session(id, expiresAt)];
      starts := starts[token := Credentials(seen.roles, seen.passwordHash)];
      assert sessions[token].userId == id;
      ok := true;
    }

    // ---- The service: each operation reads and writes with nothing in between ----

    method CreateFirstAdmin(id: UserId, username: string, passwordHash: string) returns (ok: bool)
      modifies this`users
      ensures ok <==> old(users) == map[]
      ensures users == if ok then map[id := User(username, passwordHash, SUPPORTED_ROLES, false)] else old(users)
      ensures ok ==> EnabledAdmins(users) == {id}
      ensures old(Honest()) ==> Honest()
      ensures old(NamesUnique(users)) ==> NamesUnique(users)
    {
      if users != map[] {
        return false;
      }
      ok := InsertUser(id, username, passwordHash, SUPPORTED_ROLES);
      assert SUPPORTED_ROLES[0] == "admin";
      assert users[id].roles == SUPPORTED_ROLES;
      assert users == map[id := User(username, passwordHash, SUPPORTED_ROLES, false)];
    }

    method CreateUser(id: UserId, username: string, passwordHash: string, requested: seq<string>) returns (ok: bool)
      modifies this`users
      ensures ok <==> AcceptableRoles(requested) && id !in old(users) && !NameTaken(old(users), username, {})
      ensures users == if ok then old(users)[id := User(username, passwordHash, Distinct(requested), false)] else old(users)
      ensures old(Honest()) ==> Honest()
      ensures old(NamesUnique(users)) ==> NamesUnique(users)
      ensures EnabledAdmins(old(users)) <= EnabledAdmins(users)
    {
      var roles := ValidatedRoles(requested);
      if roles.None? {
        return false;
      }
      ok := InsertUser(id, username, passwordHash, roles.value);
    }

    /** `update_user`, given the user record it read. Sessions are revoked when the
        new roles differ from the roles read, so a record that has gone stale can
        leave sessions behind that no longer match. */
    method UpdateUser(id: UserId, seen: User, username: Option<string>, requested: Option<seq<string>>) returns (r: Update)
      modifies this`users, this`sessions
      ensures EnabledAdmins(old(users)) != {} ==> EnabledAdmins(users) != {}
      ensures r == if requested.Some? && !AcceptableRoles(requested.value) then BadInput
                   else Verdict(old(users), id, if username.Some? then username.value else seen.username,
                                if requested.Some? then Distinct(requested.value) else seen.roles)
      ensures r == DuplicateName <==>
                && id in old(users) && r != BadInput && r != FinalAdministrator
                && HeldByOther(old(users), id, if username.Some? then username.value else seen.username)
      ensures !r.Updated? ==> users == old(users) && sessions == old(sessions)
      ensures r.Updated? ==>
                var roles := if requested.Some? then Distinct(requested.value) else seen.roles;
                && id in old(users)
                && users == old(users)[id := old(users)[id].(
                              username := if username.Some? then username.value else seen.username, roles := roles)]
                && sessions == (if roles != seen.roles then Without(old(sessions), id) else old(sessions))
                && (old(Honest()) ==>
                      (Honest() <==> roles != seen.roles || !HasSession(old(sessions), id) || roles == old(users)[id].roles))
      ensures old(Honest()) && id in old(users) && seen == old(users)[id] ==> Honest()
      ensures old(NamesUnique(users)) ==> NamesUnique(users)
    {
      var roles := Some(seen.roles);
      if requested.Some? {
        roles := ValidatedRoles(requested.value);
      }
      if roles.None? {
        return BadInput;
      }
      var name := if username.Some? then username.value else seen.username;
      r := UpdateIdentityAndRoles(id, name, roles.value, roles.value != seen.roles);
    }

    method SetUserEnabled(id: UserId, enabled: bool) returns (r: Update)
      modifies this`users, this`sessions
      ensures EnabledAdmins(old(users)) != {} ==> EnabledAdmins(users) != {}
      ensures old(Honest()) ==> Honest()
      ensures old(NamesUnique(users)) ==> NamesUnique(users)
      ensures r.Updated? ==> id in old(users) && users == old(users)[id := old(users)[id].(disabled := !enabled)]
      ensures !r.Updated? ==> users == old(users)
      ensures r.Updated? <==> id in old(users) && (enabled || old(users)[id].disabled || !IsAdmin(old(users)[id])
                                                   || |EnabledAdmins(old(users))| > 1)
      ensures r.Updated? <==> id in old(users) && (enabled || old(users)[id].disabled || "admin" !in old(users)[id].roles
                                                   || AdminAmong(old(users), {id}))
      ensures sessions == if r.Updated? && !enabled then Without(old(sessions), id) else old(sessions)
    {
      if id in users && !users[id].disabled && "admin" in users[id].roles {
        LastAdminIff(users, id);
      }
      r := SetDisabled(id, !enabled, !enabled);
    }

    /** `authenticate` followed by `start_session`; `verified` is the password check's answer. */
    method Login(token: Token, id: UserId, verified: bool, expiresAt: int) returns (ok: bool)
      modifies this`sessions, this`starts
      ensures ok <==> id in users && !users[id].disabled && verified && token !in old(sessions)
      ensures sessions == if ok then old(sessions)[token := Session(id, expiresAt)] else old(sessions)
      ensures old(Honest()) ==> Honest()
    {
      if id !in users || users[id].disabled || !verified {
        return false;
      }
      ok := StartSession(token, id, users[id], expiresAt);
    }

    /** `user_for_token`. */
    method UserForToken(token: Token, now: int) returns (user: Option<User>)
      modifies this`sessions
      ensures user.Some? <==> token in old(sessions) && now < old(sessions)[token].expiresAt
                              && old(sessions)[token].userId in users && !users[old(sessions)[token].userId].disabled
      ensures user.Some? ==> user.value == users[old(sessions)[token].userId]
      ensures sessions == if user.Some? then old(sessions) else old(sessions) - {token}
      ensures old(Honest()) ==> Honest()
      ensures old(Honest()) && user.Some? ==> Credentials(user.value.roles, user.value.passwordHash) == starts[token]
    {
      if token !in sessions {
        assert sessions - {token} == sessions;
        return None;
      }
      var session := sessions[token];
      if session.expiresAt <= now {
        sessions := sessions - {token};
        return None;
      }
      if session.userId !in users || users[session.userId].disabled {
        sessions := sessions - {token};
        return None;
      }
      user := Some(users[session.userId]);
    }

    method EndSession(token: Token)
      modifies this`sessions
      ensures sessions == old(sessions) - {token}
      ensures old(Honest()) ==> Honest()
    {
      sessions := sessions - {token};
    }
  }

  predicate AcceptableRoles(roles: seq<string>) {
    roles != [] && forall r | r in roles :: r in SUPPORTED_ROLES
  }

  /** `_validated_roles`. */
  method ValidatedRoles(roles: seq<string>) returns (normalized: Option<seq<string>>)
    ensures normalized == if AcceptableRoles(roles) then Some(Distinct(roles)) else None
    ensures normalized.Some? <==>
              && roles != []
              && forall role | role in roles :: role in {"admin", "operator", "ca_admin", "security_admin", "viewer"}
  {
    if roles == [] {
      return None;
    }
    var kept: seq<string> := [];
    for i := 0 to |roles|
      invariant forall k | 0 <= k < i :: roles[k] in SUPPORTED_ROLES
      invariant kept == Distinct(roles[..i])
    {
      assert roles[..i + 1][..i] == roles[..i];
      if roles[i] !in SUPPORTED_ROLES {
        return None;
      }
      if roles[i] !in kept {
        kept := kept + [roles[i]];
      }
    }
    assert roles[..|roles|] == roles;
    normalized := Some(kept);
  }

  // ---- Whole histories ----

  datatype Operation =
    | FirstAdmin(id: UserId, username: string, passwordHash: string)
    | NewUser(id: UserId, username: string, passwordHash: string, roles: seq<string>)
    | Change(id: UserId, newName: Option<string>, newRoles: Option<seq<string>>)
    | Enable(id: UserId, enabled: bool)
    | ResetPassword(id: UserId, passwordHash: string)
    | LogIn(token: Token, id: UserId, verified: bool, expiresAt: int)
    | Use(token: Token, now: int)
    | LogOut(token: Token)

  datatype Books = Books(users: map<UserId, User>, sessions: map<Token, Session>)

  function AfterUpdate(b: Books, id: UserId, user: User, r: Update, revoked: bool): Books {
    if !r.Updated? then b else Books(b.users[id := user], if revoked then Without(b.sessions, id) else b.sessions)
  }

  /** An edit by the service, which reads the user first. */
  function AfterChange(b: Books, id: UserId, newName: Option<string>, newRoles: Option<seq<string>>): Books {
    if id !in b.users || (newRoles.Some? && !AcceptableRoles(newRoles.value)) then b
    else
      var user := b.users[id];
      var username := if newName.Some? then newName.value else user.username;
      var roles := if newRoles.Some? then Distinct(newRoles.value) else user.roles;
      AfterUpdate(b, id, user.(username := username, roles := roles), Verdict(b.users, id, username, roles), roles != user.roles)
  }

  predicate MayLogIn(b: Books, token: Token, id: UserId, verified: bool) {
    id in b.users && !b.users[id].disabled && verified && token !in b.sessions
  }

  predicate IsLive(b: Books, token: Token, now: int) {
    && token in b.sessions && now < b.sessions[token].expiresAt
    && b.sessions[token].userId in b.users && !b.users[b.sessions[token].userId].disabled
  }

  predicate MaySetEnabled(users: map<UserId, User>, id: UserId, enabled: bool) {
    id in users && (enabled || users[id].disabled || !IsAdmin(users[id]) || |EnabledAdmins(users)| > 1)
  }

  /** What one operation makes of the tables. */
  function AfterOperation(b: Books, operation: Operation): Books {
    match operation
    case FirstAdmin(id, username, passwordHash) =>
      if b.users != map[] then b else b.(users := map[id := User(username, passwordHash, SUPPORTED_ROLES, false)])
    case NewUser(id, username, passwordHash, roles) =>
      if !AcceptableRoles(roles) || id in b.users || NameTaken(b.users, username, {}) then b
      else b.(users := b.users[id := User(username, passwordHash, Distinct(roles), false)])
    case Change(id, newName, newRoles) => AfterChange(b, id, newName, newRoles)
    case Enable(id, enabled) =>
      if !MaySetEnabled(b.users, id, enabled) then b
      else AfterUpdate(b, id, b.users[id].(disabled := !enabled), Updated, !enabled)
    case ResetPassword(id, passwordHash) =>
      if id !in b.users then b else AfterUpdate(b, id, b.users[id].(passwordHash := passwordHash), Updated, true)
    case LogIn(token, id, verified, expiresAt) =>
      if MayLogIn(b, token, id, verified) then b.(sessions := b.sessions[token := Session(id, expiresAt)]) else b
    case Use(token, now) => if IsLive(b, token, now) then b else b.(sessions := b.sessions - {token})
    case LogOut(token) => b.(sessions := b.sessions - {token})
  }

  function AfterAll(operations: seq<Operation>): Books {
    if operations == [] then Books(map[], map[])
    else AfterOperation(AfterAll(operations[..|operations| - 1]), operations[|operations| - 1])
  }

  lemma AfterOneMore(operations: seq<Operation>, i: nat)
    requires i < |operations|
    ensures AfterAll(operations[..i + 1]) == AfterOperation(AfterAll(operations[..i]), operations[i])
  {
    assert operations[..i + 1][..i] == operations[..i];
  }

  method Perform(store: AccountStore, operation: Operation) returns (becameAdministered: bool)
    requires store.Honest() && NamesUnique(store.users)
    modifies store
    ensures store.Honest() && NamesUnique(store.users)
    ensures Books(store.users, store.sessions) == AfterOperation(old(Books(store.users, store.sessions)), operation)
    ensures EnabledAdmins(old(store.users)) != {} ==> EnabledAdmins(store.users) != {}
    ensures becameAdministered <==> operation.FirstAdmin? && old(store.users) == map[]
    ensures becameAdministered ==> EnabledAdmins(store.users) != {}
  {
    becameAdministered := false;
    match operation {
      case FirstAdmin(id, username, passwordHash) =>
        becameAdministered := store.CreateFirstAdmin(id, username, passwordHash);
      case NewUser(id, username, passwordHash, roles) =>
        var created := store.CreateUser(id, username, passwordHash, roles);
      case Change(id, username, roles) =>
        if id in store.users {
          var changed := store.UpdateUser(id, store.users[id], username, roles);
        }
      case Enable(id, enabled) =>
        var set_ := store.SetUserEnabled(id, enabled);
      case ResetPassword(id, passwordHash) =>
        var reset := store.SetPasswordHash(id, passwordHash);
      case LogIn(token, id, verified, expiresAt) =>
        var started := store.Login(token, id, verified, expiresAt);
      case Use(token, now) =>
        var user := store.UserForToken(token, now);
      case LogOut(token) =>
        store.EndSession(token);
    }
  }

  /** The first administrator is asked for before any other user. */
  predicate StartsWithAdmin(operations: seq<Operation>, i: nat)
    requires i < |operations|
  {
    operations[i].FirstAdmin? && forall k | 0 <= k < i :: !operations[k].NewUser?
  }

  /** Over every sequence of operations the tables are as described, sessions stay
      honest, no two users share a name, and from the moment the first administrator was created some
      administrator is enabled: at the latest when one is asked for before any other user. */
  method PerformAll(operations: seq<Operation>) returns (store: AccountStore, administered: bool)
    ensures Books(store.users, store.sessions) == AfterAll(operations) && store.Honest() && NamesUnique(store.users)
    ensures administered ==> AdminAmong(store.users, {})
    ensures forall i | 0 <= i < |operations| :: StartsWithAdmin(operations, i) ==> administered
  {
    store := new AccountStore();
    administered := false;
    for i := 0 to |operations|
      invariant store.Honest() && NamesUnique(store.users) && fresh(store)
      invariant Books(store.users, store.sessions) == AfterAll(operations[..i])
      invariant administered ==> EnabledAdmins(store.users) != {}
      invariant (forall k | 0 <= k < i :: !operations[k].NewUser?) ==> administered || store.users == map[]
      invariant forall k | 0 <= k < i :: StartsWithAdmin(operations, k) ==> administered
    {
      AfterOneMore(operations, i);
      var became := Perform(store, operations[i]);
      administered := administered || became;
    }
    assert operations[..|operations|] == operations;
    AdminsWrittenOut(store.users);
  }

  /** An administrator creates a viewer, on an empty store. */
  method OneViewer() returns (store: AccountStore)
    ensures fresh(store) && store.Honest() && store.sessions == map[]
    ensures store.users == map["0" := User("root", "g", SUPPORTED_ROLES, false), "1" := User("a", "h", ["viewer"], false)]
  {
    store := new AccountStore();
    var first := store.CreateFirstAdmin("0", "root", "g");
    DistinctOne("viewer");
    assert SUPPORTED_ROLES[4] == "viewer";
    var second := store.CreateUser("1", "a", "h", ["viewer"]);
  }

  lemma DistinctOne(role: string)
    ensures Distinct([role]) == [role]
  {
    assert Distinct<string>([]) == [];
  }

  /** Two concurrent edits: a rename that read the user before a role change puts
      the old roles back without ending the session that started in between. */
  method StaleRenameKeepsSession() returns (store: AccountStore)
    ensures !store.Honest()
  {
    store := OneViewer();
    var seen := store.users["1"];
    assert SUPPORTED_ROLES[1] == "operator";
    DistinctOne("operator");
    var promoted := store.UpdateUser("1", seen, None, Some(["operator"]));
    assert ["operator"][0] != ["viewer"][0];
    var loggedIn := store.Login("t", "1", true, 10);
    assert store.sessions["t"].userId == "1";
    var renamed := store.UpdateUser("1", seen, Some("b"), None);
  }
}
