/** Inviting, re-grading and revoking the users of an organisation. */
module OrgAdmins {
  import opened Common

  type OrgId = string

  datatype Role = Admin | BusinessAnalyst | ProcessOwner | Reviewer | Viewer

  /** A row keeps its place; the user's id is that place. */
  datatype User = User(email: string, role: Role, orgId: OrgId, verified: bool, active: bool)

  datatype Token = Token(user: nat, revoked: bool)

  datatype Directory = Directory(users: seq<User>, tokens: seq<Token>)

  /** Who asks, as the access token says. */
  datatype Caller = Caller(orgId: OrgId, role: Role)

  datatype Request =
    | Invite(caller: Caller, email: string, role: Option<Role>)
    | UpdateRole(caller: Caller, user: nat, newRole: Role)
    | Revoke(caller: Caller, user: nat)

  datatype Refusal = NoOrganization | NotAdmin | UserExists | UserNotFound | LastAdmin

  /** `toLowerCase`; the database compares addresses by it as well. */
  type Lower = string -> string

  predicate Taken(users: seq<User>, lower: Lower, email: string) {
    exists i :: 0 <= i < |users| && lower(users[i].email) == lower(email)
  }

  predicate IsActiveAdmin(u: User, orgId: OrgId) {
    u.orgId == orgId && u.role == Admin && u.active
  }

  /** Active administrators of the organisation among the first `n` users. */
  function AdminsTo(users: seq<User>, n: nat, orgId: OrgId): nat
    requires n <= |users|
  {
    if n == 0 then 0 else AdminsTo(users, n - 1, orgId) + (if IsActiveAdmin(users[n - 1], orgId) then 1 else 0)
  }

  function ActiveAdmins(users: seq<User>, orgId: OrgId): nat {
    AdminsTo(users, |users|, orgId)
  }

  predicate InOrg(d: Directory, user: nat, orgId: OrgId) {
    user < |d.users| && d.users[user].orgId == orgId
  }

  function RevokeTokens(tokens: seq<Token>, user: nat): (r: seq<Token>)
    ensures |r| == |tokens|
    ensures forall i :: 0 <= i < |tokens| ==>
      r[i] == if tokens[i].user == user then tokens[i].(revoked := true) else tokens[i]
  {
    seq(|tokens|, i requires 0 <= i < |tokens| =>
      if tokens[i].user == user then tokens[i].(revoked := true) else tokens[i])
  }

  function CallerProblem(c: Caller): Option<Refusal> {
    if c.orgId == "" then Some(NoOrganization) else if c.role != Admin then Some(NotAdmin) else None
  }

  function Serve(lower: Lower, d: Directory, r: Request): (Directory, Option<Refusal>) {
    if CallerProblem(r.caller).Some? then (d, CallerProblem(r.caller))
    else
      match r
      case Invite(caller, email, role) =>
        if Taken(d.users, lower, lower(email)) then (d, Some(UserExists))
        else
          (d.(users := d.users + [User(lower(email), role.GetOr(Viewer), caller.orgId, false, true)]), None)
      case UpdateRole(caller, user, newRole) =>
        if !InOrg(d, user, caller.orgId) then (d, Some(UserNotFound))
        else if d.users[user].role == newRole then (d, None)
        else if d.users[user].role == Admin && ActiveAdmins(d.users, caller.orgId) <= 1 then (d, Some(LastAdmin))
        else (d.(users := d.users[user := d.users[user].(role := newRole)]), None)
      case Revoke(caller, user) =>
        if !InOrg(d, user, caller.orgId) then (d, Some(UserNotFound))
        else if d.users[user].role == Admin && ActiveAdmins(d.users, caller.orgId) <= 1 then (d, Some(LastAdmin))
        else
          (Directory(d.users[user := d.users[user].(active := false)], RevokeTokens(d.tokens, user)), None)
  }

  function Run(lower: Lower, d: Directory, requests: seq<Request>): Directory
    decreases |requests|
  {
    if requests == [] then d else Run(lower, Serve(lower, d, requests[0]).0, requests[1..])
  }

  // ---------- counting ----------

  lemma {:induction false} CountAfterUpdate(users: seq<User>, n: nat, k: nat, u: User, orgId: OrgId)
    requires n <= |users| && k < |users|
    ensures AdminsTo(users[k := u], n, orgId) == AdminsTo(users, n, orgId)
      + (if k < n && IsActiveAdmin(u, orgId) then 1 else 0) - (if k < n && IsActiveAdmin(users[k], orgId) then 1 else 0)
  {
    if n > 0 {
      CountAfterUpdate(users, n - 1, k, u, orgId);
    }
  }

  lemma {:induction false} CountOfPrefix(users: seq<User>, u: User, n: nat, orgId: OrgId)
    requires n <= |users|
    ensures AdminsTo(users + [u], n, orgId) == AdminsTo(users, n, orgId)
  {
    if n > 0 {
      CountOfPrefix(users, u, n - 1, orgId);
    }
  }

  lemma {:induction false} AdminIsCounted(users: seq<User>, n: nat, orgId: OrgId)
    requires n <= |users|
    ensures AdminsTo(users, n, orgId) >= 1 <==> exists i :: 0 <= i < n && IsActiveAdmin(users[i], orgId)
  {
    if n > 0 {
      AdminIsCounted(users, n - 1, orgId);
    }
  }

  // ---------- one request ----------

  /** An organisation with an active administrator keeps one, whoever asks for what. */
  lemma ServeKeepsAdmin(lower: Lower, d: Directory, r: Request, orgId: OrgId)
    requires ActiveAdmins(d.users, orgId) >= 1
    ensures ActiveAdmins(Serve(lower, d, r).0.users, orgId) >= 1
  {
    var users := Serve(lower, d, r).0.users;
    if |users| > |d.users| {
      CountOfPrefix(d.users, users[|d.users|], |d.users|, orgId);
    } else if !r.Invite? && users != d.users {
      CountAfterUpdate(d.users, |d.users|, r.user, users[r.user], orgId);
    }
  }

  /** What a request would make of the user it names. */
  function Changed(u: User, r: Request): User
    requires !r.Invite?
  {
    if r.UpdateRole? then u.(role := r.newRole) else u.(active := false)
  }

  /**
   * The guard refuses more than it must: a refused change would leave no active administrator exactly
   * when there is none already, or the user is the active one. An administrator who is revoked already
   * can be neither re-graded nor revoked again while a single one is active.
   */
  lemma LastAdminRefusalNeededIff(lower: Lower, d: Directory, r: Request)
    requires !r.Invite? && Serve(lower, d, r).1 == Some(LastAdmin)
    ensures ActiveAdmins(d.users[r.user := Changed(d.users[r.user], r)], r.caller.orgId) == 0
      <==> ActiveAdmins(d.users, r.caller.orgId) == 0 || d.users[r.user].active
  {
    CountAfterUpdate(d.users, |d.users|, r.user, Changed(d.users[r.user], r), r.caller.orgId);
    AdminIsCounted(d.users, |d.users|, r.caller.orgId);
  }

  /** And never less: what would take an organisation's last active administrator is refused and changes nothing. */
  lemma LastAdminIsKept(lower: Lower, d: Directory, r: Request)
    requires !r.Invite? && r.user < |d.users|
    requires ActiveAdmins(d.users, d.users[r.user].orgId) >= 1
    requires ActiveAdmins(d.users[r.user := Changed(d.users[r.user], r)], d.users[r.user].orgId) == 0
    ensures Serve(lower, d, r).1.Some? && Serve(lower, d, r).0 == d
  {
    CountAfterUpdate(d.users, |d.users|, r.user, Changed(d.users[r.user], r), d.users[r.user].orgId);
  }

  /** Addresses differ, whatever their case. */
  ghost predicate EmailsApart(users: seq<User>, lower: Lower) {
    forall i, j :: 0 <= i < j < |users| ==> lower(users[i].email) != lower(users[j].email)
  }

  lemma ServeKeepsEmailsApart(lower: Lower, d: Directory, r: Request)
    requires EmailsApart(d.users, lower)
    ensures EmailsApart(Serve(lower, d, r).0.users, lower)
  {
    var users := Serve(lower, d, r).0.users;
    forall i, j | 0 <= i < j < |users| ensures lower(users[i].email) != lower(users[j].email) {
      assert i < |d.users| && users[i].email == d.users[i].email;
      if j < |d.users| {
        assert users[j].email == d.users[j].email;
      }
    }
  }

  /** A caller reaches no user of another organisation, and adds users to its own only. */
  ghost predicate Untouched(before: seq<User>, after: seq<User>, orgId: OrgId) {
    && |before| <= |after|
    && (forall i :: 0 <= i < |before| ==>
          after[i] == before[i] || (before[i].orgId != orgId && after[i].orgId != orgId))
    && (forall i :: |before| <= i < |after| ==> after[i].orgId != orgId)
  }

  lemma ServeTouchesOwnOrgOnly(lower: Lower, d: Directory, r: Request, orgId: OrgId)
    requires r.caller.orgId != orgId
    ensures Untouched(d.users, Serve(lower, d, r).0.users, orgId)
  {
  }

  /** A revoked user holds no live token. (Logging in, which makes tokens, is not among the requests.) */
  ghost predicate RevokedHoldNone(d: Directory) {
    forall t :: t in d.tokens ==> t.user < |d.users| && (d.users[t.user].active || t.revoked)
  }

  lemma ServeKeepsTokens(lower: Lower, d: Directory, r: Request)
    requires RevokedHoldNone(d)
    ensures RevokedHoldNone(Serve(lower, d, r).0)
  {
    var d' := Serve(lower, d, r).0;
    forall t | t in d'.tokens ensures t.user < |d'.users| && (d'.users[t.user].active || t.revoked) {
      var i :| 0 <= i < |d'.tokens| && d'.tokens[i] == t;
      assert d.tokens[i] in d.tokens;
    }
  }

  // ---------- runs ----------

  /**
   * In every serial run: each organisation that had an active administrator has one, addresses stay
   * unique whatever their case, and revoked users hold no live token.
   */
  lemma {:induction false} RunKeeps(lower: Lower, d: Directory, requests: seq<Request>)
    requires EmailsApart(d.users, lower) && RevokedHoldNone(d)
    ensures var d' := Run(lower, d, requests);
      && (forall orgId :: ActiveAdmins(d.users, orgId) >= 1 ==> ActiveAdmins(d'.users, orgId) >= 1)
      && EmailsApart(d'.users, lower) && RevokedHoldNone(d')
    decreases |requests|
  {
    if requests != [] {
      var next := Serve(lower, d, requests[0]).0;
      ServeKeepsEmailsApart(lower, d, requests[0]);
      ServeKeepsTokens(lower, d, requests[0]);
      forall orgId | ActiveAdmins(d.users, orgId) >= 1 ensures ActiveAdmins(next.users, orgId) >= 1 {
        ServeKeepsAdmin(lower, d, requests[0], orgId);
      }
      RunKeeps(lower, next, requests[1..]);
    }
  }

  /** A run in which no caller is of the organisation leaves its users as they were. */
  lemma {:induction false} RunTouchesCallersOrgsOnly(lower: Lower, d: Directory, requests: seq<Request>, orgId: OrgId)
    requires forall i :: 0 <= i < |requests| ==> requests[i].caller.orgId != orgId
    ensures Untouched(d.users, Run(lower, d, requests).users, orgId)
    decreases |requests|
  {
    if requests != [] {
      ServeTouchesOwnOrgOnly(lower, d, requests[0], orgId);
      RunTouchesCallersOrgsOnly(lower, Serve(lower, d, requests[0]).0, requests[1..], orgId);
    }
  }

  // ---------- what each request leaves ----------

  /** Whoever asks must be an administrator of some organisation. */
  predicate CallerRefused(c: Caller, why: Refusal) {
    if c.orgId == "" then why == NoOrganization else c.role != Admin && why == NotAdmin
  }

  predicate MayAsk(c: Caller) {
    c.orgId != "" && c.role == Admin
  }

  /**
   * An invitation is refused exactly when some user has the address, in whatever case; otherwise the address
   * joins the caller's organisation in lower case, active but not verified, as a viewer unless a role is
   * named.
   */
  lemma InviteLeaves(lower: Lower, d: Directory, r: Request)
    requires r.Invite? && forall s :: lower(lower(s)) == lower(s)
    ensures var (after, why) := Serve(lower, d, r);
      if !MayAsk(r.caller) then after == d && why.Some? && CallerRefused(r.caller, why.value)
      else if exists i :: 0 <= i < |d.users| && lower(d.users[i].email) == lower(r.email) then
        after == d && why == Some(UserExists)
      else
        var role := if r.role.Some? then r.role.value else Viewer;
        && why.None? && after.tokens == d.tokens
        && after.users == d.users + [User(lower(r.email), role, r.caller.orgId, false, true)]
  {
  }

  /** The user is of the caller's organisation. */
  predicate Within(d: Directory, r: Request)
    requires !r.Invite?
  {
    r.user < |d.users| && d.users[r.user].orgId == r.caller.orgId
  }

  /** At most one active administrator is left in the caller's organisation. */
  ghost predicate OneAdminAtMost(d: Directory, orgId: OrgId) {
    forall i, j :: 0 <= i < j < |d.users| ==> !IsActiveAdmin(d.users[i], orgId) || !IsActiveAdmin(d.users[j], orgId)
  }

  lemma {:induction false} CountAtMostOneIff(users: seq<User>, n: nat, orgId: OrgId)
    requires n <= |users|
    ensures AdminsTo(users, n, orgId) <= 1 <==>
      forall i, j :: 0 <= i < j < n ==> !IsActiveAdmin(users[i], orgId) || !IsActiveAdmin(users[j], orgId)
  {
    if n > 0 {
      CountAtMostOneIff(users, n - 1, orgId);
      AdminIsCounted(users, n - 1, orgId);
      if AdminsTo(users, n - 1, orgId) >= 1 && IsActiveAdmin(users[n - 1], orgId) {
        var i :| 0 <= i < n - 1 && IsActiveAdmin(users[i], orgId);
      }
    }
  }

  /**
   * A change of role is refused to an administrator while at most one is active; the same role changes
   * nothing; otherwise the user has the new role, and nothing else changes.
   */
  lemma UpdateRoleLeaves(lower: Lower, d: Directory, r: Request)
    requires r.UpdateRole?
    ensures var (after, why) := Serve(lower, d, r);
      if !MayAsk(r.caller) then after == d && why.Some? && CallerRefused(r.caller, why.value)
      else if !Within(d, r) then after == d && why == Some(UserNotFound)
      else
        var u := d.users[r.user];
        if u.role == r.newRole then after == d && why.None?
        else if u.role == Admin && OneAdminAtMost(d, r.caller.orgId) then after == d && why == Some(LastAdmin)
        else
          why.None? && after.tokens == d.tokens
          && after.users == d.users[r.user := User(u.email, r.newRole, u.orgId, u.verified, u.active)]
  {
    CountAtMostOneIff(d.users, |d.users|, r.caller.orgId);
  }

  /** A revocation is refused in the same case; otherwise the user is inactive and all its tokens are revoked. */
  lemma RevokeLeaves(lower: Lower, d: Directory, r: Request)
    requires r.Revoke?
    ensures var (after, why) := Serve(lower, d, r);
      if !MayAsk(r.caller) then after == d && why.Some? && CallerRefused(r.caller, why.value)
      else if !Within(d, r) then after == d && why == Some(UserNotFound)
      else
        var u := d.users[r.user];
        if u.role == Admin && OneAdminAtMost(d, r.caller.orgId) then after == d && why == Some(LastAdmin)
        else
          && why.None? && after.users == d.users[r.user := User(u.email, u.role, u.orgId, u.verified, false)]
          && |after.tokens| == |d.tokens|
          && forall i :: 0 <= i < |d.tokens| ==>
               && after.tokens[i].user == d.tokens[i].user
               && (after.tokens[i].revoked <==> d.tokens[i].revoked || d.tokens[i].user == r.user)
  {
    CountAtMostOneIff(d.users, |d.users|, r.caller.orgId);
  }

  // ---------- the service ----------

  class Service {
    const lower: Lower
    var users: seq<User>
    var tokens: seq<Token>

    function State(): Directory
      reads this
    {
      Directory(users, tokens)
    }

    constructor (lower: Lower, users: seq<User>, tokens: seq<Token>)
      ensures State() == Directory(users, tokens) && this.lower == lower
    {
      this.lower, this.users, this.tokens := lower, users, tokens;
    }

    method InviteUser(caller: Caller, email: string, role: Option<Role>) returns (refusal: Option<Refusal>)
      modifies this
      ensures (State(), refusal) == Serve(lower, old(State()), Invite(caller, email, role))
    {
      var problem := CallerProblem(caller);
      if problem.Some? {
        return problem;
      }
      var address := lower(email);
      if Taken(users, lower, address) {
        return Some(UserExists);
      }
      users := users + [User(address, role.GetOr(Viewer), caller.orgId, false, true)];
      return None;
    }

    method AssertNotLastActiveAdmin(user: nat, orgId: OrgId) returns (refusal: Option<Refusal>)
      requires user < |users| && users[user].orgId == orgId
      ensures refusal == if ActiveAdmins(users, orgId) <= 1 && users[user].role == Admin then Some(LastAdmin) else None
    {
      var count := ActiveAdmins(users, orgId);
      if count <= 1 && users[user].role == Admin {
        return Some(LastAdmin);
      }
      return None;
    }

    method UpdateUserRole(caller: Caller, user: nat, newRole: Role) returns (refusal: Option<Refusal>)
      modifies this
      ensures (State(), refusal) == Serve(lower, old(State()), UpdateRole(caller, user, newRole))
    {
      var problem := CallerProblem(caller);
      if problem.Some? {
        return problem;
      }
      if !InOrg(State(), user, caller.orgId) {
        return Some(UserNotFound);
      }
      var found := users[user];
      if found.role == newRole {
        return None;
      }
      if found.role == Admin && newRole != Admin {
        var last := AssertNotLastActiveAdmin(user, caller.orgId);
        if last.Some? {
          return last;
        }
      }
      users := users[user := found.(role := newRole)];
      return None;
    }

    method RevokeUser(caller: Caller, user: nat) returns (refusal: Option<Refusal>)
      modifies this
      ensures (State(), refusal) == Serve(lower, old(State()), Revoke(caller, user))
    {
      var problem := CallerProblem(caller);
      if problem.Some? {
        return problem;
      }
      if !InOrg(State(), user, caller.orgId) {
        return Some(UserNotFound);
      }
      var found := users[user];
      if found.role == Admin {
        var last := AssertNotLastActiveAdmin(user, caller.orgId);
        if last.Some? {
          return last;
        }
      }
      users := users[user := found.(active := false)];
      tokens := RevokeTokens(tokens, user);
      return None;
    }
  }
}
