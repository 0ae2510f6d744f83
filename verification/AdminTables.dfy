/** Memberships, role assignments and sessions, and the commands of an organization's administrators. */
module AdminTables {
  import opened Basics

  datatype Role = OrgAdmin | Supervisor | Planner | Storekeeper | IeEngineer | QualityManager | Viewer

  datatype Membership = Membership(organization: nat, user: nat, active: bool)
  datatype Assignment = Assignment(membership: nat, factory: Option<nat>, role: Role)
  datatype Session = Session(user: nat, live: bool)

  /** `factories` maps a factory to its organization; ids are drawn in creation order. */
  datatype Store = Store(
    users: set<nat>,                       // active users
    factories: map<nat, nat>,
    memberships: map<nat, Membership>,
    assignments: map<nat, Assignment>,
    sessions: map<nat, Session>,
    next: nat)

  datatype Principal = Principal(user: nat, organization: nat, membership: nat)

  datatype Error = Error(status: int, code: string)

  // --- who is asking ---

  predicate Belongs(s: Store, m: nat, user: nat) {
    m in s.memberships && s.memberships[m].user == user && s.memberships[m].active
  }

  /** The user's oldest active membership. */
  predicate Oldest(s: Store, m: nat, user: nat) {
    Belongs(s, m, user) && forall n :: n in s.memberships && Belongs(s, n, user) ==> m <= n
  }

  lemma OldestIsUnique(s: Store, user: nat)
    ensures forall m, n :: m in s.memberships && n in s.memberships && Oldest(s, m, user) && Oldest(s, n, user) ==>
        m == n
  {
  }

  function ActiveMembership(s: Store, user: nat): Option<nat> {
    if exists m :: m in s.memberships && Oldest(s, m, user) then
      OldestIsUnique(s, user);
      var m :| m in s.memberships && Oldest(s, m, user);
      Some(m)
    else None
  }

  /** The principal behind a live session. */
  function Load(s: Store, session: nat): Option<Principal> {
    if session !in s.sessions || !s.sessions[session].live || s.sessions[session].user !in s.users then None
    else
      var user := s.sessions[session].user;
      var m := ActiveMembership(s, user);
      if m.None? then None else Some(Principal(user, s.memberships[m.value].organization, m.value))
  }

  predicate IsAdmin(s: Store, p: Principal) {
    exists a :: a in s.assignments && s.assignments[a].membership == p.membership && s.assignments[a].role.OrgAdmin?
  }

  /** The active org_admin assignments of an organization. */
  function Admins(s: Store, organization: nat): set<nat> {
    set a | a in s.assignments && s.assignments[a].role.OrgAdmin? && s.assignments[a].membership in s.memberships
            && s.memberships[s.assignments[a].membership].active
            && s.memberships[s.assignments[a].membership].organization == organization
  }

  // --- what the commands do ---

  function Revoked(sessions: map<nat, Session>, user: nat): map<nat, Session> {
    map x | x in sessions :: if sessions[x].user == user then sessions[x].(live := false) else sessions[x]
  }

  datatype Command =
    | Grant(membership: nat, role: Role, factory: Option<nat>)
    | Revoke(assignment: nat)
    | Deactivate(membership: nat)

  predicate OwnMembership(s: Store, p: Principal, m: nat) {
    m in s.memberships && s.memberships[m].organization == p.organization
  }

  predicate Assigned(s: Store, m: nat, role: Role, factory: Option<nat>) {
    exists a :: a in s.assignments && s.assignments[a] == Assignment(m, factory, role)
  }

  /** The error the command raises, decided on `s`. */
  function Refusal(s: Store, p: Principal, c: Command): Option<Error> {
    if !IsAdmin(s, p) then Some(Error(403, "FORBIDDEN"))
    else
      match c
      case Grant(m, _, factory) =>
        if !OwnMembership(s, p, m) then Some(Error(404, "NOT_FOUND"))
        else if factory.Some? && !(factory.value in s.factories && s.factories[factory.value] == p.organization)
        then Some(Error(404, "NOT_FOUND"))
        else None
      case Revoke(a) =>
        if a !in s.assignments || !OwnMembership(s, p, s.assignments[a].membership) then Some(Error(404, "NOT_FOUND"))
        else if s.assignments[a].role.OrgAdmin? && Admins(s, p.organization) - {a} == {}
            then Some(Error(409, "CONFLICT"))
        else None
      case Deactivate(m) =>
        if !OwnMembership(s, p, m) then Some(Error(404, "NOT_FOUND"))
        else if s.memberships[m].user == p.user then Some(Error(409, "CONFLICT"))
        else None
  }

  /** What a command that was not refused makes of the tables it then finds. */
  function Effect(s: Store, c: Command): Store {
    match c
    case Grant(m, role, factory) =>
      if m !in s.memberships || Assigned(s, m, role, factory) then s
      else s.(assignments := s.assignments[s.next := Assignment(m, factory, role)], next := s.next + 1,
              sessions := Revoked(s.sessions, s.memberships[m].user))
    case Revoke(a) =>
      if a !in s.assignments || s.assignments[a].membership !in s.memberships then s
      else s.(assignments := s.assignments - {a},
              sessions := Revoked(s.sessions, s.memberships[s.assignments[a].membership].user))
    case Deactivate(m) =>
      if m !in s.memberships || !s.memberships[m].active then s
      else s.(memberships := s.memberships[m := s.memberships[m].(active := false)],
              sessions := Revoked(s.sessions, s.memberships[m].user))
  }

  datatype Done = Done(store: Store, result: Result<nat, Error>)

  /** A command sent under a session, as one transaction; the result is the membership shown. */
  function Perform(s: Store, session: nat, c: Command): Done {
    var p := Load(s, session);
    if p.None? then Done(s, Failure(Error(401, "UNAUTHENTICATED")))
    else
      var error := Refusal(s, p.value, c);
      if error.Some? then Done(s, Failure(error.value)) else Done(Effect(s, c), Success(Target(s, c)))
  }

  function Target(s: Store, c: Command): nat {
    match c
    case Grant(m, _, _) => m
    case Revoke(a) => if a in s.assignments then s.assignments[a].membership else 0
    case Deactivate(m) => m
  }

  // --- the same, on tables updated in place ---

  class Organization {
    var users: set<nat>
    var factories: map<nat, nat>
    var memberships: map<nat, Membership>
    var assignments: map<nat, Assignment>
    var sessions: map<nat, Session>
    var next: nat

    function Contents(): Store
      reads this
    {
      Store(users, factories, memberships, assignments, sessions, next)
    }

    constructor (s: Store)
      ensures Contents() == s
    {
      users, factories, memberships := s.users, s.factories, s.memberships;
      assignments, sessions, next := s.assignments, s.sessions, s.next;
    }

    method RevokeAllSessions(user: nat)
      modifies this`sessions
      ensures sessions == Revoked(old(sessions), user)
    {
      sessions := map x | x in sessions ::
        if sessions[x].user == user then sessions[x].(live := false) else sessions[x];
    }

    /** How many active org_admin assignments remain without `excluding`. */
    method ActiveOrgAdminCount(organization: nat, excluding: nat) returns (count: nat)
      ensures count == |Admins(Contents(), organization) - {excluding}|
    {
      var left := set a | a in assignments && a != excluding && assignments[a].role.OrgAdmin?
                          && assignments[a].membership in memberships && memberships[assignments[a].membership].active
                          && memberships[assignments[a].membership].organization == organization;
      assert left == Admins(Contents(), organization) - {excluding};
      count := |left|;
    }

    method HasAssignment(membership: nat, role: Role, factory: Option<nat>) returns (found: bool)
      ensures found <==> Assigned(Contents(), membership, role, factory)
    {
      found := exists a :: a in assignments && assignments[a] == Assignment(membership, factory, role);
    }

    method GrantRole(p: Principal, membership: nat, role: Role, factory: Option<nat>) returns (error: Option<Error>)
      modifies this
      ensures error == Refusal(old(Contents()), p, Grant(membership, role, factory))
      ensures Contents() == if error.None? then Effect(old(Contents()), Grant(membership, role, factory))
          else old(Contents())
    {
      hide Assigned, Revoked, Admins, IsAdmin;
      if !IsAdmin(Contents(), p) { return Some(Error(403, "FORBIDDEN")); }
      if membership !in memberships || memberships[membership].organization != p.organization {
        return Some(Error(404, "NOT_FOUND"));
      }
      if factory.Some? {
        if factory.value !in factories || factories[factory.value] != p.organization {
          return Some(Error(404, "NOT_FOUND"));
        }
      }
      var existing := HasAssignment(membership, role, factory);
      if !existing {
        assignments, next := assignments[next := Assignment(membership, factory, role)], next + 1;
        RevokeAllSessions(memberships[membership].user);
      }
      return None;
    }

    method RevokeRole(p: Principal, assignment: nat) returns (error: Option<Error>)
      modifies this
      ensures error == Refusal(old(Contents()), p, Revoke(assignment))
      ensures Contents() == if error.None? then Effect(old(Contents()), Revoke(assignment)) else old(Contents())
    {
      hide Revoked, Admins, IsAdmin;
      if !IsAdmin(Contents(), p) { return Some(Error(403, "FORBIDDEN")); }
      if assignment !in assignments { return Some(Error(404, "NOT_FOUND")); }
      var membership := assignments[assignment].membership;
      if membership !in memberships || memberships[membership].organization != p.organization {
        return Some(Error(404, "NOT_FOUND"));
      }
      if assignments[assignment].role.OrgAdmin? {
        var remaining := ActiveOrgAdminCount(p.organization, assignment);
        if remaining == 0 { return Some(Error(409, "CONFLICT")); }
      }
      assignments := assignments - {assignment};
      RevokeAllSessions(memberships[membership].user);
      return None;
    }

    method DeactivateMembership(p: Principal, membership: nat) returns (error: Option<Error>)
      modifies this
      ensures error == Refusal(old(Contents()), p, Deactivate(membership))
      ensures Contents() == if error.None? then Effect(old(Contents()), Deactivate(membership)) else old(Contents())
    {
      if !IsAdmin(Contents(), p) { return Some(Error(403, "FORBIDDEN")); }
      if membership !in memberships || memberships[membership].organization != p.organization {
        return Some(Error(404, "NOT_FOUND"));
      }
      if memberships[membership].user == p.user { return Some(Error(409, "CONFLICT")); }
      if memberships[membership].active {
        memberships := memberships[membership := memberships[membership].(active := false)];
        RevokeAllSessions(memberships[membership].user);
      }
      return None;
    }
  }
}
