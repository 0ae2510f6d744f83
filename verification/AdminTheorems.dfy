/** What administrators can and cannot do to their organization, one transaction after another. */
module AdminTheorems {
  import opened Basics
  import opened AdminTables

  datatype Step =
    | Send(session: nat, command: Command)
    // the environment
    | Login(user: nat)
    | Logout(session: nat)
    | Join(user: nat, organization: nat)       // a membership, without roles
    | UserChanges(user: nat, active: bool)

  predicate Enabled(s: Store, step: Step) {
    match step
    case Join(user, organization) =>
      forall m :: m in s.memberships ==>
        !(s.memberships[m].user == user && s.memberships[m].organization == organization)
    case _ => true
  }

  function Next(s: Store, step: Step): Store {
    match step
    case Send(session, c) => Perform(s, session, c).store
    case Login(user) => s.(sessions := s.sessions[s.next := Session(user, true)], next := s.next + 1)
    case Logout(session) =>
      if session in s.sessions then s.(sessions := s.sessions[session := s.sessions[session].(live := false)]) else s
    case Join(user, organization) =>
      s.(memberships := s.memberships[s.next := Membership(organization, user, true)], next := s.next + 1)
    case UserChanges(user, active) => s.(users := if active then s.users + {user} else s.users - {user})
  }

  function Exec(s: Store, steps: seq<Step>): Option<Store>
    decreases |steps|
  {
    if steps == [] then Some(s)
    else if Enabled(s, steps[0]) then Exec(Next(s, steps[0]), steps[1..])
    else None
  }

  /** Ids are used once, and a user is in an organization once. */
  ghost predicate Sound(s: Store) {
    && (forall m :: m in s.memberships ==> m < s.next)
    && (forall a :: a in s.assignments ==> a < s.next)
    && (forall x :: x in s.sessions ==> x < s.next)
    && (forall m, n :: m in s.memberships && n in s.memberships && m != n ==>
          !(s.memberships[m].user == s.memberships[n].user &&
            s.memberships[m].organization == s.memberships[n].organization))
  }

  // --- there is always an administrator ---

  /** The caller's own assignment, which survives any deactivation the caller may ask for. */
  lemma CallerIsCounted(s: Store, session: nat, p: Principal)
    requires Load(s, session) == Some(p) && IsAdmin(s, p)
    ensures exists a :: a in s.assignments && a in Admins(s, p.organization) &&
                        s.assignments[a].membership == p.membership
    ensures Belongs(s, p.membership, p.user) && s.memberships[p.membership].organization == p.organization
  {
    var a :| a in s.assignments && s.assignments[a].membership == p.membership && s.assignments[a].role.OrgAdmin?;
    assert a in Admins(s, p.organization);
  }

  /** Granting and joining only add assignments. */
  lemma MoreAdmins(s: Store, t: Store, organization: nat)
    requires forall a :: a in s.assignments ==> a in t.assignments && t.assignments[a] == s.assignments[a]
    requires forall m :: m in s.memberships ==> m in t.memberships && t.memberships[m] == s.memberships[m]
    ensures Admins(s, organization) <= Admins(t, organization)
  {
  }

  lemma RevokeLeavesAdmins(s: Store, a: nat, organization: nat)
    ensures Admins(Effect(s, Revoke(a)), organization) >= Admins(s, organization) - {a}
  {
  }

  lemma DeactivateLeavesAdmins(s: Store, m: nat, organization: nat, a: nat)
    requires a in Admins(s, organization) && s.assignments[a].membership != m
    ensures a in Admins(Effect(s, Deactivate(m)), organization)
  {
  }

  lemma OtherOrganization(s: Store, c: Command, organization: nat)
    requires c.Revoke? ==>
        c.assignment in s.assignments && OwnedElsewhere(s, s.assignments[c.assignment].membership, organization)
    requires c.Deactivate? ==> OwnedElsewhere(s, c.membership, organization)
    requires Sound(s)
    ensures Admins(s, organization) <= Admins(Effect(s, c), organization)
  {
  }

  predicate OwnedElsewhere(s: Store, m: nat, organization: nat) {
    m in s.memberships && s.memberships[m].organization != organization
  }

  /** One command under a session leaves every organization that has an administrator one. */
  lemma CommandLeavesAdmins(s: Store, session: nat, c: Command, organization: nat)
    requires Sound(s) && Admins(s, organization) != {}
    ensures Admins(Perform(s, session, c).store, organization) != {}
  {
    hide Admins, Effect, Load;
    if Load(s, session).Some? && Refusal(s, Load(s, session).value, c).None? {
      var p := Load(s, session).value;
      if c.Grant? {
        GrantLeavesAdmins(s, c, organization);
      } else if p.organization != organization {
        OtherOrganization(s, c, organization);
      } else if c.Revoke? {
        RevokeLeavesAdmins(s, c.assignment, organization);
        if !s.assignments[c.assignment].role.OrgAdmin? { NotAnAdmin(s, c.assignment, organization); }
      } else {
        CallerIsCounted(s, session, p);
        var a :| a in s.assignments && a in Admins(s, organization) && s.assignments[a].membership == p.membership;
        DeactivateLeavesAdmins(s, c.membership, organization, a);
      }
    }
  }

  lemma GrantLeavesAdmins(s: Store, c: Command, organization: nat)
    requires Sound(s) && c.Grant?
    ensures Admins(s, organization) <= Admins(Effect(s, c), organization)
  {
    hide Admins;
    MoreAdmins(s, Effect(s, c), organization);
  }

  lemma NotAnAdmin(s: Store, a: nat, organization: nat)
    requires a in s.assignments && !s.assignments[a].role.OrgAdmin?
    ensures Admins(s, organization) - {a} == Admins(s, organization)
  {
  }

  lemma StepIsSound(s: Store, step: Step)
    requires Sound(s) && Enabled(s, step)
    ensures Sound(Next(s, step))
  {
    hide Load, Refusal;
  }

  lemma StepLeavesAdmins(s: Store, step: Step, organization: nat)
    requires Sound(s) && Enabled(s, step) && Admins(s, organization) != {}
    ensures Admins(Next(s, step), organization) != {}
  {
    hide Admins, Perform;
    if step.Send? {
      CommandLeavesAdmins(s, step.session, step.command, organization);
    } else {
      MoreAdmins(s, Next(s, step), organization);
    }
  }

  /**
    An organization with an active org_admin keeps one through any serial sequence of grants,
    revokes and deactivations by anyone, logins and logouts, and new members.
   */
  lemma {:induction false} NeverWithoutAdmin(s: Store, steps: seq<Step>, organization: nat)
    requires Sound(s) && Exec(s, steps).Some? && Admins(s, organization) != {}
    ensures Admins(Exec(s, steps).value, organization) != {}
    decreases |steps|
  {
    hide Admins, Sound, Enabled, Next;
    if steps != [] {
      StepIsSound(s, steps[0]);
      StepLeavesAdmins(s, steps[0], organization);
      NeverWithoutAdmin(Next(s, steps[0]), steps[1..], organization);
    }
  }

  // --- sessions of the affected user ---

  function AffectedUser(s: Store, c: Command): Option<nat> {
    if Target(s, c) in s.memberships then Some(s.memberships[Target(s, c)].user) else None
  }

  predicate ChangesRights(s: Store, t: Store) {
    s.memberships != t.memberships || s.assignments != t.assignments
  }

  /**
    A command that changes anybody's rights leaves the user it is about no live session at all,
    and everyone else's untouched; one that changes none touches no session.
   */
  lemma EffectiveChangesRotateSessions(s: Store, session: nat, c: Command)
    requires Sound(s)
    ensures var t := Perform(s, session, c).store;
            && t.sessions.Keys == s.sessions.Keys
            && (ChangesRights(s, t) ==>
                  AffectedUser(s, c).Some? &&
                  forall x :: x in s.sessions ==>
                    t.sessions[x] == (if s.sessions[x].user == AffectedUser(s, c).value
                                      then s.sessions[x].(live := false) else s.sessions[x]))
            && (!ChangesRights(s, t) ==> t == s)
  {
    hide Load, Refusal;
    var t := Perform(s, session, c).store;
    if t != s {
      match c
      case Grant(m, role, factory) => assert s.next in t.assignments && s.next !in s.assignments;
      case Revoke(a) => assert a in s.assignments && a !in t.assignments;
      case Deactivate(m) => assert s.memberships[m].active && !t.memberships[m].active;
    }
  }

  /** So no session that was live before an effective change still speaks for that user after it. */
  lemma OldSessionsAreMute(s: Store, session: nat, c: Command, x: nat)
    requires Sound(s) && ChangesRights(s, Perform(s, session, c).store)
    requires x in s.sessions && Some(s.sessions[x].user) == AffectedUser(s, c)
    ensures Load(Perform(s, session, c).store, x) == None
  {
    hide Perform, ActiveMembership;
    EffectiveChangesRotateSessions(s, session, c);
  }

  // --- two transactions at once ---

  /** The assignments a command takes from the administrators, if they are among them. */
  function Taken(s: Store, c: Command): set<nat> {
    match c
    case Grant(_, _, _) => {}
    case Revoke(a) => {a}
    case Deactivate(m) => set a | a in s.assignments && s.assignments[a].membership == m
  }

  lemma OneTakes(s: Store, c: Command, organization: nat)
    requires !c.Grant?
    ensures Admins(Effect(s, c), organization) == Admins(s, organization) - Taken(s, c)
  {
  }

  lemma TakenLater(s: Store, c: Command, d: Command)
    requires !c.Grant? && !d.Grant?
    ensures Taken(Effect(s, c), d) + Taken(s, c) == Taken(s, d) + Taken(s, c)
  {
  }

  /**
    Any two commands other than grants, decided on the same tables and then both carried out, leave
    the organization without an administrator exactly when together they take all its assignments.
   */
  lemma ConcurrentCommands(s: Store, c: Command, d: Command, organization: nat)
    requires !c.Grant? && !d.Grant?
    ensures Admins(Effect(Effect(s, c), d), organization) == {} <==>
            Admins(s, organization) <= Taken(s, c) + Taken(s, d)
  {
    hide Admins, Effect, Taken;
    OneTakes(s, c, organization);
    OneTakes(Effect(s, c), d, organization);
    TakenLater(s, c, d);
    var left := Admins(s, organization) - Taken(s, c) - Taken(Effect(s, c), d);
    assert left == Admins(s, organization) - (Taken(s, c) + Taken(s, d));
    NothingLeft(Admins(s, organization), Taken(s, c) + Taken(s, d));
  }

  lemma NothingLeft(a: set<nat>, b: set<nat>)
    ensures a - b == {} <==> a <= b
  {
    forall x | x in a && a - b == {} ensures x in b {
      assert x !in a - b;
    }
  }

  /** Two revokes: exactly when the two were the last. */
  lemma ConcurrentRevokes(s: Store, a: nat, b: nat, organization: nat)
    ensures Admins(Effect(Effect(s, Revoke(a)), Revoke(b)), organization) == {} <==>
            Admins(s, organization) <= {a, b}
  {
    hide Admins, Effect;
    ConcurrentCommands(s, Revoke(a), Revoke(b), organization);
    assert {a} + {b} == {a, b};
  }

  lemma RevokeIsAllowed(s: Store, p: Principal, a: nat)
    requires IsAdmin(s, p) && a in Admins(s, p.organization) && Admins(s, p.organization) - {a} != {}
    ensures Refusal(s, p, Revoke(a)).None?
  {
  }

  /** Neither of two administrators can be stopped from revoking the other's last assignment. */
  lemma BothRevokesAreAllowed(s: Store, p: Principal, q: Principal, a: nat, b: nat)
    requires IsAdmin(s, p) && IsAdmin(s, q) && p.organization == q.organization && a != b
    requires Admins(s, p.organization) == {a, b}
    ensures Refusal(s, p, Revoke(b)).None? && Refusal(s, q, Revoke(a)).None?
    ensures Admins(Effect(Effect(s, Revoke(b)), Revoke(a)), p.organization) == {}
  {
    hide Admins, Effect, Refusal;
    assert a in {a, b} - {b} && b in {a, b} - {a};
    RevokeIsAllowed(s, p, b);
    RevokeIsAllowed(s, q, a);
    ConcurrentRevokes(s, b, a, p.organization);
  }

  /**
    The mixed race: of two administrators with one assignment each, one may revoke the other's
    while the other deactivates the first, and none is left.
   */
  lemma RevokeAndDeactivateAreAllowed(s: Store, x: nat, y: nat, p: Principal, q: Principal, a: nat, b: nat)
    requires Load(s, x) == Some(p) && Load(s, y) == Some(q) && p.user != q.user
    requires p.organization == q.organization && Admins(s, p.organization) == {a, b} && a != b
    requires IsAdmin(s, p) && IsAdmin(s, q)
    requires a in s.assignments && s.assignments[a].membership == p.membership
    ensures Refusal(s, p, Revoke(b)).None? && Refusal(s, q, Deactivate(p.membership)).None?
    ensures Admins(Effect(Effect(s, Revoke(b)), Deactivate(p.membership)), p.organization) == {}
  {
    CallerIsCounted(s, x, p);
    hide Admins, Effect, Load;
    assert a in {a, b} - {b};
    RevokeIsAllowed(s, p, b);
    ConcurrentCommands(s, Revoke(b), Deactivate(p.membership), p.organization);
    assert a in Taken(s, Deactivate(p.membership)) && b in Taken(s, Revoke(b));
  }

  /** And two administrators may deactivate each other. */
  lemma ConcurrentDeactivations(s: Store, p: Principal, q: Principal, x: nat, y: nat)
    requires Load(s, x) == Some(p) && Load(s, y) == Some(q)
    requires IsAdmin(s, p) && IsAdmin(s, q) && p.organization == q.organization && p.user != q.user
    ensures Refusal(s, p, Deactivate(q.membership)).None? && Refusal(s, q, Deactivate(p.membership)).None?
    ensures Admins(Effect(Effect(s, Deactivate(q.membership)), Deactivate(p.membership)), p.organization) == {} <==>
            forall a :: a in Admins(s, p.organization) ==>
              a in s.assignments && s.assignments[a].membership in {p.membership, q.membership}
  {
    CallerIsCounted(s, x, p);
    CallerIsCounted(s, y, q);
    hide Admins, Effect, Load;
    ConcurrentCommands(s, Deactivate(q.membership), Deactivate(p.membership), p.organization);
  }
}
