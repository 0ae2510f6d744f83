/** Whom a session speaks for, when an administrator's command goes through, and all that it changes. */
module AdminCommands {
  import opened Basics
  import opened AdminTables

  /** `m` is an active membership of the user, and none is older. */
  predicate FirstActive(s: Store, m: nat, user: nat) {
    && m in s.memberships && s.memberships[m].user == user && s.memberships[m].active
    && forall n :: n in s.memberships && s.memberships[n].user == user && s.memberships[n].active ==> m <= n
  }

  /**
    A session is somebody exactly when it is live and its user is active and has an active
    membership; it speaks for the oldest of these.
   */
  lemma SessionsSpeakFor(s: Store, session: nat)
    ensures match Load(s, session)
            case Some(p) =>
              && session in s.sessions && s.sessions[session].live
              && p.user == s.sessions[session].user && p.user in s.users
              && FirstActive(s, p.membership, p.user) && p.organization == s.memberships[p.membership].organization
            case None =>
              session in s.sessions && s.sessions[session].live && s.sessions[session].user in s.users ==>
                forall m :: m in s.memberships && s.memberships[m].user == s.sessions[session].user ==>
                  !s.memberships[m].active
  {
    if session in s.sessions {
      var user := s.sessions[session].user;
      var active := set m | m in s.memberships && Belongs(s, m, user);
      if active != {} {
        var m := LeastOf(active);
        forall n | n in s.memberships && Belongs(s, n, user) ensures m <= n { assert n in active; }
        assert Oldest(s, m, user);
      } else {
        forall m | m in s.memberships && s.memberships[m].user == user ensures !s.memberships[m].active {
          assert m !in active;
        }
      }
    }
  }

  lemma {:induction false} LeastOf(ids: set<nat>) returns (m: nat)
    requires ids != {}
    ensures m in ids && forall n :: n in ids ==> m <= n
  {
    m :| m in ids;
    if ids != {m} {
      var first := m;
      var n := LeastOf(ids - {m});
      if n < m { m := n; }
      forall k | k in ids ensures m <= k { assert k == first || k in ids - {first}; }
    }
  }

  /** The caller's own membership, and no other, carries an org_admin assignment. */
  predicate MayAdminister(s: Store, p: Principal) {
    exists a :: a in s.assignments && s.assignments[a].membership == p.membership && s.assignments[a].role == OrgAdmin
  }

  predicate InOrganization(s: Store, p: Principal, m: nat) {
    m in s.memberships && s.memberships[m].organization == p.organization
  }

  /** The assignment is of an active membership of the organization. */
  predicate ActiveIn(s: Store, p: Principal, b: nat)
    requires b in s.assignments
  {
    InOrganization(s, p, s.assignments[b].membership) && s.memberships[s.assignments[b].membership].active
  }

  predicate FactoryOf(s: Store, p: Principal, factory: Option<nat>) {
    factory.Some? ==> factory.value in s.factories && s.factories[factory.value] == p.organization
  }

  /** Another membership of the organization still administers it. */
  predicate AnotherAdmin(s: Store, p: Principal, a: nat) {
    exists b :: b in s.assignments && b != a && s.assignments[b].role == OrgAdmin && ActiveIn(s, p, b)
  }

  function Refused(s: Store, status: int, code: string): Done {
    Done(s, Failure(Error(status, code)))
  }

  lemma NobodyIsRefused(s: Store, session: nat, c: Command)
    requires Load(s, session) == None
    ensures Perform(s, session, c) == Refused(s, 401, "UNAUTHENTICATED")
  {
  }

  /** A grant adds the one assignment, unless there is an equal one, to a membership of the organization. */
  lemma GrantsExactly(s: Store, session: nat, p: Principal, m: nat, role: Role, factory: Option<nat>)
    requires Load(s, session) == Some(p) && s.next !in s.assignments
    ensures var d := Perform(s, session, Grant(m, role, factory));
            if !MayAdminister(s, p) then d == Refused(s, 403, "FORBIDDEN")
            else if !InOrganization(s, p, m) || !FactoryOf(s, p, factory) then d == Refused(s, 404, "NOT_FOUND")
            else
              && d.result == Success(m)
              && (d.store.users, d.store.factories, d.store.memberships) == (s.users, s.factories, s.memberships)
              && if exists a :: a in s.assignments && s.assignments[a].membership == m && s.assignments[a].role == role
                                && s.assignments[a].factory == factory
                 then d.store == s
                 else d.store.assignments == s.assignments[s.next := Assignment(m, factory, role)]
                      && d.store.assignments != s.assignments
  {
    hide Load;
    assert Assigned(s, m, role, factory) <==>
           exists a :: a in s.assignments && s.assignments[a].membership == m && s.assignments[a].role == role
                       && s.assignments[a].factory == factory;
    assert s.next in s.assignments[s.next := Assignment(m, factory, role)];
  }

  /** A revoke takes that assignment and no other, unless it is the last one that administers the organization. */
  lemma RevokesExactly(s: Store, session: nat, p: Principal, a: nat)
    requires Load(s, session) == Some(p)
    ensures var d := Perform(s, session, Revoke(a));
            if !MayAdminister(s, p) then d == Refused(s, 403, "FORBIDDEN")
            else if a !in s.assignments || !InOrganization(s, p, s.assignments[a].membership) then
              d == Refused(s, 404, "NOT_FOUND")
            else if s.assignments[a].role == OrgAdmin && !AnotherAdmin(s, p, a) then d == Refused(s, 409, "CONFLICT")
            else
              && d.result == Success(s.assignments[a].membership)
              && d.store.assignments == (map b | b in s.assignments && b != a :: s.assignments[b])
              && (d.store.users, d.store.factories, d.store.memberships, d.store.next) ==
                 (s.users, s.factories, s.memberships, s.next)
  {
    hide Load;
    if AnotherAdmin(s, p, a) {
      var b :| b in s.assignments && b != a && s.assignments[b].role == OrgAdmin && ActiveIn(s, p, b);
      assert b in Admins(s, p.organization) - {a};
    }
    if b :| b in Admins(s, p.organization) - {a} { assert b in s.assignments && b != a; }
  }

  /** A deactivation closes that membership and no other, unless it is one of the caller's own. */
  lemma DeactivatesExactly(s: Store, session: nat, p: Principal, m: nat)
    requires Load(s, session) == Some(p)
    ensures var d := Perform(s, session, Deactivate(m));
            if !MayAdminister(s, p) then d == Refused(s, 403, "FORBIDDEN")
            else if !InOrganization(s, p, m) then d == Refused(s, 404, "NOT_FOUND")
            else if s.memberships[m].user == p.user then d == Refused(s, 409, "CONFLICT")
            else
              && d.result == Success(m)
              && d.store.memberships == s.memberships[m := s.memberships[m].(active := false)]
              && (d.store.users, d.store.factories, d.store.assignments, d.store.next) ==
                 (s.users, s.factories, s.assignments, s.next)
  {
    hide Load;
    if m in s.memberships && !s.memberships[m].active {
      assert s.memberships[m := s.memberships[m].(active := false)] == s.memberships;
    }
  }
}
