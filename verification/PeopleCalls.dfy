/**
 What each call on the people tables answers and changes (apps/api/slas_api/service.py), told of
 the tables alone and for every reachable state.
 */
module PeopleCalls {
  import opened Options
  import opened People

  /** The tables behind a run of calls hold one person per address. */
  ghost predicate Distinct(people: map<Id, Person>) {
    forall i, j :: i in people && j in people && people[i].email == people[j].email ==> i == j
  }

  lemma {:induction false} AlwaysDistinct(cfg: Config, h: seq<Op>)
    ensures Distinct(After(cfg, h).people)
  {
    hide Ran, Replay;
    AuditDeterminesPeople(cfg, h);
  }

  /** The sessions of one person are gone, but for the one that is kept, and all others are as they were. */
  ghost predicate Ended(before: map<Token, Session>, after: map<Token, Session>, person: Id, keep: Option<Token>) {
    && (forall t :: t in after <==> t in before && (before[t].person != person || keep == Some(t)))
    && forall t :: t in after ==> after[t] == before[t]
  }

  /** How many sessions are gone. */
  function Lost(before: map<Token, Session>, after: map<Token, Session>): (n: nat)
  {
    if |after| <= |before| then |before| - |after| else 0
  }

  lemma {:induction false} RevokeEnds(sessions: map<Token, Session>, person: Id, keep: Option<Token>)
    ensures Ended(sessions, Revoke(sessions, person, keep), person, keep)
    ensures Revoked(sessions, person, keep) == Lost(sessions, Revoke(sessions, person, keep))
  {
    var gone := set t | t in sessions && sessions[t].person == person && keep != Some(t);
    var left := Revoke(sessions, person, keep);
    assert left.Keys == sessions.Keys - gone && gone <= sessions.Keys;
    assert |left.Keys| == |left| && |sessions.Keys| == |sessions|;
  }

  // ---- people ---------------------------------------------------------------------------------------

  /**
   A person is added if and only if address, name, role and password are acceptable and nobody has
   the identifier or the address; a refused call changes nothing.
   */
  lemma {:induction false} AddIff(cfg: Config, st: State, op: Op)
    requires op.Add?
    ensures var address := cfg.normalise(op.email);
      Call(cfg, st, op).1 == Accepted <==>
        && cfg.validEmail(address) && op.name != "" && op.role in cfg.roles
        && (op.password.Some? ==> cfg.policyAllows(op.password.value, address))
        && op.id !in st.people
        && forall i :: i in st.people ==> st.people[i].email != address && st.people[i].email != cfg.normalise(address)
    ensures var (now, reply) := Call(cfg, st, op);
      var address, oneTime := cfg.normalise(op.email), op.password.None?;
      var secret := if oneTime then op.oneTime else op.password.value;
      now == if reply != Accepted then st
             else State(st.people[op.id := Person(address, op.role, true, cfg.hash(secret), oneTime, false)],
                        st.sessions, st.audit + [Added(address, op.role, oneTime)])
    ensures Call(cfg, st, op).1 in {Accepted, Refused(400), Refused(409)}
    ensures Call(cfg, st, op).1 == Refused(409) ==>
      op.id in st.people || exists i :: i in st.people && st.people[i].email in {cfg.normalise(op.email), cfg.normalise(cfg.normalise(op.email))}
  {
  }

  /** The person as the request would leave it. */
  function Changed(p: Person, op: Op): (q: Person)
    requires op.Update?
  {
    p.(role := if op.newRole.Some? then op.newRole.value else p.role, active := if op.active.Some? then op.active.value else p.active)
  }

  /**
   A person is changed if and only if the role exists, nobody switches themselves off, and the
   change does not take the last administrator away.
   */
  lemma {:induction false} UpdateIff(cfg: Config, st: State, op: Op)
    requires op.Update?
    ensures Call(cfg, st, op).1 == Accepted <==>
      && op.id in st.people
      && (op.newRole.Some? ==> op.newRole.value in cfg.roles)
      && !(op.active == Some(false) && st.people[op.id].email == op.actor && !op.system)
      && (HasAdministrator(cfg, st.people) ==> HasAdministrator(cfg, st.people[op.id := Changed(st.people[op.id], op)]))
    ensures Call(cfg, st, op).1 in {Accepted, Refused(400), Refused(404)}
    ensures Call(cfg, st, op).1 == Refused(404) <==> op.id !in st.people
  {
    hide Revoke, Revoked, RowsOf, Administrators, HasAdministrator, HoldsAdmin;
    if op.id in st.people {
      var p := st.people[op.id];
      var q := Changed(p, op);
      OneOfMany(cfg, st.people, op.id);
      AdministratorChanged(cfg, st.people, op.id, q);
      AdministratorChanged(cfg, st.people, op.id, p);
      assert st.people[op.id := p] == st.people;
    }
  }

  /** Someone beside this person is an active administrator. */
  ghost predicate Others(cfg: Config, people: map<Id, Person>, id: Id) {
    exists i :: i in people && i != id && people[i].active && HoldsAdmin(cfg, people[i].role)
  }

  lemma {:induction false} OneOfMany(cfg: Config, people: map<Id, Person>, id: Id)
    requires id in people
    ensures people[id].active && HoldsAdmin(cfg, people[id].role) ==> (|Administrators(cfg, people)| <= 1 <==> !Others(cfg, people, id))
  {
    hide HoldsAdmin;
    var all := Administrators(cfg, people);
    if people[id].active && HoldsAdmin(cfg, people[id].role) {
      assert id in all && |all - {id}| == |all| - 1;
      if |all - {id}| > 0 { SomeoneThere(all - {id}); }
      if Others(cfg, people, id) {
        var i :| i in people && i != id && people[i].active && HoldsAdmin(cfg, people[i].role);
        assert i in all - {id};
      }
    }
  }

  lemma {:induction false} AdministratorChanged(cfg: Config, people: map<Id, Person>, id: Id, q: Person)
    requires id in people
    ensures HasAdministrator(cfg, people[id := q]) <==> (q.active && HoldsAdmin(cfg, q.role)) || Others(cfg, people, id)
  {
    var now := people[id := q];
    if q.active && HoldsAdmin(cfg, q.role) { assert now[id].active; }
    if Others(cfg, people, id) {
      var i :| i in people && i != id && people[i].active && HoldsAdmin(cfg, people[i].role);
      assert now[i].active && HoldsAdmin(cfg, now[i].role);
    }
  }

  /** What an accepted change does: the person, the sessions of one switched off, and one row for each change. */
  lemma {:induction false} UpdateDoes(cfg: Config, st: State, op: Op)
    requires op.Update?
    ensures var (now, reply) := Call(cfg, st, op);
      if reply != Accepted then now == st
      else
        var p, q := st.people[op.id], Changed(st.people[op.id], op);
        && op.id in st.people && now.people == st.people[op.id := q]
        && (if p.active && !q.active then Ended(st.sessions, now.sessions, op.id, None) else now.sessions == st.sessions)
        && now.audit == st.audit
             + (if q.role != p.role then [RoleChanged(p.email, p.role, q.role)] else [])
             + (if q.active == p.active then [] else if q.active then [SwitchedOn(p.email)]
                else [SwitchedOff(p.email, Lost(st.sessions, now.sessions))])
  {
    hide Revoke, Revoked, HoldsAdmin, Administrators, UpdateProblem;
    RevokeEnds(st.sessions, op.id, None);
  }

  // ---- passwords --------------------------------------------------------------------------------------

  /** A reset succeeds exactly for a person who exists; it sets the one-time password and ends every session. */
  lemma {:induction false} ResetIff(cfg: Config, st: State, op: Op)
    requires op.Reset?
    ensures Call(cfg, st, op).1 == if op.id in st.people then Accepted else Refused(404)
    ensures var now := Call(cfg, st, op).0;
      if op.id !in st.people then now == st
      else
        var p := st.people[op.id];
        && now.people == st.people[op.id := p.(hash := cfg.hash(op.oneTime), mustChange := true)]
        && Ended(st.sessions, now.sessions, op.id, None)
        && now.audit == st.audit + [PasswordReset(p.email, Lost(st.sessions, now.sessions))]
  {
    hide Revoke, Revoked;
    RevokeEnds(st.sessions, op.id, None);
  }

  /** A person changes their own password exactly by giving the current one and one the policy allows. */
  lemma {:induction false} ChangeOwnIff(cfg: Config, st: State, op: Op)
    requires op.ChangeOwn?
    ensures Call(cfg, st, op).1 == Accepted <==>
      && op.id in st.people
      && cfg.verify(st.people[op.id].hash, op.current)
      && cfg.policyAllows(op.new_, st.people[op.id].email)
    ensures Call(cfg, st, op).1 == Refused(401) <==> op.id in st.people && !cfg.verify(st.people[op.id].hash, op.current)
    ensures var (now, reply) := Call(cfg, st, op);
      if reply != Accepted then now == st
      else
        var p := st.people[op.id];
        var first := p.email == "admin@slas.local" && !p.consumed;
        && now.people == st.people[op.id := Person(p.email, p.role, p.active, cfg.hash(op.new_), false, p.consumed || first)]
        && Ended(st.sessions, now.sessions, op.id, op.keep)
        && now.audit == st.audit + [PasswordChanged(p.email, Lost(st.sessions, now.sessions), p.mustChange)]
             + (if first then [BootstrapConsumed(p.email)] else [])
  {
    hide Revoke, Revoked;
    RevokeEnds(st.sessions, op.id, op.keep);
  }

  // ---- sessions ---------------------------------------------------------------------------------------

  /** This person signs in with this call: the address, the switch and the password are right. */
  predicate Knows(cfg: Config, p: Person, op: Op)
    requires op.SignIn?
  {
    p.email == cfg.normalise(cfg.normalise(op.email)) && p.active && cfg.verify(p.hash, op.given)
  }

  /**
   A sign-in is accepted if and only if it is not blocked, an active person has the address and the
   password verifies against that person's hash, and the token is new. It opens one session of that
   person, may renew the hash, and changes nothing else; a refused one changes nothing.
   */
  lemma {:induction false} SignInIff(cfg: Config, st: State, op: Op)
    requires op.SignIn? && Distinct(st.people)
    ensures Call(cfg, st, op).1 == Accepted <==>
      !op.blocked && op.token !in st.sessions && exists id :: id in st.people && Knows(cfg, st.people[id], op)
    ensures Call(cfg, st, op).1 == Refused(429) <==> op.blocked
    ensures Call(cfg, st, op).1 == Refused(401) <==> !op.blocked && forall id :: id in st.people ==> !Knows(cfg, st.people[id], op)
    ensures Call(cfg, st, op).1 != Accepted ==> Call(cfg, st, op).0 == st
    ensures Call(cfg, st, op).1 == Accepted ==>
      forall id :: id in st.people && Knows(cfg, st.people[id], op) ==>
        var p := st.people[id];
        Call(cfg, st, op).0 == State(
          st.people[id := if cfg.needsRehash(p.hash) then p.(hash := cfg.hash(op.given)) else p],
          st.sessions[op.token := Session(id, op.at, op.at + op.hours * 3600)], st.audit)
  {
  }

  /** A token resolves exactly while it is stored and not yet due; a due one is removed, and no other session changes. */
  lemma {:induction false} ResolveDoes(cfg: Config, st: State, op: Op)
    requires op.Resolve? && Owned(st)
    ensures var (now, reply) := Call(cfg, st, op);
      && (reply == Accepted <==> op.token != "" && op.token in st.sessions && op.at < st.sessions[op.token].expires)
      && (reply == Expired <==> op.token != "" && op.token in st.sessions && st.sessions[op.token].expires <= op.at)
      && now.people == st.people && now.audit == st.audit
      && (reply.Refused? ==> now == st)
      && (reply == Expired ==> now.sessions == st.sessions - {op.token})
      && (reply == Accepted ==>
            var s := st.sessions[op.token];
            now.sessions == st.sessions[op.token := Session(s.person, op.at, op.at + s.expires - s.lastSeen)])
  {
    hide Revoke;
  }

  /** Signing out removes that session and nothing else; no session has the empty token removed. */
  lemma {:induction false} SignOutDoes(cfg: Config, st: State, op: Op)
    requires op.SignOut?
    ensures var (now, reply) := Call(cfg, st, op);
      && reply == Accepted && now.people == st.people && now.audit == st.audit
      && (forall t :: t in now.sessions <==> t in st.sessions && (t != op.token || t == ""))
      && forall t :: t in now.sessions ==> now.sessions[t] == st.sessions[t]
  {
  }

  /** The first administrator is created exactly while nobody is registered and a secret is there. */
  lemma {:induction false} BootstrapDoes(cfg: Config, st: State, op: Op)
    requires op.Bootstrap?
    ensures Call(cfg, st, op).1 == Accepted
    ensures Call(cfg, st, op).0 ==
      if (forall i :: i !in st.people) && op.initial.Some? && op.initial.value != "" then
        State(map[op.id := Person("admin@slas.local", "administrator", true, cfg.hash(op.initial.value), true, false)],
              st.sessions, st.audit + [Bootstrapped("admin@slas.local", "administrator")])
      else st
  {
    assert (forall i :: i !in st.people) <==> st.people == map[];
  }
}
