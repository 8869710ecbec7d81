/** The people, session and audit tables as the service changes them (apps/api/slas_api/service.py). */
module PeopleObject {
  import opened Options
  import opened People

  lemma {:induction false} AfterOneMore(cfg: Config, h: seq<Op>, op: Op)
    ensures After(cfg, h + [op]) == Call(cfg, After(cfg, h), op).0
  {
    assert (h + [op])[..|h + [op]| - 1] == h;
  }

  /** In a reachable state the address picks one person. */
  lemma {:induction false} OnePersonPerAddress(cfg: Config, h: seq<Op>, id: Id, email: string)
    requires id in After(cfg, h).people && After(cfg, h).people[id].email == email
    ensures FindByEmail(After(cfg, h).people, email) == Some(id)
  {
    hide Ran;
    AuditDeterminesPeople(cfg, h);
  }

  class Tables {
    const cfg: Config
    var people: map<Id, Person>
    var sessions: map<Token, Session>
    var audit: seq<Row>
    ghost var history: seq<Op>

    constructor (cfg: Config)
      ensures Valid() && history == [] && this.cfg == cfg
    {
      this.cfg := cfg;
      people, sessions, audit, history := map[], map[], [], [];
    }

    ghost function Now(): (st: State)
      reads this
    {
      State(people, sessions, audit)
    }

    ghost predicate Valid()
      reads this
    {
      Now() == After(cfg, history)
    }

    /** The rows are those of one more call of the model, and the history has it. */
    twostate predicate Took(op: Op, reply: Reply)
      reads this
    {
      && history == old(history) + [op]
      && (Now(), reply) == Call(cfg, old(Now()), op)
    }

    ghost method Record(op: Op)
      requires Now() == Call(cfg, After(cfg, history), op).0
      modifies this`history
      ensures Valid() && history == old(history) + [op]
    {
      hide Call;
      AfterOneMore(cfg, history, op);
      history := history + [op];
    }

    method AddPersonRow(id: Id, email: string, name: string, role: string, password: Option<string>, oneTime: string) returns (reply: Reply)
      requires Valid()
      modifies this
      ensures Valid() && Took(Add(id, email, name, role, password, oneTime), reply)
    {
      hide Ran;
      ghost var op := Add(id, email, name, role, password, oneTime);
      var address := cfg.normalise(email);
      if !cfg.validEmail(address) || name == "" || role !in cfg.roles {
        reply := Refused(400);
      } else if EmailTaken(people, cfg.normalise(address)) {
        reply := Refused(409);
      } else if password.Some? && !cfg.policyAllows(password.value, address) {
        reply := Refused(400);
      } else if id in people || EmailTaken(people, address) {
        reply := Refused(409);
      } else {
        var secret := if password.Some? then password.value else oneTime;
        people := people[id := Person(address, role, true, cfg.hash(secret), password.None?, false)];
        audit := audit + [Added(address, role, password.None?)];
        reply := Accepted;
      }
      Record(op);
    }

    /** The refusals of `update_person`: unknown role, switching oneself off, the last administrator. */
    method CheckUpdate(actor: string, system: bool, id: Id, newRole: Option<string>, active: Option<bool>) returns (problem: Option<int>)
      requires id in people
      ensures problem == UpdateProblem(cfg, Now(), Update(actor, system, id, newRole, active))
    {
      hide HoldsAdmin, Administrators;
      var person := people[id];
      if newRole.Some? && newRole.value !in cfg.roles {
        return Some(400);
      }
      var losing := person.active && HoldsAdmin(cfg, person.role);
      if active == Some(false) {
        if person.email == actor && !system {
          return Some(400);
        }
        if losing && |Administrators(cfg, people)| <= 1 {
          return Some(400);
        }
      }
      if newRole.Some? && newRole.value != person.role && losing {
        if !HoldsAdmin(cfg, newRole.value) && |Administrators(cfg, people)| <= 1 {
          return Some(400);
        }
      }
      problem := None;
    }

    method UpdatePersonRow(actor: string, system: bool, id: Id, newRole: Option<string>, active: Option<bool>) returns (reply: Reply)
      requires Valid()
      modifies this
      ensures Valid() && Took(Update(actor, system, id, newRole, active), reply)
    {
      hide Ran, UpdateProblem, Revoke, Revoked;
      ghost var op := Update(actor, system, id, newRole, active);
      if id !in people {
        Record(op);
        return Refused(404);
      }
      var problem := CheckUpdate(actor, system, id, newRole, active);
      if problem.Some? {
        Record(op);
        return Refused(problem.value);
      }
      var person := people[id];
      if newRole.Some? && newRole.value != person.role {
        audit := audit + [RoleChanged(person.email, person.role, newRole.value)];
        person := person.(role := newRole.value);
      }
      if active.Some? && active.value != person.active {
        if active.value {
          audit := audit + [SwitchedOn(person.email)];
        } else {
          audit := audit + [SwitchedOff(person.email, Revoked(sessions, id, None))];
          sessions := Revoke(sessions, id, None);
        }
        person := person.(active := active.value);
      }
      assert audit == old(audit) + RowsOf(people[id], op, Revoked(old(sessions), id, None));
      people := people[id := person];
      reply := Accepted;
      Record(op);
    }

    method ResetPasswordRow(id: Id, oneTime: string) returns (reply: Reply)
      requires Valid()
      modifies this
      ensures Valid() && Took(Reset(id, oneTime), reply)
    {
      hide Ran;
      if id !in people {
        reply := Refused(404);
      } else {
        var person := people[id];
        people := people[id := person.(hash := cfg.hash(oneTime), mustChange := true)];
        audit := audit + [PasswordReset(person.email, Revoked(sessions, id, None))];
        sessions := Revoke(sessions, id, None);
        reply := Accepted;
      }
      Record(Reset(id, oneTime));
    }

    method ChangeOwnPasswordRow(id: Id, current: string, new_: string, keep: Option<Token>) returns (reply: Reply)
      requires Valid()
      modifies this
      ensures Valid() && Took(ChangeOwn(id, current, new_, keep), reply)
    {
      hide Ran, Revoke, Revoked;
      if id !in people {
        reply := Refused(404);
      } else if !cfg.verify(people[id].hash, current) {
        reply := Refused(401);
      } else if !cfg.policyAllows(new_, people[id].email) {
        reply := Refused(400);
      } else {
        var person := people[id];
        audit := audit + [PasswordChanged(person.email, Revoked(sessions, id, keep), person.mustChange)];
        sessions := Revoke(sessions, id, keep);
        person := person.(hash := cfg.hash(new_), mustChange := false);
        if person.email == BOOTSTRAP_EMAIL && !person.consumed {
          person := person.(consumed := true);
          audit := audit + [BootstrapConsumed(person.email)];
        }
        people := people[id := person];
        reply := Accepted;
      }
      Record(ChangeOwn(id, current, new_, keep));
    }

    method SignInRow(at: int, email: string, given: string, token: Token, hours: int, blocked: bool) returns (reply: Reply)
      requires Valid()
      modifies this
      ensures Valid() && Took(SignIn(at, email, given, token, hours, blocked), reply)
    {
      hide Ran;
      ghost var op := SignIn(at, email, given, token, hours, blocked);
      var address := cfg.normalise(cfg.normalise(email));
      if blocked {
        reply := Refused(429);
      } else if !EmailTaken(people, address) {
        reply := Refused(401);
      } else {
        var id :| id in people && people[id].email == address;
        OnePersonPerAddress(cfg, history, id, address);
        var person := people[id];
        if !cfg.verify(person.hash, given) || !person.active {
          reply := Refused(401);
        } else if token in sessions {
          reply := Refused(500);
        } else {
          if cfg.needsRehash(person.hash) {
            person := person.(hash := cfg.hash(given));
          }
          sessions := sessions[token := Session(id, at, at + hours * HOUR)];
          people := people[id := person];
          reply := Accepted;
        }
      }
      Record(op);
    }

    method ResolveSessionRow(at: int, token: Token) returns (reply: Reply)
      requires Valid()
      modifies this
      ensures Valid() && Took(Resolve(at, token), reply)
    {
      hide Ran;
      if token == "" || token !in sessions {
        reply := Refused(401);
      } else {
        var row := sessions[token];
        if row.expires <= at {
          sessions := sessions - {token};
          reply := Expired;
        } else if row.person !in people || !people[row.person].active {
          sessions := Revoke(sessions, row.person, None);
          reply := Refused(401);
        } else {
          var lifetime := row.expires - row.lastSeen;
          sessions := sessions[token := row.(lastSeen := at, expires := at + lifetime)];
          reply := Accepted;
        }
      }
      Record(Resolve(at, token));
    }

    method SignOutRow(token: Token) returns (removed: bool)
      requires Valid()
      modifies this
      ensures Valid() && Took(SignOut(token), Accepted) && removed == (token != "" && token in old(sessions))
    {
      hide Ran;
      removed := false;
      if token != "" {
        removed := token in sessions;
        sessions := sessions - {token};
      }
      Record(SignOut(token));
    }

    method BootstrapRow(id: Id, initial: Option<string>)
      requires Valid()
      modifies this
      ensures Valid() && Took(Bootstrap(id, initial), Accepted)
    {
      hide Ran;
      if people == map[] && initial.Some? && initial.value != "" {
        people := people[id := Person(BOOTSTRAP_EMAIL, BOOTSTRAP_ROLE, true, cfg.hash(initial.value), true, false)];
        audit := audit + [Bootstrapped(BOOTSTRAP_EMAIL, BOOTSTRAP_ROLE)];
      }
      Record(Bootstrap(id, initial));
    }
  }
}
