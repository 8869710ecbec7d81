/**
 People, sessions and the audit log (apps/api/slas_api/service.py). Each call is one
 transaction; identifiers, tokens and the clock are inputs of the call that uses them.
 */
module People {
  import opened Options

  type Id = string
  type Token = string

  const HOUR := 3600
  const BOOTSTRAP_EMAIL := "admin@slas.local"
  const BOOTSTRAP_ROLE := "administrator"

  /** The role set (name to "may administer people") and the library calls the service makes. */
  datatype Config = Config(
    roles: map<string, bool>,
    normalise: string -> string,
    validEmail: string -> bool,
    policyAllows: (string, string) -> bool,
    hash: string -> string,
    verify: (string, string) -> bool,
    needsRehash: string -> bool)

  datatype Person = Person(email: string, role: string, active: bool, hash: string, mustChange: bool, consumed: bool)

  /** A session row; its token digest is the key it is stored under. */
  datatype Session = Session(person: Id, lastSeen: int, expires: int)

  datatype Row =
    | Added(subject: string, role: string, oneTime: bool)
    | Bootstrapped(subject: string, role: string)
    | RoleChanged(subject: string, before: string, after: string)
    | SwitchedOn(subject: string)
    | SwitchedOff(subject: string, revoked: nat)
    | PasswordReset(subject: string, revoked: nat)
    | PasswordChanged(subject: string, revoked: nat, replacedOneTime: bool)
    | BootstrapConsumed(subject: string)

  datatype State = State(people: map<Id, Person>, sessions: map<Token, Session>, audit: seq<Row>)

  datatype Reply = Accepted | Refused(code: int) | Expired

  datatype Op =
    | Add(id: Id, email: string, name: string, role: string, password: Option<string>, oneTime: string)
    | Update(actor: string, system: bool, id: Id, newRole: Option<string>, active: Option<bool>)
    | Reset(id: Id, oneTime: string)
    | ChangeOwn(id: Id, current: string, new_: string, keep: Option<Token>)
    | SignIn(at: int, email: string, given: string, token: Token, hours: int, blocked: bool)
    | Resolve(at: int, token: Token)
    | SignOut(token: Token)
    | Bootstrap(id: Id, initial: Option<string>)

  // ---- queries ------------------------------------------------------------------------------

  predicate HoldsAdmin(cfg: Config, role: string) { role in cfg.roles && cfg.roles[role] }

  function Administrators(cfg: Config, people: map<Id, Person>): (s: set<Id>)
  {
    set id | id in people && people[id].active && HoldsAdmin(cfg, people[id].role)
  }

  /** Some active person's role may administer people. */
  ghost predicate HasAdministrator(cfg: Config, people: map<Id, Person>) {
    exists id :: id in people && people[id].active && people[id].role in cfg.roles && cfg.roles[people[id].role]
  }

  predicate EmailTaken(people: map<Id, Person>, email: string) {
    exists id :: id in people && people[id].email == email
  }

  /** `find_by_email`; the choice is unique in every reachable state. */
  ghost function FindByEmail(people: map<Id, Person>, email: string): (r: Option<Id>)
    ensures r.Some? ==> r.value in people && people[r.value].email == email
  {
    if EmailTaken(people, email) then var id :| id in people && people[id].email == email; Some(id) else None
  }

  function Revoke(sessions: map<Token, Session>, person: Id, keep: Option<Token>): (r: map<Token, Session>)
  {
    map t | t in sessions && (sessions[t].person != person || keep == Some(t)) :: sessions[t]
  }

  function Revoked(sessions: map<Token, Session>, person: Id, keep: Option<Token>): (n: nat)
  {
    |set t | t in sessions && sessions[t].person == person && keep != Some(t)|
  }

  // ---- operations ------------------------------------------------------------------------------

  function AddPerson(cfg: Config, st: State, op: Op): (r: (State, Reply))
    requires op.Add?
  {
    var address := cfg.normalise(op.email);
    if !cfg.validEmail(address) then (st, Refused(400))
    else if op.name == "" then (st, Refused(400))
    else if op.role !in cfg.roles then (st, Refused(400))
    else if EmailTaken(st.people, cfg.normalise(address)) then (st, Refused(409))
    else if op.password.Some? && !cfg.policyAllows(op.password.value, address) then (st, Refused(400))
    else if op.id in st.people || EmailTaken(st.people, address) then (st, Refused(409))
    else
      var secret := if op.password.Some? then op.password.value else op.oneTime;
      var p := Person(address, op.role, true, cfg.hash(secret), op.password.None?, false);
      (State(st.people[op.id := p], st.sessions, st.audit + [Added(address, op.role, op.password.None?)]), Accepted)
  }

  /** Why `update_person` refuses a change of a person who exists, or None. */
  function UpdateProblem(cfg: Config, st: State, op: Op): (code: Option<int>)
    requires op.Update? && op.id in st.people
  {
    var p := st.people[op.id];
    var losing := p.active && HoldsAdmin(cfg, p.role);
    var few := |Administrators(cfg, st.people)| <= 1;
    if op.newRole.Some? && op.newRole.value !in cfg.roles then Some(400)
    else if op.active == Some(false) && p.email == op.actor && !op.system then Some(400)
    else if op.active == Some(false) && losing && few then Some(400)
    else if op.newRole.Some? && op.newRole.value != p.role && losing && !HoldsAdmin(cfg, op.newRole.value) && few then Some(400)
    else None
  }

  predicate Turns(p: Person, op: Op) requires op.Update? { op.newRole.Some? && op.newRole.value != p.role }

  predicate Switches(p: Person, op: Op) requires op.Update? { op.active.Some? && op.active.value != p.active }

  function Updated(p: Person, op: Op): (q: Person)
    requires op.Update?
  {
    p.(role := if Turns(p, op) then op.newRole.value else p.role,
       active := if Switches(p, op) then op.active.value else p.active)
  }

  function RowsOf(p: Person, op: Op, revoked: nat): (rows: seq<Row>)
    requires op.Update?
  {
    (if Turns(p, op) then [RoleChanged(p.email, p.role, op.newRole.value)] else [])
    + (if !Switches(p, op) then [] else if op.active.value then [SwitchedOn(p.email)] else [SwitchedOff(p.email, revoked)])
  }

  function UpdatePerson(cfg: Config, st: State, op: Op): (r: (State, Reply))
    requires op.Update?
  {
    if op.id !in st.people then (st, Refused(404))
    else if UpdateProblem(cfg, st, op).Some? then (st, Refused(UpdateProblem(cfg, st, op).value))
    else
      var p := st.people[op.id];
      var off := Switches(p, op) && !op.active.value;
      (State(
        st.people[op.id := Updated(p, op)],
        if off then Revoke(st.sessions, op.id, None) else st.sessions,
        st.audit + RowsOf(p, op, Revoked(st.sessions, op.id, None))), Accepted)
  }

  function ResetPassword(cfg: Config, st: State, op: Op): (r: (State, Reply))
    requires op.Reset?
  {
    if op.id !in st.people then (st, Refused(404))
    else
      var p := st.people[op.id];
      (State(
        st.people[op.id := p.(hash := cfg.hash(op.oneTime), mustChange := true)],
        Revoke(st.sessions, op.id, None),
        st.audit + [PasswordReset(p.email, Revoked(st.sessions, op.id, None))]), Accepted)
  }

  function ChangeOwnPassword(cfg: Config, st: State, op: Op): (r: (State, Reply))
    requires op.ChangeOwn?
  {
    if op.id !in st.people then (st, Refused(404))
    else
      var p := st.people[op.id];
      if !cfg.verify(p.hash, op.current) then (st, Refused(401))
      else if !cfg.policyAllows(op.new_, p.email) then (st, Refused(400))
      else
        var first := p.email == BOOTSTRAP_EMAIL && !p.consumed;
        (State(
          st.people[op.id := p.(hash := cfg.hash(op.new_), mustChange := false, consumed := p.consumed || first)],
          Revoke(st.sessions, op.id, op.keep),
          st.audit + [PasswordChanged(p.email, Revoked(st.sessions, op.id, op.keep), p.mustChange)]
          + (if first then [BootstrapConsumed(p.email)] else [])), Accepted)
  }

  function OpenSession(cfg: Config, st: State, op: Op, id: Id): (r: (State, Reply))
    requires op.SignIn? && id in st.people
  {
    var p := st.people[id];
    var q := if cfg.needsRehash(p.hash) then p.(hash := cfg.hash(op.given)) else p;
    (State(st.people[id := q], st.sessions[op.token := Session(id, op.at, op.at + op.hours * HOUR)], st.audit), Accepted)
  }

  ghost function SignInPerson(cfg: Config, st: State, op: Op): (r: (State, Reply))
    requires op.SignIn?
  {
    var found := FindByEmail(st.people, cfg.normalise(cfg.normalise(op.email)));
    if op.blocked then (st, Refused(429))
    else if found.None? || !cfg.verify(st.people[found.value].hash, op.given) || !st.people[found.value].active then (st, Refused(401))
    else if op.token in st.sessions then (st, Refused(500))
    else OpenSession(cfg, st, op, found.value)
  }

  function ResolveSession(st: State, op: Op): (r: (State, Reply))
    requires op.Resolve?
  {
    if op.token == "" || op.token !in st.sessions then (st, Refused(401))
    else
      var row := st.sessions[op.token];
      if row.expires <= op.at then (st.(sessions := st.sessions - {op.token}), Expired)
      else if row.person !in st.people || !st.people[row.person].active then
        (st.(sessions := Revoke(st.sessions, row.person, None)), Refused(401))
      else
        (st.(sessions := st.sessions[op.token := row.(lastSeen := op.at, expires := op.at + (row.expires - row.lastSeen))]), Accepted)
  }

  function BootstrapAdmin(cfg: Config, st: State, op: Op): (r: (State, Reply))
    requires op.Bootstrap?
  {
    if st.people != map[] || op.initial.None? || op.initial.value == "" then (st, Accepted)
    else
      var p := Person(BOOTSTRAP_EMAIL, BOOTSTRAP_ROLE, true, cfg.hash(op.initial.value), true, false);
      (State(st.people[op.id := p], st.sessions, st.audit + [Bootstrapped(BOOTSTRAP_EMAIL, BOOTSTRAP_ROLE)]), Accepted)
  }

  ghost function Call(cfg: Config, st: State, op: Op): (r: (State, Reply))
  {
    match op
    case Add(_, _, _, _, _, _) => AddPerson(cfg, st, op)
    case Update(_, _, _, _, _) => UpdatePerson(cfg, st, op)
    case Reset(_, _) => ResetPassword(cfg, st, op)
    case ChangeOwn(_, _, _, _) => ChangeOwnPassword(cfg, st, op)
    case SignIn(_, _, _, _, _, _) => SignInPerson(cfg, st, op)
    case Resolve(_, _) => ResolveSession(st, op)
    case SignOut(token) => (if token == "" then st else st.(sessions := st.sessions - {token}), Accepted)
    case Bootstrap(_, _) => BootstrapAdmin(cfg, st, op)
  }

  /** The state behind a run of calls, from any state. */
  ghost function Ran(cfg: Config, st: State, h: seq<Op>): (r: State)
  {
    if h == [] then st else Call(cfg, Ran(cfg, st, h[..|h| - 1]), h[|h| - 1]).0
  }

  const EMPTY := State(map[], map[], [])

  ghost function After(cfg: Config, h: seq<Op>): (st: State) { Ran(cfg, EMPTY, h) }

  lemma {:induction false} RanMore(cfg: Config, st: State, h: seq<Op>, more: seq<Op>)
    ensures Ran(cfg, st, h + more) == Ran(cfg, Ran(cfg, st, h), more)
  {
    if more == [] {
      assert h + more == h;
    } else {
      var n := |more| - 1;
      RanMore(cfg, st, h, more[..n]);
      assert (h + more)[..|h + more| - 1] == h + more[..n];
    }
  }

  // ---- the audit log determines the people table -------------------------------------------------

  datatype Standing = Standing(role: string, active: bool)

  /** Role and active flag of every address, read off the log alone. */
  function Replay(audit: seq<Row>): (r: map<string, Standing>)
  {
    if audit == [] then map[] else Replayed(Replay(audit[..|audit| - 1]), audit[|audit| - 1])
  }

  function Replayed(m: map<string, Standing>, row: Row): (r: map<string, Standing>)
  {
    match row
    case Added(e, role, _) => m[e := Standing(role, true)]
    case Bootstrapped(e, role) => m[e := Standing(role, true)]
    case RoleChanged(e, _, role) => if e in m then m[e := m[e].(role := role)] else m
    case SwitchedOn(e) => if e in m then m[e := m[e].(active := true)] else m
    case SwitchedOff(e, _) => if e in m then m[e := m[e].(active := false)] else m
    case _ => m
  }

  /** One person per address, each with the standing given for it, and no standing without a person. */
  ghost predicate Describes(m: map<string, Standing>, people: map<Id, Person>) {
    && (forall i, j :: i in people && j in people && people[i].email == people[j].email ==> i == j)
    && (forall i :: i in people ==> people[i].email in m && m[people[i].email] == Standing(people[i].role, people[i].active))
    && (forall e :: e in m ==> EmailTaken(people, e))
  }

  lemma {:induction false} ReplayMore(audit: seq<Row>, row: Row)
    ensures Replay(audit + [row]) == Replayed(Replay(audit), row)
  {
    assert (audit + [row])[..|audit|] == audit;
  }

  lemma {:induction false} ReplayTwo(audit: seq<Row>, a: Row, b: Row)
    ensures Replay(audit + [a] + [b]) == Replayed(Replayed(Replay(audit), a), b)
  {
    ReplayMore(audit, a);
    ReplayMore(audit + [a], b);
  }

  /** A person's standing changes in the table and in the replay alike. */
  lemma {:induction false} DescribesChange(m: map<string, Standing>, people: map<Id, Person>, id: Id, q: Person)
    requires Describes(m, people) && id in people && q.email == people[id].email
    ensures Describes(m[q.email := Standing(q.role, q.active)], people[id := q])
  {
    var after := people[id := q];
    var m' := m[q.email := Standing(q.role, q.active)];
    forall e | e in m' ensures EmailTaken(after, e) {
      if e == q.email {
        assert after[id].email == e;
      } else {
        var i :| i in people && people[i].email == e;
        assert after[i].email == e;
      }
    }
  }

  lemma {:induction false} DescribesNew(m: map<string, Standing>, people: map<Id, Person>, id: Id, q: Person)
    requires Describes(m, people) && id !in people && !EmailTaken(people, q.email)
    ensures Describes(m[q.email := Standing(q.role, q.active)], people[id := q])
  {
    var after := people[id := q];
    var m' := m[q.email := Standing(q.role, q.active)];
    forall e | e in m' ensures EmailTaken(after, e) {
      if e == q.email {
        assert after[id].email == e;
      } else {
        var i :| i in people && people[i].email == e;
        assert after[i].email == e;
      }
    }
  }

  ghost predicate Told(st: State) { Describes(Replay(st.audit), st.people) }

  /** The rows of one update replay to the new standing of that one person. */
  lemma {:induction false} RowsReplay(audit: seq<Row>, p: Person, op: Op, revoked: nat)
    requires op.Update? && p.email in Replay(audit) && Replay(audit)[p.email] == Standing(p.role, p.active)
    ensures var q := Updated(p, op);
      Replay(audit + RowsOf(p, op, revoked)) == Replay(audit)[p.email := Standing(q.role, q.active)]
  {
    hide Replay;
    var rows := RowsOf(p, op, revoked);
    if |rows| == 0 {
      assert audit + rows == audit;
    } else if |rows| == 1 {
      assert rows == [rows[0]];
      ReplayMore(audit, rows[0]);
    } else {
      assert audit + rows == audit + [rows[0]] + [rows[1]];
      ReplayTwo(audit, rows[0], rows[1]);
    }
  }

  lemma {:induction false} UpdateTold(cfg: Config, st: State, op: Op)
    requires op.Update? && Told(st)
    ensures Told(UpdatePerson(cfg, st, op).0)
  {
    hide Replay, Administrators, Revoke, Revoked, EmailTaken, RowsOf, UpdateProblem;
    if UpdatePerson(cfg, st, op).1 == Accepted {
      var p := st.people[op.id];
      RowsReplay(st.audit, p, op, Revoked(st.sessions, op.id, None));
      DescribesChange(Replay(st.audit), st.people, op.id, Updated(p, op));
    }
  }

  /** A change that leaves role, active flag and address alone, logged by rows that say nothing of them. */
  lemma {:induction false} QuietChange(st: State, id: Id, q: Person, rows: seq<Row>)
    requires Told(st) && id in st.people
    requires q.email == st.people[id].email && q.role == st.people[id].role && q.active == st.people[id].active
    requires forall k :: 0 <= k < |rows| ==> rows[k].PasswordReset? || rows[k].PasswordChanged? || rows[k].BootstrapConsumed?
    ensures Describes(Replay(st.audit + rows), st.people[id := q])
  {
    QuietRows(st.audit, rows);
    var m := Replay(st.audit);
    hide Replay, EmailTaken;
    DescribesChange(m, st.people, id, q);
    assert m[q.email := Standing(q.role, q.active)] == m;
  }

  lemma {:induction false} QuietRows(audit: seq<Row>, rows: seq<Row>)
    requires forall k :: 0 <= k < |rows| ==> rows[k].PasswordReset? || rows[k].PasswordChanged? || rows[k].BootstrapConsumed?
    ensures Replay(audit + rows) == Replay(audit)
  {
    if rows == [] {
      assert audit + rows == audit;
    } else {
      var n := |rows| - 1;
      QuietRows(audit, rows[..n]);
      assert audit + rows == audit + rows[..n] + [rows[n]];
      ReplayMore(audit + rows[..n], rows[n]);
    }
  }

  lemma {:induction false} CallTold(cfg: Config, st: State, op: Op)
    requires Told(st)
    ensures Told(Call(cfg, st, op).0)
  {
    hide Replay, Describes, Revoke, Revoked, UpdatePerson, EmailTaken;
    var now := Call(cfg, st, op).0;
    match op
    case Update(_, _, _, _, _) => UpdateTold(cfg, st, op);
    case Add(id, _, _, _, _, _) =>
      if now != st {
        var p := now.people[id];
        DescribesNew(Replay(st.audit), st.people, id, p);
        ReplayMore(st.audit, now.audit[|st.audit|]);
      }
    case Bootstrap(id, _) =>
      if now != st {
        NobodyThere(st.people);
        DescribesNew(Replay(st.audit), st.people, id, now.people[id]);
        ReplayMore(st.audit, now.audit[|st.audit|]);
      }
    case Reset(id, _) => if now != st { QuietChange(st, id, now.people[id], now.audit[|st.audit|..]); }
    case ChangeOwn(id, _, _, _) =>
      if now != st {
        var rows := now.audit[|st.audit|..];
        assert now.audit == st.audit + rows;
        QuietChange(st, id, now.people[id], rows);
      }
    case SignIn(_, _, _, _, _, _) =>
      if now != st {
        var id := now.sessions[op.token].person;
        assert st.audit + [] == st.audit;
        QuietChange(st, id, now.people[id], []);
      }
    case _ =>
  }

  lemma {:induction false} NobodyThere(people: map<Id, Person>)
    requires people == map[]
    ensures forall e :: !EmailTaken(people, e)
  {
  }

  /** Replaying the log of any run gives every person's role and active flag, and nobody else's. */
  lemma {:induction false} AuditDeterminesPeople(cfg: Config, h: seq<Op>)
    ensures Told(After(cfg, h))
  {
    hide Call;
    if h != [] {
      AuditDeterminesPeople(cfg, h[..|h| - 1]);
      CallTold(cfg, After(cfg, h[..|h| - 1]), h[|h| - 1]);
    }
  }

  // ---- an administrator always remains --------------------------------------------------------------

  /** Only `update_person` can take the last capability away, and it asks first. */
  lemma {:induction false} UpdateKeepsAdministrators(cfg: Config, st: State, op: Op)
    requires |Administrators(cfg, st.people)| > 0 && op.Update?
    ensures |Administrators(cfg, UpdatePerson(cfg, st, op).0.people)| > 0
  {
    hide Revoke, Revoked, HoldsAdmin, RowsOf;
    var before, after := Administrators(cfg, st.people), Administrators(cfg, UpdatePerson(cfg, st, op).0.people);
    if op.id in before && op.id !in after {
      assert |before| > 1;
      assert before - {op.id} <= after;
      Larger(before - {op.id}, after);
    } else {
      assert before <= after;
      Larger(before, after);
    }
  }

  lemma {:induction false} CallKeepsAdministrators(cfg: Config, st: State, op: Op)
    requires |Administrators(cfg, st.people)| > 0
    ensures |Administrators(cfg, Call(cfg, st, op).0.people)| > 0
  {
    hide Revoke, Revoked, EmailTaken, HoldsAdmin, UpdatePerson;
    var before, after := Administrators(cfg, st.people), Administrators(cfg, Call(cfg, st, op).0.people);
    if op.Update? {
      UpdateKeepsAdministrators(cfg, st, op);
    } else {
      if op.Bootstrap? { SomeoneThere(before); }
      assert before <= after;
      Larger(before, after);
    }
  }

  lemma {:induction false} SomeoneThere(s: set<Id>)
    requires |s| > 0
    ensures exists id :: id in s
  {
    assert s != {};
    var id :| id in s;
  }

  lemma {:induction false} Larger(a: set<Id>, b: set<Id>)
    requires a <= b
    ensures |a| <= |b|
  {
    assert b == a + (b - a);
  }

  lemma {:induction false} AdministratorsRemain(cfg: Config, h: seq<Op>, more: seq<Op>)
    requires |Administrators(cfg, After(cfg, h).people)| > 0
    ensures |Administrators(cfg, After(cfg, h + more).people)| > 0
  {
    hide Call, Administrators;
    if more == [] {
      assert h + more == h;
    } else {
      var n := |more| - 1;
      AdministratorsRemain(cfg, h, more[..n]);
      assert (h + more)[..|h + more| - 1] == h + more[..n];
      CallKeepsAdministrators(cfg, After(cfg, h + more[..n]), more[n]);
    }
  }

  lemma {:induction false} SomeAdministrator(cfg: Config, people: map<Id, Person>)
    ensures HasAdministrator(cfg, people) <==> |Administrators(cfg, people)| > 0
  {
    var all := Administrators(cfg, people);
    if |all| > 0 { SomeoneThere(all); }
    if HasAdministrator(cfg, people) {
      var id :| id in people && people[id].active && people[id].role in cfg.roles && cfg.roles[people[id].role];
      assert id in all;
    }
  }

  /** With a fixed role set, active administrators never fall back to none once there is one. */
  lemma {:induction false} AnAdministratorRemains(cfg: Config, h: seq<Op>, more: seq<Op>)
    requires HasAdministrator(cfg, After(cfg, h).people)
    ensures HasAdministrator(cfg, After(cfg, h + more).people)
  {
    hide Ran;
    SomeAdministrator(cfg, After(cfg, h).people);
    SomeAdministrator(cfg, After(cfg, h + more).people);
    AdministratorsRemain(cfg, h, more);
  }

  // ---- sessions ---------------------------------------------------------------------------------------

  /** Every stored session belongs to an active person. */
  ghost predicate Owned(st: State) {
    forall t :: t in st.sessions ==> st.sessions[t].person in st.people && st.people[st.sessions[t].person].active
  }

  lemma {:induction false} CallOwned(cfg: Config, st: State, op: Op)
    requires Owned(st)
    ensures Owned(Call(cfg, st, op).0)
  {
    hide Administrators, Revoked, EmailTaken, HoldsAdmin, RowsOf;
  }

  lemma {:induction false} SessionsAreOwned(cfg: Config, h: seq<Op>)
    ensures Owned(After(cfg, h))
  {
    hide Call;
    if h != [] {
      SessionsAreOwned(cfg, h[..|h| - 1]);
      CallOwned(cfg, After(cfg, h[..|h| - 1]), h[|h| - 1]);
    }
  }

  /** The life of a token as its holder sees it: the lifetime chosen at sign-in and every use since. */
  datatype Life = Life(lifetime: int, uses: seq<int>)

  ghost function LifeOf(cfg: Config, h: seq<Op>, token: Token): (r: Option<Life>)
    ensures r.Some? ==> |r.value.uses| > 0
  {
    if h == [] then None
    else
      var p, op := h[..|h| - 1], h[|h| - 1];
      var before := LifeOf(cfg, p, token);
      if Call(cfg, After(cfg, p), op).1 != Accepted then before
      else if op.SignIn? && op.token == token then Some(Life(op.hours * HOUR, [op.at]))
      else if op.Resolve? && op.token == token && before.Some? then Some(before.value.(uses := before.value.uses + [op.at]))
      else before
  }

  /** Every gap between two uses is shorter than the lifetime. */
  ghost predicate ShortGaps(l: Life) {
    forall i :: 0 <= i < |l.uses| - 1 ==> l.uses[i + 1] - l.uses[i] < l.lifetime
  }

  ghost predicate Lives(s: Session, l: Option<Life>) {
    && l.Some? && |l.value.uses| > 0 && ShortGaps(l.value)
    && s.lastSeen == l.value.uses[|l.value.uses| - 1]
    && s.expires - s.lastSeen == l.value.lifetime
  }

  /** How one call treats one token. */
  lemma {:induction false} CallOnToken(cfg: Config, st: State, op: Op, t: Token)
    requires t in Call(cfg, st, op).0.sessions
    ensures var (now, reply) := Call(cfg, st, op);
      || (op.SignIn? && op.token == t && reply == Accepted && now.sessions[t] == Session(now.sessions[t].person, op.at, op.at + op.hours * HOUR))
      || (t in st.sessions && op.Resolve? && op.token == t && reply == Accepted && op.at < st.sessions[t].expires
          && now.sessions[t] == Session(st.sessions[t].person, op.at, op.at + st.sessions[t].expires - st.sessions[t].lastSeen))
      || (t in st.sessions && now.sessions[t] == st.sessions[t] && !(op.Resolve? && op.token == t && reply == Accepted)
          && !(op.SignIn? && op.token == t && reply == Accepted))
  {
    hide Administrators, Revoked, EmailTaken, HoldsAdmin, RowsOf;
  }

  /** Sliding keeps the lifetime chosen at sign-in, and a stored session was used in time, every time. */
  lemma {:induction false} SessionLife(cfg: Config, h: seq<Op>, t: Token)
    ensures t in After(cfg, h).sessions ==> Lives(After(cfg, h).sessions[t], LifeOf(cfg, h, t))
  {
    hide Call;
    if h != [] && t in After(cfg, h).sessions {
      var p, op := h[..|h| - 1], h[|h| - 1];
      SessionLife(cfg, p, t);
      CallOnToken(cfg, After(cfg, p), op, t);
    }
  }

  /**
   When a token resolves: it is not empty, it is stored, and less than its lifetime passed since its last use. So
   it resolves only if every gap between its uses, this one included, is shorter than that.
   */
  lemma {:induction false} ResolvesIff(cfg: Config, h: seq<Op>, at: int, t: Token)
    ensures Call(cfg, After(cfg, h), Resolve(at, t)).1 == Accepted <==>
      && t != "" && t in After(cfg, h).sessions
      && LifeOf(cfg, h, t).Some?
      && at - LifeOf(cfg, h, t).value.uses[|LifeOf(cfg, h, t).value.uses| - 1] < LifeOf(cfg, h, t).value.lifetime
    ensures Call(cfg, After(cfg, h), Resolve(at, t)).1 == Accepted ==>
      LifeOf(cfg, h, t).Some? && ShortGaps(LifeOf(cfg, h, t).value.(uses := LifeOf(cfg, h, t).value.uses + [at]))
  {
    hide LifeOf, Ran;
    SessionLife(cfg, h, t);
    SessionsAreOwned(cfg, h);
  }

  /** Some call in the run signed in with this token. */
  ghost predicate SignedIn(cfg: Config, st: State, h: seq<Op>, t: Token) {
    exists k :: 0 <= k < |h| && h[k].SignIn? && h[k].token == t && Call(cfg, Ran(cfg, st, h[..k]), h[k]).1 == Accepted
  }

  /** A stored session is an old one of the same person, or was signed in since. */
  lemma {:induction false} SessionsAreOldOrNew(cfg: Config, st: State, h: seq<Op>, t: Token)
    requires t in Ran(cfg, st, h).sessions
    ensures SignedIn(cfg, st, h, t) || (t in st.sessions && st.sessions[t].person == Ran(cfg, st, h).sessions[t].person)
  {
    hide Call;
    if h != [] {
      var n := |h| - 1;
      CallOnToken(cfg, Ran(cfg, st, h[..n]), h[n], t);
      if h[n].SignIn? && h[n].token == t && Call(cfg, Ran(cfg, st, h[..n]), h[n]).1 == Accepted {
        assert SignedIn(cfg, st, h, t);
      } else {
        SessionsAreOldOrNew(cfg, st, h[..n], t);
        if SignedIn(cfg, st, h[..n], t) { SignedInEarlier(cfg, st, h, t); }
      }
    }
  }

  lemma {:induction false} SignedInEarlier(cfg: Config, st: State, h: seq<Op>, t: Token)
    requires h != [] && SignedIn(cfg, st, h[..|h| - 1], t)
    ensures SignedIn(cfg, st, h, t)
  {
    hide Call, Ran;
    var p := h[..|h| - 1];
    var k :| 0 <= k < |p| && p[k].SignIn? && p[k].token == t && Call(cfg, Ran(cfg, st, p[..k]), p[k]).1 == Accepted;
    assert h[..k] == p[..k] && h[k] == p[k];
  }

  /**
   No session from before a password reset resolves after it: a token that resolves for that
   person later was signed in with later.
   */
  lemma {:induction false} ResetEndsSessions(cfg: Config, h: seq<Op>, id: Id, oneTime: string, more: seq<Op>, at: int, t: Token)
    requires Call(cfg, After(cfg, h), Reset(id, oneTime)).1 == Accepted
    requires var now := After(cfg, h + [Reset(id, oneTime)] + more);
      t in now.sessions && now.sessions[t].person == id && Call(cfg, now, Resolve(at, t)).1 == Accepted
    ensures SignedIn(cfg, After(cfg, h + [Reset(id, oneTime)]), more, t)
  {
    var base := h + [Reset(id, oneTime)];
    assert base[..|base| - 1] == h;
    var st := After(cfg, base);
    assert st == Call(cfg, After(cfg, h), Reset(id, oneTime)).0;
    assert forall s :: s in st.sessions ==> st.sessions[s].person != id;
    hide Call, Ran, SignedIn;
    RanMore(cfg, EMPTY, base, more);
    SessionsAreOldOrNew(cfg, st, more, t);
  }
}
