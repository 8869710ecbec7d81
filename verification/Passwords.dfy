/**
 Passwords over whole runs (apps/api/slas_api/service.py): which call set the hash a person signs
 in against, and which password opens a session.
 */
module Passwords {
  import opened Options
  import opened People
  import opened PeopleCalls

  /** The text hashed last for a person, read off the run: on adding, bootstrap, reset, change, or a renewal at sign-in. */
  ghost function HashedOf(cfg: Config, h: seq<Op>, id: Id): (text: Option<string>)
  {
    if h == [] then None
    else
      var p, op := h[..|h| - 1], h[|h| - 1];
      var set_ := SetBy(cfg, After(cfg, p), op, id);
      if set_.Some? then set_ else if Renews(cfg, After(cfg, p), op, id) then Some(op.given) else HashedOf(cfg, p, id)
  }

  /** The password set last for a person: the same without the renewals, which no one asked for. */
  ghost function PasswordOf(cfg: Config, h: seq<Op>, id: Id): (text: Option<string>)
  {
    if h == [] then None
    else
      var p, op := h[..|h| - 1], h[|h| - 1];
      var set_ := SetBy(cfg, After(cfg, p), op, id);
      if set_.Some? then set_ else PasswordOf(cfg, p, id)
  }

  /** The password this call sets for the person, if it is accepted and sets one. */
  ghost function SetBy(cfg: Config, st: State, op: Op, id: Id): (text: Option<string>)
  {
    if Call(cfg, st, op).1 != Accepted then None
    else match op
      case Add(i, _, _, _, password, oneTime) => if i != id then None else if password.Some? then password else Some(oneTime)
      case Reset(i, oneTime) => if i == id then Some(oneTime) else None
      case ChangeOwn(i, _, new_, _) => if i == id then Some(new_) else None
      case Bootstrap(i, initial) => if i == id && (forall k :: k !in st.people) && initial != Some("") then initial else None
      case _ => None
  }

  /** An accepted sign-in of this person whose hash is due for renewal. */
  ghost predicate Renews(cfg: Config, st: State, op: Op, id: Id) {
    && op.SignIn? && Call(cfg, st, op).1 == Accepted
    && id in st.people && Knows(cfg, st.people[id], op) && cfg.needsRehash(st.people[id].hash)
  }

  /** In every run the stored hash is that of the text the run says was hashed last. */
  lemma {:induction false} HashIsOfLast(cfg: Config, h: seq<Op>, id: Id)
    requires id in After(cfg, h).people
    ensures HashedOf(cfg, h, id).Some? && After(cfg, h).people[id].hash == cfg.hash(HashedOf(cfg, h, id).value)
  {
    hide Call, Knows;
    var p, op := h[..|h| - 1], h[|h| - 1];
    AlwaysDistinct(cfg, p);
    HashAfter(cfg, After(cfg, p), op, id);
    if SetBy(cfg, After(cfg, p), op, id).None? && !Renews(cfg, After(cfg, p), op, id) { HashIsOfLast(cfg, p, id); }
  }

  /** How one call leaves the hash of one person. */
  lemma {:induction false} HashAfter(cfg: Config, st: State, op: Op, id: Id)
    requires Distinct(st.people) && id in Call(cfg, st, op).0.people
    ensures var (now, set_) := (Call(cfg, st, op).0, SetBy(cfg, st, op, id));
      if set_.Some? then now.people[id].hash == cfg.hash(set_.value)
      else if Renews(cfg, st, op, id) then now.people[id].hash == cfg.hash(op.given)
      else id in st.people && now.people[id].hash == st.people[id].hash
  {
    hide AddPerson, UpdatePerson, ResetPassword, ChangeOwnPassword, SignInPerson, BootstrapAdmin, Ended;
    match op
    case Add(_, _, _, _, _, _) => AddIff(cfg, st, op);
    case Update(_, _, _, _, _) => UpdateDoes(cfg, st, op);
    case Reset(_, _) => ResetIff(cfg, st, op);
    case ChangeOwn(_, _, _, _) => ChangeOwnIff(cfg, st, op);
    case SignIn(_, _, _, _, _, _) => SignInIff(cfg, st, op);
    case Resolve(_, _) =>
    case SignOut(_) => SignOutDoes(cfg, st, op);
    case Bootstrap(_, _) => BootstrapDoes(cfg, st, op);
  }

  /** What a call signing in is checked against in a run: an active person with the address whose hashed text the given one verifies. */
  lemma {:induction false} SignsInIff(cfg: Config, h: seq<Op>, op: Op)
    requires op.SignIn?
    ensures var people := After(cfg, h).people;
      Call(cfg, After(cfg, h), op).1 == Accepted <==>
        && !op.blocked && op.token !in After(cfg, h).sessions
        && exists id :: id in people && people[id].email == cfg.normalise(cfg.normalise(op.email)) && people[id].active
             && HashedOf(cfg, h, id).Some? && cfg.verify(cfg.hash(HashedOf(cfg, h, id).value), op.given)
  {
    hide Ran, Call, HashedOf;
    AlwaysDistinct(cfg, h);
    SignInIff(cfg, After(cfg, h), op);
    forall id | id in After(cfg, h).people
      ensures HashedOf(cfg, h, id).Some? && After(cfg, h).people[id].hash == cfg.hash(HashedOf(cfg, h, id).value)
    {
      HashIsOfLast(cfg, h, id);
    }
  }

  /** A hash verifies the password it was made from and no other. */
  ghost predicate HashLaw(cfg: Config) {
    forall p, q :: cfg.verify(cfg.hash(p), q) <==> p == q
  }

  /** Under that law a renewal hashes the password that was set. */
  lemma {:induction false} RenewalKeepsPassword(cfg: Config, h: seq<Op>, id: Id)
    requires HashLaw(cfg) && id in After(cfg, h).people
    ensures HashedOf(cfg, h, id) == PasswordOf(cfg, h, id)
  {
    hide Call;
    var p, op := h[..|h| - 1], h[|h| - 1];
    AlwaysDistinct(cfg, p);
    HashAfter(cfg, After(cfg, p), op, id);
    if SetBy(cfg, After(cfg, p), op, id).None? {
      RenewalKeepsPassword(cfg, p, id);
      HashIsOfLast(cfg, p, id);
    }
  }

  /** The password of a person is the one set last, by whichever call: a sign-in succeeds with it and with nothing else. */
  lemma {:induction false} OnlyTheLastPassword(cfg: Config, h: seq<Op>, op: Op)
    requires op.SignIn? && HashLaw(cfg)
    ensures var people := After(cfg, h).people;
      Call(cfg, After(cfg, h), op).1 == Accepted <==>
        && !op.blocked && op.token !in After(cfg, h).sessions
        && exists id :: id in people && people[id].email == cfg.normalise(cfg.normalise(op.email)) && people[id].active
             && PasswordOf(cfg, h, id) == Some(op.given)
  {
    hide Ran, Call, HashedOf, PasswordOf;
    SignsInIff(cfg, h, op);
    forall id | id in After(cfg, h).people ensures HashedOf(cfg, h, id) == PasswordOf(cfg, h, id) {
      RenewalKeepsPassword(cfg, h, id);
    }
  }

  /** Behind a reset, and until the person is reset again or changes it, the password is the one-time one. */
  lemma {:induction false} ResetHolds(cfg: Config, h: seq<Op>, id: Id, oneTime: string, more: seq<Op>)
    requires Call(cfg, After(cfg, h), Reset(id, oneTime)).1 == Accepted
    requires forall k :: 0 <= k < |more| ==> !(more[k].Reset? && more[k].id == id) && !(more[k].ChangeOwn? && more[k].id == id)
    ensures var all := h + [Reset(id, oneTime)] + more;
      id in After(cfg, all).people && PasswordOf(cfg, all, id) == Some(oneTime)
  {
    var base := h + [Reset(id, oneTime)];
    var all := base + more;
    if more == [] {
      assert all == base && base[..|base| - 1] == h;
      ResetIff(cfg, After(cfg, h), Reset(id, oneTime));
    } else {
      var n := |more| - 1;
      ResetHolds(cfg, h, id, oneTime, more[..n]);
      assert all[..|all| - 1] == base + more[..n];
      var st := After(cfg, base + more[..n]);
      StaysUnset(cfg, st, more[n], id);
      hide Call;
    }
  }

  /** A person who exists is not added again, and stays. */
  lemma {:induction false} StaysUnset(cfg: Config, st: State, op: Op, id: Id)
    requires id in st.people && !(op.Reset? && op.id == id) && !(op.ChangeOwn? && op.id == id)
    ensures id in Call(cfg, st, op).0.people && SetBy(cfg, st, op, id).None?
  {
  }
}
