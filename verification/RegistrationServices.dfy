/** The classes that take the steps of registration: auth-service's sign-up, user-service's
    profile table and the queue consumer. */
module RegistrationServices {
  import opened Domain
  import opened Registration

  datatype SignUp = UsernameTaken | EmailTaken | ServerError | Created

  /** The queue of user.registered events with its unacknowledged deliveries. */
  class Broker {
    var queue: multiset<Message>
    var inFlight: map<Tag, Delivery>
    ghost var announced: set<UserId>

    constructor ()
      ensures queue == multiset{} && inFlight == map[] && announced == {}
    {
      queue, inFlight, announced := multiset{}, map[], {};
    }
  }

  ghost function World(auth: AuthService, users: UserProfileService): State
    reads auth, auth.broker, users
  {
    State(auth.accounts, auth.broker.queue, auth.broker.inFlight, users.profiles, auth.pending, auth.broker.announced)
  }

  /** Another sign-up that commits while this one is under way. */
  datatype Rival = Rival(id: UserId, username: string, email: string)

  /** The accounts after the commits of the first `n` rivals. */
  function AfterRivals(accounts: map<UserId, Account>, rivals: seq<Rival>, n: nat): map<UserId, Account>
    requires n <= |rivals|
  {
    if n == 0 then accounts
    else
      Admit(AfterRivals(accounts, rivals, n - 1), rivals[n - 1].id, rivals[n - 1].username, rivals[n - 1].email)
  }

  function RivalSteps(rivals: seq<Rival>, n: nat): seq<Label>
    requires n <= |rivals|
  {
    if n == 0 then []
    else RivalSteps(rivals, n - 1) + [Register(rivals[n - 1].id, rivals[n - 1].username, rivals[n - 1].email)]
  }

  /** New identifiers, each used once, and proper email addresses. */
  predicate Fresh(rivals: seq<Rival>, accounts: map<UserId, Account>, id: UserId) {
    && id !in accounts
    && (forall i :: 0 <= i < |rivals| ==> rivals[i].id !in accounts && rivals[i].id != id && rivals[i].email != "")
    && (forall i, j :: 0 <= i < j < |rivals| ==> rivals[i].id != rivals[j].id)
  }

  lemma {:induction false} RivalsAreNew(accounts: map<UserId, Account>, rivals: seq<Rival>, n: nat, id: UserId)
    requires n <= |rivals| && Fresh(rivals, accounts, id)
    ensures var after := AfterRivals(accounts, rivals, n);
            && id !in after
            && (forall i :: n <= i < |rivals| ==> rivals[i].id !in after)
            && (forall k :: k in accounts ==> k in after && after[k] == accounts[k])
    decreases n
  {
    if n > 0 {
      RivalsAreNew(accounts, rivals, n - 1, id);
    }
  }

  /** Rival `i` commits, no earlier one having taken its names, and takes one of these names. */
  predicate Takes(accounts: map<UserId, Account>, rivals: seq<Rival>, i: nat, username: string, email: string)
    requires i < |rivals|
  {
    && !Taken(AfterRivals(accounts, rivals, i), rivals[i].username, rivals[i].email)
    && (rivals[i].username == username || rivals[i].email == email)
  }

  lemma NextTakes(accounts: map<UserId, Account>, rivals: seq<Rival>, i: nat,
                  username: string, email: string, id: UserId)
    requires i < |rivals| && Fresh(rivals, accounts, id)
    ensures Taken(AfterRivals(accounts, rivals, i + 1), username, email) <==>
              Taken(AfterRivals(accounts, rivals, i), username, email) || Takes(accounts, rivals, i, username, email)
  {
    RivalsAreNew(accounts, rivals, i, id);
    AdmitTakes(AfterRivals(accounts, rivals, i), rivals[i].id, rivals[i].username, rivals[i].email, username, email);
  }

  /** A name that is taken after the first `n` rivals was taken before, or rival `i` took it. */
  lemma {:induction false} WhoTook(accounts: map<UserId, Account>, rivals: seq<Rival>, n: nat,
                                   username: string, email: string, id: UserId) returns (i: nat)
    requires n <= |rivals| && Fresh(rivals, accounts, id) && Taken(AfterRivals(accounts, rivals, n), username, email)
    ensures Taken(accounts, username, email) || (i < n && Takes(accounts, rivals, i, username, email))
    decreases n
  {
    i := 0;
    if n > 0 {
      NextTakes(accounts, rivals, n - 1, username, email, id);
      if Takes(accounts, rivals, n - 1, username, email) {
        i := n - 1;
      } else {
        i := WhoTook(accounts, rivals, n - 1, username, email, id);
      }
    }
  }

  /** What was taken, or what a rival that committed took, stays taken. */
  lemma {:induction false} StaysTaken(accounts: map<UserId, Account>, rivals: seq<Rival>, i: nat, n: nat,
                                      username: string, email: string, id: UserId)
    requires i <= n <= |rivals| && Fresh(rivals, accounts, id)
    requires Taken(AfterRivals(accounts, rivals, i), username, email)
             || (i < n && Takes(accounts, rivals, i, username, email))
    ensures Taken(AfterRivals(accounts, rivals, n), username, email)
    decreases n - i
  {
    if i < n {
      NextTakes(accounts, rivals, i, username, email, id);
      StaysTaken(accounts, rivals, i + 1, n, username, email, id);
    }
  }

  lemma AdmitTakes(accounts: map<UserId, Account>, id: UserId, u: string, e: string, username: string, email: string)
    requires id !in accounts
    ensures Taken(Admit(accounts, id, u, e), username, email) <==>
              Taken(accounts, username, email) || (!Taken(accounts, u, e) && (u == username || e == email))
  {
    var after := Admit(accounts, id, u, e);
    if !Taken(accounts, u, e) {
      assert id in after;
      if k :| k in accounts && (accounts[k].username == username || accounts[k].email == email) {
        assert k in after && after[k] == accounts[k];
      }
    }
  }

  /** What a sign-up adds to the run; the first `n` rivals commit before its second lookup. */
  function SignUpSteps(id: UserId, username: string, email: string, rivals: seq<Rival>, n: nat,
                       result: SignUp, routed: bool): seq<Label>
    requires n <= |rivals|
  {
    match result
    case UsernameTaken => []
    case EmailTaken => RivalSteps(rivals, n)
    case ServerError => RivalSteps(rivals, |rivals|) + [Register(id, username, email)]
    case Created => RivalSteps(rivals, |rivals|) + [Register(id, username, email)] + [Publish(id, routed)]
  }

  lemma ExecSnoc(s: State, run: seq<Label>, l: Label)
    requires Exec(s, run).Some? && Enabled(Exec(s, run).value, l)
    ensures Exec(s, run + [l]) == Some(Next(Exec(s, run).value, l))
  {
    ExecConcat(s, run, [l]);
    assert [l] == [l] + [];
    ExecCons(Exec(s, run).value, l, []);
  }

  /** The rivals' sign-ups run, and leave the accounts that their commits make. */
  lemma {:induction false} RivalsRun(w: State, rivals: seq<Rival>, n: nat, id: UserId)
    requires n <= |rivals| && Fresh(rivals, w.accounts, id)
    ensures var end := Exec(w, RivalSteps(rivals, n));
            end.Some? && end.value.accounts == AfterRivals(w.accounts, rivals, n)
    decreases n
  {
    if n > 0 {
      RivalsRun(w, rivals, n - 1, id);
      RivalsAreNew(w.accounts, rivals, n - 1, id);
      var r := rivals[n - 1];
      ExecSnoc(w, RivalSteps(rivals, n - 1), Register(r.id, r.username, r.email));
    }
  }

  lemma RivalStep(w: State, rivals: seq<Rival>, i: nat, id: UserId)
    requires i < |rivals| && Fresh(rivals, w.accounts, id)
    ensures var before := Exec(w, RivalSteps(rivals, i));
            var l := Register(rivals[i].id, rivals[i].username, rivals[i].email);
            && before.Some? && Enabled(before.value, l)
            && Exec(w, RivalSteps(rivals, i + 1)) == Some(Next(before.value, l))
  {
    RivalsRun(w, rivals, i, id);
    RivalsAreNew(w.accounts, rivals, i, id);
    ExecSnoc(w, RivalSteps(rivals, i), Register(rivals[i].id, rivals[i].username, rivals[i].email));
  }

  class AuthService {
    const broker: Broker
    var accounts: map<UserId, Account>
    ghost var pending: set<UserId>

    constructor (broker: Broker)
      ensures this.broker == broker && accounts == map[] && pending == {}
    {
      this.broker := broker;
      accounts, pending := map[], {};
    }

    /** INSERT and commit under the UNIQUE constraints; false when one is violated. */
    method Commit(id: UserId, username: string, email: string, ghost users: UserProfileService) returns (ok: bool)
      requires email != "" && id !in accounts
      modifies this`accounts, this`pending
      ensures ok <==> !Taken(old(accounts), username, email)
      ensures World(this, users) == Next(old(World(this, users)), Label.Register(id, username, email))
    {
      ok := !Taken(accounts, username, email);
      if ok {
        accounts := accounts[id := Account(id, username, email, false)];
        pending := pending + {id};
      }
    }

    /** Sign-ups `from` to `to` of `rivals` commit, `w` being the state before the first of all. */
    method RivalsCommit(rivals: seq<Rival>, from: nat, to: nat, ghost w: State, ghost id: UserId,
                        ghost users: UserProfileService)
      requires from <= to <= |rivals| && Fresh(rivals, w.accounts, id)
      requires Exec(w, RivalSteps(rivals, from)) == Some(World(this, users))
      modifies this`accounts, this`pending
      ensures Exec(w, RivalSteps(rivals, to)) == Some(World(this, users))
    {
      for i := from to to
        invariant Exec(w, RivalSteps(rivals, i)) == Some(World(this, users))
      {
        RivalStep(w, rivals, i, id);
        var _ := Commit(rivals[i].id, rivals[i].username, rivals[i].email, users);
      }
    }

    /** Publish the event of an account; a lost one is only logged. */
    method PublishUserRegistered(id: UserId, routed: bool, ghost users: UserProfileService)
      requires id in accounts && id in pending
      modifies broker, this`pending
      ensures World(this, users) == Next(old(World(this, users)), Publish(id, routed))
    {
      if routed {
        broker.queue := broker.queue + multiset{EventOf(accounts[id])};
        broker.announced := broker.announced + {id};
      }
      pending := pending - {id};
    }

    /** register: look up the username, then the email, then commit, then publish. Of the rival
        sign-ups, the first `n` commit between the two lookups and the others before the commit. */
    method Register(id: UserId, username: string, email: string, rivals: seq<Rival>, n: nat, routed: bool,
                    ghost users: UserProfileService)
      returns (result: SignUp)
      requires email != "" && n <= |rivals| && Fresh(rivals, accounts, id)
      modifies this, broker
      ensures Exec(old(World(this, users)), SignUpSteps(id, username, email, rivals, n, result, routed))
              == Some(World(this, users))
      ensures result.UsernameTaken? <==> exists k :: k in old(accounts) && old(accounts)[k].username == username
      ensures result.EmailTaken? <==>
                && !result.UsernameTaken?
                && exists k :: k in AfterRivals(old(accounts), rivals, n)
                               && AfterRivals(old(accounts), rivals, n)[k].email == email
      ensures result.ServerError? <==>
                && !result.UsernameTaken? && !result.EmailTaken?
                && exists k :: k in AfterRivals(old(accounts), rivals, |rivals|)
                               && (AfterRivals(old(accounts), rivals, |rivals|)[k].username == username
                                   || AfterRivals(old(accounts), rivals, |rivals|)[k].email == email)
      ensures rivals == [] ==> !result.ServerError?
      ensures result.Created? ==>
                var event := Event(Uuid(id), Some(email), Some(username));
                broker.queue == old(broker.queue) + (if routed then multiset{event} else multiset{})
      ensures !result.Created? ==> broker.queue == old(broker.queue)
      ensures result.Created? <==> id in accounts
      ensures result.Created? ==> accounts[id] == Account(id, username, email, false)
    {
      ghost var w := World(this, users);
      if exists k :: k in accounts && accounts[k].username == username {
        return UsernameTaken;
      }
      RivalsCommit(rivals, 0, n, w, id, users);
      RivalsRun(w, rivals, n, id);
      RivalsAreNew(w.accounts, rivals, n, id);
      if exists k :: k in accounts && accounts[k].email == email {
        return EmailTaken;
      }
      RivalsCommit(rivals, n, |rivals|, w, id, users);
      RivalsRun(w, rivals, |rivals|, id);
      RivalsAreNew(w.accounts, rivals, |rivals|, id);
      ExecSnoc(w, RivalSteps(rivals, |rivals|), Label.Register(id, username, email));
      var ok := Commit(id, username, email, users);
      if !ok {
        return ServerError;
      }
      ExecSnoc(w, RivalSteps(rivals, |rivals|) + [Label.Register(id, username, email)], Publish(id, routed));
      PublishUserRegistered(id, routed, users);
      return Created;
    }

    /** activate_user_by_email: true exactly when some account has that email. */
    method ActivateUserByEmail(email: string, ghost users: UserProfileService) returns (found: bool)
      modifies this
      ensures World(this, users) == Next(old(World(this, users)), Activate(email))
      ensures found <==> exists id :: id in old(accounts) && old(accounts)[id].email == email
      ensures accounts.Keys == old(accounts).Keys
      ensures forall id :: id in accounts ==>
                var before := old(accounts)[id];
                accounts[id] == before.(active := before.active || before.email == email)
    {
      if id :| id in accounts && accounts[id].email == email {
        accounts := Activated(accounts, email);
        return true;
      }
      assert Activated(accounts, email) == accounts;
      return false;
    }
  }

  datatype Creation = Inserted | AlreadyThere | Raised

  class UserProfileService {
    var profiles: seq<Profile>

    constructor ()
      ensures profiles == []
    {
      profiles := [];
    }

    /** create_profile_from_event: insert and commit; a violated UNIQUE constraint is a duplicate
        event, and anything else that goes wrong is raised. */
    method CreateProfileFromEvent(user: UserText, email: string, username: string, db: Db) returns (r: Creation)
      requires !user.Absent?
      modifies this
      ensures user.NotUuid? ==> r.Raised? && profiles == old(profiles)
      ensures user.Uuid? ==>
                && (r.Raised? <==> db.Failing?)
                && (r.Inserted? <==> db.Healthy? && !HasProfile(old(profiles), user.id))
                && profiles == (if db.Healthy? || db.applied then Insert(old(profiles), user.id, email, username)
                                else old(profiles))
                && profiles == (if (db.Healthy? || db.applied)
                                   && (forall i :: 0 <= i < |old(profiles)| ==> old(profiles)[i].user != user.id)
                                then old(profiles) + [Profile(user.id, email, username, map[])] else old(profiles))
    {
      if user.NotUuid? {
        return Raised;
      }
      var duplicate := HasProfile(profiles, user.id);
      if !duplicate && (db.Healthy? || db.applied) {
        profiles := profiles + [Profile(user.id, email, username, map[])];
      }
      return if db.Failing? then Raised else if duplicate then AlreadyThere else Inserted;
    }

    /** update_profile: set each given field of row `i` and no other. */
    method UpdateProfile(i: nat, updates: Details)
      requires i < |profiles|
      modifies this
      ensures profiles == old(profiles)[i := old(profiles)[i].(details := old(profiles)[i].details + updates)]
    {
      var todo := updates.Keys;
      ghost var before := profiles[i].details;
      while todo != {}
        invariant todo <= updates.Keys && |profiles| == |old(profiles)|
        invariant profiles[i].details == before + (map f | f in updates && f !in todo :: updates[f])
        invariant profiles == old(profiles)[i := old(profiles)[i].(details := profiles[i].details)]
        decreases todo
      {
        var f :| f in todo;
        profiles := profiles[i := profiles[i].(details := profiles[i].details[f := updates[f]])];
        todo := todo - {f};
      }
      assert (map f | f in updates && f !in todo :: updates[f]) == updates;
    }

    /** PATCH /users/{id} by the holder of a token for `caller`. */
    method PatchProfile(caller: string, id: UserId, changes: Details) returns (code: nat)
      requires forall i, j :: 0 <= i < j < |profiles| ==> profiles[i].user != profiles[j].user
      modifies this
      ensures profiles == Updated(old(profiles), caller, id, changes)
      ensures code in {200, 403, 404}
      ensures code == 404 <==> !HasProfile(old(profiles), id)
      ensures code == 200 <==>
                exists i :: 0 <= i < |old(profiles)| && old(profiles)[i].user == id
                            && old(profiles)[i].username == caller
    {
      if i :| 0 <= i < |profiles| && profiles[i].user == id {
        if profiles[i].username != caller {
          assert Updated(profiles, caller, id, changes) == profiles;
          return 403;
        }
        ghost var after := Updated(profiles, caller, id, changes);
        UpdateProfile(i, changes);
        assert profiles == after;
        return 200;
      }
      assert Updated(profiles, caller, id, changes) == profiles;
      return 404;
    }
  }

  class Consumer {
    const broker: Broker
    const users: UserProfileService

    constructor (broker: Broker, users: UserProfileService)
      ensures this.broker == broker && this.users == users
    {
      this.broker, this.users := broker, users;
    }

    /** _process_message: true to acknowledge, false to requeue. */
    method ProcessMessage(body: Message, db: Db) returns (ack: bool)
      modifies users
      ensures Processed(users.profiles, ack) == Process(old(users.profiles), body, db)
      // dropped: no JSON, or one of the three fields missing or empty
      ensures body.Unparseable? || body.user.Absent? || body.email.None? || body.email.value == ""
              || body.username.None? || body.username.value == "" ==>
                ack && users.profiles == old(users.profiles)
      // inserted or a duplicate; requeued when the insert fails
      ensures body.Event? && !body.user.Absent? && body.email.Some? && body.email.value != ""
              && body.username.Some? && body.username.value != "" ==>
                && (ack <==> body.user.Uuid? && db.Healthy?)
                && users.profiles == (if body.user.Uuid? && (db.Healthy? || db.applied)
                                         && (forall i :: 0 <= i < |old(users.profiles)| ==>
                                               old(users.profiles)[i].user != body.user.id)
                                      then old(users.profiles)
                                           + [Profile(body.user.id, body.email.value, body.username.value, map[])]
                                      else old(users.profiles))
    {
      if body.Unparseable? {
        return true;
      }
      if body.user.Absent? || !Given(body.email) || !Given(body.username) {
        return true;
      }
      var r := users.CreateProfileFromEvent(body.user, body.email.value, body.username.value, db);
      return !r.Raised?;
    }

    /** _on_message: process a delivery and answer the broker, unless the process dies first. */
    method OnMessage(tag: Tag, db: Db, answers: bool, ghost auth: AuthService)
      requires auth.broker == broker && tag in broker.inFlight && broker.inFlight[tag].verdict.None?
      modifies users, broker
      ensures Exec(old(World(auth, users)), [Handle(tag, db)] + [if answers then Answer(tag) else Lose(tag)])
              == Some(World(auth, users))
      ensures broker.inFlight == old(broker.inFlight) - {tag}
      ensures var body := old(broker.inFlight)[tag].message;
              var ack := Process(old(users.profiles), body, db).ack;
              broker.queue == old(broker.queue) + (if answers && ack then multiset{} else multiset{body})
    {
      ghost var w0 := World(auth, users);
      var body := broker.inFlight[tag].message;
      var ack := ProcessMessage(body, db);
      broker.inFlight := broker.inFlight[tag := Delivery(body, Some(ack))];
      ghost var w1 := World(auth, users);
      assert w1 == Next(w0, Handle(tag, db));
      if !answers || !ack {
        broker.queue := broker.queue + multiset{body};
      }
      broker.inFlight := broker.inFlight - {tag};
      ghost var l := if answers then Answer(tag) else Lose(tag);
      assert World(auth, users) == Next(w1, l);
      ExecCons(w0, Handle(tag, db), [l]);
      assert [l] == [l] + [];
      ExecCons(w1, l, []);
    }
  }
}
