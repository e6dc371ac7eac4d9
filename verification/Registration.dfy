/** Registration to profile: auth-service commits an account and publishes its event, the broker
    delivers at least once, and user-service inserts a profile under a UNIQUE constraint. */
module Registration {
  import opened Domain

  type UserId = nat
  type Tag = nat

  datatype Account = Account(id: UserId, username: string, email: string, active: bool)

  /** The columns that a profile update may write. */
  datatype Field = FullName | Phone | DeliveryAddress | DietaryPreferences | FavoriteOrder | NotificationSettings

  type Details = map<Field, Option<string>>

  datatype Profile = Profile(user: UserId, email: string, username: string, details: Details)

  /** The user_id of an event as text. */
  datatype UserText = Absent | NotUuid | Uuid(id: UserId)

  /** A message body; None is a field that is missing or null. */
  datatype Message = Unparseable | Event(user: UserText, email: Option<string>, username: Option<string>)

  predicate Given(text: Option<string>) {
    text.Some? && text.value != ""
  }

  /** All three fields are there and not empty. */
  predicate Usable(m: Message) {
    m.Event? && !m.user.Absent? && Given(m.email) && Given(m.username)
  }

  predicate Complete(m: Message) {
    Usable(m) && m.user.Uuid?
  }

  /** A message that no retry can ever process and that is never dropped. */
  predicate Poison(m: Message) {
    Usable(m) && m.user.NotUuid?
  }

  function EventOf(a: Account): Message {
    Event(Uuid(a.id), Some(a.email), Some(a.username))
  }

  /** A delivered message; `verdict` is set when it was processed: true to ack, false to requeue. */
  datatype Delivery = Delivery(message: Message, verdict: Option<bool>)

  /** The database during one insert. A failing one may or may not have applied the commit. */
  datatype Db = Healthy | Failing(applied: bool)

  datatype State = State(
    accounts: map<UserId, Account>,
    queue: multiset<Message>,
    inFlight: map<Tag, Delivery>,
    profiles: seq<Profile>,
    pending: set<UserId>,        // sign-ups that have committed and are about to publish
    announced: set<UserId>       // history: accounts whose event has reached the queue
  )

  const INIT := State(map[], multiset{}, map[], [], {}, {})

  datatype Label =
    | Register(id: UserId, username: string, email: string)
    | Activate(email: string)
    | Publish(id: UserId, routed: bool)   // the one publication of a sign-up, which may be lost
    | Republish(id: UserId)      // by an operator; no service does it
    | Stray(message: Message)    // anything on the queue that is no complete event
    | Deliver(tag: Tag, message: Message)
    | Handle(tag: Tag, db: Db)
    | Answer(tag: Tag)           // ack or nack
    | Lose(tag: Tag)             // the consumer dies before the broker has its answer
    | Update(caller: string, id: UserId, changes: Details)

  // ---- Tables ----

  predicate Taken(accounts: map<UserId, Account>, username: string, email: string) {
    exists id :: id in accounts && (accounts[id].username == username || accounts[id].email == email)
  }

  /** INSERT under the UNIQUE constraints on username and email. */
  function Admit(accounts: map<UserId, Account>, id: UserId, username: string, email: string): map<UserId, Account> {
    if Taken(accounts, username, email) then accounts else accounts[id := Account(id, username, email, false)]
  }

  predicate HasProfile(profiles: seq<Profile>, id: UserId) {
    exists i :: 0 <= i < |profiles| && profiles[i].user == id
  }

  /** INSERT under the UNIQUE constraint on user_id. */
  function Insert(profiles: seq<Profile>, id: UserId, email: string, username: string): seq<Profile> {
    if HasProfile(profiles, id) then profiles else profiles + [Profile(id, email, username, map[])]
  }

  datatype Processed = Processed(profiles: seq<Profile>, ack: bool)

  /** Drop what cannot be an event, insert what can, requeue on any failure. */
  function Process(profiles: seq<Profile>, m: Message, db: Db): Processed {
    if !Usable(m) then Processed(profiles, true)
    else if Poison(m) then Processed(profiles, false)
    else
      var after := Insert(profiles, m.user.id, m.email.value, m.username.value);
      match db
      case Healthy => Processed(after, true)
      case Failing(applied) => Processed(if applied then after else profiles, false)
  }

  function Activated(accounts: map<UserId, Account>, email: string): map<UserId, Account> {
    map id | id in accounts ::
      if accounts[id].email == email then accounts[id].(active := true) else accounts[id]
  }

  /** A partial update by the holder of a token for `caller`; only the owner's changes anything. */
  function Updated(profiles: seq<Profile>, caller: string, id: UserId, changes: Details): seq<Profile> {
    seq(|profiles|, i requires 0 <= i < |profiles| =>
      if profiles[i].user == id && profiles[i].username == caller
      then profiles[i].(details := profiles[i].details + changes) else profiles[i])
  }

  // ---- Steps ----

  predicate Enabled(s: State, l: Label) {
    match l
    case Register(id, _, email) => id !in s.accounts && email != ""
    case Activate(_) => true
    case Publish(id, _) => id in s.pending && id in s.accounts
    case Republish(id) => id in s.accounts
    case Stray(m) => !Complete(m)
    case Deliver(tag, m) => m in s.queue && tag !in s.inFlight
    case Handle(tag, _) => tag in s.inFlight && s.inFlight[tag].verdict.None?
    case Answer(tag) => tag in s.inFlight && s.inFlight[tag].verdict.Some?
    case Lose(tag) => tag in s.inFlight
    case Update(_, _, _) => true
  }

  /** The event of account `id` reaches the queue. */
  function Announced(s: State, id: UserId): State
    requires id in s.accounts
  {
    s.(queue := s.queue + multiset{EventOf(s.accounts[id])}, announced := s.announced + {id})
  }

  function Next(s: State, l: Label): State
    requires Enabled(s, l)
  {
    match l
    case Register(id, username, email) =>
      s.(accounts := Admit(s.accounts, id, username, email),
         pending := if Taken(s.accounts, username, email) then s.pending else s.pending + {id})
    case Activate(email) => s.(accounts := Activated(s.accounts, email))
    case Publish(id, routed) => (if routed then Announced(s, id) else s).(pending := s.pending - {id})
    case Republish(id) => Announced(s, id)
    case Stray(m) => s.(queue := s.queue + multiset{m})
    case Deliver(tag, m) => s.(queue := s.queue - multiset{m}, inFlight := s.inFlight[tag := Delivery(m, None)])
    case Handle(tag, db) =>
      var done := Process(s.profiles, s.inFlight[tag].message, db);
      s.(profiles := done.profiles, inFlight := s.inFlight[tag := s.inFlight[tag].(verdict := Some(done.ack))])
    case Answer(tag) =>
      var back := if s.inFlight[tag].verdict.value then multiset{} else multiset{s.inFlight[tag].message};
      s.(queue := s.queue + back, inFlight := s.inFlight - {tag})
    case Lose(tag) => s.(queue := s.queue + multiset{s.inFlight[tag].message}, inFlight := s.inFlight - {tag})
    case Update(caller, id, changes) => s.(profiles := Updated(s.profiles, caller, id, changes))
  }

  function Exec(s: State, run: seq<Label>): Option<State>
    decreases |run|
  {
    if run == [] then Some(s)
    else if Enabled(s, run[0]) then Exec(Next(s, run[0]), run[1..])
    else None
  }

  lemma {:induction false} ExecConcat(s: State, a: seq<Label>, b: seq<Label>)
    requires Exec(s, a).Some?
    ensures Exec(s, a + b) == Exec(Exec(s, a).value, b)
    decreases |a|
  {
    if a == [] {
      assert a + b == b;
    } else {
      assert (a + b)[1..] == a[1..] + b;
      ExecConcat(Next(s, a[0]), a[1..], b);
    }
  }

  lemma ExecCons(s: State, l: Label, rest: seq<Label>)
    requires Enabled(s, l)
    ensures Exec(s, [l] + rest) == Exec(Next(s, l), rest)
  {
    assert ([l] + rest)[1..] == rest;
  }

  // ---- The invariant ----

  /** No two accounts share a username or an email. */
  ghost predicate Distinct(accounts: map<UserId, Account>) {
    && (forall id :: id in accounts ==> accounts[id].id == id && accounts[id].email != "")
    && (forall id, id' :: id in accounts && id' in accounts && id != id' ==>
          accounts[id].username != accounts[id'].username && accounts[id].email != accounts[id'].email)
  }

  ghost predicate AccountsOk(s: State) {
    Distinct(s.accounts)
  }

  /** A complete event tells the truth about an account. */
  predicate Truthful(accounts: map<UserId, Account>, m: Message) {
    Complete(m) ==> m.user.id in accounts && m == EventOf(accounts[m.user.id])
  }

  ghost predicate MessagesOk(s: State) {
    && (forall m :: m in s.queue ==> Truthful(s.accounts, m))
    && (forall tag :: tag in s.inFlight ==> Truthful(s.accounts, s.inFlight[tag].message))
  }

  /** A profile shows the identity of the account with its user_id. */
  predicate Mirrors(s: State, p: Profile) {
    && p.user in s.accounts && p.user in s.announced
    && p.username == s.accounts[p.user].username && p.email == s.accounts[p.user].email
    && p.username != ""
  }

  ghost predicate ProfilesOk(s: State) {
    && (forall i :: 0 <= i < |s.profiles| ==> Mirrors(s, s.profiles[i]))
    && (forall i, j :: 0 <= i < j < |s.profiles| ==> s.profiles[i].user != s.profiles[j].user)
  }

  ghost predicate Travelling(s: State, m: Message) {
    m in s.queue || exists tag :: tag in s.inFlight && s.inFlight[tag].message == m
  }

  /** No event that reached the queue is lost before its profile exists. */
  ghost predicate Kept(s: State) {
    && s.announced <= s.accounts.Keys && s.pending <= s.accounts.Keys
    && (forall id :: id in s.announced && s.accounts[id].username != "" ==>
          HasProfile(s.profiles, id) || Travelling(s, EventOf(s.accounts[id])))
    && (forall m :: Complete(m) && Travelling(s, m) ==> m.user.id in s.announced)
    && (forall tag :: tag in s.inFlight && s.inFlight[tag].verdict == Some(true) ==>
          Complete(s.inFlight[tag].message) ==> HasProfile(s.profiles, s.inFlight[tag].message.user.id))
  }

  ghost predicate Inv(s: State) {
    AccountsOk(s) && MessagesOk(s) && ProfilesOk(s) && Kept(s)
  }

  // ---- Every step keeps it ----

  lemma InsertAdds(profiles: seq<Profile>, id: UserId, email: string, username: string, x: UserId)
    ensures HasProfile(Insert(profiles, id, email, username), x) <==> HasProfile(profiles, x) || x == id
  {
    var after := Insert(profiles, id, email, username);
    assert forall i :: 0 <= i < |profiles| ==> after[i] == profiles[i];
    if !HasProfile(profiles, id) {
      assert after[|profiles|].user == id;
    }
  }

  /** What processing may do to the table: nothing, or the insert of a complete event. */
  lemma ProcessCases(profiles: seq<Profile>, m: Message, db: Db)
    ensures var done := Process(profiles, m, db);
            && (done.profiles == profiles
                || (Complete(m) && done.profiles == Insert(profiles, m.user.id, m.email.value, m.username.value)))
            && (done.ack && Complete(m) ==>
                  done.profiles == Insert(profiles, m.user.id, m.email.value, m.username.value))
  {
  }

  lemma UpdatedKeepsIds(profiles: seq<Profile>, caller: string, id: UserId, changes: Details, x: UserId)
    ensures HasProfile(Updated(profiles, caller, id, changes), x) <==> HasProfile(profiles, x)
  {
    var after := Updated(profiles, caller, id, changes);
    assert forall i :: 0 <= i < |profiles| ==> after[i].user == profiles[i].user;
  }

  /** Accounts keep their names, and announced accounts stay announced. */
  lemma Grows(s: State, l: Label)
    requires Enabled(s, l)
    ensures var s' := Next(s, l);
            && s.announced <= s'.announced
            && (forall id :: id in s.accounts ==>
                  && id in s'.accounts && s'.accounts[id].username == s.accounts[id].username
                  && s'.accounts[id].email == s.accounts[id].email && s'.accounts[id].id == s.accounts[id].id)
  {
  }

  lemma AdmitKeepsDistinct(accounts: map<UserId, Account>, id: UserId, username: string, email: string)
    requires Distinct(accounts) && id !in accounts && email != ""
    ensures Distinct(Admit(accounts, id, username, email))
  {
  }

  lemma AccountsStep(s: State, l: Label)
    requires AccountsOk(s) && Enabled(s, l)
    ensures AccountsOk(Next(s, l))
  {
    match l
    case Register(id, username, email) => AdmitKeepsDistinct(s.accounts, id, username, email);
    case Activate(email) =>
    case _ => assert Next(s, l).accounts == s.accounts;
  }

  lemma MessagesStep(s: State, l: Label)
    requires AccountsOk(s) && MessagesOk(s) && Enabled(s, l)
    ensures MessagesOk(Next(s, l))
  {
    Grows(s, l);
    var s' := Next(s, l);
    forall m | m in s'.queue ensures Truthful(s'.accounts, m) {
      assert m in s.queue || l.Publish? || l.Republish? || l.Stray? || l.Answer? || l.Lose?;
    }
  }

  lemma ProfilesStep(s: State, l: Label)
    requires Inv(s) && Enabled(s, l)
    ensures ProfilesOk(Next(s, l))
  {
    Grows(s, l);
    match l
    case Handle(tag, db) =>
      var m := s.inFlight[tag].message;
      ProcessCases(s.profiles, m, db);
      assert Travelling(s, m);
    case _ =>
  }

  lemma HasProfileStep(s: State, l: Label, id: UserId)
    requires Enabled(s, l) && HasProfile(s.profiles, id)
    ensures HasProfile(Next(s, l).profiles, id)
  {
    match l
    case Handle(tag, db) =>
      var m := s.inFlight[tag].message;
      ProcessCases(s.profiles, m, db);
      if Complete(m) {
        InsertAdds(s.profiles, m.user.id, m.email.value, m.username.value, id);
      }
    case Update(caller, u, changes) => UpdatedKeepsIds(s.profiles, caller, u, changes, id);
    case _ =>
  }

  lemma QueuedStep(s: State, l: Label, m: Message)
    requires Enabled(s, l) && m in s.queue
    ensures Travelling(Next(s, l), m)
  {
    if m !in Next(s, l).queue {
      assert Next(s, l).inFlight[l.tag].message == m;
    }
  }

  /** A delivery stays until it is answered or lost, and only an ack makes its message disappear. */
  lemma FlyingStep(s: State, l: Label, tag: Tag)
    requires Enabled(s, l) && tag in s.inFlight
    ensures var m := s.inFlight[tag].message;
            || Travelling(Next(s, l), m)
            || (l == Answer(tag) && s.inFlight[tag].verdict == Some(true))
  {
    if l != Answer(tag) && l != Lose(tag) {
      assert tag in Next(s, l).inFlight && Next(s, l).inFlight[tag].message == s.inFlight[tag].message;
    }
  }

  /** A complete event stays in travel until its profile exists. */
  lemma TravelStep(s: State, l: Label, m: Message)
    requires Kept(s) && Enabled(s, l) && Complete(m) && Travelling(s, m)
    ensures Travelling(Next(s, l), m) || HasProfile(Next(s, l).profiles, m.user.id)
  {
    if m in s.queue {
      QueuedStep(s, l, m);
    } else {
      var tag :| tag in s.inFlight && s.inFlight[tag].message == m;
      FlyingStep(s, l, tag);
    }
  }

  lemma KeptEvents(s: State, l: Label, id: UserId)
    requires Inv(s) && Enabled(s, l)
    requires id in Next(s, l).announced && Next(s, l).accounts[id].username != ""
    ensures HasProfile(Next(s, l).profiles, id) || Travelling(Next(s, l), EventOf(Next(s, l).accounts[id]))
  {
    Grows(s, l);
    if id in s.announced {
      var m := EventOf(s.accounts[id]);
      assert m == EventOf(Next(s, l).accounts[id]);
      if HasProfile(s.profiles, id) {
        HasProfileStep(s, l, id);
      } else {
        TravelStep(s, l, m);
      }
    }
  }

  lemma KeptSources(s: State, l: Label, m: Message)
    requires Inv(s) && Enabled(s, l) && Complete(m) && Travelling(Next(s, l), m)
    ensures m.user.id in Next(s, l).announced
  {
    Grows(s, l);
    if !Travelling(s, m) {
      assert l.Publish? || l.Republish?;
    }
  }

  lemma KeptAcks(s: State, l: Label, tag: Tag)
    requires Inv(s) && Enabled(s, l)
    requires var s' := Next(s, l);
             tag in s'.inFlight && s'.inFlight[tag].verdict == Some(true) && Complete(s'.inFlight[tag].message)
    ensures HasProfile(Next(s, l).profiles, Next(s, l).inFlight[tag].message.user.id)
  {
    if tag in s.inFlight && s.inFlight[tag].verdict == Some(true) {
      HasProfileStep(s, l, s.inFlight[tag].message.user.id);
    } else if l.Handle? {
      var m := s.inFlight[tag].message;
      ProcessCases(s.profiles, m, l.db);
      InsertAdds(s.profiles, m.user.id, m.email.value, m.username.value, m.user.id);
    }
  }

  lemma InvStep(s: State, l: Label)
    requires Inv(s) && Enabled(s, l)
    ensures Inv(Next(s, l))
  {
    var s' := Next(s, l);
    Grows(s, l);
    AccountsStep(s, l);
    MessagesStep(s, l);
    ProfilesStep(s, l);
    forall id | id in s'.announced && s'.accounts[id].username != ""
      ensures HasProfile(s'.profiles, id) || Travelling(s', EventOf(s'.accounts[id]))
    {
      KeptEvents(s, l, id);
    }
    forall m | Complete(m) && Travelling(s', m) ensures m.user.id in s'.announced {
      KeptSources(s, l, m);
    }
    forall tag | tag in s'.inFlight && s'.inFlight[tag].verdict == Some(true) && Complete(s'.inFlight[tag].message)
      ensures HasProfile(s'.profiles, s'.inFlight[tag].message.user.id)
    {
      KeptAcks(s, l, tag);
    }
  }

  lemma {:induction false} InvRun(s: State, run: seq<Label>)
    requires Inv(s) && Exec(s, run).Some?
    ensures Inv(Exec(s, run).value)
    decreases |run|
  {
    if run != [] {
      InvStep(s, run[0]);
      InvRun(Next(s, run[0]), run[1..]);
    }
  }

  // ---- Exactly once from at least once ----

  /** In every run, through duplicates, redeliveries, requeues and crashes, no user has two
      profiles, and each announced event of an account that has a username is still queued or in
      flight or has led to the profile. */
  lemma AtLeastOnceIsEnough(run: seq<Label>, id: UserId)
    requires Exec(INIT, run).Some?
    ensures var s := Exec(INIT, run).value;
            && (forall i, j :: 0 <= i < j < |s.profiles| ==> s.profiles[i].user != s.profiles[j].user)
            && (id in s.announced ==> id in s.accounts)
            && (id in s.announced && s.accounts[id].username != "" ==>
                  HasProfile(s.profiles, id) || Travelling(s, EventOf(s.accounts[id])))
  {
    InvRun(INIT, run);
  }

  /** Nothing but messages that are requeued forever is left to process. */
  ghost predicate Drained(s: State) {
    s.inFlight == map[] && forall m :: m in s.queue ==> Poison(m)
  }

  lemma DrainedProfiles(s: State, id: UserId)
    requires Inv(s) && Drained(s)
    ensures HasProfile(s.profiles, id) <==> id in s.announced && id in s.accounts && s.accounts[id].username != ""
  {
    if HasProfile(s.profiles, id) {
      var i :| 0 <= i < |s.profiles| && s.profiles[i].user == id;
      assert Mirrors(s, s.profiles[i]);
    }
  }

  /** Once drained, profiles exist for exactly the announced accounts that have a username. An
      account with an empty username is registered and announced, yet its event is dropped. */
  lemma DrainedExactly(run: seq<Label>, id: UserId)
    requires Exec(INIT, run).Some? && Drained(Exec(INIT, run).value)
    ensures var s := Exec(INIT, run).value;
            HasProfile(s.profiles, id) <==> id in s.announced && id in s.accounts && s.accounts[id].username != ""
  {
    InvRun(INIT, run);
    DrainedProfiles(Exec(INIT, run).value, id);
  }

  /** Inserts of a profile of `id` along a run. */
  function Inserts(s: State, run: seq<Label>, id: UserId): nat
    requires Exec(s, run).Some?
    decreases |run|
  {
    if run == [] then 0
    else
      var s' := Next(s, run[0]);
      (if |s'.profiles| > |s.profiles| && s'.profiles[|s.profiles|].user == id then 1 else 0)
      + Inserts(s', run[1..], id)
  }

  lemma {:induction false} InsertsAfter(s: State, run: seq<Label>, id: UserId)
    requires Inv(s) && Exec(s, run).Some?
    ensures Inserts(s, run, id) + (if HasProfile(s.profiles, id) then 1 else 0)
            == if HasProfile(Exec(s, run).value.profiles, id) then 1 else 0
    decreases |run|
  {
    if run != [] {
      var l, s' := run[0], Next(s, run[0]);
      InvStep(s, l);
      InsertsAfter(s', run[1..], id);
      if HasProfile(s.profiles, id) {
        HasProfileStep(s, l, id);
        NoSecondInsert(s, l, id);
      } else {
        FirstInsert(s, l, id);
      }
    }
  }

  lemma NoSecondInsert(s: State, l: Label, id: UserId)
    requires Inv(s) && Enabled(s, l) && HasProfile(s.profiles, id)
    ensures var s' := Next(s, l); |s'.profiles| > |s.profiles| ==> s'.profiles[|s.profiles|].user != id
  {
  }

  lemma FirstInsert(s: State, l: Label, id: UserId)
    requires Inv(s) && Enabled(s, l) && !HasProfile(s.profiles, id)
    ensures var s' := Next(s, l);
            HasProfile(s'.profiles, id) <==> |s'.profiles| > |s.profiles| && s'.profiles[|s.profiles|].user == id
  {
    match l
    case Update(caller, u, changes) => UpdatedKeepsIds(s.profiles, caller, u, changes, id);
    case Handle(tag, db) =>
      var m := s.inFlight[tag].message;
      ProcessCases(s.profiles, m, db);
      if Complete(m) {
        InsertAdds(s.profiles, m.user.id, m.email.value, m.username.value, id);
      }
    case _ =>
  }

  /** However often its event is delivered, a profile is inserted exactly once if it exists, and
      never otherwise. */
  lemma ExactlyOneInsert(run: seq<Label>, id: UserId)
    requires Exec(INIT, run).Some?
    ensures Inserts(INIT, run, id) == if HasProfile(Exec(INIT, run).value.profiles, id) then 1 else 0
  {
    InsertsAfter(INIT, run, id);
  }

  // ---- The profile can always still be made ----

  predicate ConsumerStep(l: Label) {
    l.Deliver? || l.Handle? || l.Answer? || l.Lose?
  }

  ghost predicate ConsumerRun(run: seq<Label>) {
    forall i :: 0 <= i < |run| ==> ConsumerStep(run[i])
  }

  lemma {:induction false} LoseAll(s: State) returns (run: seq<Label>)
    ensures ConsumerRun(run) && Exec(s, run).Some? && Exec(s, run).value.inFlight == map[]
    decreases |s.inFlight|
  {
    if s.inFlight == map[] {
      run := [];
    } else {
      var tag :| tag in s.inFlight;
      var rest := LoseAll(Next(s, Lose(tag)));
      ExecCons(s, Lose(tag), rest);
      run := [Lose(tag)] + rest;
    }
  }

  /** A healthy consumer finishes any message that is not poison. */
  lemma FinishOne(s: State, m: Message, rest: seq<Label>)
    requires s.inFlight == map[] && m in s.queue && !Poison(m)
    ensures var done := s.(queue := s.queue - multiset{m}, profiles := Process(s.profiles, m, Healthy).profiles);
            Exec(s, [Deliver(0, m)] + ([Handle(0, Healthy)] + ([Answer(0)] + rest))) == Exec(done, rest)
  {
    var s1 := Next(s, Deliver(0, m));
    var s2 := Next(s1, Handle(0, Healthy));
    ExecCons(s, Deliver(0, m), [Handle(0, Healthy)] + ([Answer(0)] + rest));
    ExecCons(s1, Handle(0, Healthy), [Answer(0)] + rest);
    ExecCons(s2, Answer(0), rest);
    assert Next(s2, Answer(0)).inFlight == map[];
    assert Next(s2, Answer(0)).queue == s.queue - multiset{m};
  }

  lemma {:induction false} DrainQueue(s: State) returns (run: seq<Label>)
    requires s.inFlight == map[]
    ensures ConsumerRun(run) && Exec(s, run).Some? && Drained(Exec(s, run).value)
    decreases |s.queue|
  {
    if forall m :: m in s.queue ==> Poison(m) {
      run := [];
    } else {
      var m :| m in s.queue && !Poison(m);
      var done := s.(queue := s.queue - multiset{m}, profiles := Process(s.profiles, m, Healthy).profiles);
      var rest := DrainQueue(done);
      FinishOne(s, m, rest);
      run := [Deliver(0, m)] + ([Handle(0, Healthy)] + ([Answer(0)] + rest));
    }
  }

  /** From every state the consumer alone can get to where only poison is left. */
  lemma CanDrain(s: State) returns (run: seq<Label>)
    ensures ConsumerRun(run) && Exec(s, run).Some? && Drained(Exec(s, run).value)
  {
    var first := LoseAll(s);
    var rest := DrainQueue(Exec(s, first).value);
    ExecConcat(s, first, rest);
    run := first + rest;
  }

  lemma {:induction false} GrowsRun(s: State, run: seq<Label>, id: UserId)
    requires Exec(s, run).Some? && id in s.accounts
    ensures var s' := Exec(s, run).value;
            && id in s'.accounts && s'.accounts[id].username == s.accounts[id].username
            && s.announced <= s'.announced
    decreases |run|
  {
    if run != [] {
      Grows(s, run[0]);
      GrowsRun(Next(s, run[0]), run[1..], id);
    }
  }

  ghost predicate LeadsToProfile(s: State, run: seq<Label>, id: UserId) {
    Exec(s, run).Some? && HasProfile(Exec(s, run).value.profiles, id)
  }

  lemma DrainMakesProfile(s: State, id: UserId) returns (rest: seq<Label>)
    requires Inv(s) && id in s.announced && s.accounts[id].username != ""
    ensures ConsumerRun(rest) && LeadsToProfile(s, rest, id)
  {
    rest := CanDrain(s);
    InvRun(s, rest);
    GrowsRun(s, rest, id);
    DrainedProfiles(Exec(s, rest).value, id);
  }

  /** What the services do by themselves. */
  ghost predicate Unaided(run: seq<Label>) {
    forall i :: 0 <= i < |run| ==> !run[i].Republish?
  }

  lemma {:induction false} UnaidedKeeps(s: State, run: seq<Label>, id: UserId)
    requires Exec(s, run).Some? && Unaided(run) && id in s.accounts
    ensures var s' := Exec(s, run).value;
            id in s'.announced || id in s'.pending ==> id in s.announced || id in s.pending
    decreases |run|
  {
    if run != [] {
      assert !run[0].Republish?;
      Grows(s, run[0]);
      UnaidedKeeps(Next(s, run[0]), run[1..], id);
    }
  }

  lemma ProfileHasCause(s: State, more: seq<Label>, id: UserId)
    requires Inv(s) && id in s.accounts && LeadsToProfile(s, more, id)
    ensures id in Exec(s, more).value.announced && s.accounts[id].username != ""
  {
    InvRun(s, more);
    GrowsRun(s, more, id);
    var s' := Exec(s, more).value;
    var i :| 0 <= i < |s'.profiles| && s'.profiles[i].user == id;
    assert Mirrors(s', s'.profiles[i]);
  }

  /** In every reachable state, the services by themselves can still give an account its profile
      exactly when its username is not empty and its event has reached the queue or its sign-up
      has yet to publish it. A publication that was lost is lost for good. */
  lemma ProfileReachExact(run: seq<Label>, id: UserId)
    requires Exec(INIT, run).Some? && id in Exec(INIT, run).value.accounts
    ensures var s := Exec(INIT, run).value;
            (exists more :: Unaided(more) && LeadsToProfile(s, more, id))
            <==> s.accounts[id].username != "" && (id in s.announced || id in s.pending)
  {
    var s := Exec(INIT, run).value;
    InvRun(INIT, run);
    if more :| Unaided(more) && LeadsToProfile(s, more, id) {
      ProfileHasCause(s, more, id);
      UnaidedKeeps(s, more, id);
    }
    if s.accounts[id].username != "" && id in s.announced {
      var rest := DrainMakesProfile(s, id);
      assert Unaided(rest);
    } else if s.accounts[id].username != "" && id in s.pending {
      var rest := AnnouncedMakesProfile(s, Publish(id, true), id);
      assert Unaided([Publish(id, true)] + rest);
    }
  }

  lemma AnnouncedMakesProfile(s: State, l: Label, id: UserId) returns (rest: seq<Label>)
    requires Inv(s) && id in s.accounts && s.accounts[id].username != ""
    requires Enabled(s, l) && (l == Publish(id, true) || l == Republish(id))
    ensures ConsumerRun(rest) && LeadsToProfile(s, [l] + rest, id)
  {
    InvStep(s, l);
    rest := DrainMakesProfile(Next(s, l), id);
    ExecCons(s, l, rest);
  }

  /** With an operator who republishes, an account can get its profile exactly when its username
      is not empty. */
  lemma ProfileReachWithRepublication(run: seq<Label>, id: UserId)
    requires Exec(INIT, run).Some? && id in Exec(INIT, run).value.accounts
    ensures var s := Exec(INIT, run).value;
            (exists more :: LeadsToProfile(s, more, id)) <==> s.accounts[id].username != ""
  {
    var s := Exec(INIT, run).value;
    InvRun(INIT, run);
    if more :| LeadsToProfile(s, more, id) {
      ProfileHasCause(s, more, id);
    }
    if s.accounts[id].username != "" {
      var rest := AnnouncedMakesProfile(s, Republish(id), id);
    }
  }

  /** A concrete run: ada registers, the one publication of her event is lost, and no continuation
      of the services ever gives her a profile. */
  lemma LostPublication()
    ensures var run := [Register(1, "ada", "ada@example.com"), Publish(1, false)];
            && Exec(INIT, run).Some? && 1 in Exec(INIT, run).value.accounts
            && !exists more :: Unaided(more) && LeadsToProfile(Exec(INIT, run).value, more, 1)
  {
    var a, b := Register(1, "ada", "ada@example.com"), Publish(1, false);
    assert [a, b] == [a] + ([b] + []);
    ExecCons(INIT, a, [b] + []);
    ExecCons(Next(INIT, a), b, []);
    ProfileReachExact([a, b], 1);
  }

  /** A concrete run: an account with an empty username is registered and its event published, and
      no continuation at all gives it a profile. */
  lemma NamelessAccount()
    ensures var run := [Register(1, "", "ada@example.com"), Publish(1, true)];
            && Exec(INIT, run).Some? && 1 in Exec(INIT, run).value.accounts
            && !exists more :: LeadsToProfile(Exec(INIT, run).value, more, 1)
  {
    var a, b := Register(1, "", "ada@example.com"), Publish(1, true);
    assert [a, b] == [a] + ([b] + []);
    ExecCons(INIT, a, [b] + []);
    ExecCons(Next(INIT, a), b, []);
    ProfileReachWithRepublication([a, b], 1);
  }

  /** `m` is still to be processed: on the queue, or in flight and not about to be acked. */
  ghost predicate Unsettled(s: State, m: Message) {
    && Travelling(s, m)
    && forall tag :: tag in s.inFlight && s.inFlight[tag].message == m ==> s.inFlight[tag].verdict != Some(true)
  }

  lemma PoisonStep(s: State, l: Label, m: Message)
    requires Enabled(s, l) && Poison(m) && Unsettled(s, m)
    ensures Unsettled(Next(s, l), m)
  {
    if m in s.queue {
      QueuedStep(s, l, m);
    } else {
      var tag :| tag in s.inFlight && s.inFlight[tag].message == m;
      FlyingStep(s, l, tag);
    }
  }

  /** A poison message is never dropped: in every continuation it is still to be processed. */
  lemma {:induction false} PoisonStays(s: State, run: seq<Label>, m: Message)
    requires Exec(s, run).Some? && Poison(m) && Unsettled(s, m)
    ensures Unsettled(Exec(s, run).value, m)
    decreases |run|
  {
    if run != [] {
      PoisonStep(s, run[0], m);
      PoisonStays(Next(s, run[0]), run[1..], m);
    }
  }

  ghost predicate Settles(s: State, run: seq<Label>, m: Message) {
    Exec(s, run).Some? && !Unsettled(Exec(s, run).value, m)
  }

  /** From any state, a message that is to be processed can be done with exactly when it is not
      poison: it lacks a field, is no JSON, or has a UUID. */
  lemma SettledExactly(s: State, m: Message)
    requires Unsettled(s, m)
    ensures (exists run :: Settles(s, run, m)) <==> !Poison(m)
  {
    if Poison(m) {
      forall run | Exec(s, run).Some? ensures !Settles(s, run, m) {
        PoisonStays(s, run, m);
      }
    } else {
      var run := CanDrain(s);
      assert !Travelling(Exec(s, run).value, m);
      assert Settles(s, run, m);
    }
  }

  /** A concrete run: one message with an email, a username and a user_id that is no UUID is on the
      queue, and no continuation is ever done with it. */
  lemma PoisonFromTheStart()
    ensures var m := Event(NotUuid, Some("ada@example.com"), Some("ada"));
            var end := Exec(INIT, [Stray(m)]);
            end.Some? && Unsettled(end.value, m) && !exists run :: Settles(end.value, run, m)
  {
    var m := Event(NotUuid, Some("ada@example.com"), Some("ada"));
    assert [Stray(m)] == [Stray(m)] + [];
    ExecCons(INIT, Stray(m), []);
    SettledExactly(Next(INIT, Stray(m)), m);
  }

  // ---- Activation ----

  /** Step `k` of `run` activates account `id`, which exists by then. */
  ghost predicate ActivatesAt(s: State, run: seq<Label>, k: nat, id: UserId) {
    && k < |run| && Exec(s, run[..k]).Some?
    && id in Exec(s, run[..k]).value.accounts && run[k] == Activate(Exec(s, run[..k]).value.accounts[id].email)
  }

  lemma ActivatesLater(s: State, run: seq<Label>, k: nat, id: UserId)
    requires run != [] && Enabled(s, run[0])
    ensures ActivatesAt(s, run, k + 1, id) <==> ActivatesAt(Next(s, run[0]), run[1..], k, id)
  {
    if k < |run| - 1 {
      assert run[..k + 1][0] == run[0] && run[..k + 1][1..] == run[1..][..k];
    }
  }

  lemma ActiveStep(s: State, l: Label, id: UserId)
    requires Enabled(s, l) && id in Next(s, l).accounts && Next(s, l).accounts[id].active
    ensures id in s.accounts && (s.accounts[id].active || l == Activate(s.accounts[id].email))
  {
  }

  /** An account can log in only if its own email was verified: it was active at the start or a
      step of the run activated it, and nothing ever deactivates it. */
  lemma {:induction false} ActiveExactly(s: State, run: seq<Label>, id: UserId)
    requires Exec(s, run).Some? && id in Exec(s, run).value.accounts
    ensures Exec(s, run).value.accounts[id].active <==>
              (id in s.accounts && s.accounts[id].active) || exists k: nat :: ActivatesAt(s, run, k, id)
    decreases |run|
  {
    if run != [] {
      var l, s' := run[0], Next(s, run[0]);
      ActiveExactly(s', run[1..], id);
      forall k: nat ensures ActivatesAt(s, run, k + 1, id) <==> ActivatesAt(s', run[1..], k, id) {
        ActivatesLater(s, run, k, id);
      }
      assert ActivatesAt(s, run, 0, id) <==> id in s.accounts && l == Activate(s.accounts[id].email) by {
        assert run[..0] == [];
      }
      if id in s'.accounts && s'.accounts[id].active {
        ActiveStep(s, l, id);
      }
      if k: nat :| ActivatesAt(s', run[1..], k, id) {
        assert ActivatesAt(s, run, k + 1, id);
      }
      if k: nat :| ActivatesAt(s, run, k, id) {
        if k == 0 {
          assert id in s'.accounts && s'.accounts[id].active;
        } else {
          ActivatesLater(s, run, k - 1, id);
        }
      }
    }
  }

  // ---- Identity and updates ----

  /** In every run a profile shows its account's username and email, so comparing the username of
      a caller's token with the profile's accepts the owner and nobody else. */
  lemma OwnerOnly(run: seq<Label>, i: nat, caller: UserId)
    requires Exec(INIT, run).Some?
    requires i < |Exec(INIT, run).value.profiles| && caller in Exec(INIT, run).value.accounts
    ensures var s := Exec(INIT, run).value;
            var p := s.profiles[i];
            && p.user in s.accounts && p.username == s.accounts[p.user].username && p.email == s.accounts[p.user].email
            && (s.accounts[caller].username == p.username <==> caller == p.user)
  {
    InvRun(INIT, run);
    assert Mirrors(Exec(INIT, run).value, Exec(INIT, run).value.profiles[i]);
  }

  /** The details after the updates of `run` that name `user` and come from `username`, in order. */
  function UpdatesOf(details: Details, run: seq<Label>, user: UserId, username: string): Details
    decreases |run|
  {
    if run == [] then details
    else
      var l := run[0];
      UpdatesOf(if l.Update? && l.id == user && l.caller == username then details + l.changes else details,
                run[1..], user, username)
  }

  lemma RowStep(s: State, l: Label, i: nat)
    requires Enabled(s, l) && i < |s.profiles|
    ensures var p := s.profiles[i];
            && i < |Next(s, l).profiles|
            && Next(s, l).profiles[i] == if l.Update? && l.id == p.user && l.caller == p.username
                                         then p.(details := p.details + l.changes) else p
  {
  }

  /** A row changes by its owner's updates and by nothing else: redelivered events undo none. */
  lemma {:induction false} RowFollowsOwner(s: State, run: seq<Label>, i: nat)
    requires Exec(s, run).Some? && i < |s.profiles|
    ensures var p := s.profiles[i];
            && i < |Exec(s, run).value.profiles|
            && Exec(s, run).value.profiles[i] == p.(details := UpdatesOf(p.details, run, p.user, p.username))
    decreases |run|
  {
    if run != [] {
      RowStep(s, run[0], i);
      RowFollowsOwner(Next(s, run[0]), run[1..], i);
    }
  }

  lemma NewRowStep(s: State, l: Label, i: nat)
    requires Enabled(s, l) && |s.profiles| <= i < |Next(s, l).profiles|
    ensures l.Handle? && i == |s.profiles| && Next(s, l).profiles[i].details == map[]
  {
  }

  /** Every profile starts empty when step `k` handles its event, and then holds exactly what its
      owner's updates since then made of it. */
  lemma {:induction false} ProfileHistory(s: State, run: seq<Label>, i: nat) returns (k: nat)
    requires Exec(s, run).Some? && |s.profiles| <= i < |Exec(s, run).value.profiles|
    ensures k < |run| && run[k].Handle?
    ensures var p := Exec(s, run).value.profiles[i];
            p.details == UpdatesOf(map[], run[k + 1..], p.user, p.username)
    decreases |run|
  {
    var s' := Next(s, run[0]);
    if i < |s'.profiles| {
      k := 0;
      NewRowStep(s, run[0], i);
      RowFollowsOwner(s', run[1..], i);
    } else {
      var k' := ProfileHistory(s', run[1..], i);
      k := k' + 1;
      assert run[1..][k' + 1..] == run[k + 1..];
    }
  }
}
