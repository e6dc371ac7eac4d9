/** Registration as it is deployed: one consumer that takes one message at a time from the head of
    an ordered queue, to which a message that is not acknowledged goes back. Every run in order is a
    run of the unordered system, so what holds of all runs there holds here. */
module RegistrationInOrder {
  import opened Domain
  import opened Registration

  /** The state, with its queue in order. */
  datatype Line = Line(s: State, order: seq<Message>)

  const START := Line(INIT, [])

  type Deliveries = map<Tag, Delivery>

  /** At most one message is in flight, and poison is never acknowledged. */
  ghost predicate Single(inFlight: Deliveries) {
    && (forall tag, tag' :: tag in inFlight && tag' in inFlight ==> tag == tag')
    && (forall tag :: tag in inFlight && inFlight[tag].verdict == Some(true) ==> !Poison(inFlight[tag].message))
  }

  ghost predicate InLine(x: Line) {
    multiset(x.order) == x.s.queue && Single(x.s.inFlight)
  }

  predicate Ready(x: Line, l: Label) {
    && Enabled(x.s, l)
    && (l.Deliver? ==> x.s.inFlight == map[] && x.order != [] && l.message == x.order[0])
  }

  /** Publications join the end of the line; what comes back rejoins its head. */
  function Reordered(x: Line, l: Label): seq<Message>
    requires Ready(x, l)
  {
    match l
    case Publish(id, routed) => if routed then x.order + [EventOf(x.s.accounts[id])] else x.order
    case Republish(id) => x.order + [EventOf(x.s.accounts[id])]
    case Stray(m) => x.order + [m]
    case Deliver(_, _) => x.order[1..]
    case Answer(tag) =>
      if x.s.inFlight[tag].verdict.value then x.order else [x.s.inFlight[tag].message] + x.order
    case Lose(tag) => [x.s.inFlight[tag].message] + x.order
    case _ => x.order
  }

  function Step(x: Line, l: Label): Line
    requires Ready(x, l)
  {
    Line(Next(x.s, l), Reordered(x, l))
  }

  function Flow(x: Line, run: seq<Label>): Option<Line>
    decreases |run|
  {
    if run == [] then Some(x)
    else if Ready(x, run[0]) then Flow(Step(x, run[0]), run[1..])
    else None
  }

  /** A run in order is a run. */
  lemma {:induction false} FlowIsRun(x: Line, run: seq<Label>)
    requires Flow(x, run).Some?
    ensures Exec(x.s, run) == Some(Flow(x, run).value.s)
    decreases |run|
  {
    if run != [] {
      FlowIsRun(Step(x, run[0]), run[1..]);
    }
  }

  lemma {:induction false} FlowConcat(x: Line, a: seq<Label>, b: seq<Label>)
    requires Flow(x, a).Some?
    ensures Flow(x, a + b) == Flow(Flow(x, a).value, b)
    decreases |a|
  {
    if a == [] {
      assert a + b == b;
    } else {
      assert (a + b)[1..] == a[1..] + b;
      FlowConcat(Step(x, a[0]), a[1..], b);
    }
  }

  lemma FlowCons(x: Line, l: Label, rest: seq<Label>)
    requires Ready(x, l)
    ensures Flow(x, [l] + rest) == Flow(Step(x, l), rest)
  {
    assert ([l] + rest)[1..] == rest;
  }

  // ---- The messages still to be processed, in order ----

  ghost function Flying(inFlight: Deliveries): seq<Message> {
    if inFlight == map[] then []
    else
      var tag :| tag in inFlight;
      [inFlight[tag].message]
  }

  ghost function Waiting(x: Line): seq<Message> {
    Flying(x.s.inFlight) + x.order
  }

  lemma FlyingIs(inFlight: Deliveries, tag: Tag)
    requires Single(inFlight) && tag in inFlight
    ensures Flying(inFlight) == [inFlight[tag].message]
    ensures inFlight - {tag} == map[]
  {
  }

  lemma Bag(m: Message, order: seq<Message>)
    ensures multiset([m] + order) == multiset(order) + multiset{m}
    ensures multiset(order + [m]) == multiset(order) + multiset{m}
  {
  }

  lemma OrderJoins(x: Line, l: Label)
    requires multiset(x.order) == x.s.queue && Ready(x, l) && (l.Publish? || l.Republish? || l.Stray?)
    ensures multiset(Reordered(x, l)) == Next(x.s, l).queue
  {
    match l
    case Publish(id, routed) => Bag(EventOf(x.s.accounts[id]), x.order);
    case Republish(id) => Bag(EventOf(x.s.accounts[id]), x.order);
    case Stray(m) => Bag(m, x.order);
  }

  lemma OrderDelivers(x: Line, tag: Tag, m: Message)
    requires multiset(x.order) == x.s.queue && Ready(x, Deliver(tag, m))
    ensures multiset(x.order[1..]) == x.s.queue - multiset{m}
  {
    assert x.order == [m] + x.order[1..];
    Bag(m, x.order[1..]);
  }

  lemma OrderReturns(x: Line, l: Label)
    requires multiset(x.order) == x.s.queue && Ready(x, l) && (l.Answer? || l.Lose?)
    ensures multiset(Reordered(x, l)) == Next(x.s, l).queue
  {
    Bag(x.s.inFlight[l.tag].message, x.order);
  }

  lemma OrderStep(x: Line, l: Label)
    requires multiset(x.order) == x.s.queue && Ready(x, l)
    ensures multiset(Reordered(x, l)) == Next(x.s, l).queue
  {
    if l.Publish? || l.Republish? || l.Stray? {
      OrderJoins(x, l);
    } else if l.Deliver? {
      OrderDelivers(x, l.tag, l.message);
    } else if l.Answer? || l.Lose? {
      OrderReturns(x, l);
    }
  }

  lemma SingleStep(x: Line, l: Label)
    requires Single(x.s.inFlight) && Ready(x, l)
    ensures Single(Next(x.s, l).inFlight)
  {
  }

  lemma StepInLine(x: Line, l: Label)
    requires InLine(x) && Ready(x, l)
    ensures InLine(Step(x, l))
  {
    OrderStep(x, l);
    SingleStep(x, l);
  }

  /** What a publication adds to the end of the line. */
  function Joining(x: Line, l: Label): seq<Message>
    requires Ready(x, l)
  {
    match l
    case Publish(id, routed) => if routed then [EventOf(x.s.accounts[id])] else []
    case Republish(id) => [EventOf(x.s.accounts[id])]
    case Stray(m) => [m]
    case _ => []
  }

  lemma WaitingAnswer(x: Line, tag: Tag)
    requires InLine(x) && Ready(x, Answer(tag))
    ensures Waiting(Step(x, Answer(tag))) == if x.s.inFlight[tag].verdict.value then Waiting(x)[1..] else Waiting(x)
  {
    FlyingIs(x.s.inFlight, tag);
  }

  lemma WaitingLose(x: Line, tag: Tag)
    requires InLine(x) && Ready(x, Lose(tag))
    ensures Waiting(Step(x, Lose(tag))) == Waiting(x)
  {
    FlyingIs(x.s.inFlight, tag);
  }

  lemma WaitingDeliver(x: Line, tag: Tag, m: Message)
    requires InLine(x) && Ready(x, Deliver(tag, m))
    ensures Waiting(Step(x, Deliver(tag, m))) == Waiting(x)
  {
    SingleStep(x, Deliver(tag, m));
    FlyingIs(Next(x.s, Deliver(tag, m)).inFlight, tag);
  }

  lemma WaitingHandle(x: Line, tag: Tag, db: Db)
    requires InLine(x) && Ready(x, Handle(tag, db))
    ensures Waiting(Step(x, Handle(tag, db))) == Waiting(x)
  {
    SingleStep(x, Handle(tag, db));
    FlyingIs(x.s.inFlight, tag);
    FlyingIs(Next(x.s, Handle(tag, db)).inFlight, tag);
  }

  lemma OthersKeepFlight(s: State, l: Label)
    requires Enabled(s, l) && !l.Handle? && !l.Answer? && !l.Lose? && !l.Deliver?
    ensures Next(s, l).inFlight == s.inFlight
  {
  }

  lemma OthersJoin(x: Line, l: Label)
    requires Ready(x, l) && !l.Handle? && !l.Answer? && !l.Lose? && !l.Deliver?
    ensures Reordered(x, l) == x.order + Joining(x, l)
  {
  }

  lemma WaitingJoins(x: Line, l: Label)
    requires Ready(x, l) && !l.Handle? && !l.Answer? && !l.Lose? && !l.Deliver?
    ensures Waiting(Step(x, l)) == Waiting(x) + Joining(x, l)
  {
    OthersKeepFlight(x.s, l);
    OthersJoin(x, l);
    assert Flying(x.s.inFlight) + (x.order + Joining(x, l)) == Waiting(x) + Joining(x, l);
  }

  /** Messages join at the end; only an ack takes one away, and that is the first. */
  lemma WaitingStep(x: Line, l: Label)
    requires InLine(x) && Ready(x, l)
    ensures Waiting(Step(x, l)) ==
            if l.Answer? && x.s.inFlight[l.tag].verdict.value then Waiting(x)[1..] else Waiting(x) + Joining(x, l)
  {
    match l
    case Answer(tag) => WaitingAnswer(x, tag);
    case Lose(tag) => WaitingLose(x, tag);
    case Deliver(tag, m) => WaitingDeliver(x, tag, m);
    case Handle(tag, db) => WaitingHandle(x, tag, db);
    case _ => WaitingJoins(x, l);
  }

  lemma WaitingTravels(x: Line, m: Message)
    requires InLine(x)
    ensures m in Waiting(x) <==> Travelling(x.s, m)
  {
    assert m in x.order <==> m in multiset(x.order);
    if tag :| tag in x.s.inFlight {
      FlyingIs(x.s.inFlight, tag);
    }
  }

  lemma {:induction false} FlowInLine(x: Line, run: seq<Label>)
    requires InLine(x) && Inv(x.s) && Flow(x, run).Some?
    ensures InLine(Flow(x, run).value) && Inv(Flow(x, run).value.s)
    decreases |run|
  {
    if run != [] {
      StepInLine(x, run[0]);
      InvStep(x.s, run[0]);
      FlowInLine(Step(x, run[0]), run[1..]);
    }
  }

  // ---- Behind a poison message ----

  predicate NoPoison(w: seq<Message>) {
    forall i :: 0 <= i < |w| ==> !Poison(w[i])
  }

  /** A copy of `m` comes before any poison. */
  predicate Ahead(w: seq<Message>, m: Message) {
    exists i :: 0 <= i < |w| && w[i] == m && NoPoison(w[..i])
  }

  /** Every copy of `m` comes after some poison. */
  predicate Blocked(w: seq<Message>, m: Message) {
    exists p :: 0 <= p < |w| && Poison(w[p]) && m !in w[..p]
  }

  lemma {:induction false} FirstPoison(w: seq<Message>) returns (p: nat)
    requires !NoPoison(w)
    ensures p < |w| && Poison(w[p]) && NoPoison(w[..p])
  {
    p := 0;
    if !Poison(w[0]) {
      assert forall i :: 1 <= i < |w| ==> w[i] == w[1..][i - 1];
      var p' := FirstPoison(w[1..]);
      p := p' + 1;
      assert forall i :: 0 < i < p ==> w[..p][i] == w[1..][..p'][i - 1];
    }
  }

  /** A message is ahead, blocked, or not there at all with no poison either. */
  lemma AheadOrBlocked(w: seq<Message>, m: Message)
    requires !Poison(m)
    ensures Ahead(w, m) || Blocked(w, m) || (NoPoison(w) && m !in w)
  {
    if NoPoison(w) {
      if m in w {
        var i :| 0 <= i < |w| && w[i] == m;
        assert Ahead(w, m);
      }
    } else {
      var p := FirstPoison(w);
      if m in w[..p] {
        var i :| 0 <= i < p && w[..p][i] == m;
        assert NoPoison(w[..i]) && w[i] == m;
      }
    }
  }

  lemma BlockedExtends(w: seq<Message>, m: Message, more: seq<Message>)
    requires Blocked(w, m)
    ensures Blocked(w + more, m)
  {
    var p :| 0 <= p < |w| && Poison(w[p]) && m !in w[..p];
    assert (w + more)[..p] == w[..p] && (w + more)[p] == w[p];
  }

  lemma BlockedAdvances(w: seq<Message>, m: Message)
    requires Blocked(w, m) && !Poison(w[0])
    ensures Blocked(w[1..], m)
  {
    var p :| 0 <= p < |w| && Poison(w[p]) && m !in w[..p];
    assert w[1..][p - 1] == w[p];
    assert forall x :: x in w[1..][..p - 1] ==> x in w[..p];
  }

  /** The event of account `id` is blocked and its profile does not exist. */
  ghost predicate StuckFor(x: Line, id: UserId) {
    && id in x.s.accounts && Blocked(Waiting(x), EventOf(x.s.accounts[id]))
    && !HasProfile(x.s.profiles, id)
  }

  lemma StuckHandle(x: Line, tag: Tag, db: Db, id: UserId)
    requires InLine(x) && Inv(x.s) && Ready(x, Handle(tag, db)) && StuckFor(x, id)
    ensures !HasProfile(Next(x.s, Handle(tag, db)).profiles, id)
  {
    var m := x.s.inFlight[tag].message;
    FlyingIs(x.s.inFlight, tag);
    ProcessCases(x.s.profiles, m, db);
    if Complete(m) {
      InsertAdds(x.s.profiles, m.user.id, m.email.value, m.username.value, id);
      var w := Waiting(x);
      var p :| 0 <= p < |w| && Poison(w[p]) && EventOf(x.s.accounts[id]) !in w[..p];
      assert w[0] == m && p > 0;
      assert m == w[..p][0];
    }
  }

  lemma StuckBlocked(x: Line, l: Label, id: UserId)
    requires InLine(x) && Ready(x, l) && StuckFor(x, id)
    ensures Blocked(Waiting(Step(x, l)), EventOf(x.s.accounts[id]))
  {
    WaitingStep(x, l);
    var m := EventOf(x.s.accounts[id]);
    if l.Answer? && x.s.inFlight[l.tag].verdict.value {
      FlyingIs(x.s.inFlight, l.tag);
      BlockedAdvances(Waiting(x), m);
    } else {
      BlockedExtends(Waiting(x), m, Joining(x, l));
    }
  }

  lemma OthersMakeNoProfile(s: State, l: Label, id: UserId)
    requires Enabled(s, l) && !l.Handle? && !HasProfile(s.profiles, id)
    ensures !HasProfile(Next(s, l).profiles, id)
  {
    if l.Update? {
      UpdatedKeepsIds(s.profiles, l.caller, l.id, l.changes, id);
    }
  }

  lemma StuckStep(x: Line, l: Label, id: UserId)
    requires InLine(x) && Inv(x.s) && Ready(x, l) && StuckFor(x, id)
    ensures StuckFor(Step(x, l), id)
  {
    StuckBlocked(x, l, id);
    Grows(x.s, l);
    if l.Handle? {
      StuckHandle(x, l.tag, l.db, id);
    } else {
      OthersMakeNoProfile(x.s, l, id);
    }
  }

  ghost predicate LeadsInOrder(x: Line, run: seq<Label>, id: UserId) {
    Flow(x, run).Some? && HasProfile(Flow(x, run).value.s.profiles, id)
  }

  /** Behind a poison message no continuation, not even one with republications, makes the profile. */
  lemma {:induction false} StuckForever(x: Line, run: seq<Label>, id: UserId)
    requires InLine(x) && Inv(x.s) && StuckFor(x, id)
    ensures !LeadsInOrder(x, run, id)
    decreases |run|
  {
    if run != [] && Ready(x, run[0]) {
      StuckStep(x, run[0], id);
      InvStep(x.s, run[0]);
      StepInLine(x, run[0]);
      StuckForever(Step(x, run[0]), run[1..], id);
    }
  }

  // ---- Ahead of it ----

  /** The consumer restarts: what was in flight is at the head of the line again. */
  lemma Restart(x: Line) returns (run: seq<Label>)
    requires InLine(x)
    ensures ConsumerRun(run) && Flow(x, run).Some?
    ensures var y := Flow(x, run).value;
            && y.s.inFlight == map[] && y.order == Waiting(x) && InLine(y)
            && y.s.profiles == x.s.profiles && y.s.accounts == x.s.accounts
  {
    if x.s.inFlight == map[] {
      run := [];
    } else {
      var tag :| tag in x.s.inFlight;
      run := [Lose(tag)];
      FlyingIs(x.s.inFlight, tag);
      StepInLine(x, Lose(tag));
      assert run == run + [];
      FlowCons(x, Lose(tag), []);
    }
  }

  /** The line when its first message has been served by a healthy consumer. */
  function Served(x: Line): Line
    requires x.order != []
  {
    var m := x.order[0];
    Line(x.s.(queue := x.s.queue - multiset{m}, profiles := Process(x.s.profiles, m, Healthy).profiles), x.order[1..])
  }

  function Serving(m: Message): seq<Label> {
    [Deliver(0, m), Handle(0, Healthy), Answer(0)]
  }

  lemma HeadDelivered(x: Line)
    requires InLine(x) && x.s.inFlight == map[] && x.order != []
    ensures var m := x.order[0];
            && Ready(x, Deliver(0, m))
            && var flying := map[0 := Delivery(m, None)];
               Step(x, Deliver(0, m)) == Line(x.s.(queue := x.s.queue - multiset{m}, inFlight := flying), x.order[1..])
  {
    assert x.order == [x.order[0]] + x.order[1..];
    Bag(x.order[0], x.order[1..]);
  }

  lemma HeadAnswered(x: Line, m: Message)
    requires x.s.inFlight == map[0 := Delivery(m, None)] && !Poison(m)
    ensures Ready(x, Handle(0, Healthy)) && Ready(Step(x, Handle(0, Healthy)), Answer(0))
    ensures Step(Step(x, Handle(0, Healthy)), Answer(0))
            == Line(x.s.(inFlight := map[], profiles := Process(x.s.profiles, m, Healthy).profiles), x.order)
  {
    var x2 := Step(x, Handle(0, Healthy));
    assert x2.s.inFlight == map[0 := Delivery(m, Some(true))];
    assert x2.s.inFlight - {0} == map[];
    assert x2.s.queue + multiset{} == x2.s.queue;
  }

  lemma ServeHead(x: Line)
    requires InLine(x) && x.s.inFlight == map[] && x.order != [] && !Poison(x.order[0])
    ensures InLine(Served(x)) && Flow(x, Serving(x.order[0])) == Some(Served(x))
  {
    var m := x.order[0];
    HeadDelivered(x);
    StepInLine(x, Deliver(0, m));
    var x1 := Step(x, Deliver(0, m));
    HeadAnswered(x1, m);
    var x2 := Step(x1, Handle(0, Healthy));
    StepInLine(x1, Handle(0, Healthy));
    StepInLine(x2, Answer(0));
    assert Serving(m) == [Deliver(0, m)] + ([Handle(0, Healthy)] + ([Answer(0)] + []));
    FlowCons(x, Deliver(0, m), [Handle(0, Healthy)] + ([Answer(0)] + []));
    FlowCons(x1, Handle(0, Healthy), [Answer(0)] + []);
    FlowCons(x2, Answer(0), []);
  }

  lemma {:induction false} ProfilesStay(s: State, run: seq<Label>, id: UserId)
    requires Exec(s, run).Some? && HasProfile(s.profiles, id)
    ensures HasProfile(Exec(s, run).value.profiles, id)
    decreases |run|
  {
    if run != [] {
      HasProfileStep(s, run[0], id);
      ProfilesStay(Next(s, run[0]), run[1..], id);
    }
  }

  lemma NoPoisonTail(order: seq<Message>, i: nat)
    requires 0 < i <= |order| && NoPoison(order[..i])
    ensures !Poison(order[0]) && NoPoison(order[1..][..i - 1])
  {
    assert order[..i][0] == order[0];
    assert order[1..][..i - 1] == order[..i][1..];
  }

  /** Each complete event among the first `i` of a line has its profile. */
  ghost predicate Done(order: seq<Message>, i: nat, profiles: seq<Profile>)
    requires i <= |order|
  {
    forall j :: 0 <= j < i && Complete(order[j]) ==> HasProfile(profiles, order[j].user.id)
  }

  lemma DoneExtends(order: seq<Message>, i: nat, profiles: seq<Profile>)
    requires 0 < i <= |order| && Done(order[1..], i - 1, profiles)
    requires Complete(order[0]) ==> HasProfile(profiles, order[0].user.id)
    ensures Done(order, i, profiles)
  {
    assert forall j :: 1 <= j < i ==> order[j] == order[1..][j - 1];
  }

  /** Without poison among them, the first `i` of the line are served, and the rest moves up. */
  lemma {:induction false} ServeFirst(x: Line, i: nat) returns (run: seq<Label>)
    requires InLine(x) && x.s.inFlight == map[] && i <= |x.order| && NoPoison(x.order[..i])
    ensures ConsumerRun(run) && Flow(x, run).Some?
    ensures var y := Flow(x, run).value;
            y.s.inFlight == map[] && y.order == x.order[i..] && Done(x.order, i, y.s.profiles)
    decreases i
  {
    if i == 0 {
      run := [];
    } else {
      var m := x.order[0];
      NoPoisonTail(x.order, i);
      ServeHead(x);
      var rest := ServeFirst(Served(x), i - 1);
      FlowConcat(x, Serving(m), rest);
      run := Serving(m) + rest;
      if Complete(m) {
        HeadDone(x, rest);
      }
      DoneExtends(x.order, i, Flow(x, run).value.s.profiles);
    }
  }

  lemma HeadDone(x: Line, rest: seq<Label>)
    requires x.order != [] && Flow(Served(x), rest).Some? && Complete(x.order[0])
    ensures HasProfile(Flow(Served(x), rest).value.s.profiles, x.order[0].user.id)
  {
    var m := x.order[0];
    InsertAdds(x.s.profiles, m.user.id, m.email.value, m.username.value, m.user.id);
    FlowIsRun(Served(x), rest);
    ProfilesStay(Served(x).s, rest, m.user.id);
  }

  lemma NoPoisonSnoc(w: seq<Message>, i: nat)
    requires i < |w| && NoPoison(w[..i]) && !Poison(w[i])
    ensures NoPoison(w[..i + 1])
  {
    assert w[..i + 1] == w[..i] + [w[i]];
  }

  lemma AheadIsServed(x: Line, m: Message) returns (run: seq<Label>)
    requires InLine(x) && Complete(m) && Ahead(Waiting(x), m)
    ensures ConsumerRun(run) && LeadsInOrder(x, run, m.user.id)
  {
    var w := Waiting(x);
    var i :| 0 <= i < |w| && w[i] == m && NoPoison(w[..i]);
    NoPoisonSnoc(w, i);
    var first := Restart(x);
    var rest := ServeFirst(Flow(x, first).value, i + 1);
    FlowConcat(x, first, rest);
    run := first + rest;
  }

  // ---- Which profiles can still be made, exactly ----

  lemma Reached(run: seq<Label>)
    requires Flow(START, run).Some?
    ensures InLine(Flow(START, run).value) && Inv(Flow(START, run).value.s)
    ensures Exec(INIT, run) == Some(Flow(START, run).value.s)
  {
    FlowInLine(START, run);
    FlowIsRun(START, run);
  }

  /** An event without a profile is ahead of all poison, or stuck, or not in a line free of poison. */
  lemma WhereItStands(x: Line, id: UserId)
    requires InLine(x) && Inv(x.s) && id in x.s.accounts && x.s.accounts[id].username != ""
    requires !HasProfile(x.s.profiles, id)
    ensures var m := EventOf(x.s.accounts[id]);
            || Ahead(Waiting(x), m) || StuckFor(x, id)
            || (NoPoison(Waiting(x)) && id !in x.s.announced)
  {
    var m := EventOf(x.s.accounts[id]);
    AheadOrBlocked(Waiting(x), m);
    WaitingTravels(x, m);
  }

  /** Publishing into a line without poison puts the event ahead of all poison. */
  lemma PublishedIsServed(x: Line, l: Label, id: UserId) returns (rest: seq<Label>)
    requires InLine(x) && Inv(x.s) && id in x.s.accounts && x.s.accounts[id].username != "" && NoPoison(Waiting(x))
    requires Ready(x, l) && (l == Publish(id, true) || l == Republish(id))
    ensures ConsumerRun(rest) && LeadsInOrder(x, [l] + rest, id)
  {
    var m, w := EventOf(x.s.accounts[id]), Waiting(x);
    WaitingStep(x, l);
    StepInLine(x, l);
    assert (w + [m])[|w|] == m && (w + [m])[..|w|] == w;
    assert Ahead(w + [m], m);
    rest := AheadIsServed(Step(x, l), m);
    FlowCons(x, l, rest);
  }

  /** In every state that the deployed system reaches, the services by themselves can still give an
      account its profile exactly when it has it, or its username is not empty and a copy of its
      event comes before all poison, or is still to be published with no poison in the line. */
  lemma InOrderProfileExact(run: seq<Label>, id: UserId)
    requires Flow(START, run).Some? && id in Flow(START, run).value.s.accounts
    ensures var x := Flow(START, run).value;
            var account := x.s.accounts[id];
            (exists more :: Unaided(more) && LeadsInOrder(x, more, id)) <==>
              || HasProfile(x.s.profiles, id)
              || (account.username != ""
                  && (Ahead(Waiting(x), EventOf(account)) || (id in x.s.pending && NoPoison(Waiting(x)))))
  {
    Reached(run);
    var x := Flow(START, run).value;
    var m := EventOf(x.s.accounts[id]);
    if more :| Unaided(more) && LeadsInOrder(x, more, id) {
      FlowIsRun(x, more);
      ProfileReachExact(run, id);
      assert LeadsToProfile(x.s, more, id);
      if !HasProfile(x.s.profiles, id) {
        StuckOrNot(x, more, id);
        WhereItStands(x, id);
      }
    }
    if HasProfile(x.s.profiles, id) {
      assert LeadsInOrder(x, [], id);
    } else if x.s.accounts[id].username != "" && Ahead(Waiting(x), m) {
      var more := AheadIsServed(x, m);
      assert Unaided(more);
    } else if x.s.accounts[id].username != "" && id in x.s.pending && NoPoison(Waiting(x)) {
      var rest := PublishedIsServed(x, Publish(id, true), id);
      assert Unaided([Publish(id, true)] + rest);
    }
  }

  lemma StuckOrNot(x: Line, more: seq<Label>, id: UserId)
    requires InLine(x) && Inv(x.s) && LeadsInOrder(x, more, id)
    ensures !StuckFor(x, id)
  {
    if StuckFor(x, id) {
      StuckForever(x, more, id);
    }
  }

  /** With an operator who republishes, exactly when it has it, or its username is not empty and a
      copy comes before all poison or there is no poison in the line. */
  lemma InOrderWithRepublication(run: seq<Label>, id: UserId)
    requires Flow(START, run).Some? && id in Flow(START, run).value.s.accounts
    ensures var x := Flow(START, run).value;
            var account := x.s.accounts[id];
            (exists more :: LeadsInOrder(x, more, id)) <==>
              || HasProfile(x.s.profiles, id)
              || (account.username != "" && (Ahead(Waiting(x), EventOf(account)) || NoPoison(Waiting(x))))
  {
    Reached(run);
    var x := Flow(START, run).value;
    var m := EventOf(x.s.accounts[id]);
    if more :| LeadsInOrder(x, more, id) {
      FlowIsRun(x, more);
      ProfileHasCause(x.s, more, id);
      if !HasProfile(x.s.profiles, id) {
        StuckOrNot(x, more, id);
        WhereItStands(x, id);
      }
    }
    if HasProfile(x.s.profiles, id) {
      assert LeadsInOrder(x, [], id);
    } else if x.s.accounts[id].username != "" && Ahead(Waiting(x), m) {
      var more := AheadIsServed(x, m);
    } else if x.s.accounts[id].username != "" && NoPoison(Waiting(x)) {
      var rest := PublishedIsServed(x, Republish(id), id);
    }
  }

  // ---- Draining ----

  ghost predicate Empties(x: Line, run: seq<Label>) {
    ConsumerRun(run) && Flow(x, run).Some? && Waiting(Flow(x, run).value) == []
  }

  /** The consumer can work off the line exactly when there is no poison in it. */
  lemma DrainsExactly(x: Line)
    requires InLine(x) && Inv(x.s)
    ensures (exists run :: Empties(x, run)) <==> NoPoison(Waiting(x))
  {
    var w := Waiting(x);
    if NoPoison(w) {
      var first := Restart(x);
      assert w[..|w|] == w;
      var rest := ServeFirst(Flow(x, first).value, |w|);
      FlowConcat(x, first, rest);
      assert Empties(x, first + rest);
    } else {
      var p := FirstPoison(w);
      forall run | Flow(x, run).Some? ensures !Empties(x, run) {
        PoisonWaits(x, run, w[p]);
      }
    }
  }

  lemma PoisonWaits(x: Line, run: seq<Label>, m: Message)
    requires InLine(x) && Inv(x.s) && Flow(x, run).Some? && Poison(m) && m in Waiting(x)
    ensures m in Waiting(Flow(x, run).value)
  {
    WaitingTravels(x, m);
    FlowIsRun(x, run);
    PoisonStays(x.s, run, m);
    FlowInLine(x, run);
    WaitingTravels(Flow(x, run).value, m);
  }

  /** A concrete run: a poison message arrives, then ada registers and her event is published. She
      is announced and has a username, and no continuation ever gives her a profile. */
  lemma StuckBehindPoison()
    ensures var poison := Event(NotUuid, Some("eve@example.com"), Some("eve"));
            var end := Flow(START, [Stray(poison), Register(1, "ada", "ada@example.com"), Publish(1, true)]);
            && end.Some? && 1 in end.value.s.announced && 1 in end.value.s.accounts
            && end.value.s.accounts[1].username == "ada"
            && !exists more :: LeadsInOrder(end.value, more, 1)
  {
    var poison := Event(NotUuid, Some("eve@example.com"), Some("eve"));
    var a, b, c := Stray(poison), Register(1, "ada", "ada@example.com"), Publish(1, true);
    assert [a, b, c] == [a] + ([b] + ([c] + []));
    FlowCons(START, a, [b] + ([c] + []));
    var x1 := Step(START, a);
    FlowCons(x1, b, [c] + []);
    FlowCons(Step(x1, b), c, []);
    var x := Step(Step(x1, b), c);
    assert Waiting(x) == [poison, EventOf(x.s.accounts[1])];
    InOrderWithRepublication([a, b, c], 1);
    assert Waiting(x)[0] == poison;
    forall i | 0 <= i < 2 && Waiting(x)[i] == EventOf(x.s.accounts[1]) ensures !NoPoison(Waiting(x)[..i]) {
      assert i == 1 && Waiting(x)[..1][0] == poison;
    }
  }
}
