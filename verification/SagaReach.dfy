/** Exactly which statuses payments and orders can still take: the handler and the PATCH route
    look at no current status, so a settled verdict can always be written (again). */
module SagaReach {
  import opened Domain
  import opened OrderRoutes
  import opened Reconcile
  import opened Saga
  import opened SagaInvariant
  import opened SagaTheorems

  /** Steps in which the gateway reaches no new verdict, no payment is created and shipping rests. */
  predicate Quiet(l: Label) {
    !l.Settle? && !l.NewPayment? && !l.Advance?
  }

  ghost predicate QuietRun(run: seq<Label>) {
    forall i :: 0 <= i < |run| ==> Quiet(run[i])
  }

  ghost predicate OrderCanBecome(s: State, o: OrderId, st: OrderStatus) {
    exists run :: OrderBecomes(s, run, o, st)
  }

  ghost predicate OrderBecomes(s: State, run: seq<Label>, o: OrderId, st: OrderStatus) {
    QuietRun(run) && Exec(s, run).Some? && o in Exec(s, run).value.orders && Exec(s, run).value.orders[o] == st
  }

  ghost predicate PaymentCanBecome(s: State, ref: Ref, st: PaymentStatus) {
    exists run :: PaymentBecomes(s, run, ref, st)
  }

  ghost predicate PaymentBecomes(s: State, run: seq<Label>, ref: Ref, st: PaymentStatus) {
    QuietRun(run) && Exec(s, run).Some? && ref in Exec(s, run).value.payments
    && Exec(s, run).value.payments[ref].status == st
  }

  /** Some payment of order `o` is settled with the verdict that calls for `st`. */
  ghost predicate SettledTarget(s: State, o: OrderId, st: OrderStatus) {
    exists ref, out :: Paying(s, ref, out) && s.payments[ref].orderId == o && Target(out) == st
  }

  lemma QuietStep(s: State, l: Label)
    requires Inv(s) && Enabled(s, l) && Quiet(l)
    ensures var s' := Next(s, l);
            && s'.settled == s.settled && s'.payments.Keys == s.payments.Keys
            && (forall ref :: ref in s.payments ==> s'.payments[ref].orderId == s.payments[ref].orderId)
            && (forall ref :: ref in s.payments && s'.payments[ref].status != s.payments[ref].status ==>
                  exists out :: Paying(s, ref, out) && s'.payments[ref].status == StatusOf(out))
  {
    StepGrows(s, l);
    match l
    case Commit(t, elided) =>
      assert TaskOk(s, s.tasks[t]);
      assert Paying(s, s.tasks[t].ref.value, Verdict(s.tasks[t].event).value);
    case _ =>
  }

  lemma QuietOrderStep(s: State, l: Label, o: OrderId)
    requires Inv(s) && Enabled(s, l) && Quiet(l) && o in s.orders
    ensures var s' := Next(s, l);
            o in s'.orders && (s'.orders[o] == s.orders[o] || SettledTarget(s, o, s'.orders[o]))
  {
    StepGrows(s, l);
    OrderChange(s, l, o);
    if Next(s, l).orders[o] != s.orders[o] {
      WriterJustified(s, l);
      var ref, out :| JustifiedBy(s, o, Next(s, l).orders[o], ref, out);
      assert Paying(s, ref, out);
    }
  }

  lemma {:induction false} QuietRunBounds(s: State, run: seq<Label>)
    requires Inv(s) && QuietRun(run) && Exec(s, run).Some?
    ensures var s' := Exec(s, run).value;
            && (forall o :: o in s.orders ==>
                  o in s'.orders && (s'.orders[o] == s.orders[o] || SettledTarget(s, o, s'.orders[o])))
            && (forall ref :: ref in s.payments ==>
                  && ref in s'.payments
                  && (s'.payments[ref].status != s.payments[ref].status ==>
                        exists out :: Paying(s, ref, out) && s'.payments[ref].status == StatusOf(out)))
    decreases |run|
  {
    if run != [] {
      var s1 := Next(s, run[0]);
      QuietStep(s, run[0]);
      InvStep(s, run[0]);
      QuietRunBounds(s1, run[1..]);
      var s' := Exec(s1, run[1..]).value;
      forall o | o in s.orders
        ensures o in s'.orders && (s'.orders[o] == s.orders[o] || SettledTarget(s, o, s'.orders[o]))
      {
        QuietOrderStep(s, run[0], o);
        if SettledTarget(s1, o, s'.orders[o]) {
          var ref, out :| Paying(s1, ref, out) && s1.payments[ref].orderId == o && Target(out) == s'.orders[o];
          assert Paying(s, ref, out);
        }
      }
      forall ref | ref in s.payments && s'.payments[ref].status != s.payments[ref].status
        ensures exists out :: Paying(s, ref, out) && s'.payments[ref].status == StatusOf(out)
      {
        if s'.payments[ref].status != s1.payments[ref].status {
          var out :| Paying(s1, ref, out) && s'.payments[ref].status == StatusOf(out);
          assert Paying(s, ref, out);
        }
      }
    }
  }

  lemma {:induction false} Fresh(used: set<nat>) returns (n: nat)
    ensures forall i :: i in used ==> i < n
    decreases used
  {
    n := 0;
    if used != {} {
      var i :| i in used;
      n := Fresh(used - {i});
      n := if n <= i then i + 1 else n;
      assert forall k :: k in used ==> k == i || k in used - {i};
    }
  }

  function EventOf(out: Outcome): Event {
    match out
    case Success => ChargeSuccess
    case Failure => ChargeFailure
  }

  /** The labels of one undisturbed delivery up to its first PATCH. */
  function DeliveryLabels(t: TaskId, ref: Ref, out: Outcome): seq<Label> {
    [Deliver(t, EventOf(out), Some(ref)), Load(t)]
    + (if out.Success? then [Verify(t, true)] else [])
    + [Commit(t, false), Send(t, Answered)]
  }

  /** The first part of a delivery brings the task to its commit. */
  lemma DeliveryReady(s: State, ref: Ref, out: Outcome, t: TaskId, rest: seq<Label>)
    requires Paying(s, ref, out) && t !in s.tasks
    ensures var seen := s.payments[ref].status;
            var phase := if out.Success? then Reverified(seen) else Loaded(seen);
            var ready := s.(tasks := s.tasks[t := Task(EventOf(out), Some(ref), phase, false, 0, false)],
                            verified := if out.Success? then s.verified + {ref} else s.verified);
            Exec(s, [Deliver(t, EventOf(out), Some(ref)), Load(t)]
                    + (if out.Success? then [Verify(t, true)] else []) + rest)
            == Exec(ready, rest)
  {
    var l1, l2, l3 := Deliver(t, EventOf(out), Some(ref)), Load(t), Verify(t, true);
    var mid := (if out.Success? then [l3] else []) + rest;
    assert [l1, l2] + (if out.Success? then [l3] else []) + rest == [l1] + ([l2] + mid);
    ExecCons(s, l1, [l2] + mid);
    var s1 := Next(s, l1);
    ExecCons(s1, l2, mid);
    var s2 := Next(s1, l2);
    var seen := s.payments[ref].status;
    assert s2.tasks == s.tasks[t := Task(EventOf(out), Some(ref), Loaded(seen), false, 0, false)];
    if out.Success? {
      ExecCons(s2, l3, rest);
      assert Next(s2, l3).tasks == s.tasks[t := Task(EventOf(out), Some(ref), Reverified(seen), false, 0, false)];
    } else {
      assert mid == rest;
    }
  }

  lemma CommitAndPatch(s: State, ref: Ref, out: Outcome, t: TaskId)
    requires s.limit > 0 && ref in s.payments && t in s.tasks
    requires var k := s.tasks[t];
             && k.event == EventOf(out) && k.ref == Some(ref) && k.attempts == 0
             && (if out.Success? then k.phase.Reverified? else k.phase.Loaded?)
    ensures var r := Exec(s, [Commit(t, false), Send(t, Answered)]);
            && r.Some?
            && ref in r.value.payments && r.value.payments[ref].status == StatusOf(out)
            && (s.payments[ref].orderId in s.orders ==>
                  r.value.orders == s.orders[s.payments[ref].orderId := Target(out)])
  {
    var l4, l5 := Commit(t, false), Send(t, Answered);
    assert [l4, l5] == [l4] + ([l5] + []);
    ExecCons(s, l4, [l5] + []);
    ExecCons(Next(s, l4), l5, []);
  }

  /** A settled verdict, delivered (again) at any time, overwrites both statuses. */
  lemma Redelivery(s: State, ref: Ref, out: Outcome, t: TaskId)
    requires Paying(s, ref, out) && s.limit > 0 && t !in s.tasks
    ensures var run := DeliveryLabels(t, ref, out);
            && QuietRun(run) && Exec(s, run).Some?
            && var s' := Exec(s, run).value;
               && ref in s'.payments && s'.payments[ref].status == StatusOf(out)
               && (s.payments[ref].orderId in s.orders ==>
                     s'.orders == s.orders[s.payments[ref].orderId := Target(out)])
  {
    DeliveryReady(s, ref, out, t, [Commit(t, false), Send(t, Answered)]);
    var seen := s.payments[ref].status;
    var phase := if out.Success? then Reverified(seen) else Loaded(seen);
    var ready := s.(tasks := s.tasks[t := Task(EventOf(out), Some(ref), phase, false, 0, false)],
                    verified := if out.Success? then s.verified + {ref} else s.verified);
    CommitAndPatch(ready, ref, out, t);
  }

  /** With no new verdict, payment or shipping step, an order can still take exactly its current
      status and the statuses its payments' settled verdicts call for, wherever it stands. */
  lemma OrderReachExact(limit: nat, run: seq<Label>, o: OrderId, st: OrderStatus)
    requires limit > 0 && Exec(Init(limit), run).Some? && o in Exec(Init(limit), run).value.orders
    ensures var s := Exec(Init(limit), run).value;
            OrderCanBecome(s, o, st) <==> st == s.orders[o] || SettledTarget(s, o, st)
  {
    var s := Exec(Init(limit), run).value;
    Reached(limit, run);
    InvInit(limit);
    InvRun(Init(limit), run);
    if OrderCanBecome(s, o, st) {
      var more :| OrderBecomes(s, more, o, st);
      QuietRunBounds(s, more);
    }
    if st == s.orders[o] {
      assert OrderBecomes(s, [], o, st);
    }
    if SettledTarget(s, o, st) {
      var ref, out :| Paying(s, ref, out) && s.payments[ref].orderId == o && Target(out) == st;
      var t := Fresh(s.tasks.Keys);
      Redelivery(s, ref, out, t);
      assert OrderBecomes(s, DeliveryLabels(t, ref, out), o, st);
    }
  }

  /** The same for payments: a terminal status is final exactly when no opposite verdict is settled. */
  lemma PaymentReachExact(limit: nat, run: seq<Label>, ref: Ref, st: PaymentStatus)
    requires limit > 0 && Exec(Init(limit), run).Some? && ref in Exec(Init(limit), run).value.payments
    ensures var s := Exec(Init(limit), run).value;
            PaymentCanBecome(s, ref, st) <==>
              st == s.payments[ref].status || exists out :: Paying(s, ref, out) && st == StatusOf(out)
  {
    var s := Exec(Init(limit), run).value;
    Reached(limit, run);
    InvInit(limit);
    InvRun(Init(limit), run);
    if PaymentCanBecome(s, ref, st) {
      var more :| PaymentBecomes(s, more, ref, st);
      QuietRunBounds(s, more);
    }
    if st == s.payments[ref].status {
      assert PaymentBecomes(s, [], ref, st);
    }
    if out :| Paying(s, ref, out) && st == StatusOf(out) {
      var t := Fresh(s.tasks.Keys);
      Redelivery(s, ref, out, t);
      assert PaymentBecomes(s, DeliveryLabels(t, ref, out), ref, st);
    }
  }

  /** A concrete run: an order is created, paid by a first webhook and delivered; the same webhook
      redelivered pulls it back to 'paid', although one verdict is all the gateway ever gave. */
  lemma RedeliveryUndoesDelivery()
    ensures var paid := [NewOrder(7), NewPayment("PIZZA-1", 7), Settle("PIZZA-1", Success)]
                        + DeliveryLabels(0, "PIZZA-1", Success);
            var run := paid + [Advance(7, Delivered)];
            && Exec(Init(3), paid).Some? && 7 in Exec(Init(3), paid).value.orders
            && Exec(Init(3), paid).value.orders[7] == Paid
            && Exec(Init(3), run).Some? && 7 in Exec(Init(3), run).value.orders
            && Exec(Init(3), run).value.orders[7] == Delivered
            && OrderCanBecome(Exec(Init(3), run).value, 7, Paid)
  {
    var a, b, c := NewOrder(7), NewPayment("PIZZA-1", 7), Settle("PIZZA-1", Success);
    var delivery := DeliveryLabels(0, "PIZZA-1", Success);
    var s0 := Init(3);
    assert [a, b, c] + delivery == [a] + ([b] + ([c] + delivery));
    ExecCons(s0, a, [b] + ([c] + delivery));
    ExecCons(Next(s0, a), b, [c] + delivery);
    ExecCons(Next(Next(s0, a), b), c, delivery);
    var s1 := Next(Next(Next(s0, a), b), c);
    Redelivery(s1, "PIZZA-1", Success, 0);
    var paid := [a, b, c] + delivery;
    ExecStep(s0, paid, Advance(7, Delivered));
    var s := Exec(s0, paid + [Advance(7, Delivered)]).value;
    RunGrows(s1, delivery);
    assert SettledTarget(s, 7, Paid) by {
      assert Paying(s, "PIZZA-1", Success) && s.payments["PIZZA-1"].orderId == 7;
    }
    OrderReachExact(3, paid + [Advance(7, Delivered)], 7, Paid);
  }

  // ---- Late requests ----

  lemma WireStep(s: State, l: Label, late: Request)
    requires Enabled(s, l) && late in s.wire && !(l.Arrive? && l.request == late)
    ensures late in Next(s, l).wire
  {
  }

  lemma {:induction false} StaysOnTheWire(s: State, run: seq<Label>, late: Request)
    requires Exec(s, run).Some? && late in s.wire
    requires forall l :: l in run && l.Arrive? ==> l.request != late
    ensures late in Exec(s, run).value.wire
    decreases |run|
  {
    if run != [] {
      WireStep(s, run[0], late);
      StaysOnTheWire(Next(s, run[0]), run[1..], late);
    }
  }

  lemma ServedLate(s: State, late: Request)
    requires late in s.wire
    ensures Enabled(s, Arrive(late, Answered))
    ensures late.orderId in s.orders ==>
              Next(s, Arrive(late, Answered)).orders == s.orders[late.orderId := late.status]
  {
  }

  lemma GivenUp(s: State, t: TaskId)
    requires Enabled(s, Send(t, Delayed))
    ensures var k, s' := s.tasks[t], Next(s, Send(t, Delayed));
            && s'.orders == s.orders && !s'.tasks[t].acked
            && Request(s.payments[k.ref.value].orderId, if k.event == ChargeSuccess then Paid else Cancelled) in s'.wire
  {
  }

  /** A PATCH that its sender gave up on can still be served after any further steps of anyone, and
      then it writes what the event calls for. */
  lemma LateRequestWrites(s: State, t: TaskId, run: seq<Label>, late: Request)
    requires Enabled(s, Send(t, Delayed)) && Exec(Next(s, Send(t, Delayed)), run).Some?
    requires late.orderId == s.payments[s.tasks[t].ref.value].orderId
    requires late.status == if s.tasks[t].event == ChargeSuccess then Paid else Cancelled
    requires forall l :: l in run && l.Arrive? ==> l.request != late
    ensures Next(s, Send(t, Delayed)).orders == s.orders && !Next(s, Send(t, Delayed)).tasks[t].acked
    ensures var end := Exec(Next(s, Send(t, Delayed)), run).value;
            && Enabled(end, Arrive(late, Answered))
            && (late.orderId in end.orders ==>
                  Next(end, Arrive(late, Answered)).orders == end.orders[late.orderId := late.status])
  {
    GivenUp(s, t);
    StaysOnTheWire(Next(s, Send(t, Delayed)), run, late);
    ServedLate(Exec(Next(s, Send(t, Delayed)), run).value, late);
  }
}
