/** payment-service: initialization, the webhook handler and its retrying client, run step by
    step while other tasks, late requests and reconciler jobs interleave at every await. */
module Payments {
  import opened Domain
  import opened OrderRoutes
  import opened Reconcile
  import opened Saga
  import opened SagaInvariant
  import opened Money

  const MAX_RETRIES: nat := 3
  const BASE_DELAY_SECONDS: nat := 5

  /** What the network does to attempt number k + 1; beyond the script it is down. */
  function At(net: seq<Net>, k: nat): Net {
    if k < |net| then net[k] else Unreachable
  }

  // ---- Backoff ----

  function Pow2(n: nat): nat {
    if n == 0 then 1 else 2 * Pow2(n - 1)
  }

  /** The pause after failed attempt number `attempt`. */
  function Delay(attempt: nat): nat
    requires attempt >= 1
  {
    BASE_DELAY_SECONDS * Pow2(attempt - 1)
  }

  /** The pauses after the first `n` attempts together. */
  function TotalDelay(n: nat): nat {
    if n == 0 then 0 else TotalDelay(n - 1) + Delay(n)
  }

  lemma {:induction false} TotalDelayClosedForm(n: nat)
    ensures TotalDelay(n) == 5 * (Pow2(n) - 1)
  {
    if n > 0 {
      TotalDelayClosedForm(n - 1);
    }
  }

  // ---- Whose step is it ----

  predicate Own(l: Label, t: TaskId) {
    Actor(l) == Some(t)
  }

  /** The steps of task `t` in a run, in order. */
  function Project(run: seq<Label>, t: TaskId): seq<Label> {
    if run == [] then []
    else (if Own(run[0], t) then [run[0]] else []) + Project(run[1..], t)
  }

  lemma {:induction false} ProjectConcat(a: seq<Label>, b: seq<Label>, t: TaskId)
    ensures Project(a + b, t) == Project(a, t) + Project(b, t)
  {
    if a == [] {
      assert a + b == b;
    } else {
      assert (a + b)[1..] == a[1..] + b && (a + b)[0] == a[0];
      ProjectConcat(a[1..], b, t);
      var here := if Own(a[0], t) then [a[0]] else [];
      assert here + (Project(a[1..], t) + Project(b, t)) == (here + Project(a[1..], t)) + Project(b, t);
    }
  }

  lemma {:induction false} ProjectForeign(run: seq<Label>, t: TaskId)
    requires forall l :: l in run ==> !Own(l, t)
    ensures Project(run, t) == []
  {
    if run != [] {
      ProjectForeign(run[1..], t);
    }
  }

  /** The first `n` PATCHes of task `t`. */
  function Sends(t: TaskId, net: seq<Net>, n: nat): seq<Label> {
    if n == 0 then [] else Sends(t, net, n - 1) + [Send(t, At(net, n - 1))]
  }

  lemma SendsNone(run: seq<Label>, t: TaskId, net: seq<Net>)
    ensures run + Sends(t, net, 0) == run && Project(run, t) + Sends(t, net, 0) == Project(run, t)
  {
  }

  lemma SendsSnoc(before: seq<Label>, t: TaskId, net: seq<Net>, n: nat)
    ensures before + Sends(t, net, n) + [Send(t, At(net, n))] == before + Sends(t, net, n + 1)
  {
  }

  // ---- The retry loop as a function of the network ----

  /** The order table after `n` attempts with no other writer. */
  function Retried(orders: Orders, id: OrderId, status: OrderStatus, net: seq<Net>, n: nat): Orders {
    if n == 0 then orders else Attempt(Retried(orders, id, status, net, n - 1), id, status, At(net, n - 1)).orders
  }

  /** Attempts write the target or nothing, and a last attempt that is answered has written it. */
  lemma {:induction false} RetriedMeans(orders: Orders, id: OrderId, status: OrderStatus, net: seq<Net>, n: nat)
    ensures var after := Retried(orders, id, status, net, n);
            && after.Keys == orders.Keys
            && (after == orders || (id in orders && after == orders[id := status]))
            && (id in orders && n > 0 && At(net, n - 1).Answered? ==> after == orders[id := status])
  {
    if n > 0 {
      RetriedMeans(orders, id, status, net, n - 1);
    }
  }

  /** What everything else does when task `t` awaits: any strategy over the current state. */
  type Strategy = (nat, State) -> seq<Label>

  predicate Legal(s: State, script: seq<Label>, t: TaskId) {
    Exec(s, script).Some? && forall l :: l in script ==> !Own(l, t)
  }

  lemma ReachedInv(limit: nat, run: seq<Label>)
    requires Exec(Init(limit), run).Some?
    ensures Inv(Exec(Init(limit), run).value)
  {
    InvInit(limit);
    InvRun(Init(limit), run);
  }

  lemma {:induction false} ForeignKeepsTask(s: State, run: seq<Label>, t: TaskId)
    requires Inv(s) && Legal(s, run, t) && t in s.tasks
    ensures var s' := Exec(s, run).value;
            t in s'.tasks && s'.tasks[t] == s.tasks[t] && Inv(s') && Grows(s, s')
    decreases |run|
  {
    if run != [] {
      InvStep(s, run[0]);
      StepGrows(s, run[0]);
      OnlyActorMoves(s, run[0]);
      assert run[0] in run;
      ForeignKeepsTask(Next(s, run[0]), run[1..], t);
    }
  }

  /** What task `t` owes order-service once it has committed. */
  function Owed(s: State, t: TaskId): Option<Request> {
    if t in s.tasks && s.tasks[t].committed && Verdict(s.tasks[t].event).Some?
       && s.tasks[t].ref.Some? && s.tasks[t].ref.value in s.payments
    then Some(Request(s.payments[s.tasks[t].ref.value].orderId, Target(Verdict(s.tasks[t].event).value)))
    else None
  }

  /** An uninterrupted series of PATCHes writes what the retry function says. */
  lemma {:induction false} SendsWrite(s: State, t: TaskId, o: OrderId, status: OrderStatus, net: seq<Net>, n: nat)
    requires Owed(s, t) == Some(Request(o, status)) && Exec(s, Sends(t, net, n)).Some?
    ensures var s' := Exec(s, Sends(t, net, n)).value;
            Owed(s', t) == Some(Request(o, status)) && s'.orders == Retried(s.orders, o, status, net, n)
  {
    if n > 0 {
      ExecConcat(s, Sends(t, net, n - 1), [Send(t, At(net, n - 1))]);
      SendsWrite(s, t, o, status, net, n - 1);
      var before := Exec(s, Sends(t, net, n - 1)).value;
      assert [Send(t, At(net, n - 1))][1..] == [];
      SendWrites(before, t, At(net, n - 1));
    }
  }

  lemma SendWrites(s: State, t: TaskId, net: Net)
    requires Enabled(s, Send(t, net)) && Owed(s, t).Some?
    ensures var s' := Next(s, Send(t, net));
            && Owed(s', t) == Owed(s, t)
            && s'.orders == Attempt(s.orders, Owed(s, t).value.orderId, Owed(s, t).value.status, net).orders
  {
  }

  lemma SendsAlone(run: seq<Label>, s: State, t: TaskId, o: OrderId, status: OrderStatus, net: seq<Net>, n: nat)
    requires Exec(Init(s.limit), run) == Some(s) && Owed(s, t) == Some(Request(o, status))
    requires Exec(Init(s.limit), run + Sends(t, net, n)).Some?
    ensures var orders := Exec(Init(s.limit), run + Sends(t, net, n)).value.orders;
            && (orders == s.orders || (o in s.orders && orders == s.orders[o := status]))
            && (o in s.orders && n > 0 && At(net, n - 1).Answered? ==> orders == s.orders[o := status])
  {
    ExecConcat(Init(s.limit), run, Sends(t, net, n));
    SendsWrite(s, t, o, status, net, n);
    RetriedMeans(s.orders, o, status, net, n);
  }

  /** One turn of the retry loop: others' steps, if any, then one PATCH. */
  ghost predicate Attempted(s: State, s': State, run: seq<Label>, run': seq<Label>,
                            t: TaskId, net: Net, alone: bool, acked: bool)
  {
    && Exec(Init(s'.limit), run') == Some(s') && s'.limit == s.limit
    && Project(run', t) == Project(run, t) + [Send(t, net)]
    && (alone ==> run' == run + [Send(t, net)])
    && t in s.tasks && t in s'.tasks && s'.tasks[t] == AfterAttempt(s.tasks[t], s.limit, acked)
    && Owed(s, t).Some? && Owed(s', t) == Owed(s, t)
    && s.orders.Keys <= s'.orders.Keys
    && var o := Owed(s, t).value.orderId;
       && (acked ==> net.Answered? && o in s'.patched && o in s'.orders)
       && (o in s.orders && net.Answered? ==> acked)
  }

  /** How often the loop has paused after `sent` attempts. */
  function Pauses(sent: nat, ok: bool, limit: nat): nat {
    if sent > 0 && (ok || sent >= limit) then sent - 1 else sent
  }

  /** What the retry loop keeps: `s0` and `first` are the state and the history it started with. */
  ghost predicate Retrying(s0: State, s: State, first: seq<Label>, run: seq<Label>, t: TaskId, o: OrderId,
                           status: OrderStatus, net: seq<Net>, alone: bool, ok: bool, sent: nat, slept: nat)
  {
    && Exec(Init(s.limit), run) == Some(s) && s.limit == s0.limit && sent <= s.limit
    && Project(run, t) == Project(first, t) + Sends(t, net, sent)
    && (alone ==> run == first + Sends(t, net, sent))
    && Owed(s, t) == Some(Request(o, status))
    && t in s0.tasks
    && s.tasks[t] == s0.tasks[t].(phase := if ok || sent >= s.limit then Announcing else Notifying,
                                  attempts := sent, acked := ok)
    && s0.orders.Keys <= s.orders.Keys
    && slept == TotalDelay(Pauses(sent, ok, s.limit))
    && (ok ==> sent > 0 && At(net, sent - 1).Answered? && o in s.patched && o in s.orders)
    && (!ok && o in s0.orders ==> forall k :: 0 <= k < sent ==> !At(net, k).Answered?)
  }

  lemma RetryStep(s0: State, s: State, s': State, first: seq<Label>, run: seq<Label>, run': seq<Label>, t: TaskId,
                  o: OrderId, status: OrderStatus, net: seq<Net>, alone: bool, sent: nat, slept: nat, acked: bool)
    requires Retrying(s0, s, first, run, t, o, status, net, alone, false, sent, slept) && sent < s.limit
    requires Attempted(s, s', run, run', t, At(net, sent), alone, acked)
    ensures Retrying(s0, s', first, run', t, o, status, net, alone, acked, sent + 1,
                     if acked || sent + 1 == s.limit then slept else slept + Delay(sent + 1))
  {
    SendsSnoc(Project(first, t), t, net, sent);
    SendsSnoc(first, t, net, sent);
  }

  /** What the loop has achieved when it stops. */
  lemma RetryDone(s0: State, s: State, first: seq<Label>, run: seq<Label>, t: TaskId, o: OrderId,
                  status: OrderStatus, net: seq<Net>, alone: bool, ok: bool, sent: nat, slept: nat)
    requires Retrying(s0, s, first, run, t, o, status, net, alone, ok, sent, slept) && (ok || sent == s.limit)
    requires Exec(Init(s0.limit), first) == Some(s0) && Owed(s0, t) == Some(Request(o, status))
    ensures s.tasks[t].phase.Announcing? && slept == if sent == 0 then 0 else TotalDelay(sent - 1)
    ensures alone && ok ==> o in s0.orders && s.orders == s0.orders[o := status]
    ensures alone && !ok ==> s.orders == s0.orders || (o in s0.orders && s.orders == s0.orders[o := status])
  {
    if alone {
      SendsAlone(first, s0, t, o, status, net, sent);
    }
  }

  /** The answer to an initialization; `asked` is the amount in kobo that the gateway was asked for. */
  datatype InitReply =
    | BadRequest
    | GatewayRefused(asked: int)
    | Conflict(asked: int)
    | Created(reference: Ref, asked: int)

  datatype GatewayReply = ChargeConfirmed | ChargeNotSuccessful | GatewayError

  /** What the handler did. */
  datatype Handled = Unknown | Unverified | Processed(notified: bool)

  // ---- At each program counter the next step can be taken ----

  lemma SendReady(limit: nat, run: seq<Label>, t: TaskId, net: Net)
    requires Exec(Init(limit), run).Some?
    requires var s := Exec(Init(limit), run).value; t in s.tasks && s.tasks[t].phase.Notifying?
    ensures Enabled(Exec(Init(limit), run).value, Send(t, net))
  {
    ReachedInv(limit, run);
    assert TaskOk(Exec(Init(limit), run).value, Exec(Init(limit), run).value.tasks[t]);
  }

  lemma VerifyReady(limit: nat, run: seq<Label>, t: TaskId, ok: bool)
    requires Exec(Init(limit), run).Some?
    requires var s := Exec(Init(limit), run).value;
             t in s.tasks && s.tasks[t].phase.Loaded? && s.tasks[t].event.ChargeSuccess?
    ensures Enabled(Exec(Init(limit), run).value, Verify(t, ok))
  {
    ReachedInv(limit, run);
    assert TaskOk(Exec(Init(limit), run).value, Exec(Init(limit), run).value.tasks[t]);
  }

  lemma CommitReady(limit: nat, run: seq<Label>, t: TaskId)
    requires Exec(Init(limit), run).Some? && ReadyToCommit(Exec(Init(limit), run).value, t)
    ensures Enabled(Exec(Init(limit), run).value, Commit(t, false))
    ensures !Exec(Init(limit), run).value.tasks[t].committed
    ensures Exec(Init(limit), run).value.tasks[t].attempts == 0 && !Exec(Init(limit), run).value.tasks[t].acked
  {
    ReachedInv(limit, run);
    assert TaskOk(Exec(Init(limit), run).value, Exec(Init(limit), run).value.tasks[t]);
  }

  lemma PublishReady(limit: nat, run: seq<Label>, t: TaskId, delivered: bool)
    requires Exec(Init(limit), run).Some?
    requires var s := Exec(Init(limit), run).value; t in s.tasks && s.tasks[t].phase.Announcing?
    ensures Enabled(Exec(Init(limit), run).value, Publish(t, delivered))
  {
    ReachedInv(limit, run);
    assert TaskOk(Exec(Init(limit), run).value, Exec(Init(limit), run).value.tasks[t]);
  }

  /** What a finished task leaves behind. */
  lemma DoneMeans(limit: nat, run: seq<Label>, t: TaskId)
    requires Exec(Init(limit), run).Some?
    requires t in Exec(Init(limit), run).value.tasks && Exec(Init(limit), run).value.tasks[t].phase.Done?
    ensures var s := Exec(Init(limit), run).value;
            var k := s.tasks[t];
            && k.ref.Some? && Verdict(k.event).Some? && (k.ref.value, Verdict(k.event).value) in s.commits
            && (k.event.ChargeSuccess? ==> k.ref.value in s.verified)
            && k.ref.value in s.payments
            && (k.acked ==> s.payments[k.ref.value].orderId in s.patched)
            && (!k.acked ==> k.attempts == s.limit)
  {
    ReachedInv(limit, run);
    assert TaskOk(Exec(Init(limit), run).value, Exec(Init(limit), run).value.tasks[t]);
  }

  /** The handler's own steps before anything is written. */
  function Checks(t: TaskId, event: Event, outcome: Handled): seq<Label> {
    if outcome.Unknown? || !event.ChargeSuccess? then [Load(t)] else [Load(t)] + [Verify(t, !outcome.Unverified?)]
  }

  /** All of the handler's own steps, in order, given how it went. */
  function Protocol(t: TaskId, event: Event, handled: Handled, elided: bool,
                    net: seq<Net>, sent: nat, published: bool): seq<Label>
  {
    Checks(t, event, handled)
    + if handled.Processed? then [Commit(t, elided)] + Sends(t, net, sent) + [Publish(t, published)] else []
  }

  lemma ProtocolAssembled(before: seq<Label>, t: TaskId, event: Event, handled: Handled, elided: bool,
                          net: seq<Net>, sent: nat, published: bool)
    ensures before + Checks(t, event, handled)
            + (if handled.Processed? then [Commit(t, elided)] + Sends(t, net, sent) + [Publish(t, published)] else [])
            == before + Protocol(t, event, handled, elided, net, sent, published)
    ensures before + Checks(t, event, handled) + [Commit(t, elided)] + Sends(t, net, sent) + [Publish(t, published)]
            == before + Checks(t, event, handled)
               + ([Commit(t, elided)] + Sends(t, net, sent) + [Publish(t, published)])
    ensures !handled.Processed? ==>
              before + Checks(t, event, handled) == before + Protocol(t, event, handled, elided, net, sent, published)
  {
  }

  class PaymentService {
    const orderApi: OrderApi
    const limit: nat
    var settled: set<(Ref, Outcome)>
    var payments: map<Ref, Payment>
    var tasks: map<TaskId, Task>
    var wire: multiset<Request>
    var jobs: map<JobId, Job>
    var published: seq<Notice>
    var commits: set<(Ref, Outcome)>
    var verified: set<Ref>
    var patched: set<OrderId>
    var advanced: set<OrderId>

    /** The state of the saga that these fields hold. */
    function Now(): State
      reads this, orderApi
    {
      State(limit, settled, payments, orderApi.orders, tasks, wire, jobs, published,
            commits, verified, patched, advanced)
    }

    constructor (orderApi: OrderApi)
      requires orderApi.orders == map[]
      ensures this.orderApi == orderApi && Now() == Init(3)
    {
      this.orderApi := orderApi;
      limit := MAX_RETRIES;
      settled, payments, tasks, wire, jobs := {}, map[], map[], multiset{}, map[];
      published, commits, verified, patched, advanced := [], {}, {}, {}, {};
    }

    /** The others take the steps of `script`. */
    method Interleave(script: seq<Label>)
      requires Exec(Now(), script).Some?
      modifies this, orderApi
      ensures Exec(old(Now()), script) == Some(Now())
    {
      for i := 0 to |script|
        invariant Exec(Now(), script[i..]) == Exec(old(Now()), script)
      {
        var s := Next(Now(), script[i]);
        assert script[i..][1..] == script[i + 1..];
        Adopt(s);
      }
    }

    method Adopt(s: State)
      requires s.limit == limit
      modifies this, orderApi
      ensures Now() == s
    {
      AdoptTables(s);
      AdoptHistory(s);
    }

    method AdoptTables(s: State)
      modifies this`payments, this`tasks, this`wire, this`jobs, orderApi
      ensures payments == s.payments && tasks == s.tasks && wire == s.wire && jobs == s.jobs
      ensures orderApi.orders == s.orders
    {
      payments, tasks, wire, jobs := s.payments, s.tasks, s.wire, s.jobs;
      orderApi.orders := s.orders;
    }

    method AdoptHistory(s: State)
      modifies this`settled, this`published, this`commits, this`verified, this`patched, this`advanced
      ensures settled == s.settled && published == s.published && commits == s.commits
      ensures verified == s.verified && patched == s.patched && advanced == s.advanced
    {
      settled, published, commits := s.settled, s.published, s.commits;
      verified, patched, advanced := s.verified, s.patched, s.advanced;
    }

    /** An await of task `t`: the others, if any, take legal steps. `run` is the history so far. */
    method Await(t: TaskId, n: nat, others: Option<Strategy>, ghost run: seq<Label>)
      returns (ghost run': seq<Label>)
      requires Exec(Init(limit), run) == Some(Now())
      requires t in tasks
      modifies this, orderApi
      ensures Exec(Init(limit), run') == Some(Now()) && Project(run', t) == Project(run, t)
      ensures t in tasks && tasks[t] == old(tasks[t]) && Grows(old(Now()), Now())
      ensures others.None? ==> Now() == old(Now()) && run' == run
    {
      run' := run;
      if others.Some? {
        var script := others.value(n, Now());
        if Legal(Now(), script, t) {
          ReachedInv(limit, run);
          ForeignKeepsTask(Now(), script, t);
          ExecConcat(Init(limit), run, script);
          ProjectConcat(run, script, t);
          ProjectForeign(script, t);
          Interleave(script);
          run' := run + script;
        }
      }
    }

    /** POST /payments/initialize: ask the gateway for `Kobo(amount)`, then store a pending row.
        Nothing is stored unless the gateway accepts and its reference is new. */
    method Initialize(orderId: OrderId, amount: string, reference: Ref, accepted: bool) returns (reply: InitReply)
      requires reference != ""
      modifies this`payments
      ensures reply.BadRequest? <==> Parse(amount).None?
      ensures reply.GatewayRefused? <==> Parse(amount).Some? && !accepted
      ensures reply.Conflict? <==> Parse(amount).Some? && accepted && reference in old(payments)
      ensures !reply.BadRequest? ==> reply.asked == Kobo(Parse(amount).value)
      ensures !reply.Created? ==> Now() == old(Now())
      ensures reply.Created? ==>
                && reply.reference == reference
                && Enabled(old(Now()), NewPayment(reference, orderId))
                && Now() == Next(old(Now()), NewPayment(reference, orderId))
                && payments == old(payments)[reference := Payment(orderId, Pending)]
    {
      var naira := Parse(amount);
      if naira.None? {
        return BadRequest;
      }
      var kobo := Kobo(naira.value);
      if !accepted {
        return GatewayRefused(kobo);
      }
      if reference in payments {
        return Conflict(kobo);
      }
      payments := payments[reference := Payment(orderId, Pending)];
      reply := Created(reference, kobo);
    }

    /** POST /payments/webhook once the signature is accepted: answer 200 and queue a task. */
    method PaystackWebhook(t: TaskId, event: Event, reference: Option<Ref>)
      requires Enabled(Now(), Deliver(t, event, reference))
      modifies this`tasks
      ensures Now() == Next(old(Now()), Deliver(t, event, reference))
      ensures tasks == old(tasks)[t := Task(event, reference, Received, false, 0, false)]
    {
      tasks := tasks[t := Task(event, reference, Received, false, 0, false)];
    }

    // ---- The atomic segments of the handler ----

    /** SELECT the payment by reference, or give up. */
    method LoadPayment(t: TaskId) returns (found: bool)
      requires Enabled(Now(), Load(t))
      modifies this`tasks
      ensures Now() == Next(old(Now()), Load(t))
      ensures found <==>
                var k := old(tasks)[t]; k.ref.Some? && k.ref.value in payments && !k.event.OtherEvent?
      ensures tasks == old(tasks)[t := old(tasks)[t].(
                phase := if found then Loaded(payments[old(tasks)[t].ref.value].status) else Ignored)]
    {
      var k := tasks[t];
      if k.ref.None? || k.ref.value !in payments || k.event.OtherEvent? {
        tasks := tasks[t := k.(phase := Ignored)];
        return false;
      }
      tasks := tasks[t := k.(phase := Loaded(payments[k.ref.value].status))];
      return true;
    }

    /** Re-verify a success with the gateway; anything but success ends its background task. */
    method VerifyCharge(t: TaskId, reply: GatewayReply) returns (ok: bool)
      requires Enabled(Now(), Verify(t, reply.ChargeConfirmed?))
      modifies this`tasks, this`verified
      ensures ok == reply.ChargeConfirmed?
      ensures Now() == Next(old(Now()), Verify(t, ok))
      ensures verified == if ok then old(verified) + {old(tasks)[t].ref.value} else old(verified)
      ensures tasks == old(tasks)[t := old(tasks)[t].(
                phase := if ok then Reverified(old(tasks)[t].phase.seen) else Ignored)]
    {
      var k := tasks[t];
      match reply
      case ChargeConfirmed =>
        verified := verified + {k.ref.value};
        tasks := tasks[t := k.(phase := Reverified(k.phase.seen))];
        ok := true;
      case _ =>
        tasks := tasks[t := k.(phase := Ignored)];
        ok := false;
    }

    /** Assign the status and commit. */
    method CommitOutcome(t: TaskId, elided: bool)
      requires Enabled(Now(), Commit(t, elided))
      modifies this`payments, this`commits, this`tasks
      ensures Now() == Next(old(Now()), Commit(t, elided))
      ensures var ref := old(tasks)[t].ref.value;
              payments == if elided then old(payments)
                          else old(payments)[ref := Payment(old(payments)[ref].orderId,
                                                            if old(tasks)[t].event == ChargeSuccess then Succeeded
                                                            else PaymentStatus.Failed)]
    {
      var k := tasks[t];
      var out := Verdict(k.event).value;
      if !elided {
        payments := payments[k.ref.value := payments[k.ref.value].(status := StatusOf(out))];
      }
      commits := commits + {(k.ref.value, out)};
      tasks := tasks[t := k.(committed := true, phase := if limit == 0 then Announcing else Notifying)];
    }

    /** One PATCH to order-service. */
    method SendPatch(t: TaskId, net: Net) returns (acked: bool)
      requires Enabled(Now(), Send(t, net))
      modifies this`tasks, this`patched, this`wire, orderApi
      ensures Now() == Next(old(Now()), Send(t, net))
      ensures acked == tasks[t].acked
      ensures acked <==> net.Answered? && payments[tasks[t].ref.value].orderId in orderApi.orders
      ensures var k := old(tasks)[t];
              var o, goal := payments[k.ref.value].orderId, if k.event == ChargeSuccess then Paid else Cancelled;
              && orderApi.orders == (if (net.Answered? || net.ReplyLost?) && o in old(orderApi.orders)
                                     then old(orderApi.orders)[o := goal] else old(orderApi.orders))
              && wire == (if net.Delayed? then old(wire) + multiset{Request(o, goal)} else old(wire))
    {
      var k := tasks[t];
      var o, goal := payments[k.ref.value].orderId, Target(Verdict(k.event).value);
      if (net.Answered? || net.ReplyLost?) && o in orderApi.orders {
        patched := patched + {o};
      }
      if net.Delayed? {
        wire := wire + multiset{Request(o, goal)};
      }
      acked := orderApi.Patch(o, goal, net);
      tasks := tasks[t := AfterAttempt(k, limit, acked)];
    }

    /** Publish the outcome; a failed publish is logged and forgotten. */
    method PublishOutcome(t: TaskId, delivered: bool)
      requires Enabled(Now(), Publish(t, delivered))
      modifies this`published, this`tasks
      ensures Now() == Next(old(Now()), Publish(t, delivered))
      ensures var k := old(tasks)[t];
              var notice := Notice(if k.event == ChargeSuccess then Success else Failure,
                                   payments[k.ref.value].orderId, k.ref.value);
              published == old(published) + if delivered then [notice] else []
    {
      var k := tasks[t];
      if delivered {
        published := published + [Notice(Verdict(k.event).value, payments[k.ref.value].orderId, k.ref.value)];
      }
      tasks := tasks[t := k.(phase := Done)];
    }

    /** Wait for a turn and send PATCH number `sent` + 1. */
    method AttemptOnce(t: TaskId, orderId: OrderId, status: OrderStatus, net: seq<Net>, others: Option<Strategy>,
                       sent: nat, slept: nat, ghost s0: State, ghost first: seq<Label>, ghost run: seq<Label>)
      returns (acked: bool, ghost run': seq<Label>)
      requires Retrying(s0, Now(), first, run, t, orderId, status, net, others.None?, false, sent, slept)
      requires sent < limit
      modifies this, orderApi
      ensures Retrying(s0, Now(), first, run', t, orderId, status, net, others.None?, acked, sent + 1,
                       if acked || sent + 1 == limit then slept else slept + Delay(sent + 1))
    {
      ghost var start := Now();
      run' := Await(t, sent, others, run);
      ghost var before := Now();
      SendReady(limit, run', t, At(net, sent));
      acked := SendPatch(t, At(net, sent));
      run' := Extend(run', before, Send(t, At(net, sent)), t);
      RetryStep(s0, start, Now(), first, run, run', t, orderId, status, net, others.None?, sent, slept, acked);
    }

    /** The attempt loop: leave it on a 200 or after the last attempt, and pause after each failure
        but the last. */
    method Retry(t: TaskId, orderId: OrderId, status: OrderStatus, net: seq<Net>,
                 others: Option<Strategy>, ghost run: seq<Label>)
      returns (ok: bool, sent: nat, slept: nat, ghost run': seq<Label>)
      requires Exec(Init(limit), run) == Some(Now())
      requires Owed(Now(), t) == Some(Request(orderId, status))
      requires tasks[t].phase == (if limit == 0 then Announcing else Notifying)
      requires tasks[t].attempts == 0 && !tasks[t].acked
      modifies this, orderApi
      ensures Retrying(old(Now()), Now(), run, run', t, orderId, status, net, others.None?, ok, sent, slept)
      ensures ok || sent == limit
    {
      ghost var s0 := Now();
      ok, sent, slept, run' := false, 0, 0, run;
      SendsNone(run, t, net);
      while sent < limit && !ok
        invariant Retrying(s0, Now(), run, run', t, orderId, status, net, others.None?, ok, sent, slept)
        decreases limit - sent, !ok
      {
        var acked;
        acked, run' := AttemptOnce(t, orderId, status, net, others, sent, slept, s0, run, run');
        sent := sent + 1;
        if acked {
          ok := true;
        } else if sent < limit {
          slept := slept + Delay(sent);
        }
      }
    }

    /** The retrying client. Order-service is told `status` up to `limit` times, with a pause after
        each failure but the last; `net` is what happens to each attempt in turn. */
    method UpdateOrderStatus(t: TaskId, orderId: OrderId, status: OrderStatus, net: seq<Net>,
                             others: Option<Strategy>, ghost run: seq<Label>)
      returns (ok: bool, sent: nat, slept: nat, ghost run': seq<Label>)
      requires Exec(Init(limit), run) == Some(Now())
      requires Owed(Now(), t) == Some(Request(orderId, status))
      requires tasks[t].phase == (if limit == 0 then Announcing else Notifying)
      requires tasks[t].attempts == 0 && !tasks[t].acked
      modifies this, orderApi
      ensures Exec(Init(limit), run') == Some(Now())
      ensures Project(run', t) == Project(run, t) + Sends(t, net, sent)
      ensures t in tasks && tasks[t] == old(tasks[t]).(phase := Announcing, attempts := sent, acked := ok)
      // attempts and pauses
      ensures sent <= limit && (!ok ==> sent == limit)
      ensures slept == if sent == 0 then 0 else TotalDelay(sent - 1)
      // true exactly when one of the attempts got a 200
      ensures ok ==> sent > 0 && At(net, sent - 1).Answered? && orderId in patched && orderId in orderApi.orders
      ensures !ok && orderId in old(orderApi.orders) ==> forall k :: 0 <= k < limit ==> !At(net, k).Answered?
      // with no other writer, true means written, false means written or not, and a missing order
      // is never acknowledged
      ensures others.None? ==>
                (ok <==> orderId in old(orderApi.orders) && exists k :: 0 <= k < limit && At(net, k).Answered?)
      ensures others.None? && ok ==> orderApi.orders == old(orderApi.orders)[orderId := status]
      ensures others.None? && !ok ==>
                || orderApi.orders == old(orderApi.orders)
                || (orderId in old(orderApi.orders) && orderApi.orders == old(orderApi.orders)[orderId := status])
    {
      ghost var s0 := Now();
      ok, sent, slept, run' := Retry(t, orderId, status, net, others, run);
      RetryDone(s0, Now(), run, run', t, orderId, status, net, others.None?, ok, sent, slept);
    }

    method LookUp(t: TaskId, others: Option<Strategy>, ghost run: seq<Label>)
      returns (found: bool, ghost run': seq<Label>)
      requires Exec(Init(limit), run) == Some(Now())
      requires t in tasks && tasks[t].phase.Received?
      modifies this, orderApi
      ensures Exec(Init(limit), run') == Some(Now())
      ensures Project(run', t) == Project(run, t) + [Load(t)]
      ensures t in tasks && (found <==> tasks[t].phase.Loaded?)
      ensures tasks[t] == old(tasks[t]).(phase := if found then tasks[t].phase else Ignored)
      ensures found ==> tasks[t].ref.Some? && !tasks[t].event.OtherEvent?
      ensures !found ==> tasks[t].event.OtherEvent? || tasks[t].ref.None? || tasks[t].ref.value !in old(payments)
    {
      run' := Await(t, 0, others, run);
      ghost var before := Now();
      found := LoadPayment(t);
      run' := Extend(run', before, Load(t), t);
    }

    /** The checks before anything is written. */
    method Examine(t: TaskId, event: Event, reference: Option<Ref>, reply: GatewayReply,
                   others: Option<Strategy>, ghost run: seq<Label>)
      returns (outcome: Handled, ghost run': seq<Label>)
      requires Exec(Init(limit), run) == Some(Now())
      requires t in tasks && tasks[t] == Task(event, reference, Received, false, 0, false)
      modifies this, orderApi
      ensures Exec(Init(limit), run') == Some(Now())
      ensures Project(run', t) == Project(run, t) + Checks(t, event, outcome)
      ensures t in tasks && tasks[t].event == event && tasks[t].ref == reference
      ensures outcome.Unknown? || outcome.Unverified? ==> tasks[t] == Task(event, reference, Ignored, false, 0, false)
      ensures outcome.Unknown? ==> event.OtherEvent? || reference.None? || reference.value !in old(payments)
      ensures outcome.Unverified? <==> !outcome.Unknown? && event.ChargeSuccess? && !reply.ChargeConfirmed?
      ensures outcome.Processed? ==> ReadyToCommit(Now(), t) && reference.Some?
    {
      var found;
      found, run' := LookUp(t, others, run);
      if !found {
        return Unknown, run';
      }
      if event == ChargeSuccess {
        var ok;
        ok, run' := Reverify(t, reply, others, run');
        if !ok {
          return Unverified, run';
        }
      }
      outcome := Processed(false);
    }

    method Reverify(t: TaskId, reply: GatewayReply, others: Option<Strategy>, ghost run: seq<Label>)
      returns (ok: bool, ghost run': seq<Label>)
      requires Exec(Init(limit), run) == Some(Now())
      requires t in tasks && tasks[t].phase.Loaded? && tasks[t].event.ChargeSuccess?
      modifies this, orderApi
      ensures Exec(Init(limit), run') == Some(Now()) && ok == reply.ChargeConfirmed?
      ensures Project(run', t) == Project(run, t) + [Verify(t, ok)]
      ensures t in tasks
      ensures tasks[t] == old(tasks[t]).(phase := if ok then Reverified(old(tasks[t]).phase.seen) else Ignored)
    {
      run' := Await(t, 1, others, run);
      ghost var before := Now();
      VerifyReady(limit, run', t, reply.ChargeConfirmed?);
      ok := VerifyCharge(t, reply);
      run' := Extend(run', before, Verify(t, ok), t);
    }

    /** Assign the status and commit; the ORM leaves the column alone when it was loaded with the
        new value, at its discretion `elide`. */
    method RecordOutcome(t: TaskId, elide: bool, others: Option<Strategy>, ghost run: seq<Label>)
      returns (ghost elided: bool, ghost run': seq<Label>)
      requires Exec(Init(limit), run) == Some(Now())
      requires ReadyToCommit(Now(), t)
      modifies this, orderApi
      ensures Exec(Init(limit), run') == Some(Now())
      ensures Project(run', t) == Project(run, t) + [Commit(t, elided)]
      ensures t in tasks
      ensures tasks[t] == old(tasks[t]).(committed := true, phase := if limit == 0 then Announcing else Notifying)
      ensures Owed(Now(), t).Some? && tasks[t].attempts == 0 && !tasks[t].acked
    {
      run' := Await(t, 2, others, run);
      ghost var before := Now();
      CommitReady(limit, run', t);
      var leave := elide && tasks[t].phase.seen == StatusOf(Verdict(tasks[t].event).value);
      CommitOutcome(t, leave);
      elided := leave;
      run' := Extend(run', before, Commit(t, elided), t);
    }

    /** handle_webhook, from the moment its background task starts to its end. The result says
        how far it got; the handler's own steps in the run are the protocol, in this order: load,
        re-verify a success, commit, notify, publish. */
    method HandleWebhook(t: TaskId, event: Event, reference: Option<Ref>, reply: GatewayReply, elide: bool,
                         net: seq<Net>, published: bool, others: Option<Strategy>, ghost run: seq<Label>)
      returns (handled: Handled, ghost run': seq<Label>, ghost elided: bool, ghost sent: nat)
      requires Exec(Init(limit), run) == Some(Now())
      requires t in tasks && tasks[t] == Task(event, reference, Received, false, 0, false)
      modifies this, orderApi
      ensures Exec(Init(limit), run') == Some(Now()) && t in tasks
      ensures Project(run', t) == Project(run, t) + Protocol(t, event, handled, elided, net, sent, published)
      ensures !handled.Processed? ==> tasks[t] == Task(event, reference, Ignored, false, 0, false)
      ensures handled.Unknown? ==> event.OtherEvent? || reference.None? || reference.value !in old(payments)
      ensures handled.Unverified? <==> !handled.Unknown? && event.ChargeSuccess? && !reply.ChargeConfirmed?
      ensures handled.Processed? ==>
                && tasks[t] == Task(event, reference, Done, true, sent, handled.notified)
                && reference.Some? && Verdict(event).Some?
                && (reference.value, Verdict(event).value) in commits
                && (event.ChargeSuccess? ==> reference.value in verified)
                && (!handled.notified ==> sent == limit)
                && reference.value in payments
                && (handled.notified ==> payments[reference.value].orderId in patched)
      ensures handled.Processed? && published ==>
                Notice(if event == ChargeSuccess then Success else Failure,
                       payments[reference.value].orderId, reference.value) in this.published
    {
      handled, run' := Examine(t, event, reference, reply, others, run);
      elided, sent := false, 0;
      if handled.Processed? {
        var notified;
        notified, elided, sent, run' := Process(t, elide, net, published, others, run');
        handled := Processed(notified);
        DoneMeans(limit, run', t);
      }
      ProtocolAssembled(Project(run, t), t, event, handled, elided, net, sent, published);
    }

    /** Commit, notify, publish. */
    method Process(t: TaskId, elide: bool, net: seq<Net>, published: bool,
                   others: Option<Strategy>, ghost run: seq<Label>)
      returns (notified: bool, ghost elided: bool, ghost sent: nat, ghost run': seq<Label>)
      requires Exec(Init(limit), run) == Some(Now())
      requires ReadyToCommit(Now(), t)
      modifies this, orderApi
      ensures Exec(Init(limit), run') == Some(Now())
      ensures Project(run', t) == Project(run, t) + [Commit(t, elided)] + Sends(t, net, sent) + [Publish(t, published)]
      ensures t in tasks && tasks[t] == Task(old(tasks[t]).event, old(tasks[t]).ref, Done, true, sent, notified)
      ensures tasks[t].ref.Some? && tasks[t].ref.value in payments
      ensures published ==>
                Notice(if tasks[t].event == ChargeSuccess then Success else Failure,
                       payments[tasks[t].ref.value].orderId, tasks[t].ref.value) in this.published
    {
      elided, run' := RecordOutcome(t, elide, others, run);
      var owed := Owed(Now(), t).value;
      var attempts, slept;
      notified, attempts, slept, run' := UpdateOrderStatus(t, owed.orderId, owed.status, net, others, run');
      run' := Announce(t, published, others, run');
      sent := attempts;
    }

    method Announce(t: TaskId, published: bool, others: Option<Strategy>, ghost run: seq<Label>)
      returns (ghost run': seq<Label>)
      requires Exec(Init(limit), run) == Some(Now())
      requires t in tasks && tasks[t].phase.Announcing?
      modifies this, orderApi
      ensures Exec(Init(limit), run') == Some(Now())
      ensures Project(run', t) == Project(run, t) + [Publish(t, published)]
      ensures t in tasks && tasks[t] == old(tasks[t]).(phase := Done)
      ensures tasks[t].ref.Some? && tasks[t].ref.value in payments
      ensures published ==>
                Notice(if tasks[t].event == ChargeSuccess then Success else Failure,
                       payments[tasks[t].ref.value].orderId, tasks[t].ref.value) in this.published
    {
      run' := Await(t, limit + 3, others, run);
      ghost var before := Now();
      PublishReady(limit, run', t, published);
      PublishOutcome(t, published);
      run' := Extend(run', before, Publish(t, published), t);
    }

    /** Record an own step that has just been taken. */
    ghost method Extend(run: seq<Label>, before: State, l: Label, t: TaskId) returns (run': seq<Label>)
      requires Exec(Init(limit), run) == Some(before) && Enabled(before, l) && Now() == Next(before, l) && Own(l, t)
      ensures Exec(Init(limit), run') == Some(Now()) && run' == run + [l]
      ensures Project(run', t) == Project(run, t) + [l]
    {
      run' := run + [l];
      ExecStep(Init(limit), run, l);
      ProjectConcat(run, [l], t);
      assert [l][1..] == [];
    }
  }
}
