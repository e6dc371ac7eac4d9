/** The payment-order saga as a labelled transition system: webhook tasks, late requests,
    reconciler jobs and their environment, interleaved one step at a time. */
module Saga {
  import opened Domain
  import opened OrderRoutes
  import opened Reconcile

  type TaskId = nat
  type JobId = nat

  datatype Event = ChargeSuccess | ChargeFailure | OtherEvent

  /** Where a background webhook task stands. `seen` is the status it loaded. */
  datatype Phase =
    | Received
    | Loaded(seen: PaymentStatus)
    | Reverified(seen: PaymentStatus)  // the gateway re-verified the charge
    | Notifying                        // inside the retry loop
    | Announcing                       // about to publish
    | Ignored
    | Done
    | Crashed

  datatype Task = Task(
    event: Event, ref: Option<Ref>, phase: Phase,
    committed: bool,   // this task committed its outcome
    attempts: nat,     // PATCHes sent
    acked: bool        // one of them returned 200
  )

  /** A PATCH its sender gave up on and order-service may still serve. */
  datatype Request = Request(orderId: OrderId, status: OrderStatus)

  datatype Job =
    | Fetched(rows: seq<Row>)
    | Fixing(rows: seq<Row>, found: seq<Mismatch>, next: nat, allFixed: bool)
    | Exited(rows: seq<Row>, code: nat)
    | Aborted

  /** payment.succeeded / payment.failed */
  datatype Notice = Notice(outcome: Outcome, orderId: OrderId, ref: Ref)

  datatype State = State(
    limit: nat,                        // attempts per notification
    settled: set<(Ref, Outcome)>,      // verdicts the gateway has reached
    payments: map<Ref, Payment>,
    orders: Orders,
    tasks: map<TaskId, Task>,
    wire: multiset<Request>,
    jobs: map<JobId, Job>,
    published: seq<Notice>,
    // history
    commits: set<(Ref, Outcome)>,      // outcomes some task committed
    verified: set<Ref>,                // charges the gateway re-verified
    patched: set<OrderId>,             // orders some PATCH was applied to
    advanced: set<OrderId>             // orders shipping has moved on
  )

  function Init(limit: nat): State {
    State(limit, {}, map[], map[], map[], multiset{}, map[], [], {}, {}, {}, {})
  }

  datatype Label =
    // environment
    | NewOrder(o: OrderId)
    | NewPayment(ref: Ref, o: OrderId)
    | Settle(ref: Ref, out: Outcome)
    | Advance(o: OrderId, status: OrderStatus)
    // webhook tasks
    | Deliver(t: TaskId, event: Event, reference: Option<Ref>)
    | Load(t: TaskId)
    | Verify(t: TaskId, ok: bool)
    | Commit(t: TaskId, elided: bool)
    | Send(t: TaskId, net: Net)
    | Publish(t: TaskId, delivered: bool)
    | Crash(t: TaskId)
    // requests given up by their sender
    | Arrive(request: Request, net: Net)
    // reconciler jobs
    | FetchRows(j: JobId, rows: seq<Row>)
    | ScanRows(j: JobId, fix: bool)
    | Fix(j: JobId, net: Net)
    | Abort(j: JobId)

  /** The outcome an event reports, if it is one the handler acts on. */
  function Verdict(event: Event): Option<Outcome> {
    match event
    case ChargeSuccess => Some(Success)
    case ChargeFailure => Some(Failure)
    case OtherEvent => None
  }

  predicate Ended(phase: Phase) {
    phase.Ignored? || phase.Done? || phase.Crashed?
  }

  predicate In(s: State, t: TaskId) {
    t in s.tasks && !Ended(s.tasks[t].phase)
  }

  /** Task `t` can commit `out` having loaded `seen`: a success only once it is re-verified. */
  predicate ReadyToCommit(s: State, t: TaskId) {
    && t in s.tasks
    && var k := s.tasks[t];
       (k.phase.Loaded? && k.event.ChargeFailure?) || (k.phase.Reverified? && k.event.ChargeSuccess?)
  }

  predicate Enabled(s: State, l: Label) {
    match l
    case NewOrder(o) => o !in s.orders
    case NewPayment(ref, o) => ref !in s.payments && ref != ""
    case Settle(_, _) => true
    case Advance(o, status) => o in s.orders && Forwarded(status)
    case Deliver(t, event, reference) =>
      // an accepted webhook carries the gateway's signature
      && t !in s.tasks
      && (Verdict(event).Some? && reference.Some? ==> (reference.value, Verdict(event).value) in s.settled)
    case Load(t) => t in s.tasks && s.tasks[t].phase.Received?
    case Verify(t, ok) =>
      && t in s.tasks && s.tasks[t].phase.Loaded? && s.tasks[t].event.ChargeSuccess? && s.tasks[t].ref.Some?
      && (ok ==> (s.tasks[t].ref.value, Success) in s.settled)
    case Commit(t, elided) =>
      // the ORM issues no UPDATE for a column that already has the new value when loaded
      && ReadyToCommit(s, t) && s.tasks[t].ref.Some? && s.tasks[t].ref.value in s.payments
      && (elided ==> s.tasks[t].phase.seen == StatusOf(Verdict(s.tasks[t].event).value))
    case Send(t, _) =>
      && t in s.tasks && s.tasks[t].phase.Notifying? && Verdict(s.tasks[t].event).Some?
      && s.tasks[t].ref.Some? && s.tasks[t].ref.value in s.payments && s.tasks[t].attempts < s.limit
    case Publish(t, _) =>
      && t in s.tasks && s.tasks[t].phase.Announcing? && Verdict(s.tasks[t].event).Some?
      && s.tasks[t].ref.Some? && s.tasks[t].ref.value in s.payments
    case Crash(t) => In(s, t)
    case Arrive(request, _) => request in s.wire
    case FetchRows(j, rows) => j !in s.jobs && Selects(rows, s.payments)
    case ScanRows(j, _) => j in s.jobs && s.jobs[j].Fetched?
    case Fix(j, _) => j in s.jobs && s.jobs[j].Fixing? && s.jobs[j].next < |s.jobs[j].found|
    case Abort(j) => j in s.jobs && (s.jobs[j].Fetched? || s.jobs[j].Fixing?)
  }

  function SetTask(s: State, t: TaskId, k: Task): State {
    s.(tasks := s.tasks[t := k])
  }

  function SetJob(s: State, j: JobId, job: Job): State {
    s.(jobs := s.jobs[j := job])
  }

  /** One PATCH of order `o`, sent by anyone. */
  function Patch(s: State, o: OrderId, status: OrderStatus, net: Net): State {
    s.(orders := Attempt(s.orders, o, status, net).orders,
       patched := if Applies(s.orders, o, net) then s.patched + {o} else s.patched,
       wire := if net.Delayed? then s.wire + multiset{Request(o, status)} else s.wire)
  }

  /** Handler entry: ignore a missing reference, an unknown payment or an unhandled event. */
  function LoadTask(s: State, k: Task): Task {
    if k.ref.None? || k.ref.value !in s.payments || Verdict(k.event).None? then k.(phase := Ignored)
    else k.(phase := Loaded(s.payments[k.ref.value].status))
  }

  function CommitTask(s: State, t: TaskId, elided: bool): State
    requires Enabled(s, Commit(t, elided))
  {
    var k := s.tasks[t];
    var ref, out := k.ref.value, Verdict(k.event).value;
    s.(payments := if elided then s.payments else s.payments[ref := s.payments[ref].(status := StatusOf(out))],
       commits := s.commits + {(ref, out)},
       tasks := s.tasks[t := k.(committed := true, phase := if s.limit == 0 then Announcing else Notifying)])
  }

  /** Bookkeeping of one attempt: leave the retry loop on a 200 or after the last attempt. */
  function AfterAttempt(k: Task, limit: nat, acked: bool): Task {
    k.(attempts := k.attempts + 1, acked := acked,
       phase := if acked || k.attempts + 1 >= limit then Announcing else Notifying)
  }

  function SendTask(s: State, t: TaskId, net: Net): State
    requires Enabled(s, Send(t, net))
  {
    var k := s.tasks[t];
    var o, goal := s.payments[k.ref.value].orderId, Target(Verdict(k.event).value);
    SetTask(Patch(s, o, goal, net), t, AfterAttempt(k, s.limit, Attempt(s.orders, o, goal, net).acked))
  }

  function PublishTask(s: State, t: TaskId, delivered: bool): State
    requires Enabled(s, Publish(t, delivered))
  {
    var k := s.tasks[t];
    var notice := Notice(Verdict(k.event).value, s.payments[k.ref.value].orderId, k.ref.value);
    SetTask(s.(published := s.published + if delivered then [notice] else []), t, k.(phase := Done))
  }

  function ScanJob(rows: seq<Row>, orders: Orders, fix: bool): Job {
    var found := Scan(rows, orders);
    if found == [] then Exited(rows, 0) else if fix then Fixing(rows, found, 0, true) else Exited(rows, 1)
  }

  function AfterFix(job: Job, acked: bool): Job
    requires job.Fixing?
  {
    var all := job.allFixed && acked;
    if job.next + 1 < |job.found| then job.(next := job.next + 1, allFixed := all)
    else Exited(job.rows, if all then 0 else 2)
  }

  function FixJob(s: State, j: JobId, net: Net): State
    requires Enabled(s, Fix(j, net))
  {
    var m := s.jobs[j].found[s.jobs[j].next];
    var o, goal := m.row.orderId, Target(m.row.outcome);
    SetJob(Patch(s, o, goal, net), j, AfterFix(s.jobs[j], Attempt(s.orders, o, goal, net).acked))
  }

  function Next(s: State, l: Label): State
    requires Enabled(s, l)
  {
    match l
    case NewOrder(o) => s.(orders := s.orders[o := PendingPayment])
    case NewPayment(ref, o) => s.(payments := s.payments[ref := Payment(o, Pending)])
    case Settle(ref, out) => s.(settled := s.settled + {(ref, out)})
    case Advance(o, status) => s.(orders := s.orders[o := status], advanced := s.advanced + {o})
    case Deliver(t, event, reference) => SetTask(s, t, Task(event, reference, Received, false, 0, false))
    case Load(t) => SetTask(s, t, LoadTask(s, s.tasks[t]))
    case Verify(t, ok) =>
      var k := s.tasks[t];
      if ok then SetTask(s, t, k.(phase := Reverified(k.phase.seen))).(verified := s.verified + {k.ref.value})
      else SetTask(s, t, k.(phase := Ignored))
    case Commit(t, elided) => CommitTask(s, t, elided)
    case Send(t, net) => SendTask(s, t, net)
    case Publish(t, delivered) => PublishTask(s, t, delivered)
    case Crash(t) => SetTask(s, t, s.tasks[t].(phase := Crashed))
    case Arrive(request, net) => Patch(s.(wire := s.wire - multiset{request}), request.orderId, request.status, net)
    case FetchRows(j, rows) => SetJob(s, j, Fetched(rows))
    case ScanRows(j, fix) => SetJob(s, j, ScanJob(s.jobs[j].rows, s.orders, fix))
    case Fix(j, net) => FixJob(s, j, net)
    case Abort(j) => SetJob(s, j, Aborted)
  }

  // ---- Runs ----

  /** The state after `run`, or None when some step of it is not enabled. */
  function Exec(s: State, run: seq<Label>): Option<State>
    decreases |run|
  {
    if run == [] then Some(s)
    else if Enabled(s, run[0]) then Exec(Next(s, run[0]), run[1..])
    else None
  }

  lemma {:induction false} ExecConcat(s: State, a: seq<Label>, b: seq<Label>)
    ensures Exec(s, a + b) == if Exec(s, a).Some? then Exec(Exec(s, a).value, b) else None
    decreases |a|
  {
    if a == [] {
      assert a + b == b;
    } else {
      assert (a + b)[1..] == a[1..] + b;
      if Enabled(s, a[0]) {
        ExecConcat(Next(s, a[0]), a[1..], b);
      }
    }
  }

  lemma ExecStep(s: State, a: seq<Label>, l: Label)
    requires Exec(s, a).Some? && Enabled(Exec(s, a).value, l)
    ensures Exec(s, a + [l]) == Some(Next(Exec(s, a).value, l))
  {
    ExecConcat(s, a, [l]);
    assert [l][1..] == [];
  }

  lemma ExecCons(s: State, l: Label, rest: seq<Label>)
    requires Enabled(s, l)
    ensures Exec(s, [l] + rest) == Exec(Next(s, l), rest)
  {
    assert ([l] + rest)[1..] == rest;
  }

  lemma ExecSplit(s: State, run: seq<Label>, k: nat)
    requires Exec(s, run).Some? && k <= |run|
    ensures Exec(s, run[..k]).Some? && Exec(Exec(s, run[..k]).value, run[k..]) == Exec(s, run)
  {
    assert run[..k] + run[k..] == run;
    ExecConcat(s, run[..k], run[k..]);
  }

  /** The state after the first `k` steps of `run`. */
  function StateAt(s: State, run: seq<Label>, k: nat): State
    requires Exec(s, run).Some? && k <= |run|
  {
    ExecSplit(s, run, k);
    Exec(s, run[..k]).value
  }

  lemma StateAtStep(s: State, run: seq<Label>, k: nat)
    requires Exec(s, run).Some? && k < |run|
    ensures Enabled(StateAt(s, run, k), run[k]) && StateAt(s, run, k + 1) == Next(StateAt(s, run, k), run[k])
  {
    ExecSplit(s, run, k);
    assert run[..k + 1] == run[..k] + [run[k]];
    ExecStep(s, run[..k], run[k]);
  }
}
