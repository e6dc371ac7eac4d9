/** What every step of the saga keeps, whatever is interleaved. */
module SagaInvariant {
  import opened Domain
  import opened OrderRoutes
  import opened Reconcile
  import opened Saga

  /** `st` is the status that a committed outcome of some payment of order `o` calls for. */
  ghost predicate Justified(s: State, o: OrderId, st: OrderStatus) {
    exists ref, out :: JustifiedBy(s, o, st, ref, out)
  }

  predicate JustifiedBy(s: State, o: OrderId, st: OrderStatus, ref: Ref, out: Outcome) {
    (ref, out) in s.commits && ref in s.payments && s.payments[ref].orderId == o && st == Target(out)
  }

  // ---- The invariant, component by component ----

  ghost predicate HistoryOk(s: State) {
    && (forall ref, out :: (ref, out) in s.commits ==>
          ref in s.payments && (ref, out) in s.settled && (out.Success? ==> ref in s.verified))
    && s.patched <= s.orders.Keys && s.advanced <= s.orders.Keys
  }

  /** A terminal payment row shows an outcome that was committed for it. */
  ghost predicate PaymentsOk(s: State) {
    forall ref :: ref in s.payments && s.payments[ref].status != Pending ==>
      (ref, OutcomeOf(s.payments[ref].status)) in s.commits
  }

  /** What each program counter of a task says about the shared state. */
  predicate TaskOk(s: State, k: Task) {
    && (Verdict(k.event).Some? && k.ref.Some? ==> (k.ref.value, Verdict(k.event).value) in s.settled)
    && (k.phase.Loaded? || k.phase.Reverified? || k.committed ==>
          k.ref.Some? && k.ref.value in s.payments && Verdict(k.event).Some?)
    && ((k.phase.Loaded? || k.phase.Reverified?) && k.phase.seen != Pending ==>
          (k.ref.value, OutcomeOf(k.phase.seen)) in s.commits)
    && (k.phase.Reverified? ==> k.event.ChargeSuccess? && k.ref.value in s.verified)
    && (k.committed ==> (k.ref.value, Verdict(k.event).value) in s.commits)
    && (k.phase.Notifying? || k.phase.Announcing? || k.phase.Done? ==> k.committed)
    && (k.phase.Received? || k.phase.Loaded? || k.phase.Reverified? || k.phase.Ignored? ==> !k.committed)
    && (!k.committed ==> k.attempts == 0 && !k.acked)
    && k.attempts <= s.limit
    && (k.acked ==> k.committed && s.payments[k.ref.value].orderId in s.patched)
    && (k.phase.Notifying? ==> k.attempts < s.limit && !k.acked)
    && (k.phase.Announcing? || k.phase.Done? ==> k.acked || k.attempts == s.limit)
  }

  ghost predicate TasksOk(s: State) {
    && (forall t :: t in s.tasks ==> TaskOk(s, s.tasks[t]))
    && (forall ref, out :: (ref, out) in s.commits ==> exists t :: Committer(s, t, ref, out))
  }

  predicate Committer(s: State, t: TaskId, ref: Ref, out: Outcome) {
    && t in s.tasks && s.tasks[t].committed && s.tasks[t].ref == Some(ref)
    && Verdict(s.tasks[t].event) == Some(out)
  }

  ghost predicate WireOk(s: State) {
    forall q :: q in s.wire ==> Justified(s, q.orderId, q.status)
  }

  predicate RowOk(s: State, row: Row) {
    (row.ref, row.outcome) in s.commits && row.ref in s.payments && s.payments[row.ref].orderId == row.orderId
  }

  ghost predicate JobOk(s: State, job: Job) {
    && (!job.Aborted? ==> forall row :: row in job.rows ==> RowOk(s, row))
    && (job.Fixing? ==> job.next < |job.found| && forall m :: m in job.found ==> m.row in job.rows)
    && (job.Exited? ==> job.code <= 2)
  }

  ghost predicate JobsOk(s: State) {
    forall j :: j in s.jobs ==> JobOk(s, s.jobs[j])
  }

  /** An order has its initial status, one that some committed payment calls for, or one set
      by shipping. */
  ghost predicate OrderOk(s: State, o: OrderId)
    requires o in s.orders
  {
    if o in s.advanced then Forwarded(s.orders[o]) || Justified(s, o, s.orders[o])
    else if o in s.patched then Justified(s, o, s.orders[o])
    else s.orders[o] == PendingPayment
  }

  ghost predicate OrdersOk(s: State) {
    forall o :: o in s.orders ==> OrderOk(s, o)
  }

  /** Only committed outcomes are announced. */
  predicate NoticesOk(s: State) {
    forall n :: n in s.published ==>
      (n.ref, n.outcome) in s.commits && n.ref in s.payments && s.payments[n.ref].orderId == n.orderId
  }

  ghost predicate Inv(s: State) {
    && HistoryOk(s) && PaymentsOk(s) && TasksOk(s) && WireOk(s) && JobsOk(s) && OrdersOk(s) && NoticesOk(s)
  }

  // ---- What never shrinks ----

  ghost predicate Grows(s: State, s': State) {
    && s'.limit == s.limit
    && s.settled <= s'.settled && s.commits <= s'.commits && s.verified <= s'.verified
    && s.patched <= s'.patched && s.advanced <= s'.advanced
    && s.orders.Keys <= s'.orders.Keys
    && s.payments.Keys <= s'.payments.Keys
    && (forall ref :: ref in s.payments ==> s'.payments[ref].orderId == s.payments[ref].orderId)
  }

  lemma StepGrows(s: State, l: Label)
    requires Enabled(s, l)
    ensures Grows(s, Next(s, l))
  {
  }

  /** No run forgets a verdict or changes which order a charge pays. */
  lemma {:induction false} RunGrows(s: State, run: seq<Label>)
    requires Exec(s, run).Some?
    ensures Grows(s, Exec(s, run).value)
    decreases |run|
  {
    if run != [] {
      StepGrows(s, run[0]);
      RunGrows(Next(s, run[0]), run[1..]);
    }
  }

  lemma JustifiedGrows(s: State, s': State)
    requires Grows(s, s')
    ensures forall o, st :: Justified(s, o, st) ==> Justified(s', o, st)
  {
    forall o, st | Justified(s, o, st) ensures Justified(s', o, st) {
      var ref, out :| JustifiedBy(s, o, st, ref, out);
      assert JustifiedBy(s', o, st, ref, out);
    }
  }

  /** The goals that tasks and jobs write are justified. */
  lemma TaskGoalJustified(s: State, k: Task)
    requires TaskOk(s, k) && k.committed
    ensures Justified(s, s.payments[k.ref.value].orderId, Target(Verdict(k.event).value))
  {
    assert JustifiedBy(s, s.payments[k.ref.value].orderId, Target(Verdict(k.event).value),
                       k.ref.value, Verdict(k.event).value);
  }

  lemma RowGoalJustified(s: State, row: Row)
    requires RowOk(s, row)
    ensures Justified(s, row.orderId, Target(row.outcome))
  {
    assert JustifiedBy(s, row.orderId, Target(row.outcome), row.ref, row.outcome);
  }

  // ---- Every step keeps every component ----

  lemma HistoryStep(s: State, l: Label)
    requires Inv(s) && Enabled(s, l)
    ensures HistoryOk(Next(s, l))
  {
    StepGrows(s, l);
    match l
    case Commit(t, elided) => assert TaskOk(s, s.tasks[t]);
    case _ =>
  }

  lemma PaymentsStep(s: State, l: Label)
    requires Inv(s) && Enabled(s, l)
    ensures PaymentsOk(Next(s, l))
  {
    StepGrows(s, l);
  }

  lemma TaskGrows(s: State, s': State, k: Task)
    requires TaskOk(s, k) && Grows(s, s')
    ensures TaskOk(s', k)
  {
  }

  /** The task whose step `l` is. */
  function Actor(l: Label): Option<TaskId> {
    match l
    case Deliver(t, _, _) => Some(t)
    case Load(t) => Some(t)
    case Verify(t, _) => Some(t)
    case Commit(t, _) => Some(t)
    case Send(t, _) => Some(t)
    case Publish(t, _) => Some(t)
    case Crash(t) => Some(t)
    case _ => None
  }

  lemma OnlyActorMoves(s: State, l: Label)
    requires Enabled(s, l)
    ensures var tasks' := Next(s, l).tasks;
            && (forall t :: t in s.tasks ==> t in tasks')
            && (forall t :: t in tasks' && Actor(l) != Some(t) ==> t in s.tasks && tasks'[t] == s.tasks[t])
  {
  }

  lemma OwnTaskStep(s: State, l: Label)
    requires Inv(s) && Enabled(s, l) && Actor(l).Some?
    ensures Actor(l).value in Next(s, l).tasks && TaskOk(Next(s, l), Next(s, l).tasks[Actor(l).value])
  {
    match l
    case Deliver(t, event, reference) =>
    case Load(t) => OwnLoadStep(s, t);
    case Verify(t, ok) => OwnVerifyStep(s, t, ok);
    case Commit(t, elided) => OwnCommitStep(s, t, elided);
    case Send(t, net) => OwnSendStep(s, t, net);
    case Publish(t, delivered) => OwnLastStep(s, l);
    case Crash(t) => OwnLastStep(s, l);
  }

  lemma OwnLoadStep(s: State, t: TaskId)
    requires Inv(s) && Enabled(s, Load(t))
    ensures TaskOk(Next(s, Load(t)), Next(s, Load(t)).tasks[t])
  {
    assert TaskOk(s, s.tasks[t]);
  }

  lemma OwnVerifyStep(s: State, t: TaskId, ok: bool)
    requires Inv(s) && Enabled(s, Verify(t, ok))
    ensures TaskOk(Next(s, Verify(t, ok)), Next(s, Verify(t, ok)).tasks[t])
  {
    assert TaskOk(s, s.tasks[t]);
  }

  lemma OwnCommitStep(s: State, t: TaskId, elided: bool)
    requires Inv(s) && Enabled(s, Commit(t, elided))
    ensures TaskOk(Next(s, Commit(t, elided)), Next(s, Commit(t, elided)).tasks[t])
  {
    assert TaskOk(s, s.tasks[t]);
  }

  lemma OwnSendStep(s: State, t: TaskId, net: Net)
    requires Inv(s) && Enabled(s, Send(t, net))
    ensures TaskOk(Next(s, Send(t, net)), Next(s, Send(t, net)).tasks[t])
  {
    assert TaskOk(s, s.tasks[t]);
  }

  lemma OwnLastStep(s: State, l: Label)
    requires Inv(s) && Enabled(s, l) && (l.Publish? || l.Crash?)
    ensures TaskOk(Next(s, l), Next(s, l).tasks[l.t])
  {
    assert TaskOk(s, s.tasks[l.t]);
  }

  lemma TasksStep(s: State, l: Label)
    requires Inv(s) && Enabled(s, l)
    ensures TasksOk(Next(s, l))
  {
    var s' := Next(s, l);
    StepGrows(s, l);
    OnlyActorMoves(s, l);
    if Actor(l).Some? {
      OwnTaskStep(s, l);
    }
    forall t | t in s'.tasks ensures TaskOk(s', s'.tasks[t]) {
      if Actor(l) != Some(t) {
        TaskGrows(s, s', s.tasks[t]);
      }
    }
    forall ref, out | (ref, out) in s'.commits ensures exists t :: Committer(s', t, ref, out) {
      CommitterStep(s, l, ref, out);
    }
  }

  lemma CommitterKept(s: State, l: Label, t: TaskId, ref: Ref, out: Outcome)
    requires Inv(s) && Enabled(s, l) && Committer(s, t, ref, out)
    ensures Committer(Next(s, l), t, ref, out)
  {
    OnlyActorMoves(s, l);
    assert TaskOk(s, s.tasks[t]);
    if Actor(l) == Some(t) {
      CommittedSticks(s, l);
    }
  }

  /** A task that has committed keeps its event, reference and that fact. */
  lemma CommittedSticks(s: State, l: Label)
    requires Enabled(s, l) && Actor(l).Some? && Actor(l).value in s.tasks
    requires TaskOk(s, s.tasks[Actor(l).value]) && s.tasks[Actor(l).value].committed
    ensures Actor(l).value in Next(s, l).tasks
    ensures var k, k' := s.tasks[Actor(l).value], Next(s, l).tasks[Actor(l).value];
            k'.committed && k'.event == k.event && k'.ref == k.ref
  {
  }

  lemma CommitterStep(s: State, l: Label, ref: Ref, out: Outcome)
    requires Inv(s) && Enabled(s, l) && (ref, out) in Next(s, l).commits
    ensures exists t :: Committer(Next(s, l), t, ref, out)
  {
    if (ref, out) in s.commits {
      var t :| Committer(s, t, ref, out);
      CommitterKept(s, l, t, ref, out);
    } else {
      match l
      case Commit(t, elided) => assert Committer(Next(s, l), t, ref, out);
      case _ =>
    }
  }

  lemma WireStep(s: State, l: Label)
    requires Inv(s) && Enabled(s, l)
    ensures WireOk(Next(s, l))
  {
    StepGrows(s, l);
    JustifiedGrows(s, Next(s, l));
    if Written(s, l).Some? {
      WriterJustified(s, l);
    }
  }

  /** The order and status of the PATCH that a step makes, if it makes one. */
  function Written(s: State, l: Label): Option<Request> {
    match l
    case Send(t, _) =>
      if t in s.tasks && s.tasks[t].ref.Some? && s.tasks[t].ref.value in s.payments
         && Verdict(s.tasks[t].event).Some?
      then
        Some(Request(s.payments[s.tasks[t].ref.value].orderId, Target(Verdict(s.tasks[t].event).value)))
      else None
    case Fix(j, _) =>
      if j in s.jobs && s.jobs[j].Fixing? && s.jobs[j].next < |s.jobs[j].found| then
        var row := s.jobs[j].found[s.jobs[j].next].row;
        Some(Request(row.orderId, Target(row.outcome)))
      else None
    case Arrive(q, _) => Some(q)
    case _ => None
  }

  lemma WriterJustified(s: State, l: Label)
    requires Inv(s) && Enabled(s, l) && Written(s, l).Some?
    ensures Justified(s, Written(s, l).value.orderId, Written(s, l).value.status)
  {
    match l
    case Send(t, _) => TaskGoalJustified(s, s.tasks[t]);
    case Fix(j, _) =>
      assert JobOk(s, s.jobs[j]);
      assert s.jobs[j].found[s.jobs[j].next] in s.jobs[j].found;
      RowGoalJustified(s, s.jobs[j].found[s.jobs[j].next].row);
    case _ =>
  }

  lemma OrdersStep(s: State, l: Label)
    requires Inv(s) && Enabled(s, l)
    ensures OrdersOk(Next(s, l))
  {
    StepGrows(s, l);
    JustifiedGrows(s, Next(s, l));
    if Written(s, l).Some? {
      WriterJustified(s, l);
    }
    forall o | o in Next(s, l).orders ensures OrderOk(Next(s, l), o) {
      OrderChange(s, l, o);
    }
  }

  /** How one step can change the status of one order. */
  lemma OrderChange(s: State, l: Label, o: OrderId)
    requires Enabled(s, l) && o in Next(s, l).orders
    ensures var s' := Next(s, l);
            || (o in s.orders && s'.orders[o] == s.orders[o] && (o in s'.patched <==> o in s.patched)
                && (o in s'.advanced <==> o in s.advanced))
            || (o in s.orders && Written(s, l) == Some(Request(o, s'.orders[o])) && o in s'.patched
                && (o in s'.advanced <==> o in s.advanced))
            || (l.Advance? && o in s'.advanced && Forwarded(s'.orders[o]))
            || (o !in s.orders && l.NewOrder? && s'.orders[o] == PendingPayment
                && (o in s'.advanced <==> o in s.advanced) && (o in s'.patched <==> o in s.patched))
  {
  }

  lemma SelectedRowsOk(s: State, rows: seq<Row>)
    requires Inv(s) && Selects(rows, s.payments)
    ensures forall row :: row in rows ==> RowOk(s, row)
  {
  }

  lemma ScanJobOk(s: State, rows: seq<Row>, fix: bool)
    requires forall row :: row in rows ==> RowOk(s, row)
    ensures JobOk(s, ScanJob(rows, s.orders, fix))
  {
    forall m | m in Scan(rows, s.orders) ensures m.row in rows {
      ScanMembers(rows, s.orders, m);
    }
  }

  lemma JobsStep(s: State, l: Label)
    requires Inv(s) && Enabled(s, l)
    ensures JobsOk(Next(s, l))
  {
    var s' := Next(s, l);
    StepGrows(s, l);
    forall j | j in s'.jobs ensures JobOk(s', s'.jobs[j]) {
      if j in s.jobs && s'.jobs[j] == s.jobs[j] {
        assert JobOk(s, s.jobs[j]);
      } else {
        OwnJobStep(s, l, j);
      }
    }
  }

  lemma OwnJobStep(s: State, l: Label, j: JobId)
    requires Inv(s) && Enabled(s, l) && j in Next(s, l).jobs
    requires j !in s.jobs || Next(s, l).jobs[j] != s.jobs[j]
    ensures JobOk(Next(s, l), Next(s, l).jobs[j])
  {
    StepGrows(s, l);
    if j in s.jobs {
      assert JobOk(s, s.jobs[j]);
    }
    match l
    case FetchRows(_, rows) => SelectedRowsOk(s, rows);
    case ScanRows(_, fix) => ScanJobOk(s, s.jobs[j].rows, fix);
    case _ =>
  }

  lemma NoticesStep(s: State, l: Label)
    requires Inv(s) && Enabled(s, l)
    ensures NoticesOk(Next(s, l))
  {
    StepGrows(s, l);
    if l.Publish? {
      assert TaskOk(s, s.tasks[l.t]);
    }
  }

  lemma InvInit(limit: nat)
    ensures Inv(Init(limit))
  {
  }

  lemma InvStep(s: State, l: Label)
    requires Inv(s) && Enabled(s, l)
    ensures Inv(Next(s, l))
  {
    HistoryStep(s, l);
    PaymentsStep(s, l);
    TasksStep(s, l);
    WireStep(s, l);
    JobsStep(s, l);
    OrdersStep(s, l);
    NoticesStep(s, l);
  }

  /** The invariant holds after every run, and nothing recorded is forgotten. */
  lemma {:induction false} InvRun(s: State, run: seq<Label>)
    requires Inv(s) && Exec(s, run).Some?
    ensures Inv(Exec(s, run).value) && Grows(s, Exec(s, run).value)
    decreases |run|
  {
    if run != [] {
      InvStep(s, run[0]);
      StepGrows(s, run[0]);
      InvRun(Next(s, run[0]), run[1..]);
    }
  }

  // ---- What a step writes ----

  /** The status that a step of the saga writes. */
  function StatusWrite(s: State, l: Label): Option<Request> {
    match l
    case Send(_, net) => if Serves(net) then Written(s, l) else None
    case Fix(_, net) => if Serves(net) then Written(s, l) else None
    case Arrive(q, net) => if Serves(net) then Some(q) else None
    case Advance(o, status) => Some(Request(o, status))
    case _ => None
  }

  predicate Serves(net: Net) {
    net.Answered? || net.ReplyLost?
  }

  lemma OthersKeepOrders(s: State, l: Label)
    requires Enabled(s, l) && !l.NewOrder? && !l.Send? && !l.Fix? && !l.Arrive? && !l.Advance?
    ensures Next(s, l).orders == s.orders
  {
  }

  lemma SendWrites(s: State, t: TaskId, net: Net)
    requires Enabled(s, Send(t, net))
    ensures Wrote(s, Next(s, Send(t, net)), StatusWrite(s, Send(t, net)))
  {
  }

  lemma FixWrites(s: State, j: JobId, net: Net)
    requires Enabled(s, Fix(j, net))
    ensures Wrote(s, Next(s, Fix(j, net)), StatusWrite(s, Fix(j, net)))
  {
  }

  /** From `s` to `s'` the orders change by the PATCH `q`, or not at all. */
  predicate Wrote(s: State, s': State, q: Option<Request>) {
    s'.orders == match q
                 case None => s.orders
                 case Some(r) => Attempt(s.orders, r.orderId, r.status, Answered).orders
  }

  lemma StatusWritten(s: State, l: Label)
    requires Enabled(s, l) && !l.NewOrder?
    ensures Wrote(s, Next(s, l), StatusWrite(s, l))
  {
    match l
    case Send(t, net) => SendWrites(s, t, net);
    case Fix(j, net) => FixWrites(s, j, net);
    case Arrive(q, net) =>
    case Advance(o, status) =>
    case _ => OthersKeepOrders(s, l);
  }
}
