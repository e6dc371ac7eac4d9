/** The main results about runs of the saga. */
module SagaTheorems {
  import opened Domain
  import opened OrderRoutes
  import opened Reconcile
  import opened Saga
  import opened SagaInvariant

  /** The gateway has settled charge `ref` both ways. */
  predicate Contradicted(s: State, ref: Ref) {
    (ref, Success) in s.settled && (ref, Failure) in s.settled
  }

  predicate Paying(s: State, ref: Ref, out: Outcome) {
    (ref, out) in s.settled && ref in s.payments
  }

  /** A payment of order `o` is settled with `out`. */
  predicate PayingFor(s: State, o: OrderId, ref: Ref, out: Outcome) {
    Paying(s, ref, out) && s.payments[ref].orderId == o
  }

  /** The verdicts on the payments of order `o` agree between two states. */
  ghost predicate AgreeOn(s: State, s': State, o: OrderId) {
    forall ref, out, ref', out' :: PayingFor(s, o, ref, out) && PayingFor(s', o, ref', out') ==> out == out'
  }

  /** All verdicts on the payments of order `o` agree; in particular each charge has one verdict. */
  ghost predicate Agreed(s: State, o: OrderId) {
    AgreeOn(s, s, o)
  }

  lemma AgreedShrinks(s: State, s': State, o: OrderId)
    requires Grows(s, s') && Agreed(s', o)
    ensures Agreed(s, o)
  {
    forall ref, out, ref', out' | PayingFor(s, o, ref, out) && PayingFor(s, o, ref', out') ensures out == out' {
      assert PayingFor(s', o, ref, out) && PayingFor(s', o, ref', out');
    }
  }

  // ---- Statuses follow the committed outcomes ----

  /** A payment settled one way only shows the outcome that was committed for it. */
  ghost predicate Tracks(s: State) {
    forall ref, out :: (ref, out) in s.commits && !Contradicted(s, ref) ==>
      ref in s.payments && s.payments[ref].status == StatusOf(out)
  }

  lemma TracksStep(s: State, l: Label)
    requires Inv(s) && Tracks(s) && Enabled(s, l)
    ensures Tracks(Next(s, l))
  {
    StepGrows(s, l);
    if l.Commit? {
      var k := s.tasks[l.t];
      assert TaskOk(s, k);
      assert (k.ref.value, Verdict(k.event).value) in s.settled;
    }
  }

  /** Row `row` needs no repair: its order has the status it calls for, or was moved on by shipping. */
  predicate Healthy(s: State, row: Row) {
    row.orderId in s.orders && (s.orders[row.orderId] == Target(row.outcome) || row.orderId in s.advanced)
  }

  /** Row `row` is healthy unless the gateway contradicts itself on its order. */
  ghost predicate RowHealthy(s: State, row: Row) {
    Agreed(s, row.orderId) ==> Healthy(s, row)
  }

  /** In a job that has seen no failure, each row is healthy or still to be fixed. */
  ghost predicate JobHealthy(s: State, job: Job) {
    match job
    case Fixing(rows, found, next, allFixed) =>
      forall row :: row in rows ==> ToFix(found, next, row) || (allFixed ==> RowHealthy(s, row))
    case Exited(rows, code) => code == 0 ==> forall row :: row in rows ==> RowHealthy(s, row)
    case _ => true
  }

  ghost predicate ToFix(found: seq<Mismatch>, next: nat, row: Row) {
    exists i :: next <= i < |found| && found[i].row == row
  }

  ghost predicate JobsHealthy(s: State) {
    forall j :: j in s.jobs ==> JobHealthy(s, s.jobs[j])
  }

  lemma JustifiedUnique(s: State, o: OrderId, st: OrderStatus, st': OrderStatus)
    requires Inv(s) && Agreed(s, o) && Justified(s, o, st) && Justified(s, o, st')
    ensures st == st'
  {
    var ref, out :| JustifiedBy(s, o, st, ref, out);
    var ref', out' :| JustifiedBy(s, o, st', ref', out');
    assert PayingFor(s, o, ref, out) && PayingFor(s, o, ref', out');
  }

  /** Once healthy, always healthy: no interleaved task, late request or job undoes it. */
  lemma HealthyStep(s: State, l: Label, row: Row)
    requires Inv(s) && Enabled(s, l) && RowOk(s, row) && RowHealthy(s, row)
    ensures RowHealthy(Next(s, l), row)
  {
    StepGrows(s, l);
    if Agreed(Next(s, l), row.orderId) {
      AgreedShrinks(s, Next(s, l), row.orderId);
      OrderChange(s, l, row.orderId);
      if Written(s, l).Some? && Written(s, l).value.orderId == row.orderId {
        WriterJustified(s, l);
        RowGoalJustified(s, row);
        JustifiedUnique(s, row.orderId, Written(s, l).value.status, Target(row.outcome));
      }
    }
  }

  lemma ScanHealthy(s: State, j: JobId, fix: bool)
    requires Inv(s) && Enabled(s, ScanRows(j, fix)) && JobOk(s, s.jobs[j])
    ensures JobHealthy(Next(s, ScanRows(j, fix)), ScanJob(s.jobs[j].rows, s.orders, fix))
  {
    var s', rows := Next(s, ScanRows(j, fix)), s.jobs[j].rows;
    var found := Scan(rows, s.orders);
    forall row | row in rows ensures ToFix(found, 0, row) || Healthy(s', row) {
      if Flagged(row, s.orders) {
        ScanMembers(rows, s.orders, Report(row, s.orders));
        var i :| 0 <= i < |found| && found[i] == Report(row, s.orders);
        assert found[i].row == row;
      } else {
        assert OrderOk(s, row.orderId);
      }
    }
    if found == [] {
      assert forall row :: !ToFix(found, 0, row);
    }
  }

  lemma FixedIsHealthy(s: State, j: JobId, net: Net)
    requires Enabled(s, Fix(j, net))
    ensures var m := s.jobs[j].found[s.jobs[j].next];
            Attempt(s.orders, m.row.orderId, Target(m.row.outcome), net).acked ==> Healthy(Next(s, Fix(j, net)), m.row)
  {
  }

  /** A successful fix leaves each row healthy or among those still to be fixed. */
  lemma FixHealthy(s: State, j: JobId, net: Net, row: Row)
    requires Inv(s) && Enabled(s, Fix(j, net)) && row in s.jobs[j].rows && RowOk(s, row)
    requires ToFix(s.jobs[j].found, s.jobs[j].next, row) || RowHealthy(s, row)
    ensures var m := s.jobs[j].found[s.jobs[j].next];
            Attempt(s.orders, m.row.orderId, Target(m.row.outcome), net).acked ==>
              ToFix(s.jobs[j].found, s.jobs[j].next + 1, row) || RowHealthy(Next(s, Fix(j, net)), row)
  {
    if ToFix(s.jobs[j].found, s.jobs[j].next, row) {
      FixedIsHealthy(s, j, net);
      var i :| s.jobs[j].next <= i < |s.jobs[j].found| && s.jobs[j].found[i].row == row;
      assert i > s.jobs[j].next ==> ToFix(s.jobs[j].found, s.jobs[j].next + 1, row);
    } else {
      HealthyStep(s, Fix(j, net), row);
    }
  }

  lemma OtherJobHealthy(s: State, l: Label, job: Job)
    requires Inv(s) && Enabled(s, l) && JobOk(s, job) && JobHealthy(s, job)
    ensures JobHealthy(Next(s, l), job)
  {
    forall row | !job.Aborted? && row in job.rows && RowHealthy(s, row) ensures RowHealthy(Next(s, l), row) {
      HealthyStep(s, l, row);
    }
  }

  lemma FixedJobHealthy(s: State, j: JobId, net: Net)
    requires Inv(s) && Enabled(s, Fix(j, net)) && JobOk(s, s.jobs[j]) && JobHealthy(s, s.jobs[j])
    ensures j in Next(s, Fix(j, net)).jobs && JobHealthy(Next(s, Fix(j, net)), Next(s, Fix(j, net)).jobs[j])
  {
    var job := s.jobs[j];
    var m := job.found[job.next];
    if job.allFixed && Attempt(s.orders, m.row.orderId, Target(m.row.outcome), net).acked {
      forall row | row in job.rows
        ensures ToFix(job.found, job.next + 1, row) || RowHealthy(Next(s, Fix(j, net)), row)
      {
        FixHealthy(s, j, net, row);
      }
    }
  }

  lemma JobHealthyStep(s: State, l: Label, j: JobId)
    requires Inv(s) && Enabled(s, l) && j in s.jobs && j in Next(s, l).jobs
    requires JobOk(s, s.jobs[j]) && JobHealthy(s, s.jobs[j])
    ensures JobHealthy(Next(s, l), Next(s, l).jobs[j])
  {
    if Next(s, l).jobs[j] == s.jobs[j] {
      OtherJobHealthy(s, l, s.jobs[j]);
    } else {
      match l
      case Fix(_, net) => FixedJobHealthy(s, j, net);
      case ScanRows(_, fix) => ScanHealthy(s, j, fix);
      case _ =>
    }
  }

  lemma JobsHealthyStep(s: State, l: Label)
    requires Inv(s) && JobsHealthy(s) && Enabled(s, l)
    ensures JobsHealthy(Next(s, l))
  {
    var s' := Next(s, l);
    forall j | j in s'.jobs ensures JobHealthy(s', s'.jobs[j]) {
      if j in s.jobs {
        assert JobOk(s, s.jobs[j]) && JobHealthy(s, s.jobs[j]);
        JobHealthyStep(s, l, j);
      }
    }
  }

  ghost predicate Strong(s: State) {
    Inv(s) && Tracks(s) && JobsHealthy(s)
  }

  lemma {:induction false} StrongRun(s: State, run: seq<Label>)
    requires Strong(s) && Exec(s, run).Some?
    ensures Strong(Exec(s, run).value)
    decreases |run|
  {
    if run != [] {
      InvStep(s, run[0]);
      TracksStep(s, run[0]);
      JobsHealthyStep(s, run[0]);
      StrongRun(Next(s, run[0]), run[1..]);
    }
  }

  lemma Reached(limit: nat, run: seq<Label>)
    requires Exec(Init(limit), run).Some?
    ensures Strong(Exec(Init(limit), run).value)
  {
    InvInit(limit);
    StrongRun(Init(limit), run);
  }

  // ---- Safety with history ----

  /** A payment row shows `status`, and the gateway has reached that verdict. */
  predicate Shown(s: State, ref: Ref, status: PaymentStatus) {
    && ref in s.payments && s.payments[ref].status == status
    && (status == Succeeded ==> (ref, Success) in s.settled && ref in s.verified)
    && (status == PaymentStatus.Failed ==> (ref, Failure) in s.settled)
  }

  /** After the first `k` steps of `run`, payment `ref` was on record with `status`. */
  ghost predicate OnRecord(s: State, run: seq<Label>, k: nat, ref: Ref, status: PaymentStatus)
    requires Exec(s, run).Some?
  {
    k <= |run| && Shown(StateAt(s, run, k), ref, status)
  }

  lemma CommitStepOnRecord(s: State, l: Label, ref: Ref, out: Outcome)
    requires Inv(s) && Enabled(s, l) && (ref, out) !in s.commits && (ref, out) in Next(s, l).commits
    ensures Shown(Next(s, l), ref, StatusOf(out))
  {
    OnlyCommitRecords(s, l);
    assert TaskOk(s, s.tasks[l.t]);
  }

  lemma OnlyCommitRecords(s: State, l: Label)
    requires Enabled(s, l)
    ensures !l.Commit? ==> Next(s, l).commits == s.commits
  {
  }

  /** The commit history is truthful: each recorded outcome was once in the payment table. */
  lemma {:induction false} CommitOnRecord(s: State, run: seq<Label>, n: nat, ref: Ref, out: Outcome) returns (k: nat)
    requires Inv(s) && Exec(s, run).Some? && n <= |run|
    requires (ref, out) !in s.commits && (ref, out) in StateAt(s, run, n).commits
    ensures OnRecord(s, run, k, ref, StatusOf(out))
    decreases n
  {
    k := n;
    if n > 0 {
      StateAtStep(s, run, n - 1);
      if (ref, out) in StateAt(s, run, n - 1).commits {
        k := CommitOnRecord(s, run, n - 1, ref, out);
      } else {
        ExecSplit(s, run, n - 1);
        InvRun(s, run[..n - 1]);
        CommitStepOnRecord(StateAt(s, run, n - 1), run[n - 1], ref, out);
      }
    }
  }

  /** Some payment of order `o` was on record with `status` at some time in `run`. */
  ghost predicate OnceOnRecord(limit: nat, run: seq<Label>, o: OrderId, status: PaymentStatus)
    requires Exec(Init(limit), run).Some?
  {
    exists ref, k :: OnRecord(Init(limit), run, k, ref, status) && Pays(Exec(Init(limit), run).value, ref, o)
  }

  predicate Pays(s: State, ref: Ref, o: OrderId) {
    ref in s.payments && s.payments[ref].orderId == o
  }

  /** Run safety, with no assumption on the gateway, on who wrote the order, or on interleaving:
      an order that is paid has a payment that was earlier on record as succeeded, after the
      gateway re-verified it; one that is cancelled has a payment that was on record as failed. */
  lemma OrderStatusHasCause(limit: nat, run: seq<Label>, o: OrderId)
    requires Exec(Init(limit), run).Some? && o in Exec(Init(limit), run).value.orders
    ensures Exec(Init(limit), run).value.orders[o] == Paid ==> OnceOnRecord(limit, run, o, Succeeded)
    ensures Exec(Init(limit), run).value.orders[o] == Cancelled ==> OnceOnRecord(limit, run, o, PaymentStatus.Failed)
  {
    var s := Exec(Init(limit), run).value;
    if s.orders[o] == Paid || s.orders[o] == Cancelled {
      Reached(limit, run);
      assert OrderOk(s, o);
      var ref, out :| JustifiedBy(s, o, s.orders[o], ref, out);
      InvInit(limit);
      assert run[..|run|] == run;
      var k := CommitOnRecord(Init(limit), run, |run|, ref, out);
      assert Pays(s, ref, o);
    }
  }

  /** payment.succeeded / payment.failed is announced only for a payment that was on record so. */
  lemma NoticeHasCause(limit: nat, run: seq<Label>, n: Notice)
    requires Exec(Init(limit), run).Some? && n in Exec(Init(limit), run).value.published
    ensures exists k :: OnRecord(Init(limit), run, k, n.ref, StatusOf(n.outcome))
    ensures Pays(Exec(Init(limit), run).value, n.ref, n.orderId)
  {
    Reached(limit, run);
    InvInit(limit);
    assert run[..|run|] == run;
    var k := CommitOnRecord(Init(limit), run, |run|, n.ref, n.outcome);
  }

  /** What a step announces: the outcome of its task's event, for its payment and that payment's order. */
  function Announced(s: State, l: Label): seq<Notice>
    requires Enabled(s, l)
  {
    if l.Publish? && l.delivered then
      var k := s.tasks[l.t];
      [Notice(if k.event == ChargeSuccess then Success else Failure, s.payments[k.ref.value].orderId, k.ref.value)]
    else []
  }

  /** The announcements of a run, in the order of its steps. */
  function Notices(s: State, run: seq<Label>): seq<Notice>
    requires Exec(s, run).Some?
    decreases |run|
  {
    if run == [] then [] else Announced(s, run[0]) + Notices(Next(s, run[0]), run[1..])
  }

  lemma OthersPublishNothing(s: State, l: Label)
    requires Enabled(s, l) && !l.Publish?
    ensures Next(s, l).published == s.published
  {
  }

  lemma PublishAnnounces(s: State, l: Label)
    requires Enabled(s, l)
    ensures Next(s, l).published == s.published + Announced(s, l)
  {
    if !l.Publish? {
      OthersPublishNothing(s, l);
    }
  }

  /** In every run the announcements are exactly the publications that reached the broker, one for
      one, in order. */
  lemma {:induction false} PublishedExactly(s: State, run: seq<Label>)
    requires Exec(s, run).Some?
    ensures Exec(s, run).value.published == s.published + Notices(s, run)
    decreases |run|
  {
    if run != [] {
      PublishAnnounces(s, run[0]);
      PublishedExactly(Next(s, run[0]), run[1..]);
      Appended(s.published, Announced(s, run[0]), Notices(Next(s, run[0]), run[1..]));
    }
  }

  lemma Appended(a: seq<Notice>, b: seq<Notice>, c: seq<Notice>)
    ensures (a + b) + c == a + (b + c)
  {
  }

  // ---- Schedule independence ----

  function CommittedRefs(s: State): set<Ref> {
    set c | c in s.commits :: c.0
  }

  lemma NeverCommittedIsPending(s: State, ref: Ref)
    requires Inv(s) && ref in s.payments && ref !in CommittedRefs(s)
    ensures s.payments[ref].status == PaymentStatus.Pending
  {
    forall out ensures s.payments[ref].status != StatusOf(out) {
      assert (ref, out) in s.commits ==> (ref, out).0 in CommittedRefs(s);
    }
    assert s.payments[ref].status != StatusOf(Success) && s.payments[ref].status != StatusOf(Failure);
  }

  /** The verdicts on charge `ref` agree between two states. */
  ghost predicate OneVerdict(s: State, s': State, ref: Ref) {
    forall out, out' :: (ref, out) in s.settled && (ref, out') in s'.settled ==> out == out'
  }

  /** Payment `ref` is committed in both states or in neither, and its verdicts agree. */
  ghost predicate PaymentComparable(s: State, s': State, ref: Ref) {
    && ref in s.payments && ref in s'.payments && OneVerdict(s, s', ref)
    && (ref in CommittedRefs(s) <==> ref in CommittedRefs(s'))
  }

  /** Order `o` is written in both states or in neither, the verdicts on its payments agree, and
      shipping has not moved it on. */
  ghost predicate OrderComparable(s: State, s': State, o: OrderId) {
    && o in s.orders && o in s'.orders && AgreeOn(s, s', o)
    && (o in s.patched <==> o in s'.patched)
    && o !in s.advanced && o !in s'.advanced
  }

  lemma CommittedShowSame(s: State, s': State, ref: Ref)
    requires Strong(s) && Strong(s') && PaymentComparable(s, s', ref)
    ensures s.payments[ref].status == s'.payments[ref].status
  {
    if ref in CommittedRefs(s) {
      var out :| (ref, out) in s.commits;
      var out' :| (ref, out') in s'.commits;
      assert (ref, out) in s.settled && (ref, out') in s'.settled;
      assert Contradicted(s, ref) ==> (ref, Opposite(out)) in s.settled && Opposite(out) == out';
      assert Contradicted(s', ref) ==> (ref, Opposite(out')) in s'.settled && Opposite(out') == out;
    } else {
      NeverCommittedIsPending(s, ref);
      NeverCommittedIsPending(s', ref);
    }
  }

  lemma PatchedShowSame(s: State, s': State, o: OrderId)
    requires Strong(s) && Strong(s') && OrderComparable(s, s', o)
    ensures s.orders[o] == s'.orders[o]
  {
    assert OrderOk(s, o) && OrderOk(s', o);
    if o in s.patched {
      var ref, out :| JustifiedBy(s, o, s.orders[o], ref, out);
      var ref', out' :| JustifiedBy(s', o, s'.orders[o], ref', out');
      assert PayingFor(s, o, ref, out) && PayingFor(s', o, ref', out');
    }
  }

  /** Two runs may interleave, duplicate, lose, delay and crash as they like. A payment shows the
      same status in both if its verdicts agree and it was committed in both or in neither; an
      order does if the verdicts on its payments agree and it was written in both or in neither. */
  lemma ScheduleIndependence(limit: nat, run: seq<Label>, limit': nat, run': seq<Label>)
    requires Exec(Init(limit), run).Some? && Exec(Init(limit'), run').Some?
    ensures var s, s' := Exec(Init(limit), run).value, Exec(Init(limit'), run').value;
            && (forall ref :: PaymentComparable(s, s', ref) ==> s.payments[ref].status == s'.payments[ref].status)
            && (forall o :: OrderComparable(s, s', o) ==> s.orders[o] == s'.orders[o])
  {
    var s, s' := Exec(Init(limit), run).value, Exec(Init(limit'), run').value;
    Reached(limit, run);
    Reached(limit', run');
    forall ref | PaymentComparable(s, s', ref) ensures s.payments[ref].status == s'.payments[ref].status {
      CommittedShowSame(s, s', ref);
    }
    forall o | OrderComparable(s, s', o) ensures s.orders[o] == s'.orders[o] {
      PatchedShowSame(s, s', o);
    }
  }

  // ---- Why an order can disagree with its payment ----

  /** If the only payment of an order is terminal and not contradicted, and the order is missing
      or shows neither the status it calls for nor shipped or delivered, then some task committed
      that payment and every task that did is still in flight, crashed, or used up all its
      attempts; none read a 200. Every scan reports the payment. */
  lemma CauseOfInconsistency(limit: nat, run: seq<Label>, ref: Ref, out: Outcome)
    requires Exec(Init(limit), run).Some?
    requires var s := Exec(Init(limit), run).value;
             && ref in s.payments && s.payments[ref].status == StatusOf(out) && !Contradicted(s, ref)
             && (forall r :: r in s.payments && s.payments[r].orderId == s.payments[ref].orderId ==> r == ref)
             && Flagged(Row(ref, s.payments[ref].orderId, out), s.orders)
    ensures var s := Exec(Init(limit), run).value;
            && (exists t :: Committer(s, t, ref, out))
            && (forall t :: t in s.tasks && s.tasks[t].committed && s.tasks[t].ref == Some(ref) ==>
                  && !s.tasks[t].acked
                  && (!Ended(s.tasks[t].phase) || s.tasks[t].phase.Crashed? || s.tasks[t].attempts == s.limit))
            && (forall rows :: Selects(rows, s.payments) ==>
                  exists m :: m in Scan(rows, s.orders) && m.row == Row(ref, s.payments[ref].orderId, out))
  {
    var s := Exec(Init(limit), run).value;
    Reached(limit, run);
    var row := Row(ref, s.payments[ref].orderId, out);
    assert (ref, out) in s.commits;
    FlaggedNotPatched(s, row);
    forall t | t in s.tasks && s.tasks[t].committed && s.tasks[t].ref == Some(ref)
      ensures !s.tasks[t].acked
      ensures !Ended(s.tasks[t].phase) || s.tasks[t].phase.Crashed? || s.tasks[t].attempts == s.limit
    {
      assert TaskOk(s, s.tasks[t]);
    }
    forall rows | Selects(rows, s.payments) ensures exists m :: m in Scan(rows, s.orders) && m.row == row {
      ScanMembers(rows, s.orders, Report(row, s.orders));
    }
  }

  /** An order that its only payment's row flags was not written by anyone. */
  lemma FlaggedNotPatched(s: State, row: Row)
    requires Inv(s) && RowOk(s, row) && !Contradicted(s, row.ref) && Flagged(row, s.orders)
    requires forall r :: r in s.payments && s.payments[r].orderId == row.orderId ==> r == row.ref
    ensures row.orderId !in s.patched
  {
    if row.orderId in s.orders {
      assert OrderOk(s, row.orderId);
    }
  }

  // ---- Exit code 0 under concurrency ----

  /** A reconciler job that exited 0 has made every payment it selected consistent, now and in
      every later state, whatever ran beside and after it, if the verdicts on that payment's order
      agree: the order has the status the payment calls for or is shipped or delivered. */
  lemma ExitZeroIsLasting(limit: nat, run: seq<Label>, j: JobId, row: Row)
    requires Exec(Init(limit), run).Some?
    requires var s := Exec(Init(limit), run).value;
             && j in s.jobs && s.jobs[j].Exited? && s.jobs[j].code == 0 && row in s.jobs[j].rows
             && Agreed(s, row.orderId)
    ensures var s := Exec(Init(limit), run).value;
            && row.orderId in s.orders && !Flagged(row, s.orders)
            && row.ref in s.payments && s.payments[row.ref] == Payment(row.orderId, StatusOf(row.outcome))
  {
    Reached(limit, run);
    var s := Exec(Init(limit), run).value;
    assert JobOk(s, s.jobs[j]) && JobHealthy(s, s.jobs[j]);
    assert RowHealthy(s, row);
    HealthyNotFlagged(s, row);
    assert PayingFor(s, row.orderId, row.ref, row.outcome);
    assert Contradicted(s, row.ref) ==> PayingFor(s, row.orderId, row.ref, Opposite(row.outcome));
  }

  lemma HealthyNotFlagged(s: State, row: Row)
    requires Inv(s) && RowOk(s, row) && Agreed(s, row.orderId) && Healthy(s, row)
    ensures row.orderId in s.orders && !Flagged(row, s.orders)
  {
    var o := row.orderId;
    assert OrderOk(s, o);
    if Justified(s, o, s.orders[o]) {
      RowGoalJustified(s, row);
      JustifiedUnique(s, o, s.orders[o], Target(row.outcome));
    }
  }

  // ---- One reconciler job run without interruption is the script ----

  /** The labels of job `j` from its k-th fix on. */
  function FixLabels(j: JobId, k: nat, n: nat, net: nat -> Net): seq<Label>
    requires k <= n
    decreases n - k
  {
    if k == n then [] else [Fix(j, net(k))] + FixLabels(j, k + 1, n, net)
  }

  function JobLabels(s: State, j: JobId, rows: seq<Row>, fix: bool, net: nat -> Net): seq<Label> {
    var found := Scan(rows, s.orders);
    [FetchRows(j, rows), ScanRows(j, fix)] + if fix then FixLabels(j, 0, |found|, net) else []
  }

  /** Everything but orders, jobs, late requests and the record of PATCHes. */
  predicate SameElsewhere(s: State, s': State) {
    s' == s.(orders := s'.orders, jobs := s'.jobs, wire := s'.wire, patched := s'.patched)
  }

  lemma {:induction false} FixesRun(s: State, j: JobId, k: nat, net: nat -> Net, all: bool)
    requires j in s.jobs && s.jobs[j].Fixing? && s.jobs[j].next == k < |s.jobs[j].found|
    requires s.jobs[j].allFixed == all
    ensures var job := s.jobs[j];
            var r := Exec(s, FixLabels(j, k, |job.found|, net));
            var f := Fixes(s.orders, job.found, k, net);
            && r.Some? && SameElsewhere(s, r.value) && r.value.orders == f.orders
            && j in r.value.jobs && r.value.jobs[j] == Exited(job.rows, if all && f.allFixed then 0 else 2)
    decreases |s.jobs[j].found| - k
  {
    var job := s.jobs[j];
    var n := |job.found|;
    var s' := Next(s, Fix(j, net(k)));
    var labels := FixLabels(j, k, n, net);
    assert labels[0] == Fix(j, net(k)) && labels[1..] == FixLabels(j, k + 1, n, net);
    if k + 1 < n {
      FixesRun(s', j, k + 1, net, s'.jobs[j].allFixed);
    }
  }

  /** Run alone from any state, a job does to the orders exactly what the script does, and exits
      with the script's code. */
  lemma ScriptIsJob(s: State, j: JobId, rows: seq<Row>, fix: bool, net: nat -> Net)
    requires j !in s.jobs && Selects(rows, s.payments)
    ensures var r := Exec(s, JobLabels(s, j, rows, fix, net));
            && r.Some? && SameElsewhere(s, r.value)
            && j in r.value.jobs
            && r.value.jobs[j] == Exited(rows, Outcomes(rows, s.orders, fix, net).code)
            && r.value.orders == Outcomes(rows, s.orders, fix, net).orders
  {
    var found := Scan(rows, s.orders);
    var a, b := FetchRows(j, rows), ScanRows(j, fix);
    var s1 := Next(s, a);
    var s2 := Next(s1, b);
    var rest := if fix then FixLabels(j, 0, |found|, net) else [];
    var labels := [a] + ([b] + rest);
    assert JobLabels(s, j, rows, fix, net) == labels;
    assert labels[1..] == [b] + rest && ([b] + rest)[1..] == rest;
    assert Exec(s, labels) == Exec(s2, rest);
    if fix && found != [] {
      FixesRun(s2, j, 0, net, true);
    }
  }

  predicate OrdersExist(rows: seq<Row>, orders: Orders) {
    forall row :: row in rows ==> row.orderId in orders
  }

  /** Repair: from every state, tasks in flight or not, one --fix job whose PATCHes are all served
      changes no order that is shipped or delivered, exits 0 exactly when the orders of all
      terminal payments exist, and leaves nothing for any rescan exactly when moreover no order
      is split. */
  lemma RepairFromAnyState(s: State, j: JobId, rows: seq<Row>)
    requires j !in s.jobs && Selects(rows, s.payments)
    ensures var r := Exec(s, JobLabels(s, j, rows, true, Always()));
            && r.Some? && r.value.payments == s.payments && r.value.tasks == s.tasks
            && j in r.value.jobs && r.value.jobs[j].Exited?
            && (r.value.jobs[j].code == 0 <==> OrdersExist(rows, s.orders))
            && ((forall rows' :: Selects(rows', r.value.payments) ==> Scan(rows', r.value.orders) == [])
                <==> OrdersExist(rows, s.orders) && NoSplit(rows, s.orders))
            && (forall o :: o in s.orders && Forwarded(s.orders[o]) ==>
                  o in r.value.orders && r.value.orders[o] == s.orders[o])
  {
    ScriptIsJob(s, j, rows, true, Always());
    ServedCode(rows, s.orders);
    var after := Outcomes(rows, s.orders, true, Always()).orders;
    ServedOrders(rows, s.orders);
    RepairExact(rows, s.orders);
    if Scan(rows, after) == [] {
      forall rows' | Selects(rows', s.payments) ensures Scan(rows', after) == [] {
        SameSelection(rows, rows', s.payments);
        ScanEmptyIffClean(rows, after);
        ScanEmptyIffClean(rows', after);
      }
    }
    forall o | o in s.orders && Forwarded(s.orders[o]) ensures o in after && after[o] == s.orders[o] {
      FixKeepsForwarded(rows, s.orders, Always(), o);
    }
  }

  lemma ServedCode(rows: seq<Row>, orders: Orders)
    ensures Outcomes(rows, orders, true, Always()).code == 0 <==> OrdersExist(rows, orders)
  {
    ExitCodes(rows, orders, true, Always());
    if OrdersExist(rows, orders) {
      var found := Scan(rows, orders);
      forall m | m in found ensures m.row.orderId in orders { ScanMembers(rows, orders, m); }
      AllAnswered(orders, found, 0);
    }
  }

  lemma ServedOrders(rows: seq<Row>, orders: Orders)
    ensures Outcomes(rows, orders, true, Always()).orders == Fixes(orders, Scan(rows, orders), 0, Always()).orders
  {
  }

  /** In reachable states agreeing verdicts rule out split orders. */
  lemma AgreedNoSplit(limit: nat, run: seq<Label>, rows: seq<Row>)
    requires Exec(Init(limit), run).Some?
    requires var s := Exec(Init(limit), run).value;
             Selects(rows, s.payments) && forall row :: row in rows ==> Agreed(s, row.orderId)
    ensures NoSplit(rows, Exec(Init(limit), run).value.orders)
  {
    var s := Exec(Init(limit), run).value;
    Reached(limit, run);
    SelectedRowsOk(s, rows);
    forall p, q | p in rows && q in rows && p.orderId == q.orderId ensures p.outcome == q.outcome {
      assert PayingFor(s, p.orderId, p.ref, p.outcome) && PayingFor(s, p.orderId, q.ref, q.outcome);
    }
  }

  lemma SameSelection(rows: seq<Row>, rows': seq<Row>, payments: map<Ref, Payment>)
    requires Selects(rows, payments) && Selects(rows', payments)
    ensures forall row :: row in rows' ==> row in rows
  {
    forall row | row in rows' ensures row in rows {
      assert RowOf(row.ref, payments[row.ref]) == row;
    }
  }
}
