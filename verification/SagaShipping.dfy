/** When the reconciler can pull a shipped or delivered order back: its scan spares such orders, so
    exactly when shipping moves the order on between the scan and the PATCH. */
module SagaShipping {
  import opened Domain
  import opened OrderRoutes
  import opened Reconcile
  import opened Saga
  import opened SagaInvariant

  /** The order that the next fix of job `j` is about. */
  function FixTarget(s: State, j: JobId): OrderId
    requires j in s.jobs && s.jobs[j].Fixing? && s.jobs[j].next < |s.jobs[j].found|
  {
    s.jobs[j].found[s.jobs[j].next].row.orderId
  }

  /** A job that is fixing got its list from its one scan, earlier in the run. */
  lemma {:induction false} FoundAtScan(limit: nat, run: seq<Label>, k: nat, j: JobId) returns (a: nat)
    requires Exec(Init(limit), run).Some? && k <= |run|
    requires var s := StateAt(Init(limit), run, k); j in s.jobs && s.jobs[j].Fixing?
    ensures a < k && run[a] == ScanRows(j, true)
    ensures StateAt(Init(limit), run, k).jobs[j].found
            == Scan(StateAt(Init(limit), run, k).jobs[j].rows, StateAt(Init(limit), run, a).orders)
  {
    a := 0;
    if k > 0 {
      var before := StateAt(Init(limit), run, k - 1);
      StateAtStep(Init(limit), run, k - 1);
      if j in before.jobs && before.jobs[j].Fixing? {
        a := FoundAtScan(limit, run, k - 1, j);
        FixingKeeps(before, run[k - 1], j);
      } else {
        a := k - 1;
        FixingBegins(before, run[k - 1], j);
      }
    }
  }

  lemma FixingKeeps(s: State, l: Label, j: JobId)
    requires Enabled(s, l) && j in s.jobs && s.jobs[j].Fixing?
    requires j in Next(s, l).jobs && Next(s, l).jobs[j].Fixing?
    ensures Next(s, l).jobs[j].found == s.jobs[j].found && Next(s, l).jobs[j].rows == s.jobs[j].rows
  {
  }

  lemma FixingBegins(s: State, l: Label, j: JobId)
    requires Enabled(s, l) && !(j in s.jobs && s.jobs[j].Fixing?)
    requires j in Next(s, l).jobs && Next(s, l).jobs[j].Fixing?
    ensures l == ScanRows(j, true)
    ensures Next(s, l).jobs[j].found == Scan(Next(s, l).jobs[j].rows, s.orders)
  {
  }

  predicate ShippedIn(s: State, o: OrderId) {
    o in s.orders && Forwarded(s.orders[o])
  }

  predicate ShipsIt(l: Label, o: OrderId) {
    l.Advance? && l.o == o
  }

  /** Step `l` applies a PATCH to order `o`. */
  predicate Overwrites(s: State, l: Label, o: OrderId) {
    !l.Advance? && o in s.orders && StatusWrite(s, l).Some? && StatusWrite(s, l).value.orderId == o
  }

  /** Shipping moves an order on, a PATCH pulls it back, and nothing else matters. */
  lemma ShippedStep(s: State, l: Label, o: OrderId)
    requires Inv(s) && Enabled(s, l)
    ensures ShippedIn(Next(s, l), o) <==> ShipsIt(l, o) || (ShippedIn(s, o) && !Overwrites(s, l, o))
  {
    if !l.NewOrder? {
      StatusWritten(s, l);
      WrittenShows(s, Next(s, l), l, o);
    }
  }

  lemma WrittenShows(s: State, s': State, l: Label, o: OrderId)
    requires Inv(s) && Enabled(s, l) && !l.NewOrder? && Wrote(s, s', StatusWrite(s, l))
    ensures ShippedIn(s', o) <==> ShipsIt(l, o) || (ShippedIn(s, o) && !Overwrites(s, l, o))
  {
    if Overwrites(s, l, o) {
      WriterJustified(s, l);
    }
  }

  /** Between steps `a` and `k`, step `b` ships order `o` and no PATCH reaches it afterwards. */
  ghost predicate ShippedAt(limit: nat, run: seq<Label>, a: nat, b: nat, k: nat, o: OrderId)
    requires Exec(Init(limit), run).Some? && k <= |run|
  {
    && a <= b < k && ShipsIt(run[b], o)
    && forall i :: b < i < k ==> !Overwrites(StateAt(Init(limit), run, i), run[i], o)
  }

  ghost predicate ShippedWithin(limit: nat, run: seq<Label>, a: nat, k: nat, o: OrderId)
    requires Exec(Init(limit), run).Some? && k <= |run|
  {
    exists b: nat :: ShippedAt(limit, run, a, b, k, o)
  }

  lemma {:induction false} ShippedSince(limit: nat, run: seq<Label>, a: nat, k: nat, o: OrderId)
    requires Exec(Init(limit), run).Some? && a <= k <= |run| && !ShippedIn(StateAt(Init(limit), run, a), o)
    ensures ShippedIn(StateAt(Init(limit), run, k), o) <==> ShippedWithin(limit, run, a, k, o)
    decreases k
  {
    if a < k {
      var before, l := StateAt(Init(limit), run, k - 1), run[k - 1];
      ShippedSince(limit, run, a, k - 1, o);
      StateAtStep(Init(limit), run, k - 1);
      InvInit(limit);
      ExecSplit(Init(limit), run, k - 1);
      InvRun(Init(limit), run[..k - 1]);
      ShippedStep(before, l, o);
      ShippedAtExtends(limit, run, a, k - 1, o);
    }
  }

  lemma ShippedAtExtends(limit: nat, run: seq<Label>, a: nat, k: nat, o: OrderId)
    requires Exec(Init(limit), run).Some? && a <= k < |run|
    ensures ShippedWithin(limit, run, a, k + 1, o) <==>
              || ShipsIt(run[k], o)
              || (!Overwrites(StateAt(Init(limit), run, k), run[k], o) && ShippedWithin(limit, run, a, k, o))
  {
    if ShippedWithin(limit, run, a, k + 1, o) && !ShipsIt(run[k], o) {
      var b: nat :| ShippedAt(limit, run, a, b, k + 1, o);
      assert ShippedAt(limit, run, a, b, k, o);
    }
    if ShipsIt(run[k], o) {
      assert ShippedAt(limit, run, a, k, k + 1, o);
    } else if !Overwrites(StateAt(Init(limit), run, k), run[k], o) && ShippedWithin(limit, run, a, k, o) {
      var b: nat :| ShippedAt(limit, run, a, b, k, o);
      assert ShippedAt(limit, run, a, b, k + 1, o);
    }
  }

  /** When a reconciler job pulls a shipped or delivered order back. Its scan at step `a` spared
      such orders, so the fix at step `k` meets one exactly when shipping moved that order on in
      between and no PATCH reached it since, and then pulls it back exactly when the fix is served. */
  lemma FixPullsBackExactly(limit: nat, run: seq<Label>, k: nat, j: JobId, net: Net) returns (a: nat)
    requires Exec(Init(limit), run).Some? && k < |run| && run[k] == Fix(j, net)
    ensures a < k && run[a] == ScanRows(j, true)
    ensures var s := StateAt(Init(limit), run, k);
            && Enabled(s, run[k])
            && var o := FixTarget(s, j);
               && (ShippedIn(s, o) <==> ShippedWithin(limit, run, a + 1, k, o))
               && (ShippedIn(s, o) && !ShippedIn(Next(s, run[k]), o) <==>
                     Applies(s.orders, o, net) && ShippedWithin(limit, run, a + 1, k, o))
  {
    StateAtStep(Init(limit), run, k);
    var s := StateAt(Init(limit), run, k);
    var job := s.jobs[j];
    a := FoundAtScan(limit, run, k, j);
    StateAtStep(Init(limit), run, a);
    var scanned := StateAt(Init(limit), run, a);
    assert job.found[job.next] in job.found;
    ScanMembers(job.rows, scanned.orders, job.found[job.next]);
    ShippedSince(limit, run, a + 1, k, FixTarget(s, j));
  }

  // ---- A concrete run ----

  function CrashedLabels(): seq<Label> {
    [NewOrder(7), NewPayment("PIZZA-1", 7), Settle("PIZZA-1", Success), Deliver(0, ChargeSuccess, Some("PIZZA-1"))]
    + [Load(0), Verify(0, true), Commit(0, false), Crash(0)]
  }

  /** A charge is committed but its task crashes before telling order-service. */
  lemma CommittedThenCrashed()
    ensures var end := Exec(Init(3), CrashedLabels());
            && end.Some? && end.value.jobs == map[]
            && end.value.orders == map[7 := PendingPayment]
            && end.value.payments == map["PIZZA-1" := Payment(7, Succeeded)]
  {
    var first := CrashedLabels()[..4];
    var s0 := Init(3);
    assert first == [first[0]] + ([first[1]] + ([first[2]] + ([first[3]] + [])));
    var s1 := Next(s0, first[0]);
    var s2 := Next(s1, first[1]);
    var s3 := Next(s2, first[2]);
    ExecCons(s0, first[0], [first[1]] + ([first[2]] + ([first[3]] + [])));
    ExecCons(s1, first[1], [first[2]] + ([first[3]] + []));
    ExecCons(s2, first[2], [first[3]] + []);
    ExecCons(s3, first[3], []);
    var s4 := Next(s3, first[3]);
    assert s4.tasks == map[0 := Task(ChargeSuccess, Some("PIZZA-1"), Received, false, 0, false)];
    HandledThenCrashed(s4);
    assert CrashedLabels()[4..] == [Load(0), Verify(0, true)] + [Commit(0, false), Crash(0)];
    ExecConcat(s0, first, CrashedLabels()[4..]);
    assert CrashedLabels() == first + CrashedLabels()[4..];
  }

  lemma HandledThenCrashed(s: State)
    requires s.tasks == map[0 := Task(ChargeSuccess, Some("PIZZA-1"), Received, false, 0, false)]
    requires s.payments == map["PIZZA-1" := Payment(7, Pending)] && ("PIZZA-1", Success) in s.settled && s.limit > 0
    ensures var end := Exec(s, [Load(0), Verify(0, true)] + [Commit(0, false), Crash(0)]);
            && end.Some? && end.value.jobs == s.jobs && end.value.orders == s.orders
            && end.value.payments == map["PIZZA-1" := Payment(7, Succeeded)]
  {
    LoadedAndVerified(s);
    ExecConcat(s, [Load(0), Verify(0, true)], [Commit(0, false), Crash(0)]);
    CommittedAndCrashed(Exec(s, [Load(0), Verify(0, true)]).value);
  }

  lemma LoadedAndVerified(s: State)
    requires s.tasks == map[0 := Task(ChargeSuccess, Some("PIZZA-1"), Received, false, 0, false)]
    requires s.payments == map["PIZZA-1" := Payment(7, Pending)] && ("PIZZA-1", Success) in s.settled
    ensures Exec(s, [Load(0), Verify(0, true)]) == Some(s.(
              tasks := map[0 := Task(ChargeSuccess, Some("PIZZA-1"), Reverified(Pending), false, 0, false)],
              verified := s.verified + {"PIZZA-1"}))
  {
    var a, b := Load(0), Verify(0, true);
    assert [a, b] == [a] + ([b] + []);
    ExecCons(s, a, [b] + []);
    var s1 := Next(s, a);
    assert s1 == s.(tasks := map[0 := Task(ChargeSuccess, Some("PIZZA-1"), Loaded(Pending), false, 0, false)]);
    ExecCons(s1, b, []);
    assert Next(s1, b).tasks == map[0 := Task(ChargeSuccess, Some("PIZZA-1"), Reverified(Pending), false, 0, false)];
  }

  lemma CommittedAndCrashed(s: State)
    requires s.tasks == map[0 := Task(ChargeSuccess, Some("PIZZA-1"), Reverified(Pending), false, 0, false)]
    requires s.payments == map["PIZZA-1" := Payment(7, Pending)] && s.limit > 0
    ensures var end := Exec(s, [Commit(0, false), Crash(0)]);
            && end.Some? && end.value.jobs == s.jobs && end.value.orders == s.orders
            && end.value.payments == map["PIZZA-1" := Payment(7, Succeeded)]
  {
    var c, d := Commit(0, false), Crash(0);
    assert [c, d] == [c] + ([d] + []);
    ExecCons(s, c, [d] + []);
    ExecCons(Next(s, c), d, []);
  }

  lemma OneMismatch()
    ensures var rows, orders := [Row("PIZZA-1", 7, Success)], map[7 := PendingPayment];
            && Selects(rows, map["PIZZA-1" := Payment(7, Succeeded)])
            && Scan(rows, orders) == [Mismatch(rows[0], Some(PendingPayment))]
  {
    var rows := [Row("PIZZA-1", 7, Success)];
    assert RowOf("PIZZA-1", Payment(7, Succeeded)) == rows[0];
    assert ScanPrefix(rows, 0, map[7 := PendingPayment]) == [];
  }

  lemma ScannedThenShipped(s: State)
    requires s.jobs == map[] && s.orders == map[7 := PendingPayment]
    requires s.payments == map["PIZZA-1" := Payment(7, Succeeded)]
    ensures var rows := [Row("PIZZA-1", 7, Success)];
            var end := Exec(s, [FetchRows(0, rows), ScanRows(0, true), Advance(7, Shipped)]);
            && end.Some? && end.value.orders == map[7 := Shipped]
            && end.value.jobs == map[0 := Fixing(rows, [Mismatch(rows[0], Some(PendingPayment))], 0, true)]
  {
    var rows := [Row("PIZZA-1", 7, Success)];
    var a, b, c := FetchRows(0, rows), ScanRows(0, true), Advance(7, Shipped);
    OneMismatch();
    assert [a, b, c] == [a] + ([b] + ([c] + []));
    ExecCons(s, a, [b] + ([c] + []));
    var s1 := Next(s, a);
    ExecCons(s1, b, [c] + []);
    ExecCons(Next(s1, b), c, []);
  }

  /** A concrete run: the charge is committed, its task crashes, the reconciler scans, the order is
      shipped, and the reconciler's fix pulls it back to 'paid'. */
  lemma ReconcilerUndoesShipping()
    ensures var rows := [Row("PIZZA-1", 7, Success)];
            var run := CrashedLabels() + [FetchRows(0, rows), ScanRows(0, true), Advance(7, Shipped)];
            var shipped, fixed := Exec(Init(3), run), Exec(Init(3), run + [Fix(0, Answered)]);
            && shipped.Some? && shipped.value.orders == map[7 := Shipped]
            && fixed.Some? && fixed.value.orders == map[7 := Paid]
  {
    var rows := [Row("PIZZA-1", 7, Success)];
    var job := [FetchRows(0, rows), ScanRows(0, true), Advance(7, Shipped)];
    CommittedThenCrashed();
    ScannedThenShipped(Exec(Init(3), CrashedLabels()).value);
    ExecConcat(Init(3), CrashedLabels(), job);
    ExecStep(Init(3), CrashedLabels() + job, Fix(0, Answered));
  }
}
