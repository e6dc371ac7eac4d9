/** scripts/reconcile_payments.py: find the payments whose order disagrees and repair them. */
module Reconcile {
  import opened Domain
  import opened OrderRoutes

  /** A terminal payment as selected from payment_service_db. */
  datatype Row = Row(ref: Ref, orderId: OrderId, outcome: Outcome)

  /** A reported payment; `actual` is None for "ORDER NOT FOUND". */
  datatype Mismatch = Mismatch(row: Row, actual: Option<OrderStatus>)

  function Lookup(statuses: Orders, id: OrderId): Option<OrderStatus> {
    if id in statuses then Some(statuses[id]) else None
  }

  /** The declarative meaning of a mismatch. */
  predicate Flagged(row: Row, statuses: Orders) {
    row.orderId in statuses ==>
      statuses[row.orderId] != Target(row.outcome) && !Forwarded(statuses[row.orderId])
  }

  function Report(row: Row, statuses: Orders): Mismatch {
    Mismatch(row, Lookup(statuses, row.orderId))
  }

  /** The mismatches among the first `n` rows. */
  function ScanPrefix(rows: seq<Row>, n: nat, statuses: Orders): seq<Mismatch>
    requires n <= |rows|
  {
    if n == 0 then []
    else
      ScanPrefix(rows, n - 1, statuses) + if Flagged(rows[n - 1], statuses) then [Report(rows[n - 1], statuses)] else []
  }

  function Scan(rows: seq<Row>, statuses: Orders): seq<Mismatch> {
    ScanPrefix(rows, |rows|, statuses)
  }

  // ---- The scan is sound, complete and order-preserving ----

  /** `found` reports the rows at positions `at`, all below `n`, in the order of `rows`. */
  ghost predicate ReportsAt(found: seq<Mismatch>, rows: seq<Row>, n: nat, statuses: Orders, at: seq<nat>)
    requires n <= |rows|
  {
    && |at| == |found|
    && Increasing(at)
    && (forall k :: 0 <= k < |at| ==> at[k] < n && found[k] == Report(rows[at[k]], statuses))
  }

  /** `at` holds exactly the positions below `n` of the flagged rows. */
  ghost predicate FlaggedAt(rows: seq<Row>, n: nat, statuses: Orders, at: seq<nat>)
    requires n <= |rows|
  {
    forall i: nat :: i < n ==> (i in at <==> Flagged(rows[i], statuses))
  }

  lemma ReportsExtend(found: seq<Mismatch>, rows: seq<Row>, n: nat, statuses: Orders, at: seq<nat>)
    requires n < |rows| && ReportsAt(found, rows, n, statuses, at)
    ensures ReportsAt(found + [Report(rows[n], statuses)], rows, n + 1, statuses, at + [n])
  {
  }

  lemma FlaggedExtend(rows: seq<Row>, n: nat, statuses: Orders, at: seq<nat>)
    requires n < |rows| && FlaggedAt(rows, n, statuses, at) && Flagged(rows[n], statuses)
    ensures FlaggedAt(rows, n + 1, statuses, at + [n])
  {
  }

  lemma {:induction false} ScanReports(rows: seq<Row>, n: nat, statuses: Orders) returns (at: seq<nat>)
    requires n <= |rows|
    ensures ReportsAt(ScanPrefix(rows, n, statuses), rows, n, statuses, at)
    ensures FlaggedAt(rows, n, statuses, at)
  {
    if n == 0 {
      at := [];
    } else {
      at := ScanReports(rows, n - 1, statuses);
      if Flagged(rows[n - 1], statuses) {
        ReportsExtend(ScanPrefix(rows, n - 1, statuses), rows, n - 1, statuses, at);
        FlaggedExtend(rows, n - 1, statuses, at);
        at := at + [n - 1];
      } else {
        assert n - 1 !in at;
        assert ScanPrefix(rows, n, statuses) == ScanPrefix(rows, n - 1, statuses);
      }
    }
  }

  lemma LastOfIncreasing(at: seq<nat>, n: nat)
    requires n in at && Increasing(at) && forall i :: i in at ==> i <= n
    ensures at == at[..|at| - 1] + [n]
    ensures forall i :: i in at[..|at| - 1] <==> i in at && i != n
  {
    var last := |at| - 1;
    var j :| 0 <= j < |at| && at[j] == n;
    assert at[last] in at;
    assert forall k :: 0 <= k < last ==> at[k] < at[last];
    assert at == at[..last] + [at[last]];
  }

  lemma {:induction false} IncreasingUnique(a: seq<nat>, b: seq<nat>)
    requires Increasing(a) && Increasing(b) && forall i :: i in a <==> i in b
    ensures a == b
    decreases |a|
  {
    assert |b| > 0 ==> b[0] in b;
    if a != [] {
      var n := a[|a| - 1];
      assert forall k :: 0 <= k < |a| - 1 ==> a[k] < n;
      LastOfIncreasing(a, n);
      LastOfIncreasing(b, n);
      var a', b' := a[..|a| - 1], b[..|b| - 1];
      forall i ensures i in a' <==> i in b' {
        assert i in a' <==> i in a && i != n;
        assert i in b' <==> i in b && i != n;
      }
      IncreasingUnique(a', b');
    }
  }

  /** The positions are determined, so a list with these properties is the scan. */
  lemma ScanUnique(found: seq<Mismatch>, rows: seq<Row>, statuses: Orders, at: seq<nat>)
    requires ReportsAt(found, rows, |rows|, statuses, at) && FlaggedAt(rows, |rows|, statuses, at)
    ensures found == Scan(rows, statuses)
  {
    var at' := ScanReports(rows, |rows|, statuses);
    forall i ensures i in at <==> i in at' {
      assert i in at || i in at' ==> i < |rows|;
    }
    IncreasingUnique(at, at');
  }

  lemma {:induction false} ScanMembers(rows: seq<Row>, statuses: Orders, m: Mismatch)
    ensures m in Scan(rows, statuses) <==>
              m.row in rows && Flagged(m.row, statuses) && m == Report(m.row, statuses)
  {
    var at := ScanReports(rows, |rows|, statuses);
    var found := Scan(rows, statuses);
    if m in found {
      var k :| 0 <= k < |found| && found[k] == m;
      assert rows[at[k]] in rows && at[k] in at;
    }
    if m.row in rows && Flagged(m.row, statuses) && m == Report(m.row, statuses) {
      var i :| 0 <= i < |rows| && rows[i] == m.row;
      var k :| 0 <= k < |at| && at[k] == i;
      assert found[k] == m;
    }
  }

  /** What a reported mismatch shows, and which payments are reported, in the script's own terms. */
  lemma ScanShows(rows: seq<Row>, statuses: Orders)
    ensures forall m :: m in Scan(rows, statuses) ==>
              && m.row in rows
              && (m.row.orderId in statuses ==> m.actual == Some(statuses[m.row.orderId]))
              && (m.row.orderId !in statuses ==> m.actual == None)
    ensures forall row :: row in rows ==>
              ((exists m :: m in Scan(rows, statuses) && m.row == row) <==>
                || row.orderId !in statuses
                || (statuses[row.orderId] != (if row.outcome == Success then Paid else Cancelled)
                    && statuses[row.orderId] !in {Shipped, Delivered}))
  {
    forall m | m in Scan(rows, statuses)
      ensures m.row in rows && Flagged(m.row, statuses) && m == Report(m.row, statuses)
    {
      ScanMembers(rows, statuses, m);
    }
    forall row | row in rows && Flagged(row, statuses) ensures Report(row, statuses) in Scan(rows, statuses) {
      ScanMembers(rows, statuses, Report(row, statuses));
    }
  }

  /** Every terminal payment agrees with its order or the order has moved on. */
  ghost predicate Clean(rows: seq<Row>, statuses: Orders) {
    forall row :: row in rows ==> !Flagged(row, statuses)
  }

  lemma ScanEmptyIffClean(rows: seq<Row>, statuses: Orders)
    ensures Scan(rows, statuses) == [] <==> Clean(rows, statuses)
  {
    if Scan(rows, statuses) == [] {
      forall row | row in rows ensures !Flagged(row, statuses) {
        ScanMembers(rows, statuses, Report(row, statuses));
      }
    } else {
      var m := Scan(rows, statuses)[0];
      ScanMembers(rows, statuses, m);
    }
  }

  // ---- One --fix pass ----

  /** Payments of one order agree, except where the order is missing or has moved on. */
  ghost predicate NoSplit(rows: seq<Row>, orders: Orders) {
    forall p, q ::
      p in rows && q in rows && p.orderId == q.orderId && p.orderId in orders && !Forwarded(orders[p.orderId]) ==>
        p.outcome == q.outcome
  }

  datatype Fixed = Fixed(orders: Orders, allFixed: bool)

  /** Fix todo[k..] one PATCH at a time; `net(i)` is what happens to the i-th PATCH. */
  function Fixes(orders: Orders, todo: seq<Mismatch>, k: nat, net: nat -> Net): Fixed
    requires k <= |todo|
    decreases |todo| - k
  {
    if k == |todo| then Fixed(orders, true)
    else
      var e := Attempt(orders, todo[k].row.orderId, Target(todo[k].row.outcome), net(k));
      var rest := Fixes(e.orders, todo, k + 1, net);
      Fixed(rest.orders, e.acked && rest.allFixed)
  }

  /** The orders that some PATCH of todo[k..] changes. */
  function Touched(orders: Orders, todo: seq<Mismatch>, k: nat, net: nat -> Net): set<OrderId>
    requires k <= |todo|
  {
    set i | k <= i < |todo| && Applies(orders, todo[i].row.orderId, net(i)) :: todo[i].row.orderId
  }

  /** A pass changes only the touched orders, and each of them to the goal of one of its mismatches. */
  lemma {:induction false} FixesFrame(orders: Orders, todo: seq<Mismatch>, k: nat, net: nat -> Net)
    requires k <= |todo|
    ensures var after := Fixes(orders, todo, k, net).orders;
            var touched := Touched(orders, todo, k, net);
            && after.Keys == orders.Keys
            && (forall o :: o in orders && o !in touched ==> after[o] == orders[o])
            && touched <= orders.Keys
            && (forall o :: o in touched ==>
                  exists m :: m in todo && m.row.orderId == o && after[o] == Target(m.row.outcome))
    decreases |todo| - k
  {
    if k < |todo| {
      var m := todo[k];
      var o := m.row.orderId;
      var e := Attempt(orders, o, Target(m.row.outcome), net(k));
      FixesFrame(e.orders, todo, k + 1, net);
      var now, later := Touched(orders, todo, k, net), Touched(e.orders, todo, k + 1, net);
      assert forall i :: k + 1 <= i < |todo| ==>
        (Applies(orders, todo[i].row.orderId, net(i)) <==> Applies(e.orders, todo[i].row.orderId, net(i)));
      assert now == later + if Applies(orders, o, net(k)) then {o} else {};
      if o in now && o !in later {
        assert m in todo && Fixes(orders, todo, k, net).orders[o] == Target(m.row.outcome);
      }
    }
  }

  /** The entries of `ms` whose order is not in `touched`, in order. */
  function Untouched(ms: seq<Mismatch>, touched: set<OrderId>): seq<Mismatch> {
    if ms == [] then []
    else
      var last := ms[|ms| - 1];
      Untouched(ms[..|ms| - 1], touched) + if last.row.orderId in touched then [] else [last]
  }

  lemma {:induction false} UntouchedSize(ms: seq<Mismatch>, touched: set<OrderId>)
    ensures |Untouched(ms, touched)| <= |ms|
    ensures |Untouched(ms, touched)| < |ms| <==> exists m :: m in ms && m.row.orderId in touched
  {
    if ms != [] {
      var n := |ms| - 1;
      UntouchedSize(ms[..n], touched);
      assert forall m :: m in ms <==> m in ms[..n] || m == ms[n];
    }
  }

  lemma UntouchedSnoc(ms: seq<Mismatch>, m: Mismatch, touched: set<OrderId>)
    ensures Untouched(ms + [m], touched) == Untouched(ms, touched) + if m.row.orderId in touched then [] else [m]
  {
    assert (ms + [m])[..|ms|] == ms;
  }

  lemma {:induction false} ScanSplits(rows: seq<Row>, n: nat, orders: Orders, after: Orders, touched: set<OrderId>)
    requires n <= |rows|
    requires after.Keys == orders.Keys
    requires forall o :: o in orders && o !in touched ==> after[o] == orders[o]
    requires forall row :: row in rows && row.orderId in touched ==> Flagged(row, orders) && !Flagged(row, after)
    ensures ScanPrefix(rows, n, after) == Untouched(ScanPrefix(rows, n, orders), touched)
    decreases n
  {
    if n > 0 {
      ScanSplits(rows, n - 1, orders, after, touched);
      var row := rows[n - 1];
      var before, now := ScanPrefix(rows, n - 1, orders), ScanPrefix(rows, n - 1, after);
      assert row in rows;
      if Flagged(row, orders) {
        UntouchedSnoc(before, Report(row, orders), touched);
        assert row.orderId in touched ==> now + [] == now;
      } else {
        assert before + [] == before && now + [] == now;
      }
    }
  }

  /** Monotone repair: whatever each PATCH of a pass meets, the rescan is the old list without
      the orders that were written, so it is strictly shorter iff some order was. */
  lemma MonotoneRepair(rows: seq<Row>, orders: Orders, net: nat -> Net)
    requires NoSplit(rows, orders)
    ensures var found := Scan(rows, orders);
            var after := Fixes(orders, found, 0, net).orders;
            var touched := Touched(orders, found, 0, net);
            && Scan(rows, after) == Untouched(found, touched)
            && (|Scan(rows, after)| < |found| <==> touched != {})
            && |Scan(rows, after)| <= |found|
            && NoSplit(rows, after)
            && after.Keys == orders.Keys
  {
    var found := Scan(rows, orders);
    var after := Fixes(orders, found, 0, net).orders;
    var touched := Touched(orders, found, 0, net);
    FixesFrame(orders, found, 0, net);
    forall row | row in rows && row.orderId in touched ensures Flagged(row, orders) && !Flagged(row, after) {
      TouchedIsRepaired(rows, orders, net, row);
    }
    ScanSplits(rows, |rows|, orders, after, touched);
    UntouchedSize(found, touched);
    if touched != {} {
      var o :| o in touched;
      var m :| m in found && m.row.orderId == o;
    }
    NoSplitKept(rows, orders, net);
  }

  /** Every row of a written order was reported and is repaired by the pass. */
  lemma TouchedIsRepaired(rows: seq<Row>, orders: Orders, net: nat -> Net, row: Row)
    requires NoSplit(rows, orders) && row in rows
    requires row.orderId in Touched(orders, Scan(rows, orders), 0, net)
    ensures Flagged(row, orders) && !Flagged(row, Fixes(orders, Scan(rows, orders), 0, net).orders)
  {
    var found := Scan(rows, orders);
    FixesFrame(orders, found, 0, net);
    var m :| m in found && m.row.orderId == row.orderId
             && Fixes(orders, found, 0, net).orders[row.orderId] == Target(m.row.outcome);
    ScanMembers(rows, orders, m);
    assert m.row.outcome == row.outcome;
  }

  lemma NoSplitKept(rows: seq<Row>, orders: Orders, net: nat -> Net)
    requires NoSplit(rows, orders)
    ensures NoSplit(rows, Fixes(orders, Scan(rows, orders), 0, net).orders)
  {
    FixesFrame(orders, Scan(rows, orders), 0, net);
    forall o | o in orders && Forwarded(orders[o])
      ensures Fixes(orders, Scan(rows, orders), 0, net).orders[o] == orders[o]
    {
      FixKeepsForwarded(rows, orders, net, o);
    }
  }

  /** A pass never changes an order that was shipped or delivered in the snapshot. */
  lemma FixKeepsForwarded(rows: seq<Row>, orders: Orders, net: nat -> Net, o: OrderId)
    requires o in orders && Forwarded(orders[o])
    ensures var after := Fixes(orders, Scan(rows, orders), 0, net).orders;
            o in after && after[o] == orders[o]
  {
    var found := Scan(rows, orders);
    FixesFrame(orders, found, 0, net);
    if o in Touched(orders, found, 0, net) {
      var m :| m in found && m.row.orderId == o;
      ScanMembers(rows, orders, m);
    }
  }

  function Always(): nat -> Net { i => Answered }

  /** Convergence boundary: an order with payments of both outcomes that has not moved on is
      reported by every scan, whatever its status. */
  lemma SplitOrderAlwaysReported(rows: seq<Row>, statuses: Orders, p: Row, q: Row)
    requires p in rows && q in rows && p.orderId == q.orderId && p.outcome != q.outcome
    requires p.orderId in statuses ==> !Forwarded(statuses[p.orderId])
    ensures exists m :: m in Scan(rows, statuses) && m.row.orderId == p.orderId
  {
    var r := if Flagged(p, statuses) then p else q;
    ScanMembers(rows, statuses, Report(r, statuses));
  }

  lemma {:induction false} AllAnswered(orders: Orders, todo: seq<Mismatch>, k: nat)
    requires k <= |todo|
    requires forall m :: m in todo ==> m.row.orderId in orders
    ensures Fixes(orders, todo, k, Always()).allFixed
    ensures forall i :: k <= i < |todo| ==> todo[i].row.orderId in Touched(orders, todo, k, Always())
    decreases |todo| - k
  {
    if k < |todo| {
      assert todo[k] in todo;
      AllAnswered(Attempt(orders, todo[k].row.orderId, Target(todo[k].row.outcome), Answered).orders, todo, k + 1);
    }
    forall i | k <= i < |todo| ensures todo[i].row.orderId in Touched(orders, todo, k, Always()) {
      assert todo[i] in todo && Applies(orders, todo[i].row.orderId, Always()(i));
    }
  }

  /** A pass whose every PATCH is served leaves nothing to report exactly when every order
      exists and no order is split. */
  lemma RepairExact(rows: seq<Row>, orders: Orders)
    ensures Scan(rows, Fixes(orders, Scan(rows, orders), 0, Always()).orders) == [] <==>
              && (forall row :: row in rows ==> row.orderId in orders)
              && NoSplit(rows, orders)
  {
    var found := Scan(rows, orders);
    var after := Fixes(orders, found, 0, Always()).orders;
    FixesFrame(orders, found, 0, Always());
    ScanEmptyIffClean(rows, after);
    if Clean(rows, after) {
      forall row | row in rows ensures row.orderId in orders {}
      forall p, q | p in rows && q in rows && p.orderId == q.orderId && p.outcome != q.outcome
        ensures Forwarded(orders[p.orderId])
      {
        if !Forwarded(orders[p.orderId]) {
          assert !Forwarded(after[p.orderId]);
          SplitOrderAlwaysReported(rows, after, p, q);
        }
      }
    }
    if (forall row :: row in rows ==> row.orderId in orders) && NoSplit(rows, orders) {
      MonotoneRepair(rows, orders, Always());
      forall m | m in found ensures m.row.orderId in orders { ScanMembers(rows, orders, m); }
      AllAnswered(orders, found, 0);
      NothingUntouched(found, Touched(orders, found, 0, Always()));
    }
  }

  lemma {:induction false} NothingUntouched(ms: seq<Mismatch>, touched: set<OrderId>)
    requires forall i :: 0 <= i < |ms| ==> ms[i].row.orderId in touched
    ensures Untouched(ms, touched) == []
  {
    if ms != [] {
      NothingUntouched(ms[..|ms| - 1], touched);
    }
  }

  // ---- Scheduled runs ----

  /** The order table after one --fix run per element of `nets`. */
  function Runs(rows: seq<Row>, orders: Orders, nets: seq<nat -> Net>): Orders
    decreases |nets|
  {
    if nets == [] then orders
    else Runs(rows, Fixes(orders, Scan(rows, orders), 0, nets[0]).orders, nets[1..])
  }

  /** Each run of the schedule writes some order unless there is nothing to report. */
  ghost predicate Productive(rows: seq<Row>, orders: Orders, nets: seq<nat -> Net>)
    decreases |nets|
  {
    nets != [] ==>
      var found := Scan(rows, orders);
      && (found != [] ==> Touched(orders, found, 0, nets[0]) != {})
      && Productive(rows, Fixes(orders, found, 0, nets[0]).orders, nets[1..])
  }

  /** The mismatch count is a termination measure for the schedule. */
  lemma {:induction false} RunsConverge(rows: seq<Row>, orders: Orders, nets: seq<nat -> Net>)
    requires NoSplit(rows, orders) && Productive(rows, orders, nets)
    requires |Scan(rows, orders)| <= |nets|
    ensures Scan(rows, Runs(rows, orders, nets)) == []
    decreases |nets|
  {
    if nets != [] {
      MonotoneRepair(rows, orders, nets[0]);
      RunsConverge(rows, Fixes(orders, Scan(rows, orders), 0, nets[0]).orders, nets[1..]);
    }
  }

  // ---- The script ----

  datatype Result = Result(code: nat, orders: Orders)

  /** Exit code and order table of one invocation. */
  function Outcomes(rows: seq<Row>, orders: Orders, fix: bool, net: nat -> Net): Result {
    var found := Scan(rows, orders);
    if found == [] then Result(0, orders)
    else if !fix then Result(1, orders)
    else
      var f := Fixes(orders, found, 0, net);
      Result(if f.allFixed then 0 else 2, f.orders)
  }

  /** A pass counts as fixed exactly when each of its PATCHes is answered and names an order that exists. */
  ghost predicate AllServed(orders: Orders, todo: seq<Mismatch>, k: nat, net: nat -> Net) {
    forall i :: k <= i < |todo| ==> net(i).Answered? && todo[i].row.orderId in orders
  }

  lemma {:induction false} FixedExactly(orders: Orders, todo: seq<Mismatch>, k: nat, net: nat -> Net)
    requires k <= |todo|
    ensures Fixes(orders, todo, k, net).allFixed <==> AllServed(orders, todo, k, net)
    decreases |todo| - k
  {
    if k < |todo| {
      var e := Attempt(orders, todo[k].row.orderId, Target(todo[k].row.outcome), net(k));
      FixedExactly(e.orders, todo, k + 1, net);
      assert e.orders.Keys == orders.Keys;
      assert AllServed(e.orders, todo, k + 1, net) <==> AllServed(orders, todo, k + 1, net);
      assert AllServed(orders, todo, k, net) <==>
        AllServed(orders, todo, k + 1, net) && net(k).Answered? && todo[k].row.orderId in orders;
    }
  }

  /** What each exit code means, for every input and every network behaviour. */
  lemma ExitCodes(rows: seq<Row>, orders: Orders, fix: bool, net: nat -> Net)
    ensures var r := Outcomes(rows, orders, fix, net);
            && (r.code == 0 <==> Clean(rows, orders) || (fix && AllServed(orders, Scan(rows, orders), 0, net)))
            && (r.code == 1 <==> !fix && !Clean(rows, orders))
            && (r.code == 0 || r.code == 1 || r.code == 2)
            && (fix && (exists row :: row in rows && row.orderId !in orders) ==> r.code == 2)
            && (r.code == 0 && NoSplit(rows, orders) ==> Clean(rows, r.orders))
            && (!fix || Clean(rows, orders) ==> r.orders == orders)
  {
    ScanEmptyIffClean(rows, orders);
    var found := Scan(rows, orders);
    FixedExactly(orders, found, 0, net);
    if row :| row in rows && row.orderId !in orders {
      ScanMembers(rows, orders, Report(row, orders));
      var i :| 0 <= i < |found| && found[i] == Report(row, orders);
      assert !AllServed(orders, found, 0, net);
    }
    if AllServed(orders, found, 0, net) && NoSplit(rows, orders) {
      ServedPassCleans(rows, orders, net);
    }
  }

  lemma ServedPassCleans(rows: seq<Row>, orders: Orders, net: nat -> Net)
    requires NoSplit(rows, orders) && AllServed(orders, Scan(rows, orders), 0, net)
    ensures Clean(rows, Fixes(orders, Scan(rows, orders), 0, net).orders)
  {
    var found := Scan(rows, orders);
    MonotoneRepair(rows, orders, net);
    forall i | 0 <= i < |found| ensures found[i].row.orderId in Touched(orders, found, 0, net) {
      assert Applies(orders, found[i].row.orderId, net(i));
    }
    NothingUntouched(found, Touched(orders, found, 0, net));
    ScanEmptyIffClean(rows, Fixes(orders, found, 0, net).orders);
  }

  /** Exit code 0 can be trusted in every network exactly when no order is split, or a missing
      order rules the code out under --fix. */
  lemma ExitZeroTrustedIff(rows: seq<Row>, orders: Orders)
    ensures (forall net: nat -> Net :: Outcomes(rows, orders, true, net).code == 0 ==>
                                         Clean(rows, Outcomes(rows, orders, true, net).orders))
            <==>
            NoSplit(rows, orders) || exists row :: row in rows && row.orderId !in orders
  {
    forall net: nat -> Net
      ensures NoSplit(rows, orders) || (exists row :: row in rows && row.orderId !in orders) ==>
                Outcomes(rows, orders, true, net).code == 0 ==> Clean(rows, Outcomes(rows, orders, true, net).orders)
    {
      ExitCodes(rows, orders, true, net);
    }
    if !NoSplit(rows, orders) && forall row :: row in rows ==> row.orderId in orders {
      var net := Always();
      var found := Scan(rows, orders);
      RepairExact(rows, orders);
      forall m | m in found ensures m.row.orderId in orders { ScanMembers(rows, orders, m); }
      AllAnswered(orders, found, 0);
      ScanEmptyIffClean(rows, orders);
      ScanEmptyIffClean(rows, Fixes(orders, found, 0, net).orders);
      assert Outcomes(rows, orders, true, net).code == 0;
      assert !Clean(rows, Outcomes(rows, orders, true, net).orders);
    }
  }

  /** A concrete split order: --fix exits 0 and the table is not clean. */
  lemma SplitOrderFoolsExitZero()
    ensures var rows := [Row("PIZZA-A", 1, Success), Row("PIZZA-B", 1, Failure)];
            var r := Outcomes(rows, map[1 := PendingPayment], true, Always());
            r.code == 0 && !Clean(rows, r.orders)
  {
    var rows := [Row("PIZZA-A", 1, Success), Row("PIZZA-B", 1, Failure)];
    var orders: Orders := map[1 := PendingPayment];
    assert rows[0] in rows && rows[1] in rows;
    assert !NoSplit(rows, orders);
    RepairExact(rows, orders);
    ScanEmptyIffClean(rows, orders);
    var found := Scan(rows, orders);
    forall m | m in found ensures m.row.orderId in orders { ScanMembers(rows, orders, m); }
    AllAnswered(orders, found, 0);
    ScanEmptyIffClean(rows, Fixes(orders, found, 0, Always()).orders);
  }

  /** SELECT of the terminal payments: each once, in whatever order the database returns them. */
  predicate Selects(rows: seq<Row>, payments: map<Ref, Payment>) {
    && (forall i, j :: 0 <= i < j < |rows| ==> rows[i].ref != rows[j].ref)
    && (forall row :: row in rows ==>
          row.ref in payments && payments[row.ref] == Payment(row.orderId, StatusOf(row.outcome)))
    && (forall ref :: ref in payments && payments[ref].status != Pending ==> RowOf(ref, payments[ref]) in rows)
  }

  function RowOf(ref: Ref, payment: Payment): Row
    requires payment.status != Pending
  {
    Row(ref, payment.orderId, OutcomeOf(payment.status))
  }

  method FetchPayments(payments: map<Ref, Payment>) returns (rows: seq<Row>)
    ensures Selects(rows, payments)
  {
    rows := [];
    var left := payments.Keys;
    while left != {}
      invariant left <= payments.Keys
      invariant forall i, j :: 0 <= i < j < |rows| ==> rows[i].ref != rows[j].ref
      invariant forall row :: row in rows ==>
                  row.ref in payments.Keys - left && payments[row.ref] == Payment(row.orderId, StatusOf(row.outcome))
      invariant forall ref :: ref in payments.Keys - left && payments[ref].status != Pending ==>
                  RowOf(ref, payments[ref]) in rows
      decreases left
    {
      var ref :| ref in left;
      left := left - {ref};
      var payment := payments[ref];
      if payment.status != Pending {
        rows := rows + [RowOf(ref, payment)];
      }
    }
  }

  /** The statuses of the orders named by `rows`; a lookup in them is a lookup in the table. */
  function FetchStatuses(orders: Orders, rows: seq<Row>): Orders {
    map i | 0 <= i < |rows| && rows[i].orderId in orders :: rows[i].orderId := orders[rows[i].orderId]
  }

  lemma {:induction false} FetchedStatusesSuffice(rows: seq<Row>, n: nat, orders: Orders)
    requires n <= |rows|
    ensures ScanPrefix(rows, n, FetchStatuses(orders, rows)) == ScanPrefix(rows, n, orders)
    decreases n
  {
    if n > 0 {
      FetchedStatusesSuffice(rows, n - 1, orders);
    }
  }

  method FindMismatches(rows: seq<Row>, statuses: Orders) returns (mismatches: seq<Mismatch>, ghost at: seq<nat>)
    ensures ReportsAt(mismatches, rows, |rows|, statuses, at) && FlaggedAt(rows, |rows|, statuses, at)
    ensures mismatches == Scan(rows, statuses)
    ensures forall m :: m in mismatches ==>
              && m.row in rows
              && (m.row.orderId in statuses ==> m.actual == Some(statuses[m.row.orderId]))
              && (m.row.orderId !in statuses ==> m.actual == None)
    ensures forall row :: row in rows ==>
              ((exists m :: m in mismatches && m.row == row) <==>
                || row.orderId !in statuses
                || (statuses[row.orderId] != (if row.outcome == Success then Paid else Cancelled)
                    && statuses[row.orderId] !in {Shipped, Delivered}))
  {
    mismatches := [];
    for i := 0 to |rows|
      invariant mismatches == ScanPrefix(rows, i, statuses)
    {
      var actual := Lookup(statuses, rows[i].orderId);
      if actual.None? {
        mismatches := mismatches + [Mismatch(rows[i], None)];
      } else if actual.value != Target(rows[i].outcome) && actual.value !in {Shipped, Delivered} {
        mismatches := mismatches + [Mismatch(rows[i], actual)];
      }
    }
    at := ScanReports(rows, |rows|, statuses);
    ScanShows(rows, statuses);
  }

  method FixMismatch(api: OrderApi, m: Mismatch, net: Net) returns (fixed: bool)
    modifies api
    ensures Effect(api.orders, fixed) == Attempt(old(api.orders), m.row.orderId, Target(m.row.outcome), net)
    ensures fixed <==> net.Answered? && m.row.orderId in old(api.orders)
    ensures fixed ==>
              api.orders == old(api.orders)[m.row.orderId := if m.row.outcome == Success then Paid else Cancelled]
  {
    fixed := api.Patch(m.row.orderId, Target(m.row.outcome), net);
  }

  /** The whole script with no one else writing: `net(i)` is what happens to the i-th PATCH. */
  method Reconcile(payments: map<Ref, Payment>, api: OrderApi, fix: bool, net: nat -> Net)
    returns (code: nat, rows: seq<Row>)
    modifies api
    ensures Selects(rows, payments)
    ensures Result(code, api.orders) == Outcomes(rows, old(api.orders), fix, net)
    ensures code == 0 && NoSplit(rows, old(api.orders)) ==> Clean(rows, api.orders)
    ensures code == 1 <==> !fix && !Clean(rows, old(api.orders))
    ensures code == 0 <==>
              Clean(rows, old(api.orders)) || (fix && AllServed(old(api.orders), Scan(rows, old(api.orders)), 0, net))
    ensures !fix || Clean(rows, old(api.orders)) ==> api.orders == old(api.orders)
  {
    ghost var start := api.orders;
    rows := FetchPayments(payments);
    var statuses := FetchStatuses(api.orders, rows);
    var mismatches, at := FindMismatches(rows, statuses);
    FetchedStatusesSuffice(rows, |rows|, start);
    ExitCodes(rows, start, fix, net);
    if mismatches == [] {
      return 0, rows;
    }
    if !fix {
      return 1, rows;
    }
    var allFixed := true;
    for i := 0 to |mismatches|
      invariant Fixes(start, mismatches, 0, net) ==
                var rest := Fixes(api.orders, mismatches, i, net);
                Fixed(rest.orders, allFixed && rest.allFixed)
    {
      var success := FixMismatch(api, mismatches[i], net(i));
      if !success {
        allFixed := false;
      }
    }
    code := if allFixed then 0 else 2;
  }
}
