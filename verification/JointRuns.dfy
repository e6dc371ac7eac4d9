/** order-service's tables and the saga share one table of orders. A joint run lets both sides move
    it: carts and checkouts on the one, webhook tasks, late requests, jobs and shipping on the other. */
module JointRuns {
  import opened Domain
  import opened Money
  import opened Shop
  import opened ShopLaws
  import opened OrderServices
  import OrderRoutes
  import opened Saga
  import opened SagaInvariant
  import SagaTheorems

  /** `charged` is history: what the gateway was asked for when order-service had a payment initialized. */
  datatype System = System(store: Store, saga: State, charged: map<Ref, int>)

  datatype Move =
    | Shopping(op: Op)                   // a cart route or a checkout
    | Charging(row: nat, call: InitCall) // order-service's request to initialize the payment of an order
    | Paying(step: Label)                // any step of the saga but the creation of an order

  function Start(limit: nat): System {
    System(EMPTY, Init(limit), map[])
  }

  /** The amount in kobo that payment-service reads from the text of a total. */
  function Asked(total: Decimal): int {
    var d := Parse(Render(total));
    if d.Some? then Kobo(d.value) else 0
  }

  /** The saga's side of a shopping operation. */
  function SagaSteps(s: Store, op: Op): seq<Label> {
    if op.CheckOut? && Checkout(s, op.user, op.rows, op.answers).reply.Placed? then [NewOrder(s.nextId)] else []
  }

  /** The store's side of a step of the saga. */
  function StoreOps(s: State, l: Label): seq<Op> {
    match StatusWrite(s, l)
    case None => []
    case Some(q) => [SetStatus(q.orderId, q.status)]
  }

  predicate Allowed(y: System, m: Move) {
    match m
    case Shopping(op) => !op.SetStatus? && Possible(y.store, op)
    case Charging(row, call) => row < |y.store.orders| && call.Delivered? && call.reference != ""
    case Paying(l) => !l.NewOrder? && Enabled(y.saga, l)
  }

  /** payment-service stores a payment if the gateway accepts and the reference is new. */
  function Charge(y: System, row: nat, call: InitCall): System
    requires Allowed(y, Charging(row, call))
  {
    var order := y.store.orders[row];
    if Started(y.saga, call) then
      y.(saga := Next(y.saga, NewPayment(call.reference, order.id)),
         charged := y.charged[call.reference := Asked(order.total)])
    else y
  }

  /** Each side takes its part of the move; None would be a step that the other side refuses. */
  function Joined(y: System, m: Move): Option<System> {
    match m
    case Shopping(op) =>
      var saga := Exec(y.saga, SagaSteps(y.store, op));
      if saga.Some? then Some(y.(store := Do(y.store, op), saga := saga.value)) else None
    case Charging(row, call) => if Allowed(y, m) then Some(Charge(y, row, call)) else None
    case Paying(l) =>
      var store := DoAll(y.store, StoreOps(y.saga, l));
      if store.Some? && Enabled(y.saga, l) then Some(y.(store := store.value, saga := Next(y.saga, l))) else None
  }

  ghost predicate Agree(y: System) {
    Ok(y.store) && y.saga.orders == Statuses(y.store.orders)
  }

  lemma DoAllOne(s: Store, op: Op)
    requires Possible(s, op)
    ensures DoAll(s, [op]) == Some(Do(s, op))
  {
    assert [op][1..] == [];
  }

  lemma ExecOne(s: State, l: Label)
    requires Enabled(s, l)
    ensures Exec(s, [l]) == Some(Next(s, l))
  {
    assert [] + [l] == [l];
    ExecStep(s, [], l);
  }

  lemma ShoppingAgrees(y: System, op: Op)
    requires Agree(y) && Allowed(y, Shopping(op))
    ensures var y' := Joined(y, Shopping(op)); y'.Some? && Agree(y'.value)
  {
    DoOk(y.store, op);
    OrdersMoveAsSaga(y.store, op);
    if SagaSteps(y.store, op) != [] {
      ExecOne(y.saga, NewOrder(y.store.nextId));
    }
  }

  lemma SetStatusAgrees(s: Store, q: Request)
    requires Ok(s)
    ensures var after := DoAll(s, [SetStatus(q.orderId, q.status)]);
            && after.Some? && Ok(after.value)
            && Statuses(after.value.orders)
               == OrderRoutes.Attempt(Statuses(s.orders), q.orderId, q.status, OrderRoutes.Answered).orders
  {
    var op := SetStatus(q.orderId, q.status);
    DoAllOne(s, op);
    DoOk(s, op);
    RestatedIsPatch(s.orders, q.orderId, q.status);
  }

  lemma PayingAgrees(y: System, l: Label)
    requires Agree(y) && Allowed(y, Paying(l))
    ensures var y' := Joined(y, Paying(l)); y'.Some? && Agree(y'.value)
  {
    StatusWritten(y.saga, l);
    if StatusWrite(y.saga, l).Some? {
      SetStatusAgrees(y.store, StatusWrite(y.saga, l).value);
    }
  }

  // ---- Runs ----

  /** The system after the first `n` moves, or None when one of them is not allowed. */
  function After(limit: nat, moves: seq<Move>, n: nat): Option<System>
    requires n <= |moves|
  {
    if n == 0 then Some(Start(limit))
    else
      var before := After(limit, moves, n - 1);
      if before.Some? && Allowed(before.value, moves[n - 1]) then Joined(before.value, moves[n - 1]) else None
  }

  lemma {:induction false} DoAllConcat(s: Store, a: seq<Op>, b: seq<Op>)
    requires DoAll(s, a).Some?
    ensures DoAll(s, a + b) == DoAll(DoAll(s, a).value, b)
    decreases |a|
  {
    if a == [] {
      assert a + b == b;
    } else {
      assert (a + b)[1..] == a[1..] + b;
      DoAllConcat(Do(s, a[0]), a[1..], b);
    }
  }

  /** Both sides of `y` agree, and each is where its own run leads. */
  ghost predicate BothReach(limit: nat, y: System, ops: seq<Op>, run: seq<Label>) {
    Agree(y) && DoAll(EMPTY, ops) == Some(y.store) && Exec(Init(limit), run) == Some(y.saga)
  }

  lemma ShoppingExtends(limit: nat, y: System, ops: seq<Op>, run: seq<Label>, op: Op)
    requires BothReach(limit, y, ops, run) && Allowed(y, Shopping(op)) && Joined(y, Shopping(op)).Some?
    ensures BothReach(limit, Joined(y, Shopping(op)).value, ops + [op], run + SagaSteps(y.store, op))
  {
    ShoppingAgrees(y, op);
    DoAllConcat(EMPTY, ops, [op]);
    DoAllOne(y.store, op);
    ExecConcat(Init(limit), run, SagaSteps(y.store, op));
  }

  lemma ChargingExtends(limit: nat, y: System, ops: seq<Op>, run: seq<Label>, row: nat, call: InitCall)
    requires BothReach(limit, y, ops, run) && Allowed(y, Charging(row, call)) && Started(y.saga, call)
    ensures BothReach(limit, Charge(y, row, call), ops, run + [NewPayment(call.reference, y.store.orders[row].id)])
  {
    ExecStep(Init(limit), run, NewPayment(call.reference, y.store.orders[row].id));
  }

  lemma PayingExtends(limit: nat, y: System, ops: seq<Op>, run: seq<Label>, l: Label)
    requires BothReach(limit, y, ops, run) && Allowed(y, Paying(l)) && Joined(y, Paying(l)).Some?
    ensures BothReach(limit, Joined(y, Paying(l)).value, ops + StoreOps(y.saga, l), run + [l])
  {
    PayingAgrees(y, l);
    DoAllConcat(EMPTY, ops, StoreOps(y.saga, l));
    ExecStep(Init(limit), run, l);
  }

  /** The two sides never get in each other's way: as long as each move is allowed where it is
      made, the other side can follow, the order rows show exactly the saga's statuses, and each
      side is in a state that one of its own runs reaches. */
  lemma {:induction false} SidesAgree(limit: nat, moves: seq<Move>, n: nat) returns (ops: seq<Op>, run: seq<Label>)
    requires n <= |moves| && After(limit, moves, n).Some?
    ensures BothReach(limit, After(limit, moves, n).value, ops, run)
    ensures n < |moves| && Allowed(After(limit, moves, n).value, moves[n]) ==> After(limit, moves, n + 1).Some?
  {
    if n == 0 {
      EmptyOk();
      ops, run := [], [];
    } else {
      ops, run := SidesAgree(limit, moves, n - 1);
      var y := After(limit, moves, n - 1).value;
      match moves[n - 1] {
        case Shopping(op) =>
          ShoppingExtends(limit, y, ops, run, op);
          ops, run := ops + [op], run + SagaSteps(y.store, op);
        case Charging(row, call) =>
          if Started(y.saga, call) {
            ChargingExtends(limit, y, ops, run, row, call);
            run := run + [NewPayment(call.reference, y.store.orders[row].id)];
          }
        case Paying(l) =>
          PayingExtends(limit, y, ops, run, l);
          ops, run := ops + StoreOps(y.saga, l), run + [l];
      }
    }
    if n < |moves| {
      MoveFollows(After(limit, moves, n).value, moves[n]);
    }
  }

  /** An allowed move can be made. */
  lemma MoveFollows(y: System, m: Move)
    requires Agree(y)
    ensures Allowed(y, m) ==> Joined(y, m).Some?
  {
    if Allowed(y, m) {
      match m
      case Shopping(op) => ShoppingAgrees(y, op);
      case Charging(row, call) =>
      case Paying(l) => PayingAgrees(y, l);
    }
  }

  // ---- What the gateway was asked for ----

  /** The payment that `ref` names was asked for with the total of the order in row `i`. */
  predicate ChargedFor(y: System, ref: Ref, i: nat) {
    && ref in y.charged && ref in y.saga.payments && i < |y.store.orders|
    && y.store.orders[i].id == y.saga.payments[ref].orderId
    && y.charged[ref] == Asked(y.store.orders[i].total)
  }

  ghost predicate ChargesOk(y: System) {
    forall ref :: ref in y.charged ==> exists i :: ChargedFor(y, ref, i)
  }

  lemma ChargedStays(y: System, y': System, ref: Ref, i: nat)
    requires ChargedFor(y, ref, i) && y'.charged == y.charged && Locked(y.store, y'.store)
    requires ref in y'.saga.payments && y'.saga.payments[ref].orderId == y.saga.payments[ref].orderId
    ensures ChargedFor(y', ref, i)
  {
  }

  lemma OthersKeepCharges(y: System, m: Move)
    requires ChargesOk(y) && Allowed(y, m) && !m.Charging? && Joined(y, m).Some?
    ensures ChargesOk(Joined(y, m).value)
  {
    var y' := Joined(y, m).value;
    match m {
      case Shopping(op) =>
        OpLocks(y.store, op);
        RunGrows(y.saga, SagaSteps(y.store, op));
      case Paying(l) =>
        OrdersAreLocked(y.store, StoreOps(y.saga, l));
        StepGrows(y.saga, l);
    }
    forall ref | ref in y'.charged ensures exists i :: ChargedFor(y', ref, i) {
      var i :| ChargedFor(y, ref, i);
      ChargedStays(y, y', ref, i);
    }
  }

  lemma ChargingKeepsCharges(y: System, row: nat, call: InitCall)
    requires ChargesOk(y) && Allowed(y, Charging(row, call))
    ensures ChargesOk(Charge(y, row, call))
  {
    var y' := Charge(y, row, call);
    forall ref | ref in y'.charged ensures exists i :: ChargedFor(y', ref, i) {
      if ref in y.charged && (!Started(y.saga, call) || ref != call.reference) {
        var i :| ChargedFor(y, ref, i);
        assert ChargedFor(y', ref, i);
      } else {
        assert ChargedFor(y', ref, row);
      }
    }
  }

  lemma {:induction false} ChargesHold(limit: nat, moves: seq<Move>, n: nat)
    requires n <= |moves| && After(limit, moves, n).Some?
    ensures ChargesOk(After(limit, moves, n).value)
  {
    if n > 0 {
      ChargesHold(limit, moves, n - 1);
      var y := After(limit, moves, n - 1).value;
      if moves[n - 1].Charging? {
        ChargingKeepsCharges(y, moves[n - 1].row, moves[n - 1].call);
      } else {
        OthersKeepCharges(y, moves[n - 1]);
      }
    }
  }

  /** The payment that `ref` names pays the order in row `i`, and the gateway was asked for that
      order's total in kobo, which is what its lines come to if its prices are whole in kobo. */
  predicate ChargedExactlyFor(y: System, ref: Ref, i: nat) {
    && ref in y.charged && ref in y.saga.payments && i < |y.store.orders|
    && y.store.orders[i].id == y.saga.payments[ref].orderId
    && y.charged[ref] == Kobo(y.store.orders[i].total)
    && (WholeLines(y.store.lines, y.store.orders[i].id) ==>
          y.charged[ref] == KoboIn(y.store.lines, y.store.orders[i].id))
  }

  /** In every joint run, whatever order-service had the gateway asked for is the total of that
      payment's order in kobo, and the sum over its lines of price in kobo times quantity if its
      prices are whole in kobo. */
  lemma ChargesAreOrders(limit: nat, moves: seq<Move>, ref: Ref) returns (i: nat)
    requires After(limit, moves, |moves|).Some?
    ensures var y := After(limit, moves, |moves|).value;
            ref in y.charged ==> ChargedExactlyFor(y, ref, i)
  {
    var y := After(limit, moves, |moves|).value;
    i := 0;
    if ref in y.charged {
      var ops, run := SidesAgree(limit, moves, |moves|);
      ChargesHold(limit, moves, |moves|);
      i :| ChargedFor(y, ref, i);
      var row := y.store.orders[i];
      RoundTrip(row.total);
      TotalsAreLines(ops, i);
      if WholeLines(y.store.lines, row.id) {
        KoboOfExact(row.total, KoboIn(y.store.lines, row.id));
      }
    }
  }

  /** If every payment of a paid order was initialized by order-service, one that was on record as
      succeeded was charged exactly what the order's lines come to. */
  lemma PaidIsCharged(limit: nat, moves: seq<Move>, i: nat) returns (ref: Ref)
    requires After(limit, moves, |moves|).Some? && i < |After(limit, moves, |moves|).value.store.orders|
    requires var y := After(limit, moves, |moves|).value;
             var row := y.store.orders[i];
             && row.status == Paid && WholeLines(y.store.lines, row.id)
             && forall r :: r in y.saga.payments && y.saga.payments[r].orderId == row.id ==> r in y.charged
    ensures var y := After(limit, moves, |moves|).value;
            && ref in y.saga.payments && y.saga.payments[ref].orderId == y.store.orders[i].id
            && ref in y.saga.verified && ref in y.charged
            && y.charged[ref] == KoboIn(y.store.lines, y.store.orders[i].id)
  {
    var ops, run := SidesAgree(limit, moves, |moves|);
    var y := After(limit, moves, |moves|).value;
    var row := y.store.orders[i];
    StatusOfRow(y.store.orders, i);
    SagaTheorems.Reached(limit, run);
    assert OrderOk(y.saga, row.id);
    var r, out :| JustifiedBy(y.saga, row.id, Paid, r, out);
    ref := r;
    var j := ChargesAreOrders(limit, moves, ref);
    assert i == j;
  }

  /** An order row is the sale of cart `c`: the cart is closed and has the same quantities. */
  ghost predicate SoldFrom(s: Store, o: OrderId, c: CartId) {
    c in CartIds(s.carts, false) && forall v :: QtyIn(s.items, {c}, v) == SoldIn(s.lines, o, v)
  }

  /** From cart to charge: in every joint run, each order row is the sale of a closed cart with the
      same quantities, and if it shows paid or cancelled, some payment of that very order was on
      record as succeeded, re-verified by the gateway, or as failed. */
  lemma PaidOrdersAreExplained(limit: nat, moves: seq<Move>, i: nat)
    requires After(limit, moves, |moves|).Some? && i < |After(limit, moves, |moves|).value.store.orders|
    ensures var y := After(limit, moves, |moves|).value;
            var row := y.store.orders[i];
            && (exists c :: SoldFrom(y.store, row.id, c))
            && (row.status == Paid ==>
                  exists run :: Exec(Init(limit), run) == Some(y.saga)
                                && SagaTheorems.OnceOnRecord(limit, run, row.id, Succeeded))
            && (row.status == Cancelled ==>
                  exists run :: Exec(Init(limit), run) == Some(y.saga)
                                && SagaTheorems.OnceOnRecord(limit, run, row.id, PaymentStatus.Failed))
  {
    var ops, run := SidesAgree(limit, moves, |moves|);
    var y := After(limit, moves, |moves|).value;
    var row := y.store.orders[i];
    assert IsOrder(y.store, row.id);
    var c :| c in y.store.soldAs && y.store.soldAs[c] == row.id;
    assert SoldFrom(y.store, row.id, c);
    StatusOfRow(y.store.orders, i);
    SagaTheorems.OrderStatusHasCause(limit, run, row.id);
  }

  /** With distinct identifiers the status table shows each row's status. */
  lemma {:induction false} StatusOfRow(orders: seq<OrderRow>, i: nat)
    requires i < |orders| && forall j, k :: 0 <= j < k < |orders| ==> orders[j].id != orders[k].id
    ensures orders[i].id in Statuses(orders) && Statuses(orders)[orders[i].id] == orders[i].status
  {
    var n := |orders| - 1;
    if i < n {
      assert forall j :: 0 <= j < n ==> orders[..n][j] == orders[j];
      StatusOfRow(orders[..n], i);
    }
  }
}
