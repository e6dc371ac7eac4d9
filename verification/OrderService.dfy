/** order-service's carts and checkout as they run: table updates in place, the checkout loops,
    the order.placed event, and the payment that is initialized after the commit. */
module OrderServices {
  import opened Domain
  import opened Money
  import opened Shop
  import opened ShopLaws
  import OrderRoutes
  import Saga
  import SagaReach
  import Payments

  /** One line of an order.placed event; money travels as text. */
  datatype EventItem = EventItem(product: ProductId, variant: VariantId, name: string, size: string,
                                 price: string, quantity: nat, subtotal: string)

  datatype OrderPlaced = OrderPlaced(order: OrderId, user: UserId, total: string, items: seq<EventItem>)

  function EventItemOf(l: OrderLine): EventItem {
    EventItem(l.product, l.variant, l.name, l.size, Render(l.price), l.quantity, Render(l.subtotal))
  }

  function EventItemsOf(lines: seq<OrderLine>): seq<EventItem> {
    seq(|lines|, i requires 0 <= i < |lines| => EventItemOf(lines[i]))
  }

  /** What becomes of the request that initializes the payment of a new order. */
  datatype InitCall = NotDelivered | Delivered(reference: Ref, accepted: bool, replied: bool)

  datatype CheckoutResult =
    | Stopped(reply: CheckoutReply)
    | Ordered(order: OrderId, changes: seq<PriceChange>, reference: Option<Ref>)

  // ---- Loop lemmas ----

  lemma {:induction false} RefusalSticks(rows: seq<CartItem>, answers: seq<Response>, n: nat, m: nat)
    requires n <= m <= |rows| && Verify(rows, answers, n).Refused?
    ensures Verify(rows, answers, m) == Verify(rows, answers, n)
    decreases m
  {
    if n < m {
      RefusalSticks(rows, answers, n, m - 1);
    }
  }

  lemma {:induction false} ChangesPrefix(checked: seq<Checked>, c: Checked, n: nat)
    requires n <= |checked|
    ensures Changes(checked + [c], n) == Changes(checked, n)
  {
    if n > 0 {
      ChangesPrefix(checked, c, n - 1);
    }
  }

  // ---- The service ----

  /** Row `i`, of the requested variant in `cart`, has the requested quantity more; no other row changed. */
  predicate Grew(before: seq<CartItem>, after: seq<CartItem>, i: nat, cart: CartId, r: NewItem)
    requires i < |before|
  {
    && before[i].cart == cart && before[i].variant == r.variant && before[i].quantity + r.quantity >= 0
    && after == before[i := before[i].(quantity := before[i].quantity + r.quantity)]
  }

  /** Row `i`, which is item `id` of `cart`, is gone; no other row changed. */
  predicate Gone(before: seq<CartItem>, after: seq<CartItem>, i: nat, cart: CartId, id: nat)
    requires i < |before|
  {
    before[i].cart == cart && before[i].id == id && after == before[..i] + before[i + 1..]
  }

  class OrderService {
    var carts: seq<CartRow>
    var items: seq<CartItem>
    var orders: seq<OrderRow>
    var lines: seq<OrderLine>
    var nextId: nat
    var events: seq<OrderPlaced>
    ghost var log: seq<Entry>
    ghost var soldAs: map<CartId, OrderId>

    ghost function Now(): Store
      reads this
    {
      Store(carts, items, orders, lines, nextId, log, soldAs)
    }

    constructor ()
      ensures Now() == EMPTY && events == []
    {
      carts, items, orders, lines, nextId, events := [], [], [], [], 0, [];
      log, soldAs := [], map[];
    }

    // ---- CartService ----

    method GetOrCreateCart(user: UserId) returns (cart: CartId)
      modifies this`carts, this`nextId
      ensures Now() == WithCart(old(Now()), user) && Some(cart) == ActiveCart(carts, user)
      ensures carts == if ActiveCart(old(carts), user).Some? then old(carts)
                       else old(carts) + [CartRow(old(nextId), user, true)]
    {
      if ActiveCart(carts, user).None? {
        ghost var after := WithCart(Now(), user);
        carts, nextId := carts + [CartRow(nextId, user, true)], nextId + 1;
        assert carts == after.carts;
      }
      cart := ActiveCart(carts, user).value;
    }

    method AddItem(cart: CartId, r: NewItem) returns (row: CartItem)
      requires Admissible(r)
      modifies this`items, this`nextId, this`log
      ensures Now() == AddTo(old(Now()), cart, r)
      ensures row in items && Holds(row, cart, r.variant)
      ensures (exists i :: 0 <= i < |old(items)| && Grew(old(items), items, i, cart, r))
              || (items == old(items) + [row]
                  && row == CartItem(old(nextId), cart, r.product, r.variant, r.name, r.size,
                                     Stored(r.price), r.quantity)
                  && forall i :: 0 <= i < |old(items)| ==> !Holds(old(items)[i], cart, r.variant))
    {
      log := log + [Noted(cart, r)];
      var existing := RowFor(items, cart, r.variant);
      if existing.Some? {
        var i := existing.value;
        row := items[i].(quantity := items[i].quantity + r.quantity);
        items := items[i := row];
        assert items[i] == row;
        assert Grew(old(items), items, i, cart, r);
        return;
      }
      row := CartItem(nextId, cart, r.product, r.variant, r.name, r.size, Stored(r.price), r.quantity);
      items, nextId := items + [row], nextId + 1;
      assert items[|items| - 1] == row;
    }

    method RemoveItem(cart: CartId, id: nat) returns (removed: bool)
      modifies this`items, this`log
      ensures removed <==> exists i :: 0 <= i < |old(items)| && old(items)[i].cart == cart && old(items)[i].id == id
      ensures !removed ==> Now() == old(Now())
      ensures removed ==> RowById(old(items), cart, id).Some?
                          && Now() == RemoveAt(old(Now()), cart, RowById(old(items), cart, id).value)
      ensures removed ==> exists i :: 0 <= i < |old(items)| && Gone(old(items), items, i, cart, id)
    {
      var at := RowById(items, cart, id);
      if at.None? {
        return false;
      }
      log := log + [Removed(cart, items[at.value].variant, items[at.value].quantity)];
      items := items[..at.value] + items[at.value + 1..];
      assert Gone(old(items), items, at.value, cart, id);
      return true;
    }

    // ---- Cart routes ----

    method PostCartItem(user: UserId, r: NewItem) returns (code: nat)
      modifies this`carts, this`items, this`nextId, this`log
      ensures Now() == Add(old(Now()), user, r)
      ensures code == (if r.price.coef > 0 && (100 * r.price.coef) % Pow10(r.price.places) == 0 && r.quantity >= 1
                       then 201 else 422)
      ensures code == 422 ==> carts == old(carts) && items == old(items)
      ensures code == 201 ==>
                && ActiveCart(carts, user).Some?
                && var cart := ActiveCart(carts, user).value;
                   || (exists i :: 0 <= i < |old(items)| && Grew(old(items), items, i, cart, r))
                   || (|items| == |old(items)| + 1 && items[..|old(items)|] == old(items)
                       && var row := items[|old(items)|];
                          row == CartItem(row.id, cart, r.product, r.variant, r.name, r.size,
                                          Stored(r.price), r.quantity)
                          && forall i :: 0 <= i < |old(items)| ==> !Holds(old(items)[i], cart, r.variant))
    {
      if !(r.price.coef > 0 && WholeKobo(r.price) && r.quantity >= 1) {
        return 422;
      }
      var cart := GetOrCreateCart(user);
      var _ := AddItem(cart, r);
      return 201;
    }

    method DeleteCartItem(user: UserId, id: Option<nat>) returns (code: nat)
      modifies this`items, this`log
      ensures code == 422 <==> id.None?
      ensures Now() == if id.None? then old(Now()) else Remove(old(Now()), user, id.value)
      ensures code == 204 <==>
                && id.Some? && ActiveCart(carts, user).Some?
                && exists i :: 0 <= i < |old(items)| && old(items)[i].cart == ActiveCart(carts, user).value
                               && old(items)[i].id == id.value
      ensures code in {204, 404, 422}
      ensures code == 204 ==>
                exists i :: 0 <= i < |old(items)| && Gone(old(items), items, i, ActiveCart(carts, user).value, id.value)
      ensures code != 204 ==> items == old(items)
    {
      if id.None? {
        return 422;
      }
      var cart := ActiveCart(carts, user);
      if cart.None? {
        return 404;
      }
      var removed := RemoveItem(cart.value, id.value);
      return if removed then 204 else 404;
    }

    // ---- Checkout ----

    /** Phase 1: every row is looked up before anything is written. */
    method VerifyItems(rows: seq<CartItem>, answers: seq<Response>)
      returns (failure: Option<Refusal>, checked: seq<Checked>, changes: seq<PriceChange>)
      ensures Verify(rows, answers, |rows|) == if failure.Some? then Refused(failure.value) else Verified(checked)
      ensures failure.None? ==> changes == Changes(checked, |checked|)
    {
      checked, changes := [], [];
      for i := 0 to |rows|
        invariant Verify(rows, answers, i) == Verified(checked) && changes == Changes(checked, i)
      {
        var r := GetVariant(AnswerAt(answers, i), rows[i].variant);
        if !r.Found? || !r.live.available {
          failure := Some(if r.ServiceError? then ProductServiceDown
                          else if r.NoVariant? then NoLongerAvailable(rows[i]) else OutOfStock(rows[i]));
          RefusalSticks(rows, answers, i + 1, |rows|);
          return;
        }
        var c := Checked(rows[i], r.live);
        ChangesPrefix(checked, c, i);
        if Changed(c) {
          changes := changes + [ChangeOf(c)];
        }
        checked := checked + [c];
      }
      failure := None;
    }

    method SumTotal(checked: seq<Checked>) returns (total: Decimal)
      ensures total == Total(checked, |checked|)
    {
      total := ZERO;
      for i := 0 to |checked|
        invariant total == Total(checked, i)
      {
        total := Plus(total, Times(checked[i].live.price, checked[i].item.quantity));
      }
    }

    /** Phase 2: the order and its lines with locked prices; phase 3: the cart; one commit. */
    method PlaceOrder(cart: CartId, user: UserId, checked: seq<Checked>)
      returns (order: OrderId, total: Decimal, payload: seq<EventItem>)
      modifies this`carts, this`orders, this`lines, this`nextId, this`soldAs
      ensures Now() == Place(old(Now()), user, cart, checked) && order == old(nextId)
      ensures total == Total(checked, |checked|)
      ensures payload == EventItemsOf(LinesOf(checked, order))
    {
      total := SumTotal(checked);
      order := nextId;
      orders, nextId := orders + [OrderRow(order, user, PendingPayment, total)], nextId + 1;
      payload := [];
      var added: seq<OrderLine> := [];
      for i := 0 to |checked|
        invariant added == LinesOf(checked, order)[..i] && payload == EventItemsOf(added)
      {
        var c := checked[i];
        var subtotal := Times(c.live.price, c.item.quantity);
        added := added + [OrderLine(order, c.item.product, c.item.variant, c.live.name, c.live.size, c.live.price,
                                    c.item.quantity, subtotal)];
        payload := payload + [EventItem(c.item.product, c.item.variant, c.live.name, c.live.size, Render(c.live.price),
                                        c.item.quantity, Render(subtotal))];
      }
      lines := lines + added;
      carts := Closed(carts, cart);
      soldAs := soldAs[cart := order];
    }

    /** Ask payment-service for a payment of `total`; any failure is only logged. `asked` is what
        payment-service in turn asks of the gateway. */
    method InitializePayment(pay: Payments.PaymentService, order: OrderId, total: Decimal, call: InitCall)
      returns (reference: Option<Ref>, ghost asked: int)
      requires call.Delivered? ==> call.reference != ""
      modifies pay`payments
      ensures pay.Now() == Initialized(old(pay.Now()), order, call)
      ensures reference.Some? <==> Started(old(pay.Now()), call) && call.replied
      ensures reference.Some? ==> reference.value == call.reference
      ensures call.Delivered? ==> asked == Kobo(total)
    {
      if call.NotDelivered? {
        return None, 0;
      }
      RoundTrip(total);
      var reply := pay.Initialize(order, Render(total), call.reference, call.accepted);
      reference := if reply.Created? && call.replied then Some(reply.reference) else None;
      asked := reply.asked;
    }

    /** checkout. `rows` is what the query for the cart's rows returned. */
    method Checkout(cart: CartId, user: UserId, rows: seq<CartItem>, answers: seq<Response>, published: bool,
                    pay: Payments.PaymentService, call: InitCall)
      returns (out: CheckoutResult, ghost asked: int)
      requires call.Delivered? ==> call.reference != ""
      modifies this, pay`payments
      ensures out.Stopped? <==> rows == [] || Verify(rows, answers, |rows|).Refused?
      ensures out.Stopped? ==>
                && Now() == old(Now()) && events == old(events) && pay.Now() == old(pay.Now())
                && out.reply == (if rows == [] then EmptyCart else Rejected(Verify(rows, answers, |rows|).why))
      ensures out.Ordered? ==>
                && var checked := Verify(rows, answers, |rows|).checked;
                   && Now() == Place(old(Now()), user, cart, checked)
                   && out.order == old(nextId) && out.changes == Changes(checked, |checked|)
                   && events == old(events) + (if published then [EventFor(user, out.order, checked)] else [])
                   && pay.Now() == Initialized(old(pay.Now()), out.order, call)
                   && out.reference == (if Started(old(pay.Now()), call) && call.replied then Some(call.reference)
                                        else None)
                   && (call.Delivered? && WholeKoboPrices(checked, |checked|) ==>
                         asked == KoboTotal(checked, |checked|))
    {
      if rows == [] {
        return Stopped(EmptyCart), 0;
      }
      var failure, checked, changes := VerifyItems(rows, answers);
      if failure.Some? {
        return Stopped(Rejected(failure.value)), 0;
      }
      var order, total, payload := PlaceOrder(cart, user, checked);
      if published {
        events := events + [OrderPlaced(order, user, Render(total), payload)];
      }
      var reference;
      reference, asked := InitializePayment(pay, order, total, call);
      if WholeKoboPrices(checked, |checked|) {
        ChargedExactly(checked);
      }
      return Ordered(order, changes, reference), asked;
    }

    /** POST /checkout. Every refusal is a 400, an unreachable product-service included. */
    method PostCheckout(user: UserId, rows: seq<CartItem>, answers: seq<Response>, published: bool,
                        pay: Payments.PaymentService, call: InitCall)
      returns (code: nat, out: CheckoutResult)
      requires Returned(Now(), user, rows)
      requires call.Delivered? ==> call.reference != ""
      modifies this, pay`payments
      ensures var r := Shop.Checkout(old(Now()), user, rows, answers);
              && Now() == r.store
              && (out.Ordered? <==> r.reply.Placed?) && code == (if out.Ordered? then 201 else 400)
              && (out.Stopped? ==> out.reply == r.reply && events == old(events) && pay.Now() == old(pay.Now()))
              && (out.Stopped? && out.reply.NoActiveCart? <==> ActiveCart(old(carts), user).None?)
              && (out.Stopped? && out.reply.EmptyCart? <==> ActiveCart(old(carts), user).Some? && rows == [])
              && (out.Ordered? ==>
                    && r.reply == Placed(out.order, out.changes)
                    && pay.Now() == Initialized(old(pay.Now()), out.order, call)
                    && events == old(events)
                                 + (if published then [EventFor(user, out.order, Verify(rows, answers, |rows|).checked)]
                                    else []))
    {
      var cart := ActiveCart(carts, user);
      if cart.None? {
        return 400, Stopped(NoActiveCart);
      }
      ghost var asked;
      out, asked := Checkout(cart.value, user, rows, answers, published, pay, call);
      code := if out.Stopped? then 400 else 201;
    }
  }

  function EventFor(user: UserId, order: OrderId, checked: seq<Checked>): OrderPlaced {
    OrderPlaced(order, user, Render(Total(checked, |checked|)), EventItemsOf(LinesOf(checked, order)))
  }

  /** payment-service stores a pending payment. */
  predicate Started(s: Saga.State, call: InitCall) {
    call.Delivered? && call.accepted && call.reference !in s.payments
  }

  function Initialized(s: Saga.State, order: OrderId, call: InitCall): Saga.State {
    if Started(s, call) then s.(payments := s.payments[call.reference := Payment(order, Pending)]) else s
  }

  // ---- Checkout starts a saga ----

  /** The status table that the saga speaks about. */
  function Statuses(orders: seq<OrderRow>): OrderRoutes.Orders {
    if orders == [] then map[]
    else Statuses(orders[..|orders| - 1])[orders[|orders| - 1].id := orders[|orders| - 1].status]
  }

  lemma StatusesSnoc(orders: seq<OrderRow>, row: OrderRow)
    ensures Statuses(orders + [row]) == Statuses(orders)[row.id := row.status]
  {
    assert (orders + [row])[..|orders|] == orders;
  }

  lemma {:induction false} StatusesKeys(orders: seq<OrderRow>, o: OrderId)
    ensures o in Statuses(orders) <==> exists i :: 0 <= i < |orders| && orders[i].id == o
  {
    if orders != [] {
      var n := |orders| - 1;
      StatusesKeys(orders[..n], o);
      assert forall i :: 0 <= i < n ==> orders[..n][i] == orders[i];
    }
  }

  lemma PatchSnoc(statuses: OrderRoutes.Orders, row: OrderRow, o: OrderId, status: OrderStatus)
    ensures OrderRoutes.Attempt(statuses[row.id := row.status], o, status, OrderRoutes.Answered).orders
            == OrderRoutes.Attempt(statuses, o, status, OrderRoutes.Answered).orders
                 [row.id := if row.id == o then status else row.status]
  {
  }

  /** Writing a status in the table of rows is a PATCH of the status table. */
  lemma {:induction false} RestatedIsPatch(orders: seq<OrderRow>, o: OrderId, status: OrderStatus)
    ensures Statuses(Restated(orders, o, status))
            == OrderRoutes.Attempt(Statuses(orders), o, status, OrderRoutes.Answered).orders
  {
    if orders != [] {
      var n := |orders| - 1;
      RestatedIsPatch(orders[..n], o, status);
      assert Restated(orders, o, status)[..n] == Restated(orders[..n], o, status);
      PatchSnoc(Statuses(orders[..n]), orders[n], o, status);
    }
  }

  /** Both views of the orders table move together: checkout is the saga's step that creates a
      pending_payment order, a status update is its PATCH, and nothing else touches an order. */
  lemma OrdersMoveAsSaga(s: Store, op: Op)
    requires Ok(s)
    ensures var before, after := Statuses(s.orders), Statuses(Do(s, op).orders);
            match op
            case SetStatus(o, status) => after == OrderRoutes.Attempt(before, o, status, OrderRoutes.Answered).orders
            case CheckOut(user, rows, answers) =>
              var reply := Checkout(s, user, rows, answers).reply;
              if reply.Placed? then reply.order !in before && after == before[reply.order := PendingPayment]
              else after == before
            case _ => after == before
  {
    match op
    case SetStatus(o, status) => RestatedIsPatch(s.orders, o, status);
    case CheckOut(user, rows, answers) =>
      var r := Checkout(s, user, rows, answers);
      if r.reply.Placed? {
        StatusesKeys(s.orders, r.reply.order);
        StatusesSnoc(s.orders, r.store.orders[|s.orders|]);
      }
    case _ =>
  }

  /** The saga's steps for one checkout: the order, then its payment if payment-service stored one. */
  function StartLabels(saga: Saga.State, order: OrderId, call: InitCall): seq<Saga.Label> {
    [Saga.NewOrder(order)] + if Started(saga, call) then [Saga.NewPayment(call.reference, order)] else []
  }

  /** A checkout starts a saga whatever becomes of the payment request: the order exists and is
      pending_payment even when no payment could be initialized. */
  lemma CheckoutStartsSaga(s: Store, saga: Saga.State, user: UserId, rows: seq<CartItem>, answers: seq<Response>,
                           call: InitCall)
    requires Ok(s) && saga.orders == Statuses(s.orders) && Checkout(s, user, rows, answers).reply.Placed?
    requires call.Delivered? ==> call.reference != ""
    ensures var r := Checkout(s, user, rows, answers);
            var run := StartLabels(saga, r.reply.order, call);
            var end := Saga.Exec(saga, run);
            && end.Some? && end.value.orders == Statuses(r.store.orders)
            && end.value.payments == Initialized(saga, r.reply.order, call).payments
            && r.reply.order !in saga.orders
            && r.reply.order in end.value.orders && end.value.orders[r.reply.order] == PendingPayment
  {
    var r := Checkout(s, user, rows, answers);
    var o := r.reply.order;
    OrdersMoveAsSaga(s, CheckOut(user, rows, answers));
    assert [] + [Saga.NewOrder(o)] == [Saga.NewOrder(o)];
    Saga.ExecStep(saga, [], Saga.NewOrder(o));
    if Started(saga, call) {
      Saga.ExecStep(saga, [Saga.NewOrder(o)], Saga.NewPayment(call.reference, o));
    } else {
      assert StartLabels(saga, o, call) == [Saga.NewOrder(o)];
    }
  }

  /** From a checkout with a stored payment the saga can run to its end: the gateway settles the
      charge, one webhook is delivered, and the order is paid. */
  lemma OrderedCanBePaid(s: Store, saga: Saga.State, user: UserId, rows: seq<CartItem>, answers: seq<Response>,
                         call: InitCall, t: Saga.TaskId)
    requires Ok(s) && saga.orders == Statuses(s.orders) && Checkout(s, user, rows, answers).reply.Placed?
    requires call.Delivered? && call.reference != "" && Started(saga, call) && saga.limit > 0 && t !in saga.tasks
    ensures var o := Checkout(s, user, rows, answers).reply.order;
            var run := StartLabels(saga, o, call)
                       + ([Saga.Settle(call.reference, Success)]
                          + SagaReach.DeliveryLabels(t, call.reference, Success));
            var end := Saga.Exec(saga, run);
            && end.Some? && call.reference in end.value.payments
            && end.value.payments[call.reference].status == Succeeded
            && end.value.orders == Statuses(Checkout(s, user, rows, answers).store.orders)[o := Paid]
  {
    var o := Checkout(s, user, rows, answers).reply.order;
    var start, rest := StartLabels(saga, o, call), SagaReach.DeliveryLabels(t, call.reference, Success);
    CheckoutStartsSaga(s, saga, user, rows, answers, call);
    StartKeepsRest(saga, o, call);
    var s1 := Saga.Exec(saga, start).value;
    var settle := Saga.Settle(call.reference, Success);
    Saga.ExecConcat(saga, start, [settle] + rest);
    Saga.ExecCons(s1, settle, rest);
    SagaReach.Redelivery(Saga.Next(s1, settle), call.reference, Success, t);
  }

  lemma StartKeepsRest(saga: Saga.State, o: OrderId, call: InitCall)
    requires o !in saga.orders && Started(saga, call) && call.reference != ""
    ensures var end := Saga.Exec(saga, StartLabels(saga, o, call));
            && end.Some? && end.value.tasks == saga.tasks && end.value.limit == saga.limit
            && end.value.payments == saga.payments[call.reference := Payment(o, Pending)]
  {
    var a, b := Saga.NewOrder(o), Saga.NewPayment(call.reference, o);
    Saga.ExecCons(saga, a, [b]);
    assert [b] == [b] + [];
    Saga.ExecCons(Saga.Next(saga, a), b, []);
  }

  lemma ColumnKeeps(d: Decimal, k: int)
    requires InKobo(d, k)
    ensures SameValue(Stored(d), d)
  {
    InKoboIsWhole(d, k);
    StoredExact(d);
  }

  /** Two-place columns keep the values of an order whose live prices are whole in kobo. */
  lemma ColumnsKeepValues(checked: seq<Checked>, i: nat)
    requires WholeKoboPrices(checked, |checked|) && i < |checked|
    ensures var price, total := checked[i].live.price, Total(checked, |checked|);
            var subtotal := Times(price, checked[i].item.quantity);
            SameValue(Stored(price), price) && SameValue(Stored(subtotal), subtotal) && SameValue(Stored(total), total)
  {
    var price := checked[i].live.price;
    KoboIsExact(price);
    ColumnKeeps(price, Kobo(price));
    KoboTimes(price, Kobo(price), checked[i].item.quantity);
    ColumnKeeps(Times(price, checked[i].item.quantity), Kobo(price) * checked[i].item.quantity);
    TotalInKobo(checked, |checked|);
    ColumnKeeps(Total(checked, |checked|), KoboTotal(checked, |checked|));
  }

  /** Every amount and line of an order.placed event reads back as what the order holds, and as
      what its two-place columns keep when the live prices are whole in kobo. */
  lemma EventTellsOrder(s: Store, user: UserId, cart: CartId, checked: seq<Checked>, i: nat)
    requires i < |checked|
    ensures var s' := Place(s, user, cart, checked);
            var event := EventFor(user, s.nextId, checked);
            && |event.items| == |checked| && |s'.lines| == |s.lines| + |checked|
            && event.order == s'.orders[|s.orders|].id && event.user == s'.orders[|s.orders|].user
            && Parse(event.total) == Some(s'.orders[|s.orders|].total)
            && var line, told := s'.lines[|s.lines| + i], event.items[i];
               && Parse(told.price) == Some(line.price) && Parse(told.subtotal) == Some(line.subtotal)
               && told.product == line.product && told.variant == line.variant
               && told.name == line.name && told.size == line.size && told.quantity == line.quantity
               && (WholeKoboPrices(checked, |checked|) ==>
                     && SameValue(Stored(line.price), line.price) && SameValue(Stored(line.subtotal), line.subtotal)
                     && SameValue(Stored(s'.orders[|s.orders|].total), s'.orders[|s.orders|].total))
  {
    RoundTrip(Total(checked, |checked|));
    RoundTrip(checked[i].live.price);
    RoundTrip(Times(checked[i].live.price, checked[i].item.quantity));
    if WholeKoboPrices(checked, |checked|) {
      ColumnsKeepValues(checked, i);
    }
  }
}
