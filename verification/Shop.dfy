/** Carts, checkout and orders of order-service as functions on its tables, and their laws. */
module Shop {
  import opened Domain
  import opened Money

  type UserId = nat
  type CartId = nat
  type ProductId = nat
  type VariantId = nat

  datatype CartRow = CartRow(id: CartId, user: UserId, active: bool)

  datatype CartItem = CartItem(id: nat, cart: CartId, product: ProductId, variant: VariantId,
                               name: string, size: string, price: Decimal, quantity: nat)

  datatype OrderRow = OrderRow(id: OrderId, user: UserId, status: OrderStatus, total: Decimal)

  datatype OrderLine = OrderLine(order: OrderId, product: ProductId, variant: VariantId,
                                 name: string, size: string, price: Decimal, quantity: nat, subtotal: Decimal)

  /** History of cart changes. */
  datatype Entry =
    | Added(cart: CartId, product: ProductId, variant: VariantId, name: string, size: string,
            price: Decimal, quantity: nat)
    | Removed(cart: CartId, variant: VariantId, quantity: nat)

  datatype Store = Store(
    carts: seq<CartRow>, items: seq<CartItem>, orders: seq<OrderRow>, lines: seq<OrderLine>,
    nextId: nat,                        // no identifier is used twice
    log: seq<Entry>,                    // history
    soldAs: map<CartId, OrderId>        // history: the order each checked-out cart became
  )

  const EMPTY := Store([], [], [], [], 0, [], map[])

  datatype NewItem = NewItem(product: ProductId, variant: VariantId, name: string, size: string,
                             price: Decimal, quantity: int)

  /** What the request schema admits: a positive price of at most two places, trailing zeros not
      counted, and at least one unit. */
  predicate Admissible(r: NewItem) {
    r.price.coef > 0 && WholeKobo(r.price) && r.quantity >= 1
  }

  // ---- Lookups ----

  /** The user's active cart. */
  function ActiveCart(carts: seq<CartRow>, user: UserId): (c: Option<CartId>)
    ensures c.Some? <==> exists k :: 0 <= k < |carts| && carts[k].user == user && carts[k].active
    ensures c.Some? ==> exists k :: 0 <= k < |carts| && carts[k] == CartRow(c.value, user, true)
  {
    if carts == [] then None
    else if carts[0].user == user && carts[0].active then Some(carts[0].id)
    else
      var rest := ActiveCart(carts[1..], user);
      assert forall k :: 0 <= k < |carts| - 1 ==> carts[1..][k] == carts[k + 1];
      rest
  }

  predicate Holds(it: CartItem, cart: CartId, variant: VariantId) {
    it.cart == cart && it.variant == variant
  }

  /** The position of the row for `variant` in `cart`. */
  function RowFor(items: seq<CartItem>, cart: CartId, variant: VariantId): (i: Option<nat>)
    ensures i.Some? ==> i.value < |items| && Holds(items[i.value], cart, variant)
    ensures i.None? ==> forall k :: 0 <= k < |items| ==> !Holds(items[k], cart, variant)
  {
    if items == [] then None
    else if Holds(items[|items| - 1], cart, variant) then Some(|items| - 1)
    else RowFor(items[..|items| - 1], cart, variant)
  }

  /** The position of item `id` if it is in `cart`. */
  function RowById(items: seq<CartItem>, cart: CartId, id: nat): (i: Option<nat>)
    ensures i.Some? ==> i.value < |items| && items[i.value].cart == cart && items[i.value].id == id
    ensures i.None? ==> forall k :: 0 <= k < |items| ==> !(items[k].cart == cart && items[k].id == id)
  {
    if items == [] then None
    else if items[|items| - 1].cart == cart && items[|items| - 1].id == id then Some(|items| - 1)
    else RowById(items[..|items| - 1], cart, id)
  }

  /** The rows of `cart` in table order. */
  function RowsOf(items: seq<CartItem>, cart: CartId): seq<CartItem> {
    if items == [] then []
    else RowsOf(items[..|items| - 1], cart) + if items[|items| - 1].cart == cart then [items[|items| - 1]] else []
  }

  function CartIds(carts: seq<CartRow>, active: bool): set<CartId> {
    set i | 0 <= i < |carts| && carts[i].active == active :: carts[i].id
  }

  // ---- Cart operations ----

  function WithCart(s: Store, user: UserId): (s': Store)
    ensures ActiveCart(s'.carts, user).Some?
  {
    if ActiveCart(s.carts, user).Some? then s
    else
      var row := CartRow(s.nextId, user, true);
      assert (s.carts + [row])[|s.carts|] == row;
      s.(carts := s.carts + [row], nextId := s.nextId + 1)
  }

  function Noted(cart: CartId, r: NewItem): Entry
    requires Admissible(r)
  {
    Added(cart, r.product, r.variant, r.name, r.size, Stored(r.price), r.quantity)
  }

  /** The row that a first add inserts. */
  function NewRow(id: nat, cart: CartId, r: NewItem): CartItem
    requires Admissible(r)
  {
    CartItem(id, cart, r.product, r.variant, r.name, r.size, Stored(r.price), r.quantity)
  }

  /** Add to the row of the same variant, or insert a row. */
  function AddTo(s: Store, cart: CartId, r: NewItem): Store
    requires Admissible(r)
  {
    var noted := s.log + [Noted(cart, r)];
    var i := RowFor(s.items, cart, r.variant);
    if i.Some? then
      var row := s.items[i.value];
      s.(items := s.items[i.value := row.(quantity := row.quantity + r.quantity)], log := noted)
    else
      s.(items := s.items + [NewRow(s.nextId, cart, r)], nextId := s.nextId + 1, log := noted)
  }

  function Without(items: seq<CartItem>, i: nat): seq<CartItem>
    requires i < |items|
  {
    items[..i] + items[i + 1..]
  }

  function RemoveAt(s: Store, cart: CartId, i: nat): Store
    requires i < |s.items|
  {
    s.(items := Without(s.items, i), log := s.log + [Removed(cart, s.items[i].variant, s.items[i].quantity)])
  }

  // ---- Checkout ----

  datatype Variant = Variant(id: VariantId, size: string, price: Decimal, available: bool)
  datatype Product = Product(name: string, available: bool, variants: seq<Variant>)

  /** product-service's answer to one lookup. */
  datatype Response = Unreachable | Http(code: nat, product: Product)

  datatype Live = Live(name: string, size: string, price: Decimal, available: bool)
  datatype LookedUp = ServiceError | NoVariant | Found(live: Live)

  function FirstVariant(variants: seq<Variant>, id: VariantId): Option<Variant> {
    if variants == [] then None
    else if variants[0].id == id then Some(variants[0])
    else FirstVariant(variants[1..], id)
  }

  predicate IsFirst(variants: seq<Variant>, k: nat, id: VariantId)
    requires k < |variants|
  {
    variants[k].id == id && forall j :: 0 <= j < k ==> variants[j].id != id
  }

  lemma {:induction false} FirstVariantIs(variants: seq<Variant>, id: VariantId) returns (k: nat)
    ensures var v := FirstVariant(variants, id);
            if v.None? then forall j :: 0 <= j < |variants| ==> variants[j].id != id
            else k < |variants| && IsFirst(variants, k, id) && v.value == variants[k]
  {
    k := 0;
    if variants != [] && variants[0].id != id {
      var k' := FirstVariantIs(variants[1..], id);
      k := k' + 1;
      assert forall j :: 1 <= j < |variants| ==> variants[j] == variants[1..][j - 1];
    }
  }

  function GetVariant(response: Response, id: VariantId): LookedUp {
    match response
    case Unreachable => ServiceError
    case Http(code, product) =>
      if code == 404 then NoVariant
      else if code != 200 then ServiceError
      else if !product.available then NoVariant
      else
        match FirstVariant(product.variants, id)
        case None => NoVariant
        case Some(v) => Found(Live(product.name, v.size, v.price, v.available))
  }

  /** The product was answered and is available. */
  predicate Offered(response: Response) {
    response.Http? && response.code == 200 && response.product.available
  }

  /** `live` describes entry `k` of the answered product. */
  predicate Describes(live: Live, response: Response, k: nat)
    requires response.Http? && k < |response.product.variants|
  {
    var v := response.product.variants[k];
    live == Live(response.product.name, v.size, v.price, v.available)
  }

  /** A lookup finds the first listed variant of an available product; it reports "no such
      variant" for a 404, an unavailable product or an unlisted variant, and fails otherwise. */
  lemma GetVariantExact(response: Response, id: VariantId) returns (k: nat)
    ensures var r := GetVariant(response, id);
            && (r.ServiceError? <==> response.Unreachable? || response.code !in {200, 404})
            && (r.Found? <==> Offered(response) && exists v :: v in response.product.variants && v.id == id)
            && (r.Found? ==>
                  && k < |response.product.variants| && IsFirst(response.product.variants, k, id)
                  && Describes(r.live, response, k))
  {
    k := 0;
    if response.Http? {
      k := FirstVariantIs(response.product.variants, id);
    }
  }

  /** A cart row whose variant is on sale now. */
  datatype Checked = Checked(item: CartItem, live: Live)

  datatype Refusal = ProductServiceDown | NoLongerAvailable(item: CartItem) | OutOfStock(item: CartItem)

  datatype Verification = Verified(checked: seq<Checked>) | Refused(why: Refusal)

  function AnswerAt(answers: seq<Response>, i: nat): Response {
    if i < |answers| then answers[i] else Unreachable
  }

  /** Phase 1 on the first `n` rows: stop at the first row that cannot be sold. */
  function Verify(rows: seq<CartItem>, answers: seq<Response>, n: nat): (v: Verification)
    requires n <= |rows|
    ensures v.Verified? ==> |v.checked| == n
  {
    if n == 0 then Verified([])
    else
      match Verify(rows, answers, n - 1)
      case Refused(why) => Refused(why)
      case Verified(checked) =>
        match GetVariant(AnswerAt(answers, n - 1), rows[n - 1].variant)
        case ServiceError => Refused(ProductServiceDown)
        case NoVariant => Refused(NoLongerAvailable(rows[n - 1]))
        case Found(live) =>
          if live.available then Verified(checked + [Checked(rows[n - 1], live)]) else Refused(OutOfStock(rows[n - 1]))
  }

  /** Row `item` can be sold: its product answers 200, is available and lists the variant as available. */
  predicate Sellable(item: CartItem, response: Response) {
    var r := GetVariant(response, item.variant);
    r.Found? && r.live.available
  }

  predicate FirstAtFault(rows: seq<CartItem>, answers: seq<Response>, i: nat, why: Refusal)
    requires i < |rows|
  {
    && !Sellable(rows[i], AnswerAt(answers, i))
    && (forall k :: 0 <= k < i ==> Sellable(rows[k], AnswerAt(answers, k)))
    && (why.ProductServiceDown? || why.item == rows[i])
    && (why.ProductServiceDown? <==> GetVariant(AnswerAt(answers, i), rows[i].variant).ServiceError?)
    && (why.OutOfStock? <==> GetVariant(AnswerAt(answers, i), rows[i].variant).Found?)
  }

  /** Verification succeeds exactly when every row can be sold, and then pairs the rows one to
      one, in order, with their live data; otherwise it names the first row at fault. */
  lemma {:induction false} VerifyExact(rows: seq<CartItem>, answers: seq<Response>, n: nat)
    requires n <= |rows|
    ensures var v := Verify(rows, answers, n);
            && (v.Verified? <==> forall i :: 0 <= i < n ==> Sellable(rows[i], AnswerAt(answers, i)))
            && (v.Verified? ==> forall i :: 0 <= i < n ==>
                  v.checked[i].item == rows[i]
                  && GetVariant(AnswerAt(answers, i), rows[i].variant) == Found(v.checked[i].live))
            && (v.Refused? ==> exists i :: 0 <= i < n && FirstAtFault(rows, answers, i, v.why))
  {
    if n > 0 {
      VerifyExact(rows, answers, n - 1);
      var before, now := Verify(rows, answers, n - 1), Verify(rows, answers, n);
      if before.Refused? {
        var i :| 0 <= i < n - 1 && FirstAtFault(rows, answers, i, before.why);
        assert FirstAtFault(rows, answers, i, now.why);
      } else if now.Refused? {
        assert FirstAtFault(rows, answers, n - 1, now.why);
      }
    }
  }

  function LineOf(c: Checked, order: OrderId): OrderLine {
    OrderLine(order, c.item.product, c.item.variant, c.live.name, c.live.size, c.live.price, c.item.quantity,
              Times(c.live.price, c.item.quantity))
  }

  function LinesOf(checked: seq<Checked>, order: OrderId): seq<OrderLine> {
    seq(|checked|, i requires 0 <= i < |checked| => LineOf(checked[i], order))
  }

  /** The running total over the first `n` rows at live prices. */
  function Total(checked: seq<Checked>, n: nat): Decimal
    requires n <= |checked|
  {
    if n == 0 then ZERO else Plus(Total(checked, n - 1), Times(checked[n - 1].live.price, checked[n - 1].item.quantity))
  }

  function Closed(carts: seq<CartRow>, cart: CartId): seq<CartRow> {
    seq(|carts|, i requires 0 <= i < |carts| => if carts[i].id == cart then carts[i].(active := false) else carts[i])
  }

  /** Phases 2 and 3: one pending_payment order with its lines, and the cart closed, in one commit. */
  function Place(s: Store, user: UserId, cart: CartId, checked: seq<Checked>): Store {
    s.(orders := s.orders + [OrderRow(s.nextId, user, PendingPayment, Total(checked, |checked|))],
       lines := s.lines + LinesOf(checked, s.nextId),
       carts := Closed(s.carts, cart),
       nextId := s.nextId + 1,
       soldAs := s.soldAs[cart := s.nextId])
  }

  /** PATCH of one order's status; no other column changes. */
  function Restated(orders: seq<OrderRow>, o: OrderId, status: OrderStatus): seq<OrderRow> {
    seq(|orders|, i requires 0 <= i < |orders| => if orders[i].id == o then orders[i].(status := status) else orders[i])
  }

  // ---- The routes ----

  datatype CheckoutReply =
    | NoActiveCart
    | EmptyCart
    | Rejected(why: Refusal)
    | Placed(order: OrderId, changes: seq<PriceChange>)

  datatype CheckedOut = CheckedOut(store: Store, reply: CheckoutReply)

  /** DELETE /cart/items/{id}: unchanged when the user has no active cart or it has no such item. */
  function Remove(s: Store, user: UserId, id: nat): Store {
    match ActiveCart(s.carts, user)
    case None => s
    case Some(c) =>
      match RowById(s.items, c, id)
      case None => s
      case Some(i) => RemoveAt(s, c, i)
  }

  /** POST /cart/items: an inadmissible request changes nothing, not even creating a cart. */
  function Add(s: Store, user: UserId, r: NewItem): Store {
    if !Admissible(r) then s
    else AddTo(WithCart(s, user), ActiveCart(WithCart(s, user).carts, user).value, r)
  }

  /** The rows a query for the user's active cart may return: its rows, in any order. */
  predicate Returned(s: Store, user: UserId, rows: seq<CartItem>) {
    ActiveCart(s.carts, user).Some? ==> multiset(rows) == multiset(RowsOf(s.items, ActiveCart(s.carts, user).value))
  }

  /** POST /checkout. */
  function Checkout(s: Store, user: UserId, rows: seq<CartItem>, answers: seq<Response>): CheckedOut {
    match ActiveCart(s.carts, user)
    case None => CheckedOut(s, NoActiveCart)
    case Some(c) =>
      if rows == [] then CheckedOut(s, EmptyCart)
      else
        match Verify(rows, answers, |rows|)
        case Refused(why) => CheckedOut(s, Rejected(why))
        case Verified(checked) => CheckedOut(Place(s, user, c, checked), Placed(s.nextId, Changes(checked, |checked|)))
  }

  // ---- Price changes ----

  datatype PriceChange = PriceChange(name: string, size: string, before: Decimal, after: Decimal)

  predicate Changed(c: Checked) {
    !SameValue(c.live.price, c.item.price)
  }

  function ChangeOf(c: Checked): PriceChange {
    PriceChange(c.item.name, c.item.size, c.item.price, c.live.price)
  }

  function Changes(checked: seq<Checked>, n: nat): seq<PriceChange>
    requires n <= |checked|
  {
    if n == 0 then []
    else Changes(checked, n - 1) + if Changed(checked[n - 1]) then [ChangeOf(checked[n - 1])] else []
  }

  /** `changes` reports exactly the rows whose live price differs by value, in cart order. */
  ghost predicate ChangesAt(changes: seq<PriceChange>, checked: seq<Checked>, n: nat, at: seq<nat>)
    requires n <= |checked|
  {
    && |at| == |changes| && Increasing(at)
    && (forall k :: 0 <= k < |at| ==> at[k] < n && changes[k] == ChangeOf(checked[at[k]]))
  }

  ghost predicate ChangedAt(checked: seq<Checked>, n: nat, at: seq<nat>)
    requires n <= |checked|
  {
    forall i: nat :: i < n ==> (i in at <==> Changed(checked[i]))
  }

  lemma ChangesExtend(changes: seq<PriceChange>, checked: seq<Checked>, n: nat, at: seq<nat>)
    requires n < |checked| && ChangesAt(changes, checked, n, at)
    ensures ChangesAt(changes + [ChangeOf(checked[n])], checked, n + 1, at + [n])
  {
  }

  lemma ChangedExtend(checked: seq<Checked>, n: nat, at: seq<nat>)
    requires n < |checked| && ChangedAt(checked, n, at) && Changed(checked[n])
    ensures ChangedAt(checked, n + 1, at + [n])
  {
  }

  lemma ChangedSkip(checked: seq<Checked>, n: nat, at: seq<nat>)
    requires n < |checked| && ChangedAt(checked, n, at) && !Changed(checked[n])
    requires forall k :: 0 <= k < |at| ==> at[k] < n
    ensures ChangedAt(checked, n + 1, at)
  {
    assert n !in at;
  }

  lemma {:induction false} ChangesExact(checked: seq<Checked>, n: nat) returns (at: seq<nat>)
    requires n <= |checked|
    ensures ChangesAt(Changes(checked, n), checked, n, at) && ChangedAt(checked, n, at)
  {
    if n == 0 {
      at := [];
    } else {
      at := ChangesExact(checked, n - 1);
      if Changed(checked[n - 1]) {
        ChangesExtend(Changes(checked, n - 1), checked, n - 1, at);
        ChangedExtend(checked, n - 1, at);
        at := at + [n - 1];
      } else {
        ChangedSkip(checked, n - 1, at);
        assert Changes(checked, n) == Changes(checked, n - 1);
      }
    }
  }

  // ---- Money ----

  function SubtotalSum(lines: seq<OrderLine>, n: nat): Decimal
    requires n <= |lines|
  {
    if n == 0 then ZERO else Plus(SubtotalSum(lines, n - 1), lines[n - 1].subtotal)
  }

  lemma {:induction false} TotalIsSubtotals(checked: seq<Checked>, order: OrderId, n: nat)
    requires n <= |checked|
    ensures SubtotalSum(LinesOf(checked, order), n) == Total(checked, n)
  {
    if n > 0 {
      TotalIsSubtotals(checked, order, n - 1);
    }
  }

  predicate WithinPlaces(checked: seq<Checked>, n: nat, p: nat)
    requires n <= |checked|
  {
    forall i :: 0 <= i < n ==> checked[i].live.price.places <= p
  }

  /** Live price times quantity, summed, all counted in units of 10^-p. */
  function UnitsTotal(checked: seq<Checked>, n: nat, p: nat): int
    requires n <= |checked| && WithinPlaces(checked, n, p)
  {
    if n == 0 then 0
    else UnitsTotal(checked, n - 1, p) + Units(checked[n - 1].live.price, p) * checked[n - 1].item.quantity
  }

  /** The order total is the sum of live price times quantity, exactly, whatever the prices' scales. */
  lemma {:induction false} TotalExact(checked: seq<Checked>, n: nat, p: nat)
    requires n <= |checked| && WithinPlaces(checked, n, p)
    ensures Total(checked, n).places <= p && Units(Total(checked, n), p) == UnitsTotal(checked, n, p)
  {
    if n > 0 {
      TotalExact(checked, n - 1, p);
      var c := checked[n - 1];
      UnitsTimes(c.live.price, c.item.quantity, p);
      UnitsPlus(Total(checked, n - 1), Times(c.live.price, c.item.quantity), p);
    }
  }

  /** Every live price is a whole number of kobo, as two-place prices are. */
  predicate WholeKoboPrices(checked: seq<Checked>, n: nat)
    requires n <= |checked|
  {
    forall i :: 0 <= i < n ==> WholeKobo(checked[i].live.price)
  }

  /** The live prices in kobo times the quantities, summed. */
  function KoboTotal(checked: seq<Checked>, n: nat): int
    requires n <= |checked|
  {
    if n == 0 then 0 else KoboTotal(checked, n - 1) + Kobo(checked[n - 1].live.price) * checked[n - 1].item.quantity
  }

  lemma {:induction false} TotalInKobo(checked: seq<Checked>, n: nat)
    requires n <= |checked| && WholeKoboPrices(checked, n)
    ensures InKobo(Total(checked, n), KoboTotal(checked, n))
  {
    if n > 0 {
      TotalInKobo(checked, n - 1);
      var c := checked[n - 1];
      KoboIsExact(c.live.price);
      KoboTimes(c.live.price, Kobo(c.live.price), c.item.quantity);
      KoboPlus(Total(checked, n - 1), KoboTotal(checked, n - 1),
               Times(c.live.price, c.item.quantity), Kobo(c.live.price) * c.item.quantity);
    }
  }

  /** Money end to end: the text of the order total, read by payment-service and converted for
      the gateway, is exactly the sum of live kobo prices times quantities. */
  lemma ChargedExactly(checked: seq<Checked>)
    requires WholeKoboPrices(checked, |checked|)
    ensures var total := Total(checked, |checked|);
            Parse(Render(total)) == Some(total) && Kobo(Parse(Render(total)).value) == KoboTotal(checked, |checked|)
  {
    TotalInKobo(checked, |checked|);
    RoundTrip(Total(checked, |checked|));
    KoboOfExact(Total(checked, |checked|), KoboTotal(checked, |checked|));
  }
}
