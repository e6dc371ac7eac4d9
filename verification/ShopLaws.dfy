/** Laws of carts and checkout over every serial run: the cart is a map from variant to
    quantity, nothing added is lost, and checked-out carts are exactly the orders. */
module ShopLaws {
  import opened Domain
  import opened Money
  import opened Shop

  // ---- Quantities ----

  function Share(it: CartItem, within: set<CartId>, v: VariantId): nat {
    if it.cart in within && it.variant == v then it.quantity else 0
  }

  /** Units of variant `v` in the carts `within`. */
  function QtyIn(items: seq<CartItem>, within: set<CartId>, v: VariantId): nat {
    if items == [] then 0 else QtyIn(items[..|items| - 1], within, v) + Share(items[|items| - 1], within, v)
  }

  function Sold(lines: seq<OrderLine>, v: VariantId): nat {
    if lines == [] then 0
    else Sold(lines[..|lines| - 1], v) + if lines[|lines| - 1].variant == v then lines[|lines| - 1].quantity else 0
  }

  /** Units of variant `v` in one order. */
  function SoldIn(lines: seq<OrderLine>, o: OrderId, v: VariantId): nat {
    if lines == [] then 0
    else
      var l := lines[|lines| - 1];
      SoldIn(lines[..|lines| - 1], o, v) + if l.order == o && l.variant == v then l.quantity else 0
  }

  function TotalAdded(log: seq<Entry>, v: VariantId): nat {
    if log == [] then 0
    else
      var e := log[|log| - 1];
      TotalAdded(log[..|log| - 1], v) + if e.Added? && e.variant == v then e.quantity else 0
  }

  function TotalRemoved(log: seq<Entry>, v: VariantId): nat {
    if log == [] then 0
    else
      var e := log[|log| - 1];
      TotalRemoved(log[..|log| - 1], v) + if e.Removed? && e.variant == v then e.quantity else 0
  }

  /** The adds of `v` to cart `c` since its last removal, oldest first. */
  function Held(log: seq<Entry>, c: CartId, v: VariantId): (adds: seq<Entry>)
    ensures forall i :: 0 <= i < |adds| ==> adds[i].Added?
  {
    if log == [] then []
    else
      var e := log[|log| - 1];
      var before := Held(log[..|log| - 1], c, v);
      if e.cart != c || e.variant != v then before else if e.Added? then before + [e] else []
  }

  function SumOf(adds: seq<Entry>): nat {
    if adds == [] then 0 else SumOf(adds[..|adds| - 1]) + adds[|adds| - 1].quantity
  }

  lemma {:induction false} QtyConcat(a: seq<CartItem>, b: seq<CartItem>, within: set<CartId>, v: VariantId)
    ensures QtyIn(a + b, within, v) == QtyIn(a, within, v) + QtyIn(b, within, v)
    decreases |b|
  {
    if b == [] {
      assert a + b == a;
    } else {
      var n := |b| - 1;
      assert (a + b)[..|a + b| - 1] == a + b[..n];
      QtyConcat(a, b[..n], within, v);
    }
  }

  lemma QtyOne(it: CartItem, within: set<CartId>, v: VariantId)
    ensures QtyIn([it], within, v) == Share(it, within, v)
  {
    assert [it][..0] == [];
  }

  /** Taking out the row at `i` takes out its share. */
  lemma QtyWithout(items: seq<CartItem>, i: nat, within: set<CartId>, v: VariantId)
    requires i < |items|
    ensures QtyIn(items, within, v) == QtyIn(Without(items, i), within, v) + Share(items[i], within, v)
  {
    assert items == items[..i] + [items[i]] + items[i + 1..];
    QtyConcat(items[..i] + [items[i]], items[i + 1..], within, v);
    QtyConcat(items[..i], [items[i]], within, v);
    QtyConcat(items[..i], items[i + 1..], within, v);
    QtyOne(items[i], within, v);
  }

  lemma QtyUpdate(items: seq<CartItem>, i: nat, it: CartItem, within: set<CartId>, v: VariantId)
    requires i < |items|
    ensures QtyIn(items[i := it], within, v) + Share(items[i], within, v)
            == QtyIn(items, within, v) + Share(it, within, v)
  {
    QtyWithout(items, i, within, v);
    QtyWithout(items[i := it], i, within, v);
    assert Without(items[i := it], i) == Without(items, i);
  }

  lemma {:induction false} QtySplit(items: seq<CartItem>, within: set<CartId>, c: CartId, v: VariantId)
    requires c in within
    ensures QtyIn(items, within, v) == QtyIn(items, within - {c}, v) + QtyIn(items, {c}, v)
  {
    if items != [] {
      QtySplit(items[..|items| - 1], within, c, v);
    }
  }

  /** The order in which a query returns rows does not matter to their quantities. */
  lemma {:induction false} QtyPermuted(a: seq<CartItem>, b: seq<CartItem>, within: set<CartId>, v: VariantId)
    requires multiset(a) == multiset(b)
    ensures QtyIn(a, within, v) == QtyIn(b, within, v)
    decreases |a|
  {
    if a == [] {
      assert |multiset(b)| == 0;
    } else {
      var last := a[|a| - 1];
      assert a == a[..|a| - 1] + [last];
      assert last in multiset(b);
      var i :| 0 <= i < |b| && b[i] == last;
      assert b == b[..i] + [b[i]] + b[i + 1..];
      assert multiset(Without(b, i)) == multiset(b) - multiset{last};
      assert multiset(a[..|a| - 1]) == multiset(a) - multiset{last};
      QtyPermuted(a[..|a| - 1], Without(b, i), within, v);
      QtyWithout(b, i, within, v);
    }
  }

  lemma {:induction false} RowsOfQty(items: seq<CartItem>, c: CartId, v: VariantId)
    ensures QtyIn(RowsOf(items, c), {c}, v) == QtyIn(items, {c}, v)
  {
    if items != [] {
      var n := |items| - 1;
      RowsOfQty(items[..n], c, v);
      if items[n].cart == c {
        QtyConcat(RowsOf(items[..n], c), [items[n]], {c}, v);
        QtyOne(items[n], {c}, v);
      } else {
        assert RowsOf(items, c) == RowsOf(items[..n], c);
      }
    }
  }

  lemma {:induction false} RowsOfMembers(items: seq<CartItem>, c: CartId, it: CartItem)
    ensures it in RowsOf(items, c) <==> it in items && it.cart == c
  {
    if items != [] {
      var n := |items| - 1;
      RowsOfMembers(items[..n], c, it);
      assert items == items[..n] + [items[n]];
    }
  }

  lemma {:induction false} SoldConcat(a: seq<OrderLine>, b: seq<OrderLine>, o: OrderId, v: VariantId)
    ensures Sold(a + b, v) == Sold(a, v) + Sold(b, v)
    ensures SoldIn(a + b, o, v) == SoldIn(a, o, v) + SoldIn(b, o, v)
    decreases |b|
  {
    if b == [] {
      assert a + b == a;
    } else {
      var n := |b| - 1;
      assert (a + b)[..|a + b| - 1] == a + b[..n];
      SoldConcat(a, b[..n], o, v);
    }
  }

  function ItemsOf(checked: seq<Checked>): seq<CartItem> {
    seq(|checked|, i requires 0 <= i < |checked| => checked[i].item)
  }

  /** The lines of a new order carry the quantities of the rows, and belong to no other order. */
  lemma {:induction false} LinesQty(checked: seq<Checked>, c: CartId, o: OrderId, o': OrderId, v: VariantId)
    requires forall i :: 0 <= i < |checked| ==> checked[i].item.cart == c
    ensures Sold(LinesOf(checked, o), v) == QtyIn(ItemsOf(checked), {c}, v)
    ensures SoldIn(LinesOf(checked, o), o', v) == if o == o' then QtyIn(ItemsOf(checked), {c}, v) else 0
  {
    if checked != [] {
      var n := |checked| - 1;
      LinesQty(checked[..n], c, o, o', v);
      assert LinesOf(checked, o)[..n] == LinesOf(checked[..n], o);
      assert ItemsOf(checked)[..n] == ItemsOf(checked[..n]);
    }
  }

  lemma {:induction false} NoLinesNoSales(lines: seq<OrderLine>, o: OrderId, v: VariantId)
    requires forall l :: l in lines ==> l.order != o
    ensures SoldIn(lines, o, v) == 0
  {
    if lines != [] {
      NoLinesNoSales(lines[..|lines| - 1], o, v);
    }
  }

  // ---- The invariant ----

  ghost predicate CartsOk(s: Store) {
    && (forall i, j :: 0 <= i < j < |s.carts| ==> s.carts[i].id != s.carts[j].id)
    && (forall i, j :: 0 <= i < j < |s.carts| && s.carts[i].active && s.carts[j].active ==>
          s.carts[i].user != s.carts[j].user)
    && (forall i :: 0 <= i < |s.carts| ==> s.carts[i].id < s.nextId)
  }

  ghost predicate OneRowEach(items: seq<CartItem>) {
    forall i, j :: 0 <= i < j < |items| ==> !Holds(items[j], items[i].cart, items[i].variant)
  }

  /** At most one row per cart and variant, and every row belongs to a cart. */
  ghost predicate ItemsOk(s: Store) {
    && OneRowEach(s.items)
    && (forall i, j :: 0 <= i < j < |s.items| ==> s.items[i].id != s.items[j].id)
    && (forall i :: 0 <= i < |s.items| ==> s.items[i].id < s.nextId && s.items[i].cart in AllCarts(s))
  }

  function AllCarts(s: Store): set<CartId> {
    set i | 0 <= i < |s.carts| :: s.carts[i].id
  }

  /** The table shows for variant `v` of cart `c` what the adds since its last removal amount to:
      no row if there are none, else their total quantity with the name, size and price of the first. */
  ghost predicate Shows(items: seq<CartItem>, c: CartId, v: VariantId, adds: seq<Entry>)
    requires forall i :: 0 <= i < |adds| ==> adds[i].Added?
  {
    if adds == [] then forall i :: 0 <= i < |items| ==> !Holds(items[i], c, v)
    else exists i :: 0 <= i < |items| && Holds(items[i], c, v) && Sums(items[i], adds)
  }

  /** Row `it` is what the non-empty list `adds` amounts to. */
  predicate Sums(it: CartItem, adds: seq<Entry>)
    requires adds != [] && adds[0].Added?
  {
    && it.quantity == SumOf(adds)
    && it.product == adds[0].product && it.name == adds[0].name && it.size == adds[0].size && it.price == adds[0].price
  }

  ghost predicate LedgerOk(s: Store) {
    && (forall c, v :: Shows(s.items, c, v, Held(s.log, c, v)))
    && (forall e :: e in s.log ==> e.cart in AllCarts(s))
  }

  /** Every unit of `v` ever added is in an active cart, was removed, or was sold. */
  predicate Balanced(s: Store, v: VariantId) {
    TotalAdded(s.log, v)
    == QtyIn(s.items, CartIds(s.carts, true), v) + TotalRemoved(s.log, v) + Sold(s.lines, v)
  }

  ghost predicate Conserved(s: Store) {
    forall v :: Balanced(s, v)
  }

  predicate IsOrder(s: Store, o: OrderId) {
    exists i :: 0 <= i < |s.orders| && s.orders[i].id == o
  }

  /** Orders have distinct identifiers and every line belongs to one. */
  ghost predicate OrdersOk(s: Store) {
    && (forall i, j :: 0 <= i < j < |s.orders| ==> s.orders[i].id != s.orders[j].id)
    && (forall i :: 0 <= i < |s.orders| ==> s.orders[i].id < s.nextId)
    && (forall l :: l in s.lines ==> IsOrder(s, l.order))
  }

  ghost predicate OneToOne(f: map<CartId, OrderId>) {
    forall c, c' :: c in f && c' in f && f[c] == f[c'] ==> c == c'
  }

  /** Checked-out carts and orders are in bijection. */
  ghost predicate PairedOk(s: Store) {
    && s.soldAs.Keys == CartIds(s.carts, false)
    && OneToOne(s.soldAs)
    && (forall o :: IsOrder(s, o) <==> o in s.soldAs.Values)
  }

  /** A checked-out cart and its order have the same quantities. */
  ghost predicate SalesOk(s: Store) {
    && OrdersOk(s) && PairedOk(s)
    && (forall c, v :: c in s.soldAs ==> QtyIn(s.items, {c}, v) == SoldIn(s.lines, s.soldAs[c], v))
  }

  ghost predicate Ok(s: Store) {
    CartsOk(s) && ItemsOk(s) && LedgerOk(s) && Conserved(s) && SalesOk(s)
  }

  // ---- Creating a cart ----

  lemma {:induction false} NoRowsNoQty(items: seq<CartItem>, c: CartId, v: VariantId)
    requires forall i :: 0 <= i < |items| ==> items[i].cart != c
    ensures QtyIn(items, {c}, v) == 0
  {
    if items != [] {
      NoRowsNoQty(items[..|items| - 1], c, v);
    }
  }

  /** A new active cart joins the carts; the others keep their place. */
  lemma WithCartIds(s: Store, user: UserId)
    requires ActiveCart(s.carts, user).None?
    ensures var s' := WithCart(s, user);
            && AllCarts(s') == AllCarts(s) + {s.nextId}
            && CartIds(s'.carts, true) == CartIds(s.carts, true) + {s.nextId}
            && CartIds(s'.carts, false) == CartIds(s.carts, false)
  {
    var s' := WithCart(s, user);
    var n := |s.carts|;
    assert forall i :: 0 <= i < n ==> s'.carts[i] == s.carts[i];
    assert s'.carts[n] == CartRow(s.nextId, user, true);
    assert AllCarts(s') == AllCarts(s) + {s.nextId};
  }

  lemma WithCartUnique(s: Store, user: UserId)
    requires CartsOk(s)
    ensures CartsOk(WithCart(s, user))
  {
    if ActiveCart(s.carts, user).None? {
      var carts := WithCart(s, user).carts;
      assert forall i :: 0 <= i < |s.carts| ==> carts[i] == s.carts[i] && !(carts[i].user == user && carts[i].active);
      assert carts[|s.carts|] == CartRow(s.nextId, user, true);
    }
  }

  lemma WithCartRows(s: Store, user: UserId)
    requires CartsOk(s) && ItemsOk(s)
    ensures CartsOk(WithCart(s, user)) && ItemsOk(WithCart(s, user))
  {
    WithCartUnique(s, user);
    if ActiveCart(s.carts, user).None? {
      WithCartIds(s, user);
    }
  }

  lemma WithCartConserves(s: Store, user: UserId)
    requires CartsOk(s) && ItemsOk(s) && Conserved(s) && ActiveCart(s.carts, user).None?
    ensures Conserved(WithCart(s, user))
  {
    var s' := WithCart(s, user);
    WithCartIds(s, user);
    var c := s.nextId;
    forall v ensures Balanced(s', v) {
      assert Balanced(s, v);
      QtySplit(s.items, CartIds(s'.carts, true), c, v);
      NoRowsNoQty(s.items, c, v);
      assert CartIds(s'.carts, true) - {c} == CartIds(s.carts, true);
    }
  }

  lemma WithCartOk(s: Store, user: UserId)
    requires Ok(s)
    ensures Ok(WithCart(s, user))
  {
    WithCartRows(s, user);
    if ActiveCart(s.carts, user).None? {
      WithCartIds(s, user);
      WithCartConserves(s, user);
      SalesKept(s, WithCart(s, user));
    }
  }

  /** Sales stay in order when neither orders nor the contents of sold carts change. */
  lemma SalesKept(s: Store, s': Store)
    requires SalesOk(s) && s'.soldAs == s.soldAs
    requires s'.orders == s.orders && s'.lines == s.lines && s'.nextId >= s.nextId
    requires CartIds(s'.carts, false) == CartIds(s.carts, false)
    requires forall c, v :: c in s.soldAs ==> QtyIn(s'.items, {c}, v) == QtyIn(s.items, {c}, v)
    ensures SalesOk(s')
  {
    assert forall o :: IsOrder(s', o) <==> IsOrder(s, o);
  }

  // ---- Adding ----

  ghost predicate Active(s: Store, c: CartId) {
    exists k :: 0 <= k < |s.carts| && s.carts[k].id == c && s.carts[k].active
  }

  lemma ActiveNotSold(s: Store, c: CartId)
    requires CartsOk(s) && SalesOk(s) && Active(s, c)
    ensures c in CartIds(s.carts, true) && c !in s.soldAs && c in AllCarts(s)
  {
  }

  lemma HeldSnoc(log: seq<Entry>, e: Entry, c: CartId, v: VariantId)
    ensures var before := Held(log, c, v);
            Held(log + [e], c, v) ==
            if e.cart != c || e.variant != v then before else if e.Added? then before + [e] else []
    ensures TotalAdded(log + [e], v) == TotalAdded(log, v) + if e.Added? && e.variant == v then e.quantity else 0
    ensures TotalRemoved(log + [e], v) == TotalRemoved(log, v) + if e.Removed? && e.variant == v then e.quantity else 0
  {
    assert (log + [e])[..|log|] == log;
  }

  lemma SumSnoc(adds: seq<Entry>, a: Entry)
    ensures SumOf(adds + [a]) == SumOf(adds) + a.quantity
  {
    assert (adds + [a])[..|adds|] == adds;
  }

  lemma MergeItemsOk(s: Store, c: CartId, r: NewItem)
    requires ItemsOk(s) && Admissible(r) && RowFor(s.items, c, r.variant).Some?
    ensures ItemsOk(AddTo(s, c, r))
  {
    var s' := AddTo(s, c, r);
    assert forall i :: 0 <= i < |s.items| ==>
      && s'.items[i].cart == s.items[i].cart && s'.items[i].variant == s.items[i].variant
      && s'.items[i].id == s.items[i].id;
    assert AllCarts(s') == AllCarts(s);
  }

  lemma InsertItemsOk(s: Store, c: CartId, r: NewItem)
    requires ItemsOk(s) && Admissible(r) && RowFor(s.items, c, r.variant).None? && c in AllCarts(s)
    ensures ItemsOk(AddTo(s, c, r))
  {
    var s' := AddTo(s, c, r);
    assert forall i :: 0 <= i < |s.items| ==> s'.items[i] == s.items[i];
    assert AllCarts(s') == AllCarts(s);
  }

  lemma AddItemsOk(s: Store, c: CartId, r: NewItem)
    requires Ok(s) && Active(s, c) && Admissible(r)
    ensures CartsOk(AddTo(s, c, r)) && ItemsOk(AddTo(s, c, r))
  {
    ActiveNotSold(s, c);
    if RowFor(s.items, c, r.variant).Some? {
      MergeItemsOk(s, c, r);
    } else {
      InsertItemsOk(s, c, r);
    }
  }

  lemma MergeShows(items: seq<CartItem>, i: nat, e: Entry, c: CartId, v: VariantId, adds: seq<Entry>)
    requires i < |items| && e.Added? && (forall k :: 0 <= k < |adds| ==> adds[k].Added?) && Shows(items, c, v, adds)
    requires OneRowEach(items)
    ensures Shows(items[i := items[i].(quantity := items[i].quantity + e.quantity)], c, v,
                  if Holds(items[i], c, v) then adds + [e] else adds)
  {
    var after := items[i := items[i].(quantity := items[i].quantity + e.quantity)];
    SumSnoc(adds, e);
    if adds != [] {
      var k :| 0 <= k < |items| && Holds(items[k], c, v) && Sums(items[k], adds);
      assert Holds(items[i], c, v) ==> k == i;
      assert Holds(after[k], c, v) && Sums(after[k], if Holds(items[i], c, v) then adds + [e] else adds);
    }
  }

  lemma InsertShows(items: seq<CartItem>, it: CartItem, e: Entry, c: CartId, v: VariantId, adds: seq<Entry>)
    requires (forall k :: 0 <= k < |adds| ==> adds[k].Added?) && Shows(items, c, v, adds)
    requires e == Added(it.cart, it.product, it.variant, it.name, it.size, it.price, it.quantity)
    requires Holds(it, c, v) ==> adds == []
    ensures Shows(items + [it], c, v, if Holds(it, c, v) then adds + [e] else adds)
  {
    var after := items + [it];
    assert after[|items|] == it;
    if Holds(it, c, v) {
      SumSnoc(adds, e);
      assert Sums(it, adds + [e]);
    } else if adds != [] {
      var k :| 0 <= k < |items| && Holds(items[k], c, v) && Sums(items[k], adds);
      assert after[k] == items[k];
    }
  }

  lemma AddShows(s: Store, c: CartId, r: NewItem, c': CartId, v: VariantId)
    requires OneRowEach(s.items) && Shows(s.items, c', v, Held(s.log, c', v)) && Admissible(r)
    ensures Shows(AddTo(s, c, r).items, c', v, Held(AddTo(s, c, r).log, c', v))
  {
    var adds := Held(s.log, c', v);
    HeldSnoc(s.log, Noted(c, r), c', v);
    var i := RowFor(s.items, c, r.variant);
    if i.Some? {
      MergeShows(s.items, i.value, Noted(c, r), c', v, adds);
    } else {
      var it := NewRow(s.nextId, c, r);
      InsertShows(s.items, it, Noted(c, r), c', v, adds);
    }
  }

  lemma AddQty(s: Store, c: CartId, r: NewItem, within: set<CartId>, v: VariantId)
    requires Admissible(r)
    ensures QtyIn(AddTo(s, c, r).items, within, v)
            == QtyIn(s.items, within, v) + if c in within && v == r.variant then r.quantity else 0
  {
    var i := RowFor(s.items, c, r.variant);
    if i.Some? {
      QtyUpdate(s.items, i.value, s.items[i.value].(quantity := s.items[i.value].quantity + r.quantity), within, v);
    } else {
      var it := NewRow(s.nextId, c, r);
      QtyConcat(s.items, [it], within, v);
      QtyOne(it, within, v);
    }
  }

  lemma AddOk(s: Store, c: CartId, r: NewItem)
    requires Ok(s) && Active(s, c) && Admissible(r)
    ensures Ok(AddTo(s, c, r))
  {
    var s' := AddTo(s, c, r);
    ActiveNotSold(s, c);
    AddItemsOk(s, c, r);
    assert AllCarts(s') == AllCarts(s);
    forall c', v ensures Shows(s'.items, c', v, Held(s'.log, c', v)) {
      assert Shows(s.items, c', v, Held(s.log, c', v));
      AddShows(s, c, r, c', v);
    }
    forall v ensures Balanced(s', v) {
      assert Balanced(s, v);
      HeldSnoc(s.log, Noted(c, r), c, v);
      AddQty(s, c, r, CartIds(s.carts, true), v);
    }
    forall c', v | c' in s.soldAs ensures QtyIn(s'.items, {c'}, v) == QtyIn(s.items, {c'}, v) {
      AddQty(s, c, r, {c'}, v);
    }
    SalesKept(s, s');
  }

  // ---- Removing ----

  lemma RemoveItemsOk(s: Store, c: CartId, i: nat)
    requires Ok(s) && i < |s.items|
    ensures CartsOk(RemoveAt(s, c, i)) && ItemsOk(RemoveAt(s, c, i))
  {
    var s' := RemoveAt(s, c, i);
    assert forall k :: 0 <= k < |s'.items| ==> s'.items[k] == s.items[if k < i then k else k + 1];
    assert AllCarts(s') == AllCarts(s);
  }

  lemma WithoutShows(items: seq<CartItem>, i: nat, c: CartId, v: VariantId, adds: seq<Entry>)
    requires i < |items| && (forall k :: 0 <= k < |adds| ==> adds[k].Added?) && Shows(items, c, v, adds)
    requires OneRowEach(items)
    ensures Shows(Without(items, i), c, v, if Holds(items[i], c, v) then [] else adds)
  {
    var after := Without(items, i);
    assert forall k :: 0 <= k < |after| ==> after[k] == items[if k < i then k else k + 1];
    if adds != [] && !Holds(items[i], c, v) {
      var k :| 0 <= k < |items| && Holds(items[k], c, v) && Sums(items[k], adds);
      assert after[if k < i then k else k - 1] == items[k];
    }
  }

  lemma RemoveShows(s: Store, c: CartId, i: nat, c': CartId, v: VariantId)
    requires ItemsOk(s) && LedgerOk(s) && i < |s.items| && s.items[i].cart == c
    ensures Shows(RemoveAt(s, c, i).items, c', v, Held(RemoveAt(s, c, i).log, c', v))
  {
    var adds := Held(s.log, c', v);
    HeldSnoc(s.log, Removed(c, s.items[i].variant, s.items[i].quantity), c', v);
    assert Shows(s.items, c', v, adds);
    WithoutShows(s.items, i, c', v, adds);
  }

  lemma RemoveOk(s: Store, c: CartId, i: nat)
    requires Ok(s) && i < |s.items| && s.items[i].cart == c && Active(s, c)
    ensures Ok(RemoveAt(s, c, i))
  {
    var s' := RemoveAt(s, c, i);
    ActiveNotSold(s, c);
    RemoveItemsOk(s, c, i);
    assert AllCarts(s') == AllCarts(s);
    forall c', v ensures Shows(s'.items, c', v, Held(s'.log, c', v)) {
      RemoveShows(s, c, i, c', v);
    }
    forall v ensures Balanced(s', v) {
      assert Balanced(s, v);
      HeldSnoc(s.log, Removed(c, s.items[i].variant, s.items[i].quantity), c, v);
      QtyWithout(s.items, i, CartIds(s.carts, true), v);
    }
    forall c', v | c' in s.soldAs ensures QtyIn(s'.items, {c'}, v) == QtyIn(s.items, {c'}, v) {
      QtyWithout(s.items, i, {c'}, v);
    }
    SalesKept(s, s');
  }

  // ---- Checking out ----

  ghost predicate ChecksCart(s: Store, c: CartId, checked: seq<Checked>) {
    multiset(ItemsOf(checked)) == multiset(RowsOf(s.items, c))
  }

  lemma CheckedQty(s: Store, c: CartId, checked: seq<Checked>, o: OrderId, v: VariantId)
    requires ChecksCart(s, c, checked)
    ensures Sold(LinesOf(checked, s.nextId), v) == QtyIn(s.items, {c}, v)
    ensures SoldIn(LinesOf(checked, s.nextId), o, v) == if o == s.nextId then QtyIn(s.items, {c}, v) else 0
  {
    forall i | 0 <= i < |checked| ensures checked[i].item.cart == c {
      assert ItemsOf(checked)[i] in multiset(ItemsOf(checked));
      assert checked[i].item in multiset(RowsOf(s.items, c));
      RowsOfMembers(s.items, c, checked[i].item);
    }
    LinesQty(checked, c, s.nextId, o, v);
    QtyPermuted(ItemsOf(checked), RowsOf(s.items, c), {c}, v);
    RowsOfQty(s.items, c, v);
  }

  lemma ClosedIds(s: Store, c: CartId)
    requires CartsOk(s) && Active(s, c)
    ensures CartIds(Closed(s.carts, c), true) == CartIds(s.carts, true) - {c}
    ensures CartIds(Closed(s.carts, c), false) == CartIds(s.carts, false) + {c}
    ensures (set i | 0 <= i < |s.carts| :: Closed(s.carts, c)[i].id) == AllCarts(s)
  {
    var carts := Closed(s.carts, c);
    assert forall i :: 0 <= i < |carts| ==> carts[i].id == s.carts[i].id;
    assert forall i :: 0 <= i < |carts| && carts[i].active ==> s.carts[i].active && carts[i].id != c;
    assert forall i :: 0 <= i < |carts| && s.carts[i].active && s.carts[i].id != c ==> carts[i].active;
    assert forall i :: 0 <= i < |carts| && !s.carts[i].active ==> !carts[i].active;
    assert forall i :: 0 <= i < |carts| && s.carts[i].id == c ==> !carts[i].active;
  }

  /** The new order is one more, known by a new identifier. */
  lemma PlaceOrders(s: Store, user: UserId, c: CartId, checked: seq<Checked>)
    requires SalesOk(s)
    ensures var s' := Place(s, user, c, checked);
            && !IsOrder(s, s.nextId)
            && (forall x :: IsOrder(s', x) <==> IsOrder(s, x) || x == s.nextId)
            && OrdersOk(s')
  {
    var s' := Place(s, user, c, checked);
    var n := |s.orders|;
    assert s'.orders[n].id == s.nextId && forall i :: 0 <= i < n ==> s'.orders[i] == s.orders[i];
    forall x ensures IsOrder(s', x) <==> IsOrder(s, x) || x == s.nextId {
      if IsOrder(s, x) {
        var i :| 0 <= i < n && s.orders[i].id == x;
        assert s'.orders[i].id == x;
      }
    }
    forall l | l in s'.lines ensures IsOrder(s', l.order) {
      assert l in s.lines || l in LinesOf(checked, s.nextId);
    }
  }

  lemma PlaceValues(soldAs: map<CartId, OrderId>, c: CartId, o: OrderId)
    requires c !in soldAs
    ensures forall x :: x in soldAs[c := o].Values <==> x in soldAs.Values || x == o
  {
    var now := soldAs[c := o];
    assert now[c] == o;
    forall x | x in soldAs.Values ensures x in now.Values {
      var d :| d in soldAs && soldAs[d] == x;
      assert now[d] == x;
    }
  }

  lemma PlaceQty(s: Store, user: UserId, c: CartId, checked: seq<Checked>, d: CartId, v: VariantId)
    requires SalesOk(s) && c !in s.soldAs && ChecksCart(s, c, checked) && !IsOrder(s, s.nextId)
    requires d in Place(s, user, c, checked).soldAs
    ensures var s' := Place(s, user, c, checked);
            QtyIn(s'.items, {d}, v) == SoldIn(s'.lines, s'.soldAs[d], v)
  {
    var s' := Place(s, user, c, checked);
    SoldConcat(s.lines, LinesOf(checked, s.nextId), s'.soldAs[d], v);
    CheckedQty(s, c, checked, s'.soldAs[d], v);
    if d == c {
      NoLinesNoSales(s.lines, s.nextId, v);
    } else {
      assert s.soldAs[d] in s.soldAs.Values;
    }
  }

  lemma OneToOneExtends(f: map<CartId, OrderId>, c: CartId, o: OrderId)
    requires OneToOne(f) && o !in f.Values
    ensures OneToOne(f[c := o])
  {
    assert forall d :: d in f ==> f[d] in f.Values;
  }

  lemma PlacePairs(s: Store, user: UserId, c: CartId, checked: seq<Checked>)
    requires CartsOk(s) && SalesOk(s) && Active(s, c)
    ensures PairedOk(Place(s, user, c, checked)) && c !in s.soldAs
  {
    assert s.soldAs[c := s.nextId].Keys == CartIds(Closed(s.carts, c), false) && c !in s.soldAs by {
      ClosedIds(s, c);
      ActiveNotSold(s, c);
    }
    PlaceOrders(s, user, c, checked);
    OneToOneExtends(s.soldAs, c, s.nextId);
    PlaceValues(s.soldAs, c, s.nextId);
  }

  lemma PlaceSales(s: Store, user: UserId, c: CartId, checked: seq<Checked>)
    requires Ok(s) && Active(s, c) && ChecksCart(s, c, checked)
    ensures SalesOk(Place(s, user, c, checked))
  {
    var s' := Place(s, user, c, checked);
    PlacePairs(s, user, c, checked);
    PlaceOrders(s, user, c, checked);
    forall d, v | d in s'.soldAs ensures QtyIn(s'.items, {d}, v) == SoldIn(s'.lines, s'.soldAs[d], v) {
      PlaceQty(s, user, c, checked, d, v);
    }
  }

  lemma PlaceTables(s: Store, user: UserId, c: CartId, checked: seq<Checked>)
    requires CartsOk(s) && ItemsOk(s) && LedgerOk(s) && Active(s, c)
    ensures var s' := Place(s, user, c, checked); CartsOk(s') && ItemsOk(s') && LedgerOk(s')
  {
    var s' := Place(s, user, c, checked);
    ClosedIds(s, c);
    assert AllCarts(s') == AllCarts(s);
    assert forall i :: 0 <= i < |s'.carts| ==> s'.carts[i].id == s.carts[i].id && s'.carts[i].user == s.carts[i].user;
  }

  lemma PlaceOk(s: Store, user: UserId, c: CartId, checked: seq<Checked>)
    requires Ok(s) && Active(s, c) && ChecksCart(s, c, checked)
    ensures Ok(Place(s, user, c, checked))
  {
    var s' := Place(s, user, c, checked);
    PlaceTables(s, user, c, checked);
    PlaceSales(s, user, c, checked);
    ClosedIds(s, c);
    ActiveNotSold(s, c);
    forall v ensures Balanced(s', v) {
      assert Balanced(s, v);
      QtySplit(s.items, CartIds(s.carts, true), c, v);
      SoldConcat(s.lines, LinesOf(checked, s.nextId), s.nextId, v);
      CheckedQty(s, c, checked, s.nextId, v);
    }
  }

  lemma VerifiedItems(rows: seq<CartItem>, answers: seq<Response>)
    requires Verify(rows, answers, |rows|).Verified?
    ensures ItemsOf(Verify(rows, answers, |rows|).checked) == rows
  {
    VerifyExact(rows, answers, |rows|);
  }

  // ---- Runs ----

  datatype Op =
    | GetCart(user: UserId)
    | AddItem(user: UserId, request: NewItem)
    | RemoveItem(user: UserId, id: nat)
    | CheckOut(user: UserId, rows: seq<CartItem>, answers: seq<Response>)
    | SetStatus(order: OrderId, status: OrderStatus)

  /** The rows a checkout sees are those of the active cart, in any order. */
  predicate Possible(s: Store, op: Op) {
    op.CheckOut? ==> Returned(s, op.user, op.rows)
  }

  function Do(s: Store, op: Op): Store {
    match op
    case GetCart(user) => WithCart(s, user)
    case AddItem(user, r) => Add(s, user, r)
    case RemoveItem(user, id) => Remove(s, user, id)
    case CheckOut(user, rows, answers) => Checkout(s, user, rows, answers).store
    case SetStatus(order, status) => s.(orders := Restated(s.orders, order, status))
  }

  function DoAll(s: Store, ops: seq<Op>): Option<Store>
    decreases |ops|
  {
    if ops == [] then Some(s)
    else if Possible(s, ops[0]) then DoAll(Do(s, ops[0]), ops[1..])
    else None
  }

  lemma AddItemOk(s: Store, user: UserId, r: NewItem)
    requires Ok(s)
    ensures Ok(Add(s, user, r))
  {
    if Admissible(r) {
      WithCartOk(s, user);
      AddOk(WithCart(s, user), ActiveCart(WithCart(s, user).carts, user).value, r);
    }
  }

  lemma CheckoutOk(s: Store, user: UserId, rows: seq<CartItem>, answers: seq<Response>)
    requires Ok(s) && Returned(s, user, rows)
    ensures Ok(Checkout(s, user, rows, answers).store)
  {
    var c := ActiveCart(s.carts, user);
    if c.Some? && rows != [] && Verify(rows, answers, |rows|).Verified? {
      VerifiedItems(rows, answers);
      PlaceOk(s, user, c.value, Verify(rows, answers, |rows|).checked);
    }
  }

  lemma RestatedOk(s: Store, o: OrderId, status: OrderStatus)
    requires Ok(s)
    ensures Ok(s.(orders := Restated(s.orders, o, status)))
  {
    var s' := s.(orders := Restated(s.orders, o, status));
    assert forall i :: 0 <= i < |s.orders| ==> s'.orders[i].id == s.orders[i].id;
    assert forall x :: IsOrder(s', x) <==> IsOrder(s, x);
    assert forall v :: Balanced(s', v) <==> Balanced(s, v);
    assert AllCarts(s') == AllCarts(s);
  }

  lemma DoOk(s: Store, op: Op)
    requires Ok(s) && Possible(s, op)
    ensures Ok(Do(s, op))
  {
    match op
    case GetCart(user) => WithCartOk(s, user);
    case AddItem(user, r) => AddItemOk(s, user, r);
    case RemoveItem(user, id) =>
      var c := ActiveCart(s.carts, user);
      if c.Some? && RowById(s.items, c.value, id).Some? {
        RemoveOk(s, c.value, RowById(s.items, c.value, id).value);
      }
    case CheckOut(user, rows, answers) => CheckoutOk(s, user, rows, answers);
    case SetStatus(order, status) => RestatedOk(s, order, status);
  }

  lemma {:induction false} RunOk(s: Store, ops: seq<Op>)
    requires Ok(s) && DoAll(s, ops).Some?
    ensures Ok(DoAll(s, ops).value)
    decreases |ops|
  {
    if ops != [] {
      DoOk(s, ops[0]);
      RunOk(Do(s, ops[0]), ops[1..]);
    }
  }

  lemma EmptyOk()
    ensures Ok(EMPTY)
  {
    assert EMPTY.soldAs.Values == {};
    assert CartIds(EMPTY.carts, false) == {};
  }

  lemma Reached(ops: seq<Op>)
    requires DoAll(EMPTY, ops).Some?
    ensures Ok(DoAll(EMPTY, ops).value)
  {
    EmptyOk();
    RunOk(EMPTY, ops);
  }

  // ---- The laws ----

  /** Conservation: whatever users add, remove and check out, every unit of a variant ever added
      is in an active cart, was removed, or was sold. */
  lemma Conservation(ops: seq<Op>, v: VariantId)
    requires DoAll(EMPTY, ops).Some?
    ensures var s := DoAll(EMPTY, ops).value;
            TotalAdded(s.log, v)
            == QtyIn(s.items, CartIds(s.carts, true), v) + TotalRemoved(s.log, v) + Sold(s.lines, v)
  {
    Reached(ops);
    assert Balanced(DoAll(EMPTY, ops).value, v);
  }

  /** A bijection between the checked-out carts and the orders that keeps all quantities. */
  ghost predicate Pairing(s: Store, f: map<CartId, OrderId>) {
    && f.Keys == CartIds(s.carts, false)
    && (forall o :: IsOrder(s, o) <==> exists c :: c in f && f[c] == o)
    && OneToOne(f)
    && (forall c, v :: c in f ==> QtyIn(s.items, {c}, v) == SoldIn(s.lines, f[c], v))
  }

  lemma CartsBecomeOrders(ops: seq<Op>)
    requires DoAll(EMPTY, ops).Some?
    ensures exists f :: Pairing(DoAll(EMPTY, ops).value, f)
  {
    Reached(ops);
    var s := DoAll(EMPTY, ops).value;
    assert Pairing(s, s.soldAs);
  }

  /** In every run each cart is a map from variant to quantity and price: at most one row per
      variant, showing the adds since the last removal as the first of them named and priced it. */
  lemma CartIsMap(ops: seq<Op>, c: CartId, v: VariantId)
    requires DoAll(EMPTY, ops).Some?
    ensures var s := DoAll(EMPTY, ops).value;
            && Shows(s.items, c, v, Held(s.log, c, v))
            && (forall i, j :: 0 <= i < |s.items| && 0 <= j < |s.items| ==>
                  Holds(s.items[i], c, v) && Holds(s.items[j], c, v) ==> i == j)
  {
    Reached(ops);
    var s := DoAll(EMPTY, ops).value;
    assert Shows(s.items, c, v, Held(s.log, c, v));
  }

  lemma {:induction false} RowsConcat(a: seq<CartItem>, b: seq<CartItem>, c: CartId)
    ensures RowsOf(a + b, c) == RowsOf(a, c) + RowsOf(b, c)
    decreases |b|
  {
    if b == [] {
      assert a + b == a;
    } else {
      var n := |b| - 1;
      assert (a + b)[..|a + b| - 1] == a + b[..n];
      RowsConcat(a, b[..n], c);
    }
  }

  lemma RowsSplit(items: seq<CartItem>, i: nat, c: CartId)
    requires i < |items|
    ensures RowsOf(items, c)
            == RowsOf(items[..i], c) + (if items[i].cart == c then [items[i]] else []) + RowsOf(items[i + 1..], c)
    ensures RowsOf(Without(items, i), c) == RowsOf(items[..i], c) + RowsOf(items[i + 1..], c)
  {
    assert items == items[..i] + [items[i]] + items[i + 1..];
    RowsConcat(items[..i] + [items[i]], items[i + 1..], c);
    RowsConcat(items[..i], [items[i]], c);
    RowsConcat(items[..i], items[i + 1..], c);
    assert [items[i]][..0] == [];
  }

  lemma RowsUpdated(items: seq<CartItem>, i: nat, it: CartItem, c: CartId)
    requires i < |items| && items[i].cart != c && it.cart != c
    ensures RowsOf(items[i := it], c) == RowsOf(items, c)
  {
    RowsSplit(items, i, c);
    RowsSplit(items[i := it], i, c);
    assert items[i := it][..i] == items[..i] && items[i := it][i + 1..] == items[i + 1..];
  }

  lemma RowsAppended(items: seq<CartItem>, it: CartItem, c: CartId)
    requires it.cart != c
    ensures RowsOf(items + [it], c) == RowsOf(items, c)
  {
    RowsConcat(items, [it], c);
    assert [it][..0] == [];
  }

  lemma AddKeepsOthers(s: Store, own: CartId, r: NewItem, c: CartId)
    requires Admissible(r) && own != c
    ensures RowsOf(AddTo(s, own, r).items, c) == RowsOf(s.items, c)
  {
    var i := RowFor(s.items, own, r.variant);
    if i.Some? {
      RowsUpdated(s.items, i.value, s.items[i.value].(quantity := s.items[i.value].quantity + r.quantity), c);
    } else {
      RowsAppended(s.items, NewRow(s.nextId, own, r), c);
    }
  }

  /** A user's own cart after get-or-create is never another existing cart. */
  lemma OwnIsOther(s: Store, user: UserId, c: CartId)
    requires CartsOk(s) && c in AllCarts(s) && ActiveCart(s.carts, user) != Some(c)
    ensures ActiveCart(WithCart(s, user).carts, user).value != c
  {
    if ActiveCart(s.carts, user).None? {
      var carts := WithCart(s, user).carts;
      assert carts == s.carts + [CartRow(s.nextId, user, true)];
      var k :| 0 <= k < |carts| && carts[k] == CartRow(ActiveCart(carts, user).value, user, true);
      assert forall i :: 0 <= i < |s.carts| ==> carts[i] == s.carts[i] && !(carts[i].user == user && carts[i].active);
      assert k == |s.carts|;
    }
  }

  lemma OthersKept(s: Store, op: Op, c: CartId)
    requires CartsOk(s) && c in AllCarts(s) && (op.SetStatus? || ActiveCart(s.carts, op.user) != Some(c))
    ensures RowsOf(Do(s, op).items, c) == RowsOf(s.items, c)
  {
    match op
    case AddItem(user, r) =>
      if Admissible(r) {
        OwnIsOther(s, user, c);
        AddKeepsOthers(WithCart(s, user), ActiveCart(WithCart(s, user).carts, user).value, r, c);
      }
    case RemoveItem(user, id) =>
      var own := ActiveCart(s.carts, user);
      if own.Some? && RowById(s.items, own.value, id).Some? {
        RowsSplit(s.items, RowById(s.items, own.value, id).value, c);
      }
    case _ =>
  }

  /** In every run, no operation of one user touches the rows of a cart that is not that user's
      active cart. */
  lemma OtherCartsUntouched(ops: seq<Op>, op: Op, c: CartId)
    requires DoAll(EMPTY, ops).Some?
    requires var s := DoAll(EMPTY, ops).value;
             c in AllCarts(s) && (op.SetStatus? || ActiveCart(s.carts, op.user) != Some(c))
    ensures var s := DoAll(EMPTY, ops).value; RowsOf(Do(s, op).items, c) == RowsOf(s.items, c)
  {
    Reached(ops);
    OthersKept(DoAll(EMPTY, ops).value, op, c);
  }

  /** An order line for `row` at the price that product-service answered. */
  predicate LineMatches(line: OrderLine, order: OrderId, row: CartItem, answer: Response) {
    && line.order == order && line.product == row.product && line.variant == row.variant
    && line.quantity == row.quantity
    && var r := GetVariant(answer, row.variant);
       r.Found? && line.price == r.live.price && line.name == r.live.name && line.size == r.live.size
       && line.subtotal == Times(r.live.price, row.quantity)
  }

  /** One more pending_payment order whose lines match the rows one to one, whose total is the sum
      of their subtotals, and nothing else but the cart's status changed. */
  ghost predicate OneMoreOrder(s: Store, s': Store, id: OrderId, user: UserId, cart: CartId,
                               rows: seq<CartItem>, answers: seq<Response>) {
    && s'.items == s.items && s'.log == s.log && |s'.carts| == |s.carts|
    && (forall i :: 0 <= i < |s.carts| ==>
          s'.carts[i] == if s.carts[i].id == cart then CartRow(cart, s.carts[i].user, false) else s.carts[i])
    && |s'.orders| == |s.orders| + 1 && s'.orders[..|s.orders|] == s.orders
    && |s'.lines| == |s.lines| + |rows| && s'.lines[..|s.lines|] == s.lines
    && var lines := s'.lines[|s.lines|..];
       && s'.orders[|s.orders|] == OrderRow(id, user, PendingPayment, SubtotalSum(lines, |rows|))
       && forall i :: 0 <= i < |rows| ==> LineMatches(lines[i], id, rows[i], AnswerAt(answers, i))
  }

  lemma PlaceDescribed(s: Store, user: UserId, cart: CartId, rows: seq<CartItem>, answers: seq<Response>)
    requires Verify(rows, answers, |rows|).Verified?
    ensures var checked := Verify(rows, answers, |rows|).checked;
            OneMoreOrder(s, Place(s, user, cart, checked), s.nextId, user, cart, rows, answers)
  {
    VerifyExact(rows, answers, |rows|);
    var checked := Verify(rows, answers, |rows|).checked;
    TotalIsSubtotals(checked, s.nextId, |rows|);
    var lines := LinesOf(checked, s.nextId);
    assert (s.lines + lines)[|s.lines|..] == lines;
  }

  /** Only the status of an order ever changes: its lines stay, and so do its user and its total. */
  ghost predicate Locked(s: Store, s': Store) {
    && |s.lines| <= |s'.lines| && s'.lines[..|s.lines|] == s.lines
    && |s.orders| <= |s'.orders|
    && forall i :: 0 <= i < |s.orders| ==> s'.orders[i] == s.orders[i].(status := s'.orders[i].status)
  }

  lemma OpLocks(s: Store, op: Op)
    ensures Locked(s, Do(s, op))
  {
  }

  /** Prices are locked: whatever happens after an order was placed, in any number of steps. */
  lemma {:induction false} OrdersAreLocked(s: Store, ops: seq<Op>)
    requires DoAll(s, ops).Some?
    ensures Locked(s, DoAll(s, ops).value)
    decreases |ops|
  {
    if ops != [] {
      var s1, s' := Do(s, ops[0]), DoAll(s, ops).value;
      OpLocks(s, ops[0]);
      OrdersAreLocked(s1, ops[1..]);
      assert s'.lines[..|s.lines|] == s'.lines[..|s1.lines|][..|s.lines|];
    }
  }

  /** Checkout is all or nothing, in every run. It places an order exactly when the user has an
      active cart with rows that can all be sold, and otherwise changes nothing. */
  lemma CheckoutAllOrNothing(ops: seq<Op>, user: UserId, rows: seq<CartItem>, answers: seq<Response>)
    requires DoAll(EMPTY, ops).Some?
    ensures var s := DoAll(EMPTY, ops).value;
            var c := ActiveCart(s.carts, user);
            var r := Checkout(s, user, rows, answers);
            && (r.reply.Placed? <==>
                  c.Some? && rows != [] && forall i :: 0 <= i < |rows| ==> Sellable(rows[i], AnswerAt(answers, i)))
            && (r.reply.NoActiveCart? <==> c.None?)
            && (r.reply.EmptyCart? <==> c.Some? && rows == [])
            && (!r.reply.Placed? ==> r.store == s)
            && (r.reply.Placed? ==>
                  !IsOrder(s, r.reply.order) && OneMoreOrder(s, r.store, r.reply.order, user, c.value, rows, answers))
  {
    Reached(ops);
    var s := DoAll(EMPTY, ops).value;
    VerifyExact(rows, answers, |rows|);
    if Checkout(s, user, rows, answers).reply.Placed? {
      PlaceDescribed(s, user, ActiveCart(s.carts, user).value, rows, answers);
    }
  }

  /** `change` reports row `row`, of the cart as it was, at the live price of `answer`. */
  predicate Reports(change: PriceChange, row: CartItem, answer: Response) {
    && change.name == row.name && change.size == row.size && change.before == row.price
    && var r := GetVariant(answer, row.variant); r.Found? && change.after == r.live.price
  }

  /** The price that product-service answered differs by value from the cart's. */
  predicate Repriced(row: CartItem, answer: Response) {
    var r := GetVariant(answer, row.variant);
    r.Found? && !SameValue(r.live.price, row.price)
  }

  /** The reported price changes are exactly the rows, in cart order, whose live price differs by
      value from the cart's. */
  lemma PriceChangesExact(s: Store, user: UserId, rows: seq<CartItem>, answers: seq<Response>) returns (at: seq<nat>)
    requires Checkout(s, user, rows, answers).reply.Placed?
    ensures var changes := Checkout(s, user, rows, answers).reply.changes;
            && |at| == |changes| && Increasing(at)
            && (forall k :: 0 <= k < |at| ==>
                  at[k] < |rows| && Reports(changes[k], rows[at[k]], AnswerAt(answers, at[k])))
            && (forall i: nat :: i < |rows| ==> (i in at <==> Repriced(rows[i], AnswerAt(answers, i))))
  {
    VerifyExact(rows, answers, |rows|);
    at := ChangesExact(Verify(rows, answers, |rows|).checked, |rows|);
  }

  /** A repriced row is charged at the live price, which is not what the cart showed. */
  lemma RepricedIsCharged(s: Store, user: UserId, rows: seq<CartItem>, answers: seq<Response>, i: nat)
    requires Checkout(s, user, rows, answers).reply.Placed? && i < |rows| && Repriced(rows[i], AnswerAt(answers, i))
    ensures var lines := Checkout(s, user, rows, answers).store.lines;
            && |lines| == |s.lines| + |rows|
            && var line := lines[|s.lines| + i];
               && line.price == GetVariant(AnswerAt(answers, i), rows[i].variant).live.price
               && line.subtotal == Times(line.price, rows[i].quantity)
               && !SameValue(line.price, rows[i].price)
  {
    VerifyExact(rows, answers, |rows|);
  }

  // ---- Totals in kobo ----

  /** The lines of order `o` in kobo: price times quantity, summed. */
  function KoboIn(lines: seq<OrderLine>, o: OrderId): int {
    if lines == [] then 0
    else
      var l := lines[|lines| - 1];
      KoboIn(lines[..|lines| - 1], o) + if l.order == o then Kobo(l.price) * l.quantity else 0
  }

  predicate WholeLines(lines: seq<OrderLine>, o: OrderId) {
    forall i :: 0 <= i < |lines| && lines[i].order == o ==> WholeKobo(lines[i].price)
  }

  /** An order whose prices are whole in kobo totals exactly what its lines come to. */
  predicate TotalOk(lines: seq<OrderLine>, row: OrderRow) {
    WholeLines(lines, row.id) ==> InKobo(row.total, KoboIn(lines, row.id))
  }

  ghost predicate TotalsOk(s: Store) {
    forall i :: 0 <= i < |s.orders| ==> TotalOk(s.lines, s.orders[i])
  }

  lemma {:induction false} KoboConcat(a: seq<OrderLine>, b: seq<OrderLine>, o: OrderId)
    ensures KoboIn(a + b, o) == KoboIn(a, o) + KoboIn(b, o)
    decreases |b|
  {
    if b == [] {
      assert a + b == a;
    } else {
      assert (a + b)[..|a + b| - 1] == a + b[..|b| - 1];
      KoboConcat(a, b[..|b| - 1], o);
    }
  }

  lemma {:induction false} NoLinesNoKobo(lines: seq<OrderLine>, o: OrderId)
    requires forall i :: 0 <= i < |lines| ==> lines[i].order != o
    ensures KoboIn(lines, o) == 0
  {
    if lines != [] {
      NoLinesNoKobo(lines[..|lines| - 1], o);
    }
  }

  lemma {:induction false} KoboOfLines(checked: seq<Checked>, o: OrderId, n: nat)
    requires n <= |checked|
    ensures KoboIn(LinesOf(checked, o)[..n], o) == KoboTotal(checked, n)
  {
    if n > 0 {
      KoboOfLines(checked, o, n - 1);
      assert LinesOf(checked, o)[..n][..n - 1] == LinesOf(checked, o)[..n - 1];
    }
  }

  lemma OldTotal(lines: seq<OrderLine>, more: seq<OrderLine>, row: OrderRow)
    requires forall i :: 0 <= i < |more| ==> more[i].order != row.id
    ensures TotalOk(lines, row) ==> TotalOk(lines + more, row)
  {
    KoboConcat(lines, more, row.id);
    NoLinesNoKobo(more, row.id);
    assert forall i :: 0 <= i < |lines| ==> (lines + more)[i] == lines[i];
  }

  lemma WholeLinesAdded(lines: seq<OrderLine>, checked: seq<Checked>, o: OrderId)
    requires WholeLines(lines + LinesOf(checked, o), o)
    ensures WholeKoboPrices(checked, |checked|)
  {
    var all := lines + LinesOf(checked, o);
    forall i | 0 <= i < |checked| ensures WholeKobo(checked[i].live.price) {
      var k := |lines| + i;
      assert all[k] == LineOf(checked[i], o);
    }
  }

  lemma NewTotal(lines: seq<OrderLine>, checked: seq<Checked>, row: OrderRow)
    requires row.total == Total(checked, |checked|) && forall i :: 0 <= i < |lines| ==> lines[i].order != row.id
    ensures TotalOk(lines + LinesOf(checked, row.id), row)
  {
    var more := LinesOf(checked, row.id);
    KoboConcat(lines, more, row.id);
    NoLinesNoKobo(lines, row.id);
    KoboOfLines(checked, row.id, |checked|);
    assert more[..|checked|] == more;
    if WholeLines(lines + more, row.id) {
      WholeLinesAdded(lines, checked, row.id);
      TotalInKobo(checked, |checked|);
    }
  }

  lemma PlaceTotals(s: Store, user: UserId, cart: CartId, checked: seq<Checked>)
    requires OrdersOk(s) && TotalsOk(s)
    ensures TotalsOk(Place(s, user, cart, checked))
  {
    var s' := Place(s, user, cart, checked);
    var n := |s.orders|;
    assert forall i :: 0 <= i < |s.lines| ==> s.lines[i] in s.lines && s.lines[i].order != s.nextId;
    NewTotal(s.lines, checked, s'.orders[n]);
    forall i | 0 <= i < n ensures TotalOk(s'.lines, s'.orders[i]) {
      OldTotal(s.lines, LinesOf(checked, s.nextId), s.orders[i]);
    }
  }

  lemma DoTotals(s: Store, op: Op)
    requires Ok(s) && TotalsOk(s)
    ensures TotalsOk(Do(s, op))
  {
    match op
    case CheckOut(user, rows, answers) =>
      var c := ActiveCart(s.carts, user);
      if Checkout(s, user, rows, answers).reply.Placed? {
        PlaceTotals(s, user, c.value, Verify(rows, answers, |rows|).checked);
      }
    case SetStatus(order, status) =>
      forall i | 0 <= i < |s.orders| ensures TotalOk(s.lines, Restated(s.orders, order, status)[i]) {
        assert TotalOk(s.lines, s.orders[i]);
      }
    case _ =>
  }

  lemma {:induction false} RunTotals(s: Store, ops: seq<Op>)
    requires Ok(s) && TotalsOk(s) && DoAll(s, ops).Some?
    ensures TotalsOk(DoAll(s, ops).value)
    decreases |ops|
  {
    if ops != [] {
      DoTotals(s, ops[0]);
      DoOk(s, ops[0]);
      RunTotals(Do(s, ops[0]), ops[1..]);
    }
  }

  /** In every run, an order whose prices are whole in kobo totals exactly the sum over its lines
      of price in kobo times quantity. */
  lemma TotalsAreLines(ops: seq<Op>, i: nat)
    requires DoAll(EMPTY, ops).Some? && i < |DoAll(EMPTY, ops).value.orders|
    ensures var s := DoAll(EMPTY, ops).value;
            WholeLines(s.lines, s.orders[i].id) ==> InKobo(s.orders[i].total, KoboIn(s.lines, s.orders[i].id))
  {
    EmptyOk();
    RunTotals(EMPTY, ops);
    assert TotalOk(DoAll(EMPTY, ops).value.lines, DoAll(EMPTY, ops).value.orders[i]);
  }

  // ---- What users asked for ----

  /** The requests to add that the schema admits, in order. */
  function Requests(ops: seq<Op>): seq<NewItem>
    decreases |ops|
  {
    if ops == [] then []
    else
      var op := ops[0];
      (if op.AddItem? && op.request.quantity >= 1 && op.request.price.coef > 0
          && (100 * op.request.price.coef) % Pow10(op.request.price.places) == 0
       then [op.request] else [])
      + Requests(ops[1..])
  }

  /** The adds of a ledger, in order. */
  function Adds(log: seq<Entry>): seq<Entry> {
    if log == [] then []
    else Adds(log[..|log| - 1]) + if log[|log| - 1].Added? then [log[|log| - 1]] else []
  }

  /** Entry `e` records request `r`. */
  predicate Records(e: Entry, r: NewItem) {
    && e.Added? && e.product == r.product && e.variant == r.variant && e.name == r.name && e.size == r.size
    && e.quantity == r.quantity && e.price.places == 2 && SameValue(e.price, r.price)
  }

  predicate RecordsAll(entries: seq<Entry>, requests: seq<NewItem>) {
    |entries| == |requests| && forall k :: 0 <= k < |entries| ==> Records(entries[k], requests[k])
  }

  lemma AddsSnoc(log: seq<Entry>, e: Entry)
    ensures Adds(log + [e]) == Adds(log) + if e.Added? then [e] else []
  {
    assert (log + [e])[..|log|] == log;
  }

  lemma NotedRecords(cart: CartId, r: NewItem)
    requires Admissible(r)
    ensures Records(Noted(cart, r), r)
  {
    StoredExact(r.price);
  }

  /** What one operation adds to the ledger. */
  lemma OpRecords(s: Store, op: Op) returns (entries: seq<Entry>)
    ensures Adds(Do(s, op).log) == Adds(s.log) + entries
    ensures RecordsAll(entries, Requests([op]))
  {
    entries := [];
    assert [op][1..] == [];
    match op
    case AddItem(user, r) =>
      if Admissible(r) {
        var s1 := WithCart(s, user);
        var c := ActiveCart(s1.carts, user).value;
        NotedRecords(c, r);
        AddsSnoc(s.log, Noted(c, r));
        entries := [Noted(c, r)];
      }
    case RemoveItem(user, id) =>
      var c := ActiveCart(s.carts, user);
      if c.Some? && RowById(s.items, c.value, id).Some? {
        var it := s.items[RowById(s.items, c.value, id).value];
        AddsSnoc(s.log, Removed(c.value, it.variant, it.quantity));
      }
    case _ =>
  }

  /** In every run the ledger's adds are exactly the requests, one for one, in order: same product,
      variant, name, size and quantity, and the price by value. */
  lemma {:induction false} LedgerTellsRequests(s: Store, ops: seq<Op>) returns (entries: seq<Entry>)
    requires DoAll(s, ops).Some?
    ensures Adds(DoAll(s, ops).value.log) == Adds(s.log) + entries
    ensures RecordsAll(entries, Requests(ops))
    decreases |ops|
  {
    entries := [];
    if ops != [] {
      var first := OpRecords(s, ops[0]);
      var rest := LedgerTellsRequests(Do(s, ops[0]), ops[1..]);
      entries := first + rest;
      RequestsCons(ops);
      RecordsConcat(first, Requests([ops[0]]), rest, Requests(ops[1..]));
      Appended(Adds(s.log), first, rest);
    }
  }

  lemma Appended(a: seq<Entry>, b: seq<Entry>, c: seq<Entry>)
    ensures (a + b) + c == a + (b + c)
  {
  }

  lemma RequestsCons(ops: seq<Op>)
    requires ops != []
    ensures Requests(ops) == Requests([ops[0]]) + Requests(ops[1..])
  {
    assert [ops[0]][1..] == [];
  }

  lemma RecordsConcat(a: seq<Entry>, ra: seq<NewItem>, b: seq<Entry>, rb: seq<NewItem>)
    requires RecordsAll(a, ra) && RecordsAll(b, rb)
    ensures RecordsAll(a + b, ra + rb)
  {
  }

  /** The units of `v` that users asked to add. */
  function Requested(requests: seq<NewItem>, v: VariantId): int {
    if requests == [] then 0
    else
      var r := requests[|requests| - 1];
      Requested(requests[..|requests| - 1], v) + if r.variant == v then r.quantity else 0
  }

  lemma {:induction false} AddsTotal(log: seq<Entry>, v: VariantId)
    ensures TotalAdded(log, v) == TotalAdded(Adds(log), v)
  {
    if log != [] {
      var n := |log| - 1;
      AddsTotal(log[..n], v);
      if log[n].Added? {
        assert Adds(log)[..|Adds(log)| - 1] == Adds(log[..n]);
      } else {
        assert Adds(log) == Adds(log[..n]);
      }
    }
  }

  lemma {:induction false} RecordedTotal(entries: seq<Entry>, requests: seq<NewItem>, v: VariantId)
    requires RecordsAll(entries, requests)
    ensures TotalAdded(entries, v) == Requested(requests, v)
  {
    if entries != [] {
      var n := |entries| - 1;
      assert Records(entries[n], requests[n]);
      RecordedTotal(entries[..n], requests[..n], v);
    }
  }

  /** Conservation from the users' side: in every run, all units of a variant that users asked to
      add with an admissible request are in active carts, were removed, or were sold. */
  lemma AskedIsKept(ops: seq<Op>, v: VariantId)
    requires DoAll(EMPTY, ops).Some?
    ensures var s := DoAll(EMPTY, ops).value;
            Requested(Requests(ops), v)
            == QtyIn(s.items, CartIds(s.carts, true), v) + TotalRemoved(s.log, v) + Sold(s.lines, v)
  {
    var entries := LedgerTellsRequests(EMPTY, ops);
    var s := DoAll(EMPTY, ops).value;
    Conservation(ops, v);
    AddsTotal(s.log, v);
    assert Adds(s.log) == entries;
    RecordedTotal(entries, Requests(ops), v);
  }

  // ---- What a removal removes ----

  lemma RowByIdIs(s: Store, c: CartId, i: nat)
    requires ItemsOk(s) && i < |s.items| && s.items[i].cart == c
    ensures RowById(s.items, c, s.items[i].id) == Some(i)
  {
  }

  /** Row `i` is item `id`, in the active cart of `user`. */
  predicate IsOwn(s: Store, user: UserId, id: nat, i: nat)
    requires i < |s.items|
  {
    s.items[i].id == id && ActiveCart(s.carts, user) == Some(s.items[i].cart)
  }

  /** In every run, removing an item of one's active cart takes out exactly that row, and records
      it; removing anything else changes nothing. */
  lemma RemovalRemoves(ops: seq<Op>, user: UserId, id: nat)
    requires DoAll(EMPTY, ops).Some?
    ensures var s := DoAll(EMPTY, ops).value;
            var s' := Remove(s, user, id);
            && s'.carts == s.carts && s'.orders == s.orders && s'.lines == s.lines
            && (forall i :: 0 <= i < |s.items| && IsOwn(s, user, id, i) ==>
                  && s'.items == s.items[..i] + s.items[i + 1..]
                  && s'.log == s.log + [Removed(s.items[i].cart, s.items[i].variant, s.items[i].quantity)])
            && ((forall i :: 0 <= i < |s.items| ==> !IsOwn(s, user, id, i)) ==> s' == s)
  {
    Reached(ops);
    var s := DoAll(EMPTY, ops).value;
    forall i | 0 <= i < |s.items| && IsOwn(s, user, id, i)
      ensures RowById(s.items, s.items[i].cart, id) == Some(i)
    {
      RowByIdIs(s, s.items[i].cart, i);
    }
  }
}
