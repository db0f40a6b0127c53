/**
 * The checkout page (`UrDesireCheckout`): the cart read from
 * `urdesire_cart`, its totals, the shipping cost, the order record built
 * from the form, and the placing of an order, which appends it to the
 * buyer's list `urdesire_orders_<pseudonyme>` and to `urdesire_all_orders`
 * and then empties the cart.  Amounts are whole francs CFA.
 */
module Checkout {
  import opened Records
  import opened Storage
  import opened Text

  /** The cart, the shipping cost and the durable tier. */
  datatype CheckoutState = CheckoutState(cart: seq<CartItem>, shippingCost: int, local: Store)

  datatype SubmitError = NotLoggedIn | EmptyCart | InvalidForm

  /** The cost of express delivery; standard delivery is free. */
  const ExpressShippingCost := 5000

  // --- Totals ---

  function LineTotal(item: CartItem): int {
    item.price * item.quantity
  }

  /** `calculateSubtotal`: the `reduce` over the cart, from the left. */
  function Subtotal(cart: seq<CartItem>): int {
    if cart == [] then 0 else Subtotal(cart[..|cart| - 1]) + LineTotal(cart[|cart| - 1])
  }

  /** The `reduce` of `updateCartCount`: the number of articles. */
  function CartCount(cart: seq<CartItem>): int {
    if cart == [] then 0 else CartCount(cart[..|cart| - 1]) + cart[|cart| - 1].quantity
  }

  /** `updateShippingCost`. */
  function ShippingCost(express: bool): (c: int)
    ensures c == ExpressShippingCost <==> express
    ensures c == 0 <==> !express
  {
    if express then ExpressShippingCost else 0
  }

  // --- The order record ---

  /** JavaScript's `s.substring(0, k)`: the first `k` characters, or all of a shorter `s`. */
  function First(s: string, k: nat): (r: string)
    ensures |r| == if |s| <= k then |s| else k
    ensures r == s[..|r|]
  {
    if |s| <= k then s else s[..k]
  }

  /**
   * `generateCustomerId`: `CID_`, the first three characters of the
   * pseudonyme in upper case, `_`, and the last six digits of the clock.
   */
  function CustomerId(p: string, now: nat): string {
    "CID_" + ToUpper(First(p, 3)) + "_" + Last(Decimal(now), 6)
  }

  /** `collectOrderData` for the logged-in user `p`, the form's values and the clock `now`. */
  function CollectOrderData(p: string, cart: seq<CartItem>, shippingCost: int, delivery: Delivery,
                            discreet: bool, noContact: bool, express: bool, now: nat): (o: Order)
    ensures o.pseudonyme == p && o.timestamp == now && o.delivery == delivery
    ensures o.order.items == cart
    ensures o.order.subtotal == Subtotal(cart) && o.order.shipping == shippingCost
    ensures o.order.total == o.order.subtotal + o.order.shipping
    ensures o.status == "confirmed"
    ensures o.order.shippingMethod == "express" <==> express
    ensures o.order.shippingMethod == "standard" <==> !express
    ensures o.privacy == Privacy(discreet, noContact, CustomerId(p, now))
    ensures |o.orderId| > 3 && o.orderId[..3] == "URD"
    ensures AllDigits(o.orderId[3..]) && DigitsValue(o.orderId[3..]) == now
  {
    var id := "URD" + Decimal(now);
    assert id[3..] == Decimal(now);
    DecimalRoundTrip(now);
    Order(
      id, p, now, delivery,
      Privacy(discreet, noContact, CustomerId(p, now)),
      Summary(cart, Subtotal(cart), shippingCost, Subtotal(cart) + shippingCost,
              if express then "express" else "standard"),
      "confirmed")
  }

  // --- Storage effects ---

  /**
   * `saveOrder`: the order is appended to the buyer's list and to the list
   * of all orders; no other key changes.
   */
  function AfterSaveOrder(m: Store, o: Order): (r: Store)
    ensures OrdersAt(r, OrdersKey(o.pseudonyme)) == OrdersAt(m, OrdersKey(o.pseudonyme)) + [o]
    ensures OrdersAt(r, AllOrdersKey) == OrdersAt(m, AllOrdersKey) + [o]
    ensures forall k :: k != OrdersKey(o.pseudonyme) && k != AllOrdersKey ==>
      (k in r <==> k in m) && (k in m ==> r[k] == m[k])
  {
    var k := OrdersKey(o.pseudonyme);
    OrdersFits(o.pseudonyme, []);
    var m' := m[k := OrdersDoc(OrdersAt(m, k) + [o])];
    m'[AllOrdersKey := OrdersDoc(OrdersAt(m', AllOrdersKey) + [o])]
  }

  /** `clearCart`. */
  function AfterClearCart(s: CheckoutState): (r: CheckoutState)
    ensures CartKey !in r.local && r.cart == [] && CartCount(r.cart) == 0
    ensures r.shippingCost == s.shippingCost
    ensures forall k :: k != CartKey ==> (k in r.local <==> k in s.local) && (k in s.local ==> r.local[k] == s.local[k])
  {
    CheckoutState([], s.shippingCost, s.local - {CartKey})
  }

  /** Every required field is filled (`validateField` on each). */
  predicate AllFilled(fields: seq<string>) {
    forall i :: 0 <= i < |fields| ==> Trim(fields[i]) != ""
  }

  /**
   * `handleOrderSubmission` with the processing step that follows it:
   * refused when nobody is logged in, when the cart is empty, or when a
   * required field is blank (in that order); otherwise the order is saved
   * and the cart cleared.
   */
  function AfterSubmission(s: CheckoutState, current: Option<User>, required: seq<string>, delivery: Delivery,
                           discreet: bool, noContact: bool, express: bool, now: nat): (r: (CheckoutState, Outcome<SubmitError>))
    ensures r.1 == Refused(NotLoggedIn) <==> current.None?
    ensures r.1 == Refused(EmptyCart) <==> current.Some? && s.cart == []
    ensures r.1 == Refused(InvalidForm) <==> current.Some? && s.cart != [] && !AllFilled(required)
    ensures r.1.Refused? ==> r.0 == s
  {
    if current.None? then (s, Refused(NotLoggedIn))
    else if s.cart == [] then (s, Refused(EmptyCart))
    else if !AllFilled(required) then (s, Refused(InvalidForm))
    else
      var o := CollectOrderData(current.value.pseudonyme, s.cart, s.shippingCost, delivery, discreet, noContact, express, now);
      (AfterClearCart(s.(local := AfterSaveOrder(s.local, o))), Done)
  }

  // --- Properties ---

  /** The subtotal of a cart made of two parts is the sum of their subtotals. */
  lemma {:induction false} SubtotalAppend(a: seq<CartItem>, b: seq<CartItem>)
    ensures Subtotal(a + b) == Subtotal(a) + Subtotal(b)
    decreases |b|
  {
    if b == [] {
      assert a + b == a;
    } else {
      var b' := b[..|b| - 1];
      assert (a + b)[..|a + b| - 1] == a + b';
      assert (a + b)[|a + b| - 1] == b[|b| - 1];
      SubtotalAppend(a, b');
    }
  }

  /** The subtotal is the sum of price times quantity over the lines: 0 for an empty cart, the line total for one line. */
  lemma SubtotalOfLines(item: CartItem)
    ensures Subtotal([]) == 0
    ensures Subtotal([item]) == item.price * item.quantity
  {
  }

  /** With no negative price or quantity the subtotal is not negative. */
  lemma {:induction false} SubtotalNonNegative(cart: seq<CartItem>)
    requires forall i :: 0 <= i < |cart| ==> cart[i].price >= 0 && cart[i].quantity >= 0
    ensures Subtotal(cart) >= 0
  {
    if cart != [] {
      SubtotalNonNegative(cart[..|cart| - 1]);
    }
  }

  /** The cart count of two parts is the sum of their counts; an empty cart counts 0. */
  lemma {:induction false} CartCountAppend(a: seq<CartItem>, b: seq<CartItem>)
    ensures CartCount([]) == 0
    ensures CartCount(a + b) == CartCount(a) + CartCount(b)
    decreases |b|
  {
    if b == [] {
      assert a + b == a;
    } else {
      var b' := b[..|b| - 1];
      assert (a + b)[..|a + b| - 1] == a + b';
      assert (a + b)[|a + b| - 1] == b[|b| - 1];
      CartCountAppend(a, b');
    }
  }

  /**
   * The customer id reads `CID_`, the pseudonyme's first three characters
   * upper-cased (`m` letters: one more for each sharp s), `_`, and then
   * digits whose value is the clock modulo one million (six digits once the
   * clock has at least six).
   */
  lemma CustomerIdShape(p: string, now: nat)
    ensures var id := CustomerId(p, now); var k := |First(p, 3)|; var m := |ToUpper(First(p, 3))|;
      && k == (if |p| < 3 then |p| else 3)
      && k <= m <= 2 * k
      && id[..4] == "CID_"
      && id[4..4 + m] == ToUpper(p[..k])
      && id[4 + m] == '_'
      && AllDigits(id[5 + m..])
      && DigitsValue(id[5 + m..]) == now % 1000000
      && (now >= 100000 ==> |id[5 + m..]| == 6)
  {
    var head := ToUpper(First(p, 3));
    var tail := Last(Decimal(now), 6);
    SplitAround("CID_", head, tail);
    ClockTail(now);
  }

  /** The last six digits of the clock: digits worth the clock modulo one million, six of them once it has six. */
  lemma ClockTail(now: nat)
    ensures var tail := Last(Decimal(now), 6);
      && AllDigits(tail)
      && DigitsValue(tail) == now % 1000000
      && (now >= 100000 ==> |tail| == 6)
  {
    LastDigitsValue(now, 6);
    assert Pow10(6) == 1000000;
    if now >= 100000 {
      DecimalLength(now);
    }
  }

  /** The parts of `a + b + "_" + c` can be read back by position. */
  lemma SplitAround(a: string, b: string, c: string)
    ensures var s := a + b + "_" + c;
      && s[..|a|] == a
      && s[|a|..|a| + |b|] == b
      && s[|a| + |b|] == '_'
      && s[|a| + |b| + 1..] == c
  {
    var s := a + b + "_" + c;
    assert s == a + (b + ("_" + c));
  }

  /** A numeral of a number of at least 100000 has at least six digits. */
  lemma DecimalLength(n: nat)
    requires n >= 100000
    ensures |Decimal(n)| >= 6
  {
    DecimalRoundTrip(n);
    if |Decimal(n)| < 6 {
      Pow10Monotone(|Decimal(n)|, 5);
    }
  }

  /** Placing an order leaves it last in the buyer's list and last in the list of all orders, before anything else. */
  lemma SubmissionSavesOrder(s: CheckoutState, u: User, required: seq<string>, delivery: Delivery,
                             discreet: bool, noContact: bool, express: bool, now: nat)
    requires s.cart != [] && AllFilled(required)
    ensures var r := AfterSubmission(s, Some(u), required, delivery, discreet, noContact, express, now);
      var o := CollectOrderData(u.pseudonyme, s.cart, s.shippingCost, delivery, discreet, noContact, express, now);
      && r.1 == Done
      && OrdersAt(r.0.local, OrdersKey(u.pseudonyme)) == OrdersAt(s.local, OrdersKey(u.pseudonyme)) + [o]
      && OrdersAt(r.0.local, AllOrdersKey) == OrdersAt(s.local, AllOrdersKey) + [o]
      && o.order.items == s.cart && o.order.total == Subtotal(s.cart) + s.shippingCost
      && r.0.cart == [] && CartKey !in r.0.local
  {
    var o := CollectOrderData(u.pseudonyme, s.cart, s.shippingCost, delivery, discreet, noContact, express, now);
    var m := AfterSaveOrder(s.local, o);
    var r := AfterSubmission(s, Some(u), required, delivery, discreet, noContact, express, now);
    assert r.0 == AfterClearCart(s.(local := m));
    ClearingKeepsOrders(m, u.pseudonyme);
  }

  /** Removing the cart leaves both order lists as they are. */
  lemma ClearingKeepsOrders(m: Store, p: string)
    ensures OrdersAt(m - {CartKey}, OrdersKey(p)) == OrdersAt(m, OrdersKey(p))
    ensures OrdersAt(m - {CartKey}, AllOrdersKey) == OrdersAt(m, AllOrdersKey)
  {
    assert OrdersKey(p)[9] == 'o' && CartKey[9] == 'c' && AllOrdersKey[9] == 'a';
  }

  /** The controller of the checkout page. */
  class UrDesireCheckout {
    var cart: seq<CartItem>
    var shippingCost: int
    const local: WebStorage

    ghost predicate Valid()
      reads this, local
    {
      local.Valid()
    }

    function State(): CheckoutState
      reads this, local
    {
      CheckoutState(cart, shippingCost, local.items)
    }

    /** The constructor and `loadCart`. */
    constructor (local: WebStorage)
      requires local.Valid()
      ensures Valid() && this.local == local
      ensures State() == CheckoutState(CartIn(local.items), 0, local.items)
    {
      this.local := local;
      cart := CartIn(local.items);
      shippingCost := 0;
    }

    /** `updateShippingCost`. */
    method UpdateShippingCost(express: bool)
      modifies this
      ensures State() == old(State()).(shippingCost := ShippingCost(express))
    {
      shippingCost := if express then ExpressShippingCost else 0;
    }

    /** `saveOrder`. */
    method SaveOrder(o: Order)
      requires Valid()
      modifies local
      ensures Valid() && local.items == AfterSaveOrder(old(local.items), o)
    {
      var key := OrdersKey(o.pseudonyme);
      var userOrders := OrdersAt(local.items, key) + [o];
      OrdersFits(o.pseudonyme, userOrders);
      local.SetItem(key, OrdersDoc(userOrders));
      var allOrders := OrdersAt(local.items, AllOrdersKey) + [o];
      AllOrdersFits(allOrders);
      local.SetItem(AllOrdersKey, OrdersDoc(allOrders));
    }

    /** `clearCart`. */
    method ClearCart()
      requires Valid()
      modifies this, local
      ensures Valid() && State() == AfterClearCart(old(State()))
    {
      local.RemoveItem(CartKey);
      cart := [];
    }

    /** `handleOrderSubmission`, then `processOrder` once its delay has passed. */
    method HandleOrderSubmission(current: Option<User>, required: seq<string>, delivery: Delivery,
                                 discreet: bool, noContact: bool, express: bool, now: nat)
      returns (outcome: Outcome<SubmitError>)
      requires Valid()
      modifies this, local
      ensures Valid()
      ensures (State(), outcome) == AfterSubmission(old(State()), current, required, delivery, discreet, noContact, express, now)
    {
      if current.None? {
        return Refused(NotLoggedIn);
      }
      if |cart| == 0 {
        return Refused(EmptyCart);
      }
      var valid := ValidateForm(required);
      if !valid {
        return Refused(InvalidForm);
      }
      var o := CollectOrderData(current.value.pseudonyme, cart, shippingCost, delivery, discreet, noContact, express, now);
      SaveOrder(o);
      ClearCart();
      outcome := Done;
    }
  }

  /** `validateForm`: every required field is checked, and the form is valid when none is blank. */
  method ValidateForm(required: seq<string>) returns (isValid: bool)
    ensures isValid <==> AllFilled(required)
  {
    isValid := true;
    var i := 0;
    while i < |required|
      invariant 0 <= i <= |required|
      invariant isValid <==> forall k :: 0 <= k < i ==> Trim(required[k]) != ""
    {
      if Trim(required[i]) == "" {
        isValid := false;
      }
      i := i + 1;
    }
  }
}
