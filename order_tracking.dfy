/**
 * The order-tracking page (`UrDesireOrderTracking`): the logged-in user's
 * orders read from `urdesire_orders_<pseudonyme>` and sorted newest first,
 * the selected order, its status timeline and the driver's status texts,
 * the message log kept under `urdesire_messages_<orderId>`, and the three
 * scheduled status updates that a selection starts.
 *
 * Every timer callback is one step here, taking the clock as `now`; the
 * delays themselves are not modelled.
 */
module OrderTracking {
  import opened Records
  import opened Storage
  import opened Text
  import Checkout
  import Profile

  /**
   * The viewer's pseudonyme (null when nobody is logged in), `currentOrder`,
   * `orders`, `messages` and the durable tier.
   */
  datatype TrackingState = TrackingState(
    viewer: Option<string>,
    current: Option<Order>,
    orders: seq<Order>,
    messages: seq<Message>,
    local: Store)

  datatype SelectError = OrderNotFound

  datatype SendError = NothingToSend

  /** One step of the status timeline: its `completed` and `active` classes. */
  datatype StepClass = StepClass(completed: bool, active: bool)

  const TimelineStatuses: seq<string> := ["confirmed", "preparing", "shipping", "delivered"]

  const CustomerSender := "customer"
  const DriverSender := "driver"

  /** The message the driver posts when an order with no messages is opened. */
  const SeedMessage := "\U{1F69A} Votre livreur a été assigné. Vous pouvez communiquer avec lui via cette messagerie."

  /** The three updates `simulateDriverUpdates` schedules, in the order of their delays: the new status and the driver's message. */
  const Updates: seq<(string, string)> := [
    ("preparing", "\U{1F4E6} Votre colis est en cours de préparation"),
    ("shipping", "\U{1F69A} Votre commande est en route !"),
    ("delivered", "\U{2705} Commande livrée avec succès !")
  ]

  // --- Looking orders up ---

  /** `findIndex` by order id: the first position holding that id, or -1. */
  function FindIndex(orders: seq<Order>, id: string): (r: int)
    ensures -1 <= r < |orders|
    ensures r == -1 <==> forall i :: 0 <= i < |orders| ==> orders[i].orderId != id
    ensures r >= 0 ==> orders[r].orderId == id && forall i :: 0 <= i < r ==> orders[i].orderId != id
  {
    if orders == [] then -1
    else if orders[0].orderId == id then 0
    else
      var k := FindIndex(orders[1..], id);
      if k == -1 then -1 else k + 1
  }

  /** `find` by order id. */
  function FindOrder(orders: seq<Order>, id: string): (r: Option<Order>)
    ensures r.None? <==> forall i :: 0 <= i < |orders| ==> orders[i].orderId != id
    ensures r.Some? ==> r.value.orderId == id && r.value in orders
    ensures r.Some? ==>
      exists k :: 0 <= k < |orders| && r.value == orders[k] && forall i :: 0 <= i < k ==> orders[i].orderId != id
  {
    var k := FindIndex(orders, id);
    if k >= 0 then Some(orders[k]) else None
  }

  /** The order list is in non-increasing order of timestamp. */
  predicate NewestFirst(l: seq<Order>) {
    forall i, j :: 0 <= i < j < |l| ==> l[i].timestamp >= l[j].timestamp
  }

  /** Puts `o` in front of the first order that is not newer than it. */
  function InsertNewest(o: Order, l: seq<Order>): (r: seq<Order>)
    ensures multiset(r) == multiset(l) + multiset{o}
    ensures |r| == |l| + 1
  {
    if l == [] then [o]
    else if o.timestamp >= l[0].timestamp then [o] + l
    else
      assert l == [l[0]] + l[1..];
      [l[0]] + InsertNewest(o, l[1..])
  }

  /** Inserting into a newest-first list keeps it newest first. */
  lemma {:induction false} InsertKeepsNewestFirst(o: Order, l: seq<Order>)
    requires NewestFirst(l)
    ensures NewestFirst(InsertNewest(o, l))
  {
    if l != [] && o.timestamp < l[0].timestamp {
      var rest := InsertNewest(o, l[1..]);
      InsertKeepsNewestFirst(o, l[1..]);
      forall j | 0 <= j < |rest|
        ensures l[0].timestamp >= rest[j].timestamp
      {
        assert rest[j] in multiset(rest);
        if rest[j] != o {
          assert rest[j] in multiset(l[1..]);
          assert rest[j] in l[1..];
        }
      }
      ConsNewest(l[0], rest);
    } else if l != [] {
      ConsNewest(o, l);
    }
  }

  /** An order no older than every order of a newest-first list can go in front of it. */
  lemma ConsNewest(x: Order, rest: seq<Order>)
    requires NewestFirst(rest)
    requires forall j :: 0 <= j < |rest| ==> x.timestamp >= rest[j].timestamp
    ensures NewestFirst([x] + rest)
  {
    var r := [x] + rest;
    forall i, j | 0 <= i < j < |r|
      ensures r[i].timestamp >= r[j].timestamp
    {
      assert r[j] == rest[j - 1];
      if i > 0 {
        assert r[i] == rest[i - 1];
      }
    }
  }

  /** The `sort` of `loadUserOrders`: newest first, the same orders. */
  function SortNewestFirst(l: seq<Order>): (r: seq<Order>)
    ensures multiset(r) == multiset(l) && |r| == |l|
    ensures NewestFirst(r)
  {
    if l == [] then []
    else
      assert l == [l[0]] + l[1..];
      InsertKeepsNewestFirst(l[0], SortNewestFirst(l[1..]));
      InsertNewest(l[0], SortNewestFirst(l[1..]))
  }

  // --- Consistency of the page's state ---

  /** Orders are only loaded for a logged-in viewer. */
  predicate Loaded(s: TrackingState) {
    s.viewer.None? ==> s.orders == []
  }

  /** The selected order is the first order of the list with its id (the two are one object on the page). */
  predicate CurrentIsListed(s: TrackingState) {
    s.current.Some? ==>
      var k := FindIndex(s.orders, s.current.value.orderId);
      k >= 0 && s.orders[k] == s.current.value
  }

  predicate Consistent(s: TrackingState) {
    Loaded(s) && CurrentIsListed(s)
  }

  // --- Messages ---

  /**
   * `addMessage`: the message is appended, and the whole log is written
   * under the selected order's key when an order is selected.
   */
  function AfterAddMessage(s: TrackingState, content: string, sender: string, now: int): (r: TrackingState)
    ensures r.viewer == s.viewer && r.current == s.current && r.orders == s.orders
    ensures r.messages == s.messages + [Message(content, sender, now)]
    ensures s.current.Some? ==> MessagesAt(r.local, s.current.value.orderId) == r.messages
    ensures forall k :: (s.current.None? || k != MessagesKey(s.current.value.orderId)) ==>
      (k in r.local <==> k in s.local) && (k in s.local ==> r.local[k] == s.local[k])
  {
    var messages := s.messages + [Message(content, sender, now)];
    var local := if s.current.Some? then s.local[MessagesKey(s.current.value.orderId) := MessagesDoc(messages)] else s.local;
    s.(messages := messages, local := local)
  }

  /** `loadOrderMessages`: the stored log, or, when there is none, a log of the driver's greeting alone. */
  function AfterLoadMessages(s: TrackingState, now: int): (r: TrackingState)
    requires s.current.Some?
    ensures r.viewer == s.viewer && r.current == s.current && r.orders == s.orders
    ensures MessagesAt(s.local, s.current.value.orderId) != [] ==> r == s.(messages := MessagesAt(s.local, s.current.value.orderId))
    ensures MessagesAt(s.local, s.current.value.orderId) == [] ==> r.messages == [Message(SeedMessage, DriverSender, now)]
    ensures MessagesAt(r.local, s.current.value.orderId) == r.messages
  {
    var stored := MessagesAt(s.local, s.current.value.orderId);
    if stored == [] then AfterAddMessage(s.(messages := []), SeedMessage, DriverSender, now)
    else s.(messages := stored)
  }

  /** `sendMessage`: nothing happens for a blank input or with no order selected. */
  function AfterSendMessage(s: TrackingState, input: string, now: int): (r: (TrackingState, Outcome<SendError>))
    ensures r.1.Refused? <==> Trim(input) == "" || s.current.None?
    ensures r.1.Refused? ==> r.0 == s
    ensures r.1 == Done ==> r.0 == AfterAddMessage(s, Trim(input), CustomerSender, now)
  {
    var message := Trim(input);
    if message == "" || s.current.None? then (s, Refused(NothingToSend))
    else (AfterAddMessage(s, message, CustomerSender, now), Done)
  }

  // --- Selecting and loading ---

  /** `selectOrder`: the first order with the id becomes current; when there is none, no details or messages are loaded. */
  function AfterSelectOrder(s: TrackingState, id: string, now: int): (r: (TrackingState, Outcome<SelectError>))
    ensures r.0.viewer == s.viewer && r.0.orders == s.orders
    ensures r.0.current == FindOrder(s.orders, id)
    ensures r.1.Refused? <==> r.0.current.None?
    ensures r.1.Refused? ==> r.0 == s.(current := None)
    ensures r.1 == Done ==> MessagesAt(r.0.local, id) == r.0.messages && r.0.messages != []
    ensures Loaded(s) ==> Consistent(r.0)
  {
    var found := FindOrder(s.orders, id);
    if found.None? then (s.(current := None), Refused(OrderNotFound))
    else (AfterLoadMessages(s.(current := found), now), Done)
  }

  /**
   * The constructor's `loadUserOrders`: for a logged-in viewer, the stored
   * orders newest first; a single order is selected at once; then the
   * order named in the address (`urlOrder`, "" when absent) is selected.
   */
  function AfterLoadUserOrders(s: TrackingState, urlOrder: string, now: int): (r: TrackingState)
    requires Loaded(s) && s.current.None?
    ensures Consistent(r)
    ensures s.viewer.None? ==> r == s
    ensures s.viewer.Some? ==> r.orders == SortNewestFirst(OrdersAt(s.local, OrdersKey(s.viewer.value)))
    ensures s.viewer.Some? && urlOrder != "" ==> r.current == FindOrder(r.orders, urlOrder)
    ensures s.viewer.Some? && urlOrder == "" && |r.orders| == 1 ==> r.current == Some(r.orders[0])
    ensures s.viewer.Some? && urlOrder == "" && |r.orders| != 1 ==> r.current == None
  {
    if s.viewer.None? then s
    else
      var s1 := s.(orders := SortNewestFirst(OrdersAt(s.local, OrdersKey(s.viewer.value))));
      var s2 := if |s1.orders| == 1 then AfterSelectOrder(s1, s1.orders[0].orderId, now).0 else s1;
      if urlOrder != "" then AfterSelectOrder(s2, urlOrder, now).0 else s2
  }

  // --- Status updates ---

  /**
   * `saveOrderUpdate`: the selected order replaces the first order with its
   * id, and the list is written back under the viewer's key; when nothing
   * is selected or no order has that id, nothing changes.
   */
  function AfterSaveOrderUpdate(s: TrackingState): (r: TrackingState)
    requires Loaded(s)
    ensures r.viewer == s.viewer && r.current == s.current && r.messages == s.messages
    ensures |r.orders| == |s.orders|
    ensures s.current.None? || FindIndex(s.orders, s.current.value.orderId) == -1 ==> r == s
    ensures s.current.Some? && FindIndex(s.orders, s.current.value.orderId) >= 0 ==>
      var k := FindIndex(s.orders, s.current.value.orderId);
      && r.orders[k] == s.current.value
      && (forall j :: 0 <= j < |s.orders| && j != k ==> r.orders[j] == s.orders[j])
      && OrdersAt(r.local, OrdersKey(s.viewer.value)) == r.orders
  {
    if s.current.None? then s
    else
      var k := FindIndex(s.orders, s.current.value.orderId);
      if k == -1 then s
      else
        var orders := s.orders[k := s.current.value];
        s.(orders := orders, local := s.local[OrdersKey(s.viewer.value) := OrdersDoc(orders)])
  }

  /**
   * The callback of the `k`-th scheduled update: unless nothing is selected
   * or the selected order is delivered, its status becomes the update's,
   * the driver posts the update's message and the order is saved.
   */
  function AfterScheduledUpdate(s: TrackingState, k: nat, now: int): (r: TrackingState)
    requires k < |Updates| && Loaded(s)
    ensures r.viewer == s.viewer && |r.orders| == |s.orders|
    ensures s.current.None? || s.current.value.status == "delivered" ==> r == s
    ensures s.current.Some? && s.current.value.status != "delivered" ==>
      && r.current == Some(s.current.value.(status := Updates[k].0))
      && r.messages == s.messages + [Message(Updates[k].1, DriverSender, now)]
    ensures Consistent(s) ==> Consistent(r)
  {
    if s.current.None? || s.current.value.status == "delivered" then s
    else
      var s1 := s.(current := Some(s.current.value.(status := Updates[k].0)));
      var s2 := AfterAddMessage(s1, Updates[k].1, DriverSender, now);
      AfterSaveOrderUpdate(s2)
  }

  /** `updateTimelineClasses`: step i is completed before the status's step and active at it. */
  function TimelineClasses(status: string): (r: seq<StepClass>)
    ensures |r| == |TimelineStatuses|
  {
    var current := IndexOf(TimelineStatuses, status);
    seq(|TimelineStatuses|, i requires 0 <= i < |TimelineStatuses| => StepClass(i < current, i == current))
  }

  /** `indexOf`: the first position of `x`, or -1. */
  function IndexOf(xs: seq<string>, x: string): (r: int)
    ensures -1 <= r < |xs|
    ensures r == -1 <==> x !in xs
    ensures r >= 0 ==> xs[r] == x && x !in xs[..r]
  {
    if xs == [] then -1
    else if xs[0] == x then 0
    else
      var k := IndexOf(xs[1..], x);
      assert xs == [xs[0]] + xs[1..];
      if k == -1 then -1 else (assert xs[..k + 1] == [xs[0]] + xs[1..][..k]; k + 1)
  }

  // --- Texts ---

  const TrackingLabels: seq<string> := ["Confirmée", "En préparation", "En livraison", "Livrée"]
  const DriverLabels: seq<string> := ["Assignation en cours", "Préparation du colis", "En route", "Mission terminée"]

  /** `getStatusText` of the tracking page: the label of a timeline status, any other status as it is. */
  function StatusText(status: string): (r: string)
    ensures forall i :: 0 <= i < |TimelineStatuses| && status == TimelineStatuses[i] ==> r == TrackingLabels[i]
    ensures status !in TimelineStatuses ==> r == status
  {
    match status
    case "confirmed" => "Confirmée"
    case "preparing" => "En préparation"
    case "shipping" => "En livraison"
    case "delivered" => "Livrée"
    case _ => status
  }

  /** `getDriverStatus`: the driver's side of a timeline status, any other status as it is. */
  function DriverStatus(status: string): (r: string)
    ensures forall i :: 0 <= i < |TimelineStatuses| && status == TimelineStatuses[i] ==> r == DriverLabels[i]
    ensures status !in TimelineStatuses ==> r == status
  {
    match status
    case "confirmed" => "Assignation en cours"
    case "preparing" => "Préparation du colis"
    case "shipping" => "En route"
    case "delivered" => "Mission terminée"
    case _ => status
  }

  /** `getDeliveryEstimate` for the selected order. */
  function DeliveryEstimate(o: Order): (r: string)
    ensures o.status == "shipping" ==> r == "15-30 min"
    ensures o.status != "shipping" && o.order.shippingMethod == "express" ==> r == "24-48h"
    ensures o.status != "shipping" && o.order.shippingMethod != "express" ==> r == "3-5 jours"
  {
    if o.status == "shipping" then "15-30 min"
    else if o.order.shippingMethod == "express" then "24-48h"
    else "3-5 jours"
  }

  // --- Properties ---

  /**
   * The timeline marks the steps before the status's step completed and
   * that step alone active; a status outside the timeline marks nothing.
   */
  lemma TimelineMarks(status: string)
    ensures var r := TimelineClasses(status);
      && (status !in TimelineStatuses ==> forall i :: 0 <= i < |r| ==> !r[i].completed && !r[i].active)
      && (forall i :: 0 <= i < |TimelineStatuses| && status == TimelineStatuses[i] ==>
            (forall j :: 0 <= j < |r| ==> (r[j].active <==> j == i) && (r[j].completed <==> j < i)))
  {
    var k := IndexOf(TimelineStatuses, status);
    forall i | 0 <= i < |TimelineStatuses| && status == TimelineStatuses[i]
      ensures k == i
    {
      assert TimelineStatuses[k] == status;
    }
  }

  /** Once the selected order is delivered, no scheduled update changes anything. */
  lemma DeliveredIsFinal(s: TrackingState, ks: seq<nat>, now: int)
    requires Loaded(s) && s.current.Some? && s.current.value.status == "delivered"
    requires forall i :: 0 <= i < |ks| ==> ks[i] < |Updates|
    ensures ApplyAll(s, ks, now) == s
  {
    if ks != [] {
      DeliveredIsFinal(s, ks[1..], now);
    }
  }

  /** Scheduled updates applied one after another. */
  function ApplyAll(s: TrackingState, ks: seq<nat>, now: int): TrackingState
    requires Loaded(s)
    requires forall i :: 0 <= i < |ks| ==> ks[i] < |Updates|
    decreases |ks|
  {
    if ks == [] then s else ApplyAll(AfterScheduledUpdate(s, ks[0], now), ks[1..], now)
  }

  /**
   * The guard only stops updates after delivery, so a late "preparing"
   * update takes an order in delivery back to preparation: this happens when
   * the order is selected again and the second selection's first update
   * fires after the first selection's second one.
   */
  lemma StatusCanRegress(s: TrackingState, now: int)
    requires Consistent(s) && s.current.Some? && s.current.value.status == "shipping"
    ensures AfterScheduledUpdate(s, 0, now).current.value.status == "preparing"
  {
  }

  /** The message log only grows: each message step keeps every earlier message in place and adds one at the end. */
  lemma MessagesAppendOnly(s: TrackingState, input: string, now: int)
    ensures var r := AfterSendMessage(s, input, now).0;
      && s.messages <= r.messages
      && |r.messages| <= |s.messages| + 1
  {
  }

  /**
   * A status update of the selected order replaces, in the list and in the
   * viewer's stored list, exactly the order with its id; every other order
   * stays where it was.
   */
  lemma ScheduledUpdateReplacesById(s: TrackingState, k: nat, now: int)
    requires Consistent(s) && k < |Updates|
    requires s.current.Some? && s.current.value.status != "delivered"
    ensures var r := AfterScheduledUpdate(s, k, now);
      var i := FindIndex(s.orders, s.current.value.orderId);
      && 0 <= i < |s.orders| && |r.orders| == |s.orders|
      && r.orders[i] == s.orders[i].(status := Updates[k].0)
      && (forall j :: 0 <= j < |s.orders| && j != i ==> r.orders[j] == s.orders[j])
      && OrdersAt(r.local, OrdersKey(s.viewer.value)) == r.orders
  {
  }

  /**
   * An order placed at checkout is among the orders the tracking page loads
   * for its buyer, and selecting its id finds an order with that id.
   */
  lemma PlacedOrderIsTracked(c: Checkout.CheckoutState, u: User, required: seq<string>, delivery: Delivery,
                             discreet: bool, noContact: bool, express: bool, now: nat, messages: seq<Message>)
    requires c.cart != [] && Checkout.AllFilled(required)
    ensures var placed := Checkout.AfterSubmission(c, Some(u), required, delivery, discreet, noContact, express, now).0;
      var o := Checkout.CollectOrderData(u.pseudonyme, c.cart, c.shippingCost, delivery, discreet, noContact, express, now);
      var t := AfterLoadUserOrders(TrackingState(Some(u.pseudonyme), None, [], messages, placed.local), "", now);
      && o in t.orders
      && FindOrder(t.orders, o.orderId).Some?
  {
    Checkout.SubmissionSavesOrder(c, u, required, delivery, discreet, noContact, express, now);
    var placed := Checkout.AfterSubmission(c, Some(u), required, delivery, discreet, noContact, express, now).0;
    var o := Checkout.CollectOrderData(u.pseudonyme, c.cart, c.shippingCost, delivery, discreet, noContact, express, now);
    var stored := OrdersAt(placed.local, OrdersKey(u.pseudonyme));
    assert o in multiset(stored);
    var t := AfterLoadUserOrders(TrackingState(Some(u.pseudonyme), None, [], messages, placed.local), "", now);
    assert o in multiset(t.orders);
  }

  /**
   * A freshly placed order is "confirmed", for which the two pages show
   * different texts: the tracking page its label, the profile page the raw
   * status, since its table has no entry for it.
   */
  lemma ConfirmedLabelsDiffer()
    ensures StatusText("confirmed") == "Confirmée"
    ensures Profile.ProfileStatusText("confirmed") == "confirmed"
  {
  }

  /** A confirmed order's estimate follows the shipping method chosen at checkout. */
  lemma EstimateOfPlacedOrder(p: string, cart: seq<CartItem>, shippingCost: int, delivery: Delivery,
                              discreet: bool, noContact: bool, express: bool, now: nat)
    ensures var o := Checkout.CollectOrderData(p, cart, shippingCost, delivery, discreet, noContact, express, now);
      DeliveryEstimate(o) == if express then "24-48h" else "3-5 jours"
  {
  }

  /** The controller of the order-tracking page. */
  class UrDesireOrderTracking {
    /** The pseudonyme of `getCurrentUser()`, or null when nobody is logged in. */
    const viewer: Option<string>
    var currentOrder: Option<Order>
    var orders: seq<Order>
    var messages: seq<Message>
    const local: WebStorage

    ghost predicate Valid()
      reads this, local
    {
      local.Valid() && Consistent(State())
    }

    function State(): TrackingState
      reads this, local
    {
      TrackingState(viewer, currentOrder, orders, messages, local.items)
    }

    /** The constructor: `checkAuthentication`, then `loadUserOrders` with the order id of the address. */
    constructor (viewer: Option<string>, local: WebStorage, urlOrder: string, now: int)
      requires local.Valid()
      modifies local
      ensures Valid() && this.local == local
      ensures State() == AfterLoadUserOrders(TrackingState(viewer, None, [], [], old(local.items)), urlOrder, now)
    {
      this.viewer := viewer;
      this.local := local;
      currentOrder := None;
      orders := [];
      messages := [];
      new;
      LoadUserOrders(urlOrder, now);
    }

    /** `loadUserOrders`, with `displayOrders` and `loadOrderFromURL`. */
    method LoadUserOrders(urlOrder: string, now: int)
      requires Valid() && currentOrder.None?
      modifies this, local
      ensures Valid() && State() == AfterLoadUserOrders(old(State()), urlOrder, now)
    {
      if viewer.None? {
        return;
      }
      orders := SortNewestFirst(OrdersAt(local.items, OrdersKey(viewer.value)));
      ghost var loaded := State();
      if |orders| == 1 {
        var _ := SelectOrder(orders[0].orderId, now);
      }
      ghost var shown := State();
      assert shown == if |loaded.orders| == 1 then AfterSelectOrder(loaded, loaded.orders[0].orderId, now).0 else loaded;
      if urlOrder != "" {
        var _ := SelectOrder(urlOrder, now);
      }
    }

    /** `selectOrder`. */
    method SelectOrder(id: string, now: int) returns (outcome: Outcome<SelectError>)
      requires local.Valid() && Loaded(State())
      modifies this, local
      ensures local.Valid() && Consistent(State())
      ensures (State(), outcome) == AfterSelectOrder(old(State()), id, now)
    {
      currentOrder := FindOrder(orders, id);
      if currentOrder.None? {
        return Refused(OrderNotFound);
      }
      LoadOrderMessages(now);
      outcome := Done;
    }

    /** `loadOrderMessages`. */
    method LoadOrderMessages(now: int)
      requires local.Valid() && currentOrder.Some?
      modifies this, local
      ensures local.Valid() && State() == AfterLoadMessages(old(State()), now)
    {
      messages := MessagesAt(local.items, currentOrder.value.orderId);
      if |messages| == 0 {
        AddMessage(SeedMessage, DriverSender, now);
      }
    }

    /** `addMessage`, with `saveMessages`. */
    method AddMessage(content: string, sender: string, now: int)
      requires local.Valid()
      modifies this, local
      ensures local.Valid() && State() == AfterAddMessage(old(State()), content, sender, now)
    {
      messages := messages + [Message(content, sender, now)];
      if currentOrder.Some? {
        MessagesFits(currentOrder.value.orderId, messages);
        local.SetItem(MessagesKey(currentOrder.value.orderId), MessagesDoc(messages));
      }
    }

    /** `sendMessage` (the driver's canned reply two seconds later is `AddMessage` with the driver as sender). */
    method SendMessage(input: string, now: int) returns (outcome: Outcome<SendError>)
      requires Valid()
      modifies this, local
      ensures Valid() && (State(), outcome) == AfterSendMessage(old(State()), input, now)
    {
      var message := Trim(input);
      if message == "" || currentOrder.None? {
        return Refused(NothingToSend);
      }
      AddMessage(message, CustomerSender, now);
      outcome := Done;
    }

    /** The callback of the `k`-th update scheduled by `simulateDriverUpdates`. */
    method ApplyScheduledUpdate(k: nat, now: int)
      requires Valid() && k < |Updates|
      modifies this, local
      ensures Valid() && State() == AfterScheduledUpdate(old(State()), k, now)
    {
      if currentOrder.Some? && currentOrder.value.status != "delivered" {
        currentOrder := Some(currentOrder.value.(status := Updates[k].0));
        AddMessage(Updates[k].1, DriverSender, now);
        SaveOrderUpdate();
      }
    }

    /** `saveOrderUpdate`. */
    method SaveOrderUpdate()
      requires local.Valid() && Loaded(State())
      modifies this, local
      ensures local.Valid() && State() == AfterSaveOrderUpdate(old(State()))
    {
      if currentOrder.None? {
        return;
      }
      var k := FindIndex(orders, currentOrder.value.orderId);
      if k != -1 {
        orders := orders[k := currentOrder.value];
        OrdersFits(viewer.value, orders);
        local.SetItem(OrdersKey(viewer.value), OrdersDoc(orders));
      }
    }
  }
}
