/**
 * The records the storefront keeps in browser storage, as the JSON objects
 * its scripts build.  Timestamps are integers (milliseconds); prices and
 * amounts are whole francs CFA.
 */
module Records {

  /** An account, as `handleRegister` builds it and `saveUser` stores it. */
  datatype User = User(
    pseudonyme: string,
    password: string,
    question: string,
    reponse: string,
    dateInscription: int,
    lastLogin: int)

  /** One entry of a user's address book on the profile page. */
  datatype Address = Address(
    name: string,
    phone: string,
    full: string,
    city: string,
    zip: string,
    instructions: string,
    isDefault: bool)

  /** One line of the shopping cart. */
  datatype CartItem = CartItem(name: string, price: int, quantity: int)

  /** The delivery block of an order (the checkout form's fields). */
  datatype Delivery = Delivery(
    firstName: string,
    lastName: string,
    address: string,
    city: string,
    postcode: string,
    phone: string,
    email: string,
    instructions: string)

  /** The privacy options of an order and the id shown to the driver. */
  datatype Privacy = Privacy(discreetPackaging: bool, noContactDelivery: bool, customerId: string)

  /** The `order` block of an order: what was bought and what it costs. */
  datatype Summary = Summary(
    items: seq<CartItem>,
    subtotal: int,
    shipping: int,
    total: int,
    shippingMethod: string)

  /** An order as `collectOrderData` builds it and `saveOrder` stores it. */
  datatype Order = Order(
    orderId: string,
    pseudonyme: string,
    timestamp: int,
    delivery: Delivery,
    privacy: Privacy,
    order: Summary,
    status: string)

  /** One entry of the chat between a customer and the driver of an order. */
  datatype Message = Message(content: string, sender: string, timestamp: int)

  /**
   * The order shape the profile page lists from key `urdesire_orders`:
   * `id`, `date`, `total`, `status` and an owner field `username`, which
   * an order written by checkout does not have (None).
   */
  datatype OrderRow = OrderRow(id: string, date: string, total: int, status: string, username: Option<string>)

  datatype Option<+T> = None | Some(value: T)

  /** How a user action ended: it went through, or it was refused for a reason the page reports. */
  datatype Outcome<+E> = Done | Refused(error: E)
}
