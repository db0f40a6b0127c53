/**
 * Browser storage: two string-keyed tiers, `localStorage` (durable) and
 * `sessionStorage` (cleared with the browsing session).  The scripts store
 * `JSON.stringify(v)` and read back `JSON.parse(...)`; since that round trip
 * gives back the same document, a tier here maps each key to the parsed
 * document itself (`Doc`).  The current-user entry `urdesire_current_user`
 * is a bare string (`Raw`) in either tier, as the scripts store it.
 */
module Storage {
  import opened Records

  datatype Doc =
    | Raw(text: string)
    | UserDoc(user: User)
    | CartDoc(items: seq<CartItem>)
    | OrdersDoc(orders: seq<Order>)
    | MessagesDoc(messages: seq<Message>)
    | AddressesDoc(book: map<string, seq<Address>>)
    | UsersDoc(users: map<string, map<string, string>>)
    | OrderRowsDoc(rows: seq<OrderRow>)

  type Store = map<string, Doc>

  // --- The key layout ---

  /** `storagePrefix` of the account store. */
  const Prefix := "urdesire_"
  const UserPrefix := "urdesire_user_"
  const CurrentUserKey := Prefix + "current_user"
  const CartKey := "urdesire_cart"
  const OrdersPrefix := "urdesire_orders_"
  const AllOrdersKey := "urdesire_all_orders"
  const MessagesPrefix := "urdesire_messages_"
  const AddressesKey := "urdesire_addresses"
  /** The account table the profile page reads; no script of the store writes it. */
  const UsersKey := "urdesire_users"
  /** The order list the profile page reads; checkout writes per-user keys instead. */
  const ProfileOrdersKey := "urdesire_orders"

  /** The key of an account, built as `storagePrefix + "user_" + pseudonyme`. */
  function UserKey(p: string): string {
    Prefix + "user_" + p
  }

  function OrdersKey(p: string): string {
    OrdersPrefix + p
  }

  function MessagesKey(orderId: string): string {
    MessagesPrefix + orderId
  }

  predicate HasPrefix(k: string, pre: string) {
    |pre| <= |k| && k[..|pre|] == pre
  }

  /**
   * The kind of document each key family holds.  An account key holds the
   * account of the pseudonyme it names.
   */
  predicate Fits(k: string, d: Doc) {
    if HasPrefix(k, UserPrefix) then d.UserDoc? && d.user.pseudonyme == k[|UserPrefix|..]
    else if k == CurrentUserKey then d.Raw?
    else if k == CartKey then d.CartDoc?
    else if HasPrefix(k, OrdersPrefix) || k == AllOrdersKey then d.OrdersDoc?
    else if HasPrefix(k, MessagesPrefix) then d.MessagesDoc?
    else if k == AddressesKey then d.AddressesDoc?
    else if k == UsersKey then d.UsersDoc?
    else if k == ProfileOrdersKey then d.OrderRowsDoc?
    else true
  }

  /** Every key holds the kind of document its family prescribes. */
  ghost predicate WellTyped(m: Store) {
    forall k :: k in m ==> Fits(k, m[k])
  }

  // --- Reading a tier (`JSON.parse(getItem(k))` with the scripts' defaults) ---

  /** `getUserByPseudonyme`: the stored account, or null. */
  function UserAt(m: Store, p: string): Option<User> {
    var k := UserKey(p);
    if k in m && m[k].UserDoc? then Some(m[k].user) else None
  }

  /** `getItem(k)` for a key that holds a bare string; null and "" are both falsy, read as "". */
  function RawAt(m: Store, k: string): string {
    if k in m && m[k].Raw? then m[k].text else ""
  }

  /** `JSON.parse(getItem(k) || "[]")` for an order list. */
  function OrdersAt(m: Store, k: string): seq<Order> {
    if k in m && m[k].OrdersDoc? then m[k].orders else []
  }

  /** `savedCart ? JSON.parse(savedCart) : []`. */
  function CartIn(m: Store): seq<CartItem> {
    if CartKey in m && m[CartKey].CartDoc? then m[CartKey].items else []
  }

  /** `savedMessages ? JSON.parse(savedMessages) : []`. */
  function MessagesAt(m: Store, orderId: string): seq<Message> {
    var k := MessagesKey(orderId);
    if k in m && m[k].MessagesDoc? then m[k].messages else []
  }

  /** `JSON.parse(getItem("urdesire_addresses")) || {}`. */
  function BookIn(m: Store): map<string, seq<Address>> {
    if AddressesKey in m && m[AddressesKey].AddressesDoc? then m[AddressesKey].book else map[]
  }

  /** `JSON.parse(getItem("urdesire_users")) || {}`. */
  function UsersIn(m: Store): map<string, map<string, string>> {
    if UsersKey in m && m[UsersKey].UsersDoc? then m[UsersKey].users else map[]
  }

  /** `JSON.parse(getItem("urdesire_orders")) || []`. */
  function RowsIn(m: Store): seq<OrderRow> {
    if ProfileOrdersKey in m && m[ProfileOrdersKey].OrderRowsDoc? then m[ProfileOrdersKey].rows else []
  }

  // --- Facts about the key layout ---

  /** Distinct pseudonymes have distinct account keys. */
  lemma UserKeyInjective(p: string, q: string)
    ensures UserKey(p) == UserKey(q) <==> p == q
  {
    if UserKey(p) == UserKey(q) {
      var n := |Prefix + "user_"|;
      assert p == UserKey(p)[n..];
      assert q == UserKey(q)[n..];
    }
  }

  /** The account key is the family prefix followed by the pseudonyme. */
  lemma UserKeyShape(p: string)
    ensures HasPrefix(UserKey(p), UserPrefix) && UserKey(p)[|UserPrefix|..] == p
    ensures UserKey(p) == UserPrefix + p
  {
    assert Prefix + "user_" == UserPrefix;
  }

  /**
   * Under the typing invariant, the scripts' truthiness test on
   * `getItem(userKey)` is exactly "an account is stored", and the account
   * read back carries the pseudonyme it was looked up by.
   */
  lemma UserAtMeansPresent(m: Store, p: string)
    requires WellTyped(m)
    ensures UserAt(m, p).Some? <==> UserKey(p) in m
    ensures UserAt(m, p).Some? ==> UserAt(m, p).value.pseudonyme == p
  {
    UserKeyShape(p);
    if UserKey(p) in m {
      assert Fits(UserKey(p), m[UserKey(p)]);
    }
  }

  // Each write the scripts make puts the right kind of document under its key.

  lemma UserFits(u: User)
    ensures Fits(UserKey(u.pseudonyme), UserDoc(u))
  {
    UserKeyShape(u.pseudonyme);
  }

  lemma CurrentEntryFits(p: string)
    ensures Fits(CurrentUserKey, Raw(p))
  {
    assert CurrentUserKey[9] == 'c';
  }

  lemma OrdersFits(p: string, l: seq<Order>)
    ensures Fits(OrdersKey(p), OrdersDoc(l))
    ensures OrdersKey(p) != AllOrdersKey
  {
    var k := OrdersKey(p);
    assert k[..|OrdersPrefix|] == OrdersPrefix;
    assert k[9] == 'o' && UserPrefix[9] == 'u' && CurrentUserKey[9] == 'c' && AllOrdersKey[9] == 'a';
    assert !HasPrefix(k, UserPrefix);
  }

  lemma AllOrdersFits(l: seq<Order>)
    ensures Fits(AllOrdersKey, OrdersDoc(l))
  {
    assert AllOrdersKey[9] == 'a';
  }

  lemma MessagesFits(orderId: string, l: seq<Message>)
    ensures Fits(MessagesKey(orderId), MessagesDoc(l))
  {
    var k := MessagesKey(orderId);
    assert k[..|MessagesPrefix|] == MessagesPrefix;
    assert k[9] == 'm' && UserPrefix[9] == 'u' && OrdersPrefix[9] == 'o';
    assert k != CurrentUserKey && k != CartKey && k != AllOrdersKey by {
      assert CurrentUserKey[9] == 'c' && CartKey[9] == 'c' && AllOrdersKey[9] == 'a';
    }
  }

  lemma AddressesFits(b: map<string, seq<Address>>)
    ensures Fits(AddressesKey, AddressesDoc(b))
  {
    assert AddressesKey[9] == 'a';
  }

  lemma UsersFits(t: map<string, map<string, string>>)
    ensures Fits(UsersKey, UsersDoc(t))
  {
    assert UsersKey[13] == 's' && UserPrefix[13] == '_';
  }

  /** One tier of browser storage. */
  class WebStorage {
    var items: Store

    ghost predicate Valid()
      reads this
    {
      WellTyped(items)
    }

    constructor (initial: Store)
      requires WellTyped(initial)
      ensures Valid() && items == initial
    {
      items := initial;
    }

    /** `setItem(k, JSON.stringify(d))`. */
    method SetItem(k: string, d: Doc)
      requires Valid() && Fits(k, d)
      modifies this
      ensures Valid() && items == old(items)[k := d]
    {
      items := items[k := d];
    }

    /** `removeItem(k)`. */
    method RemoveItem(k: string)
      requires Valid()
      modifies this
      ensures Valid() && items == old(items) - {k}
    {
      items := items - {k};
    }
  }
}
