/**
 * The profile page (`UrDesireProfile`): a per-user address book kept in the
 * durable tier under `urdesire_addresses` (a map from pseudonyme to a list
 * of addresses), the bio kept in the `urdesire_users` table, and the list
 * of the user's orders read from `urdesire_orders`.
 *
 * Each operation reads the whole book, changes the current user's list and
 * writes the whole book back.  The functions below give each operation's
 * effect; the class performs it step by step and is proved to agree.
 */
module Profile {
  import opened Records
  import opened Storage

  /**
   * The logged-in user's pseudonyme, the `bio` cached on `currentUser`, the
   * index of the address being edited (`currentEditingAddress`) and the
   * durable tier.
   */
  datatype ProfileState = ProfileState(pseudonyme: string, bio: Option<string>, editing: Option<nat>, local: Store)

  datatype AddressError = MissingField

  // --- The address book ---

  /** `addresses[pseudonyme] || []`. */
  function ListOf(book: map<string, seq<Address>>, p: string): seq<Address> {
    if p in book then book[p] else []
  }

  /** Only the address book's entry for `p` may differ; every other key and every other user's list is as before. */
  ghost predicate OnlyEntryChanged(before: Store, after: Store, p: string) {
    && (forall k :: k != AddressesKey ==> (k in before <==> k in after))
    && (forall k :: k in before && k != AddressesKey ==> after[k] == before[k])
    && (forall q :: q != p ==> (q in BookIn(before) <==> q in BookIn(after)))
    && (forall q :: q in BookIn(before) && q != p ==> BookIn(after)[q] == BookIn(before)[q])
  }

  /** `addresses[p] = list; setItem("urdesire_addresses", ...)`. */
  function WriteList(m: Store, p: string, l: seq<Address>): (r: Store)
    ensures OnlyEntryChanged(m, r, p)
    ensures ListOf(BookIn(r), p) == l
  {
    m[AddressesKey := AddressesDoc(BookIn(m)[p := l])]
  }

  /** At most one address of the list is the default one. */
  predicate AtMostOneDefault(l: seq<Address>) {
    forall i, j :: 0 <= i < |l| && 0 <= j < |l| && l[i].isDefault && l[j].isDefault ==> i == j
  }

  /**
   * The `forEach` of `saveAddress` after a default address is saved at
   * `keep`: every other address loses the default flag, and nothing else
   * about any address changes.
   */
  function ClearOthers(l: seq<Address>, keep: nat): (r: seq<Address>)
    ensures |r| == |l|
    ensures forall i :: 0 <= i < |l| ==> r[i].(isDefault := l[i].isDefault) == l[i]
    ensures forall i :: 0 <= i < |l| && i != keep ==> !r[i].isDefault
    ensures keep < |l| ==> r[keep] == l[keep]
  {
    seq(|l|, i requires 0 <= i < |l| => if i == keep then l[i] else l[i].(isDefault := false))
  }

  /** The `forEach` of `setDefaultAddress(index)`: only the flags change, and the flag is set exactly at `index`. */
  function MarkDefault(l: seq<Address>, index: int): (r: seq<Address>)
    ensures |r| == |l|
    ensures forall i :: 0 <= i < |l| ==> r[i].(isDefault := l[i].isDefault) == l[i]
    ensures forall i :: 0 <= i < |l| ==> (r[i].isDefault <==> i == index)
  {
    seq(|l|, i requires 0 <= i < |l| => l[i].(isDefault := i == index))
  }

  /** Where `Array.prototype.splice(i, ...)` starts: a negative `i` counts from the end; both ends are clamped. */
  function SpliceStart(len: nat, i: int): (start: nat)
    ensures start <= len
    ensures 0 <= i <= len ==> start == i
    ensures i < 0 && 0 <= len + i ==> start == len + i
    ensures i > len ==> start == len
    ensures i + len < 0 ==> start == 0
  {
    if i < 0 then (if i + len < 0 then 0 else i + len) else if i > len then len else i
  }

  /** `list.splice(i, 1)`: the element at the start position goes, the rest keep their order. */
  function SpliceOne(l: seq<Address>, i: int): (r: seq<Address>)
    ensures var st := SpliceStart(|l|, i);
      && (st < |l| ==> |r| == |l| - 1)
      && (st == |l| ==> r == l)
      && (forall j :: 0 <= j < st && j < |r| ==> r[j] == l[j])
      && (forall j :: st <= j < |r| ==> r[j] == l[j + 1])
  {
    var st := SpliceStart(|l|, i);
    if st < |l| then l[..st] + l[st + 1..] else l
  }

  /** The edited index is still a position of the list, or just past its end. */
  predicate EditInRange(l: seq<Address>, editing: Option<nat>) {
    editing.Some? ==> editing.value <= |l|
  }

  /** Where `saveAddress` puts the address: the edited index, or the end. */
  function PlacedIndex(l: seq<Address>, editing: Option<nat>): nat {
    if editing.Some? then editing.value else |l|
  }

  /** The list `saveAddress` writes back: the address pushed or assigned at the edited index, then the other defaults cleared. */
  function SavedList(l: seq<Address>, editing: Option<nat>, a: Address): seq<Address>
    requires EditInRange(l, editing)
  {
    var at := PlacedIndex(l, editing);
    var placed := if at == |l| then l + [a] else l[at := a];
    if a.isDefault then ClearOthers(placed, at) else placed
  }

  /** An address is complete when name, phone, street, city and postcode are all non-empty. */
  predicate Complete(a: Address) {
    a.name != "" && a.phone != "" && a.full != "" && a.city != "" && a.zip != ""
  }

  /** `saveAddress`: refused for an incomplete address; otherwise the list is written back and the form closes. */
  function AfterSaveAddress(s: ProfileState, a: Address): (r: (ProfileState, Outcome<AddressError>))
    requires EditInRange(ListOf(BookIn(s.local), s.pseudonyme), s.editing)
    ensures r.1.Refused? <==> !Complete(a)
    ensures r.1.Refused? ==> r.0 == s
    ensures r.1 == Done ==>
      && r.0 == s.(editing := None, local := r.0.local)
      && OnlyEntryChanged(s.local, r.0.local, s.pseudonyme)
      && ListOf(BookIn(r.0.local), s.pseudonyme) == SavedList(ListOf(BookIn(s.local), s.pseudonyme), s.editing, a)
  {
    if !Complete(a) then (s, Refused(MissingField))
    else
      var l := ListOf(BookIn(s.local), s.pseudonyme);
      (s.(editing := None, local := WriteList(s.local, s.pseudonyme, SavedList(l, s.editing, a))), Done)
  }

  /** `deleteAddress(i)`. */
  function AfterDeleteAddress(s: ProfileState, i: int): (r: ProfileState)
    ensures r == s.(local := r.local)
    ensures OnlyEntryChanged(s.local, r.local, s.pseudonyme)
    ensures ListOf(BookIn(r.local), s.pseudonyme) == SpliceOne(ListOf(BookIn(s.local), s.pseudonyme), i)
  {
    s.(local := WriteList(s.local, s.pseudonyme, SpliceOne(ListOf(BookIn(s.local), s.pseudonyme), i)))
  }

  /** `setDefaultAddress(i)`. */
  function AfterSetDefaultAddress(s: ProfileState, i: int): (r: ProfileState)
    ensures r == s.(local := r.local)
    ensures OnlyEntryChanged(s.local, r.local, s.pseudonyme)
    ensures ListOf(BookIn(r.local), s.pseudonyme) == MarkDefault(ListOf(BookIn(s.local), s.pseudonyme), i)
  {
    s.(local := WriteList(s.local, s.pseudonyme, MarkDefault(ListOf(BookIn(s.local), s.pseudonyme), i)))
  }

  // --- The bio ---

  /**
   * `saveProfileInfo(bio)`: only when the user has an entry in the
   * `urdesire_users` table does the entry's `bio` change (and the cached
   * one); otherwise nothing changes.
   */
  function AfterSaveProfileInfo(s: ProfileState, bio: string): (r: ProfileState)
    ensures s.pseudonyme !in UsersIn(s.local) ==> r == s
    ensures s.pseudonyme in UsersIn(s.local) ==>
      && r.bio == Some(bio) && r.editing == s.editing
      && s.pseudonyme in UsersIn(r.local)
      && "bio" in UsersIn(r.local)[s.pseudonyme] && UsersIn(r.local)[s.pseudonyme]["bio"] == bio
      && UsersIn(r.local)[s.pseudonyme] - {"bio"} == UsersIn(s.local)[s.pseudonyme] - {"bio"}
      && (forall q :: q != s.pseudonyme ==> (q in UsersIn(r.local) <==> q in UsersIn(s.local)))
      && (forall q :: q in UsersIn(s.local) && q != s.pseudonyme ==> UsersIn(r.local)[q] == UsersIn(s.local)[q])
      && (forall k :: k != UsersKey ==> (k in r.local <==> k in s.local))
      && (forall k :: k in s.local && k != UsersKey ==> r.local[k] == s.local[k])
  {
    var users := UsersIn(s.local);
    if s.pseudonyme in users then
      var users' := users[s.pseudonyme := users[s.pseudonyme]["bio" := bio]];
      s.(bio := Some(bio), local := s.local[UsersKey := UsersDoc(users')])
    else s
  }

  // --- Orders and statuses ---

  /** The `loadOrders` filter: the rows whose `username` is the user's pseudonyme, in their stored order. */
  function UserOrders(rows: seq<OrderRow>, p: string): (r: seq<OrderRow>)
    ensures |r| <= |rows|
    ensures forall x :: x in r <==> x in rows && x.username == Some(p)
  {
    if rows == [] then []
    else
      var rest := UserOrders(rows[..|rows| - 1], p);
      var last := rows[|rows| - 1];
      assert rows == rows[..|rows| - 1] + [last];
      if last.username == Some(p) then rest + [last] else rest
  }

  /**
   * The filter keeps the stored order and every repeated row: filtering a
   * concatenation filters each part, and a single row is kept exactly when
   * it belongs to the user.
   */
  lemma {:induction false} UserOrdersConcat(a: seq<OrderRow>, b: seq<OrderRow>, p: string)
    ensures UserOrders(a + b, p) == UserOrders(a, p) + UserOrders(b, p)
    ensures |b| == 1 ==> UserOrders(b, p) == if b[0].username == Some(p) then b else []
    decreases |b|
  {
    if b == [] {
      assert a + b == a;
    } else {
      var b' := b[..|b| - 1];
      assert (a + b)[..|a + b| - 1] == a + b';
      UserOrdersConcat(a, b', p);
      if |b| == 1 {
        assert b' == [];
      }
    }
  }

  const ProfileStatuses: seq<string> := ["pending", "processing", "shipped", "delivered", "cancelled"]
  const ProfileLabels: seq<string> := ["En attente", "En traitement", "Expédiée", "Livrée", "Annulée"]

  /** `getStatusText` of the profile page: the label of a known status, any other status as it is. */
  function ProfileStatusText(status: string): (r: string)
    ensures forall i :: 0 <= i < |ProfileStatuses| && status == ProfileStatuses[i] ==> r == ProfileLabels[i]
    ensures status !in ProfileStatuses ==> r == status
  {
    match status
    case "pending" => "En attente"
    case "processing" => "En traitement"
    case "shipped" => "Expédiée"
    case "delivered" => "Livrée"
    case "cancelled" => "Annulée"
    case _ => status
  }

  // --- Properties ---

  /**
   * Saving an address puts it at the edited index, or at the end when no
   * address is being edited; the other addresses stay where they were and
   * change only by losing the default flag, which happens exactly when the
   * saved address is the default.
   */
  lemma SaveAddressPlacement(l: seq<Address>, editing: Option<nat>, a: Address)
    requires EditInRange(l, editing)
    ensures var r := SavedList(l, editing, a); var at := PlacedIndex(l, editing);
      && (editing.None? ==> at == |l|)
      && |r| == (if at == |l| then |l| + 1 else |l|)
      && r[at] == a
      && (forall j :: 0 <= j < |l| && j != at ==> r[j] == if a.isDefault then l[j].(isDefault := false) else l[j])
  {
  }

  /**
   * The address book keeps at most one default: saving a default address
   * leaves it the only default, and saving any address keeps the invariant.
   */
  lemma SaveAddressKeepsOneDefault(l: seq<Address>, editing: Option<nat>, a: Address)
    requires EditInRange(l, editing)
    ensures a.isDefault ==> forall j :: 0 <= j < |SavedList(l, editing, a)| ==>
      (SavedList(l, editing, a)[j].isDefault <==> j == PlacedIndex(l, editing))
    ensures AtMostOneDefault(l) ==> AtMostOneDefault(SavedList(l, editing, a))
  {
    var r := SavedList(l, editing, a);
    var at := PlacedIndex(l, editing);
    SaveAddressPlacement(l, editing, a);
    if !a.isDefault && AtMostOneDefault(l) {
      forall i, j | 0 <= i < |r| && 0 <= j < |r| && r[i].isDefault && r[j].isDefault
        ensures i == j
      {
        assert i != at && j != at;
        assert r[i] == l[i] && r[j] == l[j];
      }
    }
  }

  /**
   * Deleting the address at a position of the list removes exactly that
   * address and keeps the others in order.
   */
  lemma DeleteRemovesExactly(l: seq<Address>, i: int)
    requires 0 <= i < |l|
    ensures var r := SpliceOne(l, i);
      && |r| == |l| - 1
      && r == l[..i] + l[i + 1..]
      && multiset(r) + multiset{l[i]} == multiset(l)
  {
    var r := SpliceOne(l, i);
    assert l == l[..i] + [l[i]] + l[i + 1..];
    assert r == l[..i] + l[i + 1..];
  }

  /** Deleting an address never creates a second default. */
  lemma {:induction false} DeleteKeepsOneDefault(l: seq<Address>, i: int)
    requires AtMostOneDefault(l)
    ensures AtMostOneDefault(SpliceOne(l, i))
  {
    var r := SpliceOne(l, i);
    var st := SpliceStart(|l|, i);
    forall x, y | 0 <= x < |r| && 0 <= y < |r| && r[x].isDefault && r[y].isDefault
      ensures x == y
    {
      var x' := if x < st then x else x + 1;
      var y' := if y < st then y else y + 1;
      assert r[x] == l[x'] && r[y] == l[y'];
    }
  }

  /**
   * Setting the default at a position leaves exactly that address default;
   * an index outside the list leaves no default at all.
   */
  lemma SetDefaultExactlyOne(l: seq<Address>, i: int)
    ensures 0 <= i < |l| ==> MarkDefault(l, i)[i].isDefault && AtMostOneDefault(MarkDefault(l, i))
    ensures !(0 <= i < |l|) ==> forall j :: 0 <= j < |l| ==> !MarkDefault(l, i)[j].isDefault
  {
  }

  /** The profile's order list comes from `urdesire_orders`, a key that no per-user order list of checkout can be. */
  lemma ProfileOrdersKeyIsNotAUserList(p: string)
    ensures OrdersKey(p) != ProfileOrdersKey
  {
    assert |OrdersKey(p)| > |ProfileOrdersKey|;
  }

  /** The controller of the profile page. */
  class UrDesireProfile {
    /** `currentUser.pseudonyme`; the page only runs with a logged-in user. */
    const pseudonyme: string
    var bio: Option<string>
    var editing: Option<nat>
    const local: WebStorage

    ghost predicate Valid()
      reads this, local
    {
      local.Valid()
    }

    function State(): ProfileState
      reads this, local
    {
      ProfileState(pseudonyme, bio, editing, local.items)
    }

    /** `checkAuthentication` found `current` logged in. */
    constructor (current: User, local: WebStorage)
      requires local.Valid()
      ensures Valid() && this.local == local
      ensures State() == ProfileState(current.pseudonyme, None, None, local.items)
    {
      pseudonyme := current.pseudonyme;
      bio := None;
      editing := None;
      this.local := local;
    }

    /** `showAddressForm(index)`: editing the address at `index`, or adding one when `index` is null. */
    method ShowAddressForm(index: Option<nat>)
      modifies this
      ensures State() == old(State()).(editing := index)
    {
      editing := index;
    }

    /** `hideAddressForm`. */
    method HideAddressForm()
      modifies this
      ensures State() == old(State()).(editing := None)
    {
      editing := None;
    }

    /** `saveAddress`. */
    method SaveAddress(a: Address) returns (outcome: Outcome<AddressError>)
      requires Valid() && EditInRange(ListOf(BookIn(local.items), pseudonyme), editing)
      modifies this, local
      ensures Valid() && (State(), outcome) == AfterSaveAddress(old(State()), a)
    {
      if a.name == "" || a.phone == "" || a.full == "" || a.city == "" || a.zip == "" {
        return Refused(MissingField);
      }
      var book := BookIn(local.items);
      var list := ListOf(book, pseudonyme);
      ghost var before := list;
      var at := if editing.Some? then editing.value else |list|;
      if at == |list| {
        list := list + [a];
      } else {
        list := list[at := a];
      }
      if a.isDefault {
        list := ClearOtherDefaults(list, at);
      }
      assert list == SavedList(before, editing, a);
      AddressesFits(book[pseudonyme := list]);
      local.SetItem(AddressesKey, AddressesDoc(book[pseudonyme := list]));
      editing := None;
      outcome := Done;
    }

    /** `deleteAddress(i)`. */
    method DeleteAddress(i: int)
      requires Valid()
      modifies local
      ensures Valid() && State() == AfterDeleteAddress(old(State()), i)
    {
      var book := BookIn(local.items);
      var list := SpliceOne(ListOf(book, pseudonyme), i);
      AddressesFits(book[pseudonyme := list]);
      local.SetItem(AddressesKey, AddressesDoc(book[pseudonyme := list]));
    }

    /** `setDefaultAddress(i)`. */
    method SetDefaultAddress(i: int)
      requires Valid()
      modifies local
      ensures Valid() && State() == AfterSetDefaultAddress(old(State()), i)
    {
      var book := BookIn(local.items);
      var list := SetDefaultFlags(ListOf(book, pseudonyme), i);
      AddressesFits(book[pseudonyme := list]);
      local.SetItem(AddressesKey, AddressesDoc(book[pseudonyme := list]));
    }

    /** `saveProfileInfo(bio)`. */
    method SaveProfileInfo(newBio: string)
      requires Valid()
      modifies this, local
      ensures Valid() && State() == AfterSaveProfileInfo(old(State()), newBio)
    {
      var users := UsersIn(local.items);
      if pseudonyme in users {
        users := users[pseudonyme := users[pseudonyme]["bio" := newBio]];
        UsersFits(users);
        local.SetItem(UsersKey, UsersDoc(users));
        bio := Some(newBio);
      }
    }
  }

  /** The `forEach` loop of `saveAddress`, one address at a time. */
  method ClearOtherDefaults(l: seq<Address>, keep: nat) returns (r: seq<Address>)
    ensures r == ClearOthers(l, keep)
  {
    r := l;
    var i := 0;
    while i < |r|
      invariant 0 <= i <= |r| == |l|
      invariant forall j :: 0 <= j < i ==> r[j] == ClearOthers(l, keep)[j]
      invariant forall j :: i <= j < |r| ==> r[j] == l[j]
    {
      if i != keep {
        r := r[i := r[i].(isDefault := false)];
      }
      i := i + 1;
    }
  }

  /** The `forEach` loop of `setDefaultAddress`, one address at a time. */
  method SetDefaultFlags(l: seq<Address>, index: int) returns (r: seq<Address>)
    ensures r == MarkDefault(l, index)
  {
    r := l;
    var i := 0;
    while i < |r|
      invariant 0 <= i <= |r| == |l|
      invariant forall j :: 0 <= j < i ==> r[j] == MarkDefault(l, index)[j]
      invariant forall j :: i <= j < |r| ==> r[j] == l[j]
    {
      r := r[i := r[i].(isDefault := i == index)];
      i := i + 1;
    }
  }
}
