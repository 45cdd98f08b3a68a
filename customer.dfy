/**
 * The internal customer record, modelled from how `CustomerSync` and `CustomerService` use it:
 * the fields and their meaning follow the setters and getters that the synchronisation calls.
 */
module Customers {
  import opened Wrappers
  import opened ShoppingLists

  /** Java's `Integer`, which holds the bonus points balance. */
  newtype int32 = x: int | -0x8000_0000 <= x < 0x8000_0000

  /** A postal address; only its equality matters here. */
  datatype Address = Address(street: string, city: string, postalCode: string)

  /** The two kinds of customer. */
  datatype CustomerType = Company | Person

  /** The value of every field of a customer at one moment. */
  datatype CustomerState = CustomerState(
    internalId: Option<string>,
    externalId: Option<string>,
    masterExternalId: Option<string>,
    customerType: Option<CustomerType>,
    name: Option<string>,
    companyNumber: Option<string>,
    bonusPointsBalance: Option<int32>,
    address: Option<Address>,
    preferredStore: Option<string>,
    shoppingLists: seq<ShoppingList>)

  /** The state of `new Customer()`: every reference null, no shopping lists. */
  const Blank := CustomerState(None, None, None, None, None, None, None, None, None, [])

  /** An internal customer record; the synchronisation mutates it in place. */
  class Customer {
    var internalId: Option<string>
    var externalId: Option<string>
    var masterExternalId: Option<string>
    var customerType: Option<CustomerType>
    var name: Option<string>
    var companyNumber: Option<string>
    var bonusPointsBalance: Option<int32>
    var address: Option<Address>
    var preferredStore: Option<string>
    var shoppingLists: seq<ShoppingList>

    /** The current values of all fields. */
    function State(): CustomerState
      reads this
    {
      CustomerState(internalId, externalId, masterExternalId, customerType, name, companyNumber,
                    bonusPointsBalance, address, preferredStore, shoppingLists)
    }

    constructor ()
      ensures State() == Blank
    {
      internalId, externalId, masterExternalId, customerType := None, None, None, None;
      name, companyNumber, bonusPointsBalance := None, None, None;
      address, preferredStore, shoppingLists := None, None, [];
    }

    /** Appends one list after the existing ones. */
    method AddShoppingList(list: ShoppingList)
      modifies this
      ensures State() == old(State()).(shoppingLists := old(shoppingLists) + [list])
    {
      shoppingLists := shoppingLists + [list];
    }
  }

  /**
   * A value-level view of the customer objects: which state each object holds.
   * The reference functions of the synchronisation update such a map where the
   * code updates an object's fields, so that two references to one object stay one entry.
   */
  type Heap = map<Customer, CustomerState>

  /** The current state of every object in `s`. */
  ghost function HeapOf(s: set<Customer>): (h: Heap)
    reads s
    ensures h.Keys == s && Mirrors(h)
  {
    map c | c in s :: c.State()
  }

  /** The object a nullable reference points to, if any. */
  function ObjectsOf(o: Option<Customer>): set<Customer>
  {
    if o.Some? then {o.value} else {}
  }

  /** Every object in `h` currently holds the state `h` gives it. */
  ghost predicate Mirrors(h: Heap)
    reads h.Keys
  {
    forall c :: c in h ==> c.State() == h[c]
  }
}
