/** The record received from the external system. */
module ExternalCustomers {
  import opened Wrappers
  import opened ShoppingLists
  import opened Customers

  /** The value of every field of an external customer at one moment. */
  datatype ExternalRecord = ExternalRecord(
    address: Option<Address>,
    name: Option<string>,
    preferredStore: Option<string>,
    shoppingLists: seq<ShoppingList>,
    externalId: Option<string>,
    companyNumber: Option<string>,
    bonusPointsBalance: Option<int32>)
  {
    /** A record is a company exactly when it carries a company number. */
    predicate IsCompany()
      ensures IsCompany() <==> companyNumber != None
    {
      companyNumber.Some?
    }

    /** The postal address: the one stored address. */
    function GetPostalAddress(): (a: Option<Address>)
      ensures a == address
    {
      address
    }
  }

  /** An external customer, a plain bean whose setters assign one field each. */
  class ExternalCustomer {
    var address: Option<Address>
    var name: Option<string>
    var preferredStore: Option<string>
    var shoppingLists: seq<ShoppingList>
    var externalId: Option<string>
    var companyNumber: Option<string>
    var bonusPointsBalance: Option<int32>

    /** The current values of all seven fields. */
    function Record(): ExternalRecord
      reads this
    {
      ExternalRecord(address, name, preferredStore, shoppingLists, externalId, companyNumber, bonusPointsBalance)
    }

    constructor ()
      ensures Record() == ExternalRecord(None, None, None, [], None, None, None)
    {
      address, name, preferredStore, shoppingLists := None, None, None, [];
      externalId, companyNumber, bonusPointsBalance := None, None, None;
    }

    /** A record is a company exactly when it carries a company number. */
    predicate IsCompany()
      reads this
      ensures IsCompany() <==> Record().companyNumber != None
      ensures IsCompany() == Record().IsCompany()
    {
      companyNumber.Some?
    }

    /** The postal address: the one stored address. */
    function GetPostalAddress(): (a: Option<Address>)
      reads this
      ensures a == Record().address && a == GetAddress() && a == Record().GetPostalAddress()
    {
      address
    }

    function GetAddress(): (a: Option<Address>)
      reads this
      ensures a == Record().address
    {
      address
    }

    method SetName(name: Option<string>)
      modifies this
      ensures Record() == old(Record()).(name := name)
    {
      this.name := name;
    }

    method SetPreferredStore(preferredStore: Option<string>)
      modifies this
      ensures Record() == old(Record()).(preferredStore := preferredStore)
    {
      this.preferredStore := preferredStore;
    }

    method SetShoppingLists(shoppingLists: seq<ShoppingList>)
      modifies this
      ensures Record() == old(Record()).(shoppingLists := shoppingLists)
    {
      this.shoppingLists := shoppingLists;
    }

    method SetExternalId(externalId: Option<string>)
      modifies this
      ensures Record() == old(Record()).(externalId := externalId)
    {
      this.externalId := externalId;
    }

    method SetCompanyNumber(companyNumber: Option<string>)
      modifies this
      ensures Record() == old(Record()).(companyNumber := companyNumber)
    {
      this.companyNumber := companyNumber;
    }

    method SetAddress(address: Option<Address>)
      modifies this
      ensures Record() == old(Record()).(address := address)
    {
      this.address := address;
    }

    method SetBonusPointsBalance(bonusPointsBalance: Option<int32>)
      modifies this
      ensures Record() == old(Record()).(bonusPointsBalance := bonusPointsBalance)
    {
      this.bonusPointsBalance := bonusPointsBalance;
    }

    /**
     * Java's `equals(Object)`: true for the same object, false for null, and otherwise
     * a field-by-field comparison of all seven fields.
     */
    function Equals(o: ExternalCustomer?): (r: bool)
      reads this, o
      ensures r <==> o != null && o.Record() == Record()
    {
      if this == o then true
      else if o == null then false
      else address == o.address && name == o.name && preferredStore == o.preferredStore &&
           shoppingLists == o.shoppingLists && externalId == o.externalId &&
           companyNumber == o.companyNumber && bonusPointsBalance == o.bonusPointsBalance
    }
  }

  /** `equals` is reflexive and symmetric, and false against null. */
  lemma EqualsIsEquivalence(a: ExternalCustomer, b: ExternalCustomer)
    ensures a.Equals(a)
    ensures a.Equals(b) == b.Equals(a)
    ensures !a.Equals(null)
  {
  }

}
