/** The lookup service: finds the candidate customers for an incoming record. */
module CustomerServices {
  import opened Wrappers
  import opened ShoppingLists
  import opened Customers
  import opened Repositories

  /** The match terms: which identifier produced the primary match. */
  const ExternalIdTerm: string := "ExternalId"
  const CompanyNumberTerm: string := "CompanyNumber"

  /** The two match terms are different strings, so the resolver's two branches never overlap. */
  lemma MatchTermsDistinct()
    ensures ExternalIdTerm != CompanyNumberTerm
  {
    assert ExternalIdTerm[0] == 'E' && CompanyNumberTerm[0] == 'C';
  }

  /**
   * The result of a lookup: an optional primary customer, the term that found it, and
   * duplicates, where `None` is an empty placeholder for a customer still to be created.
   */
  datatype Matches = Matches(customer: Option<Customer>, matchTerm: Option<string>, duplicates: seq<Option<Customer>>)
  {
    predicate HasDuplicates()
      ensures HasDuplicates() <==> duplicates != []
    {
      |duplicates| > 0
    }

    /** Every customer the matches mention lies in `s`. */
    ghost predicate Within(s: set<Customer>)
    {
      (customer.Some? ==> customer.value in s) && EntriesIn(duplicates, s)
    }
  }

  /** Every concrete duplicate entry lies in `s`. */
  ghost predicate EntriesIn(entries: seq<Option<Customer>>, s: set<Customer>)
  {
    forall i :: 0 <= i < |entries| && entries[i].Some? ==> entries[i].value in s
  }

  /** A fresh, empty matches object. */
  const NoMatches := Matches(None, None, [])

  /** What `loadCompanyCustomer` returns for the given tables. */
  function CompanyMatches(t: Tables, externalId: string, companyNumber: string): (m: Matches)
    ensures m.matchTerm == Some(ExternalIdTerm) <==> externalId in t.byExternalId
    ensures m.matchTerm == Some(CompanyNumberTerm) <==>
              externalId !in t.byExternalId && companyNumber in t.byCompanyNumber
    ensures m.customer.Some? <==> m.matchTerm.Some?
    ensures m.matchTerm == Some(ExternalIdTerm) ==> m.customer == Some(t.byExternalId[externalId])
    ensures m.matchTerm == Some(CompanyNumberTerm) ==> m.customer == Some(t.byCompanyNumber[companyNumber])
    ensures m.duplicates == (if externalId in t.byExternalId && externalId in t.byMasterExternalId
                             then [Some(t.byMasterExternalId[externalId])] else [])
    ensures m.Within(t.Customers())
  {
    MatchTermsDistinct();
    match Find(t.byExternalId, externalId)
    case Some(c) =>
      Matches(Some(c), Some(ExternalIdTerm),
              match Find(t.byMasterExternalId, externalId)
              case Some(d) => [Some(d)]
              case None => [])
    case None =>
      match Find(t.byCompanyNumber, companyNumber)
      case Some(c) => Matches(Some(c), Some(CompanyNumberTerm), [])
      case None => NoMatches
  }

  /** The port calls `loadCompanyCustomer` issues: the company number is looked up only after a miss. */
  function CompanyLookupCalls(t: Tables, externalId: string, companyNumber: string): (calls: seq<PortCall>)
    ensures |calls| == 2 && calls[0] == FindByExternalId(externalId)
    ensures FindByCompanyNumber(companyNumber) in calls <==> externalId !in t.byExternalId
    ensures FindByMasterExternalId(externalId) in calls <==> externalId in t.byExternalId
    ensures forall i :: 0 <= i < |calls| ==> !calls[i].IsWrite()
  {
    [FindByExternalId(externalId)] +
    if externalId in t.byExternalId then [FindByMasterExternalId(externalId)] else [FindByCompanyNumber(companyNumber)]
  }

  /** What `loadPersonCustomer` returns: a lookup by external id only, never any duplicates. */
  function PersonMatches(t: Tables, externalId: string): (m: Matches)
    ensures m.customer == Find(t.byExternalId, externalId)
    ensures m.matchTerm == Some(ExternalIdTerm) <==> m.customer.Some?
    ensures m.matchTerm.Some? ==> m.matchTerm == Some(ExternalIdTerm)
    ensures m.duplicates == []
    ensures m.Within(t.Customers())
  {
    var found := Find(t.byExternalId, externalId);
    Matches(found, if found.Some? then Some(ExternalIdTerm) else None, [])
  }

  /** The port calls `loadPersonCustomer` issues. */
  function PersonLookupCalls(externalId: string): (calls: seq<PortCall>)
    ensures |calls| == 1 && calls[0] == FindByExternalId(externalId) && !calls[0].IsWrite()
  {
    [FindByExternalId(externalId)]
  }

  class CustomerService {
    const repository: CustomerRespository

    constructor (repository: CustomerRespository)
      ensures this.repository == repository
    {
      this.repository := repository;
    }

    method LoadCompanyCustomer(externalId: string, companyNumber: string) returns (matches: Matches)
      modifies repository`log
      ensures matches == CompanyMatches(repository.tables, externalId, companyNumber)
      ensures repository.log == old(repository.log) + CompanyLookupCalls(repository.tables, externalId, companyNumber)
    {
      matches := NoMatches;
      var matchByExternalId := repository.FindByExternalId(externalId);
      if matchByExternalId.Some? {
        matches := matches.(customer := matchByExternalId, matchTerm := Some(ExternalIdTerm));
        var matchByMasterId := repository.FindByMasterExternalId(externalId);
        if matchByMasterId.Some? {
          matches := matches.(duplicates := matches.duplicates + [matchByMasterId]);
        }
      } else {
        var matchByCompanyNumber := repository.FindByCompanyNumber(companyNumber);
        if matchByCompanyNumber.Some? {
          matches := matches.(customer := matchByCompanyNumber, matchTerm := Some(CompanyNumberTerm));
        }
      }
    }

    method LoadPersonCustomer(externalId: string) returns (matches: Matches)
      modifies repository`log
      ensures matches == PersonMatches(repository.tables, externalId)
      ensures repository.log == old(repository.log) + PersonLookupCalls(externalId)
    {
      matches := NoMatches;
      var matchByPersonalNumber := repository.FindByExternalId(externalId);
      matches := matches.(customer := matchByPersonalNumber);
      if matchByPersonalNumber.Some? {
        matches := matches.(matchTerm := Some(ExternalIdTerm));
      }
    }

    /** Exactly one port call; its answer is returned unchanged. */
    method UpdateCustomerRecord(customer: Customer) returns (r: Customer)
      modifies repository`log
      ensures r == Answer(repository.tables.updateAnswer, customer)
      ensures repository.log == old(repository.log) + [PortCall.Update(customer.State())]
    {
      r := repository.Update(customer);
    }

    /** Exactly one port call; its answer is returned unchanged. */
    method CreateCustomerRecord(customer: Customer) returns (r: Customer)
      modifies repository`log
      ensures r == Answer(repository.tables.createAnswer, customer)
      ensures repository.log == old(repository.log) + [PortCall.Create(customer.State())]
    {
      r := repository.Create(customer);
    }

    /** Appends the list after the customer's lists, then writes the list and the customer, in that order. */
    method UpdateShoppingList(customer: Customer, list: ShoppingList) returns (r: Customer)
      modifies customer, repository`log
      ensures customer.State() == old(customer.State()).(shoppingLists := old(customer.shoppingLists) + [list])
      ensures repository.log == old(repository.log) + [PortCall.UpdateShoppingList(list), PortCall.Update(customer.State())]
      ensures r == Answer(repository.tables.updateAnswer, customer)
    {
      customer.AddShoppingList(list);
      repository.UpdateShoppingList(list);
      r := repository.Update(customer);
    }
  }
}
