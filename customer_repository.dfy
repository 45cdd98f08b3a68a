/**
 * The storage port. The repository is an interface in the source; here it is a port whose
 * lookups answer from three fixed tables, whose writes answer with a fixed customer or with the
 * customer they were given, and whose every call is appended to a log.
 */
module Repositories {
  import opened Wrappers
  import opened ShoppingLists
  import opened Customers

  /**
   * What the port answers: the three lookups (external id, master external id and company number
   * to customer), and the customer `create` and `update` return, where `None` means the customer
   * they were given.
   */
  datatype Tables = Tables(
    byExternalId: map<string, Customer>,
    byMasterExternalId: map<string, Customer>,
    byCompanyNumber: map<string, Customer>,
    createAnswer: Option<Customer>,
    updateAnswer: Option<Customer>)
  {
    /** Every customer a lookup or a write can return. */
    function Customers(): set<Customer>
    {
      byExternalId.Values + byMasterExternalId.Values + byCompanyNumber.Values +
      ObjectsOf(createAnswer) + ObjectsOf(updateAnswer)
    }
  }

  /** The customer a write returns when given `customer`: the fixed answer, if any, else `customer`. */
  function Answer(answer: Option<Customer>, customer: Customer): Customer
  {
    if answer.Some? then answer.value else customer
  }

  /** A lookup: the customer stored under `key`, or null. */
  function Find(table: map<string, Customer>, key: string): (r: Option<Customer>)
    ensures r.Some? <==> key in table
    ensures r.Some? ==> r.value == table[key]
  {
    if key in table then Some(table[key]) else None
  }

  /** One call on the port; create and update record the customer's state at the time of the call. */
  datatype PortCall =
    | FindByExternalId(externalId: string)
    | FindByMasterExternalId(masterExternalId: string)
    | FindByCompanyNumber(companyNumber: string)
    | Create(created: CustomerState)
    | Update(updated: CustomerState)
    | UpdateShoppingList(list: ShoppingList)
  {
    /** Calls that write to storage, as opposed to lookups. */
    predicate IsWrite()
    {
      Create? || Update? || UpdateShoppingList?
    }
  }

  class CustomerRespository {
    /** The customer objects in storage. */
    const customers: set<Customer>
    const tables: Tables
    var log: seq<PortCall>

    /** Lookups and writes only return stored customers. */
    ghost predicate Valid()
    {
      tables.Customers() <= customers
    }

    constructor (customers: set<Customer>, tables: Tables)
      requires tables.Customers() <= customers
      ensures this.customers == customers && this.tables == tables && log == [] && Valid()
    {
      this.customers := customers;
      this.tables := tables;
      log := [];
    }

    method FindByExternalId(externalId: string) returns (c: Option<Customer>)
      modifies this`log
      ensures c == Find(tables.byExternalId, externalId)
      ensures log == old(log) + [PortCall.FindByExternalId(externalId)]
    {
      c := Find(tables.byExternalId, externalId);
      log := log + [PortCall.FindByExternalId(externalId)];
    }

    method FindByMasterExternalId(externalId: string) returns (c: Option<Customer>)
      modifies this`log
      ensures c == Find(tables.byMasterExternalId, externalId)
      ensures log == old(log) + [PortCall.FindByMasterExternalId(externalId)]
    {
      c := Find(tables.byMasterExternalId, externalId);
      log := log + [PortCall.FindByMasterExternalId(externalId)];
    }

    method FindByCompanyNumber(companyNumber: string) returns (c: Option<Customer>)
      modifies this`log
      ensures c == Find(tables.byCompanyNumber, companyNumber)
      ensures log == old(log) + [PortCall.FindByCompanyNumber(companyNumber)]
    {
      c := Find(tables.byCompanyNumber, companyNumber);
      log := log + [PortCall.FindByCompanyNumber(companyNumber)];
    }

    /** Persists a new customer and answers with the fixed create answer, or with `customer`. */
    method Create(customer: Customer) returns (r: Customer)
      modifies this`log
      ensures r == Answer(tables.createAnswer, customer)
      ensures log == old(log) + [PortCall.Create(customer.State())]
    {
      log := log + [PortCall.Create(customer.State())];
      r := if tables.createAnswer.Some? then tables.createAnswer.value else customer;
    }

    /** Persists an existing customer and answers with the fixed update answer, or with `customer`. */
    method Update(customer: Customer) returns (r: Customer)
      modifies this`log
      ensures r == Answer(tables.updateAnswer, customer)
      ensures log == old(log) + [PortCall.Update(customer.State())]
    {
      log := log + [PortCall.Update(customer.State())];
      r := if tables.updateAnswer.Some? then tables.updateAnswer.value else customer;
    }

    method UpdateShoppingList(list: ShoppingList)
      modifies this`log
      ensures log == old(log) + [PortCall.UpdateShoppingList(list)]
    {
      log := log + [PortCall.UpdateShoppingList(list)];
    }
  }
}
