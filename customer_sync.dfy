/**
 * The synchronisation of one external customer into the internal store: lookup, conflict
 * resolution, merge, persistence, shopping lists and the duplicate sweep.
 *
 * The functions describe each step on values: a `Heap` gives the state of every customer
 * object the lookups can return, and `SyncPlan` gives the port calls, the final heap and the
 * result of a whole synchronisation. The class `CustomerSync` does the same work on objects and
 * its methods are proved to follow these functions.
 */
module CustomerSyncs {
  import opened Wrappers
  import opened ShoppingLists
  import opened Customers
  import opened ExternalCustomers
  import opened Repositories
  import opened CustomerServices

  // ---------------------------------------------------------------- conflict messages

  const ConflictPrefix: string := "Existing customer for externalCustomer "

  /** A company record matched a customer that is not a company. */
  function NotCompanyMessage(externalId: string): (m: string)
    ensures |m| == |ConflictPrefix| + |externalId| + |" already exists and is not a company"|
    ensures var k := |ConflictPrefix| + |externalId|;
            m[..|ConflictPrefix|] == ConflictPrefix && m[|ConflictPrefix|..k] == externalId &&
            m[k..] == " already exists and is not a company"
  {
    ConflictPrefix + externalId + " already exists and is not a company"
  }

  /** A person record matched a customer that is not a person. */
  function NotPersonMessage(externalId: string): (m: string)
    ensures |m| == |ConflictPrefix| + |externalId| + |" already exists and is not a person"|
    ensures var k := |ConflictPrefix| + |externalId|;
            m[..|ConflictPrefix|] == ConflictPrefix && m[|ConflictPrefix|..k] == externalId &&
            m[k..] == " already exists and is not a person"
  {
    ConflictPrefix + externalId + " already exists and is not a person"
  }

  /** A customer found by company number carries another external id. */
  function ExternalIdMismatchMessage(companyNumber: string, externalId: string, found: string): (m: string)
    ensures |m| == |ConflictPrefix| + |companyNumber| + |" doesn't match external id "| + |externalId| +
                   |" instead found "| + |found|
    ensures m[..|ConflictPrefix|] == ConflictPrefix
    ensures m[|ConflictPrefix|..|ConflictPrefix| + |companyNumber|] == companyNumber
    ensures m[|m| - |found|..] == found
  {
    ConflictPrefix + companyNumber + " doesn't match external id " + externalId + " instead found " + found
  }

  // ---------------------------------------------------------------- conflict resolution

  /** The heap and the matches after conflict resolution. */
  datatype Resolved = Resolved(heap: Heap, matches: Matches)

  /** Matches as the lookups produce them: a match term only with a primary customer. */
  ghost predicate Consistent(m: Matches, h: Heap)
  {
    m.Within(h.Keys) && (m.matchTerm.Some? ==> m.customer.Some?)
  }

  /** `loadCompany` after the lookup: type check, stale-record detachment or rebinding. */
  function ResolveCompany(h: Heap, m: Matches, externalId: string, companyNumber: string): (r: Result<Resolved, string>)
    requires Consistent(m, h)
    ensures r.Success? ==> r.value.heap.Keys == h.Keys && r.value.matches.Within(h.Keys)
    ensures r.Success? ==>
              forall c :: c in h ==>
                r.value.heap[c].internalId == h[c].internalId && r.value.heap[c].shoppingLists == h[c].shoppingLists &&
                r.value.heap[c].name == h[c].name
  {
    MatchTermsDistinct();
    if m.customer.Some? && h[m.customer.value].customerType != Some(Company) then
      Failure(NotCompanyMessage(externalId))
    else if m.matchTerm == Some(ExternalIdTerm) then
      var c := m.customer.value;
      if Some(companyNumber) != h[c].companyNumber then
        Success(Resolved(h[c := h[c].(masterExternalId := None)],
                         Matches(None, None, m.duplicates + [Some(c)])))
      else
        Success(Resolved(h, m))
    else if m.matchTerm == Some(CompanyNumberTerm) then
      var c := m.customer.value;
      var found := h[c].externalId;
      if found.Some? && externalId != found.value then
        Failure(ExternalIdMismatchMessage(companyNumber, externalId, found.value))
      else
        Success(Resolved(h[c := h[c].(externalId := Some(externalId), masterExternalId := Some(externalId))],
                         m.(duplicates := m.duplicates + [None])))
    else
      Success(Resolved(h, m))
  }

  /** `loadPerson` after the lookup: type check and the rebinding of a match not found by external id. */
  function ResolvePerson(h: Heap, m: Matches, externalId: string): (r: Result<Resolved, string>)
    requires Consistent(m, h)
    ensures r.Success? ==> r.value.heap.Keys == h.Keys && r.value.matches.Within(h.Keys)
    ensures r.Success? ==>
              forall c :: c in h ==>
                r.value.heap[c].internalId == h[c].internalId && r.value.heap[c].shoppingLists == h[c].shoppingLists &&
                r.value.heap[c].name == h[c].name
  {
    if m.customer.None? then
      Success(Resolved(h, m))
    else
      var c := m.customer.value;
      if h[c].customerType != Some(Person) then
        Failure(NotPersonMessage(externalId))
      else if m.matchTerm != Some(ExternalIdTerm) then
        Success(Resolved(h[c := h[c].(externalId := Some(externalId), masterExternalId := Some(externalId))], m))
      else
        Success(Resolved(h, m))
  }

  /** The port calls of the lookup for `ext`. */
  function LookupCalls(t: Tables, ext: ExternalRecord): (calls: seq<PortCall>)
    requires ext.externalId.Some?
    ensures |calls| == (if ext.companyNumber.Some? then 2 else 1)
    ensures calls[0] == FindByExternalId(ext.externalId.value)
    ensures forall i :: 0 <= i < |calls| ==> !calls[i].IsWrite()
  {
    if ext.companyNumber.Some? then CompanyLookupCalls(t, ext.externalId.value, ext.companyNumber.value)
    else PersonLookupCalls(ext.externalId.value)
  }

  /** The matches the lookups give for `ext`, before any conflict check. */
  function LookupMatches(t: Tables, ext: ExternalRecord): (m: Matches)
    requires ext.externalId.Some?
    ensures m.Within(t.Customers()) && (m.matchTerm.Some? ==> m.customer.Some?)
    ensures ext.companyNumber.None? ==> m.duplicates == []
  {
    if ext.companyNumber.Some? then CompanyMatches(t, ext.externalId.value, ext.companyNumber.value)
    else PersonMatches(t, ext.externalId.value)
  }

  /** Lookup and conflict resolution for `ext`, company or person by its company number. */
  function Resolve(h: Heap, t: Tables, ext: ExternalRecord): (r: Result<Resolved, string>)
    requires ext.externalId.Some? && t.Customers() <= h.Keys
    ensures r.Success? ==> r.value.heap.Keys == h.Keys && r.value.matches.Within(h.Keys)
  {
    if ext.companyNumber.Some? then
      ResolveCompany(h, LookupMatches(t, ext), ext.externalId.value, ext.companyNumber.value)
    else
      ResolvePerson(h, LookupMatches(t, ext), ext.externalId.value)
  }

  // ---------------------------------------------------------------- merge

  /** A customer built for an external id that matched nothing: both ids set, all else null. */
  function NewCustomerState(externalId: string): (c: CustomerState)
    ensures c.externalId == Some(externalId) && c.masterExternalId == Some(externalId)
    ensures c.internalId.None? && c.name.None? && c.customerType.None? && c.companyNumber.None?
    ensures c.shoppingLists == []
  {
    Blank.(externalId := Some(externalId), masterExternalId := Some(externalId))
  }

  /** `populateFields`: the name, then the company number and type, or the type and bonus points. */
  function Populated(ext: ExternalRecord, c: CustomerState): (r: CustomerState)
    ensures r.name == ext.name
    ensures ext.companyNumber.Some? ==>
              r.companyNumber == ext.companyNumber && r.customerType == Some(Company) &&
              r.bonusPointsBalance == c.bonusPointsBalance
    ensures ext.companyNumber.None? ==>
              r.customerType == Some(Person) && r.bonusPointsBalance == ext.bonusPointsBalance &&
              r.companyNumber == c.companyNumber
    ensures r.(name := c.name, companyNumber := c.companyNumber, customerType := c.customerType,
               bonusPointsBalance := c.bonusPointsBalance) == c
  {
    var named := c.(name := ext.name);
    if ext.companyNumber.Some? then named.(companyNumber := ext.companyNumber, customerType := Some(Company))
    else named.(customerType := Some(Person), bonusPointsBalance := ext.bonusPointsBalance)
  }

  /** `updatePreferredStore`. */
  function WithPreferredStore(ext: ExternalRecord, c: CustomerState): (r: CustomerState)
    ensures r.preferredStore == ext.preferredStore && r.(preferredStore := c.preferredStore) == c
  {
    c.(preferredStore := ext.preferredStore)
  }

  /** `updateContactInfo`. */
  function WithContactInfo(ext: ExternalRecord, c: CustomerState): (r: CustomerState)
    ensures r.address == ext.address && r.(address := c.address) == c
  {
    c.(address := ext.address)
  }

  /** The three merge steps, in the order the synchronisation applies them. */
  function Merged(ext: ExternalRecord, c: CustomerState): (r: CustomerState)
    ensures r.name == ext.name && r.preferredStore == ext.preferredStore && r.address == ext.address
    ensures ext.companyNumber.Some? ==>
              r.companyNumber == ext.companyNumber && r.customerType == Some(Company) &&
              r.bonusPointsBalance == c.bonusPointsBalance
    ensures ext.companyNumber.None? ==>
              r.customerType == Some(Person) && r.bonusPointsBalance == ext.bonusPointsBalance &&
              r.companyNumber == c.companyNumber
    ensures r.internalId == c.internalId && r.externalId == c.externalId &&
            r.masterExternalId == c.masterExternalId && r.shoppingLists == c.shoppingLists
  {
    WithContactInfo(ext, WithPreferredStore(ext, Populated(ext, c)))
  }

  // ---------------------------------------------------------------- persistence

  /** Customers without an internal id are created, the others updated. */
  function WriteCall(c: CustomerState): (call: PortCall)
    ensures call.IsWrite()
    ensures call.Create? <==> c.internalId.None?
  {
    if c.internalId.None? then Create(c) else Update(c)
  }

  /** The customer with `lists` appended after its own lists. */
  function WithLists(c: CustomerState, lists: seq<ShoppingList>): (r: CustomerState)
    ensures |r.shoppingLists| == |c.shoppingLists| + |lists| && c.shoppingLists <= r.shoppingLists
    ensures r.(shoppingLists := c.shoppingLists) == c
  {
    c.(shoppingLists := c.shoppingLists + lists)
  }

  /** `updateRelations`: per list, a list write and then an update of the customer holding it. */
  function RelationCalls(c: CustomerState, lists: seq<ShoppingList>): (calls: seq<PortCall>)
    ensures |calls| == 2 * |lists|
    decreases |lists|
  {
    if lists == [] then []
    else
      var n := |lists| - 1;
      RelationCalls(c, lists[..n]) + [UpdateShoppingList(lists[n]), Update(WithLists(c, lists))]
  }

  // ---------------------------------------------------------------- duplicate sweep

  /** The port calls and the heap after some steps. */
  datatype Effect = Effect(heap: Heap, calls: seq<PortCall>)

  /** `updateDuplicate`: a placeholder becomes a new customer; every duplicate gets the name. */
  function DuplicateState(h: Heap, externalId: string, name: Option<string>, d: Option<Customer>): (s: CustomerState)
    requires d.Some? ==> d.value in h
    ensures s.name == name
    ensures d.Some? ==> s.(name := h[d.value].name) == h[d.value]
    ensures d.None? ==> s.externalId == Some(externalId) && s.masterExternalId == Some(externalId) && s.internalId.None?
    ensures WriteCall(s).Create? <==> d.None? || h[d.value].internalId.None?
  {
    (if d.Some? then h[d.value] else NewCustomerState(externalId)).(name := name)
  }

  /** The duplicates handled in order; a later entry sees what earlier ones did to a shared object. */
  function Sweep(h: Heap, externalId: string, name: Option<string>, ds: seq<Option<Customer>>): (e: Effect)
    requires EntriesIn(ds, h.Keys)
    ensures e.heap.Keys == h.Keys
    ensures |e.calls| == |ds|
    decreases |ds|
  {
    if ds == [] then Effect(h, [])
    else
      var n := |ds| - 1;
      var e := Sweep(h, externalId, name, ds[..n]);
      var s := DuplicateState(e.heap, externalId, name, ds[n]);
      Effect(if ds[n].Some? then e.heap[ds[n].value := s] else e.heap, e.calls + [WriteCall(s)])
  }

  /** Sweeping one more entry: one more write, and the entry's object takes the new state. */
  lemma SweepStep(h: Heap, externalId: string, name: Option<string>, ds: seq<Option<Customer>>, i: nat)
    requires EntriesIn(ds, h.Keys) && i < |ds|
    ensures EntriesIn(ds[..i], h.Keys) && EntriesIn(ds[..i + 1], h.Keys)
    ensures var before := Sweep(h, externalId, name, ds[..i]);
            var s := DuplicateState(before.heap, externalId, name, ds[i]);
            Sweep(h, externalId, name, ds[..i + 1]) ==
              Effect(if ds[i].Some? then before.heap[ds[i].value := s] else before.heap, before.calls + [WriteCall(s)])
  {
    assert ds[..i + 1][..i] == ds[..i];
  }

  // ---------------------------------------------------------------- the whole synchronisation

  /** Everything one synchronisation does: port calls in order, the final heap, the result. */
  datatype Run = Run(calls: seq<PortCall>, heap: Heap, result: Result<bool, string>)

  /** The primary customer's state before the merge, and its object unless it is a new one. */
  function Base(r: Resolved, externalId: string): (b: CustomerState)
    requires r.matches.Within(r.heap.Keys)
    ensures r.matches.customer.Some? ==> b == r.heap[r.matches.customer.value]
    ensures r.matches.customer.None? ==>
              b.externalId == Some(externalId) && b.masterExternalId == Some(externalId) &&
              b.internalId.None? && b.name.None? && b.customerType.None? && b.companyNumber.None? &&
              b.shoppingLists == []
  {
    if r.matches.customer.Some? then r.heap[r.matches.customer.value] else NewCustomerState(externalId)
  }

  /**
   * The customer `updateRelations` receives: the one the port answered the primary customer's
   * create or update with. Without a fixed answer that is the primary customer itself; `None`
   * is a new primary customer, which is not stored.
   */
  function ListHolder(t: Tables, primary: Option<Customer>, merged: CustomerState): (holder: Option<Customer>)
    ensures holder == primary || holder == t.createAnswer || holder == t.updateAnswer
    ensures merged.internalId.None? ==> holder == (if t.createAnswer.Some? then t.createAnswer else primary)
    ensures merged.internalId.Some? ==> holder == (if t.updateAnswer.Some? then t.updateAnswer else primary)
  {
    var answer := if merged.internalId.None? then t.createAnswer else t.updateAnswer;
    if answer.Some? then answer else primary
  }

  /** Merge, the primary customer's create or update, then the shopping lists on the port's answer. */
  function Persist(r: Resolved, t: Tables, ext: ExternalRecord): (e: Effect)
    requires ext.externalId.Some? && r.matches.Within(r.heap.Keys) && t.Customers() <= r.heap.Keys
    ensures e.heap.Keys == r.heap.Keys
    ensures |e.calls| == 1 + 2 * |ext.shoppingLists|
  {
    var merged := Merged(ext, Base(r, ext.externalId.value));
    var h := if r.matches.customer.Some? then r.heap[r.matches.customer.value := merged] else r.heap;
    var holder := ListHolder(t, r.matches.customer, merged);
    var before := if holder.Some? then h[holder.value] else merged;
    Effect(if holder.Some? then h[holder.value := WithLists(before, ext.shoppingLists)] else h,
           [WriteCall(merged)] + RelationCalls(before, ext.shoppingLists))
  }

  /** Everything after a successful resolution: merge, persist, shopping lists, duplicates. */
  function Apply(r: Resolved, t: Tables, ext: ExternalRecord): (run: Run)
    requires ext.externalId.Some? && r.matches.Within(r.heap.Keys) && t.Customers() <= r.heap.Keys
    ensures run.heap.Keys == r.heap.Keys
  {
    var p := Persist(r, t, ext);
    var sweep := Sweep(p.heap, ext.externalId.value, ext.name, r.matches.duplicates);
    Run(p.calls + sweep.calls, sweep.heap, Success(Base(r, ext.externalId.value).internalId.None?))
  }

  /** `syncExternalCustomer` on values. */
  function SyncPlan(h: Heap, t: Tables, ext: ExternalRecord): (run: Run)
    requires ext.externalId.Some? && t.Customers() <= h.Keys
    ensures run.heap.Keys == h.Keys
  {
    match Resolve(h, t, ext)
    case Failure(message) => Run(LookupCalls(t, ext), h, Failure(message))
    case Success(r) =>
      var rest := Apply(r, t, ext);
      Run(LookupCalls(t, ext) + rest.calls, rest.heap, rest.result)
  }

  /** Appending two runs of calls to the port log one after the other, or as one run, gives the same log. */
  lemma ConcatAssociative(a: seq<PortCall>, b: seq<PortCall>, c: seq<PortCall>)
    ensures a + b + c == a + (b + c)
  {
  }

  // ---------------------------------------------------------------- the objects

  class CustomerSync {
    const customerService: CustomerService

    constructor (customerRespository: CustomerRespository)
      ensures customerService.repository == customerRespository
    {
      customerService := new CustomerService(customerRespository);
    }

    /** The port behind the service. */
    function Port(): CustomerRespository
    {
      customerService.repository
    }

    /** The customer objects in storage. */
    function Stored(): set<Customer>
    {
      customerService.repository.customers
    }

    /**
     * Returns whether the primary customer was created, or the conflict message. Every port call
     * and every change to a stored customer is the one `SyncPlan` gives.
     */
    method SyncExternalCustomer(externalCustomer: ExternalCustomer) returns (r: Result<bool, string>)
      requires externalCustomer.externalId.Some? && Port().Valid()
      modifies customerService.repository`log, Stored()
      ensures var run := SyncPlan(old(HeapOf(Stored())), Port().tables, old(externalCustomer.Record()));
              r == run.result && Port().log == old(Port().log) + run.calls && Mirrors(run.heap)
    {
      ghost var h0 := HeapOf(Stored());
      ghost var log0 := Port().log;
      var ext := externalCustomer.Record();
      var loaded: Result<Matches, string>;
      if ext.IsCompany() {
        loaded := LoadCompany(externalCustomer, h0);
      } else {
        loaded := LoadPerson(externalCustomer, h0);
      }
      ghost var resolution := Resolve(h0, Port().tables, ext);
      if loaded.Failure? {
        return Failure(loaded.error);
      }
      var created := ApplyMatches(ext, loaded.value, resolution.value.heap);
      ConcatAssociative(log0, LookupCalls(Port().tables, ext), Apply(resolution.value, Port().tables, ext).calls);
      return Success(created);
    }

    /** `syncExternalCustomer` after a lookup without conflict; `h` is the heap after resolution. */
    method ApplyMatches(ext: ExternalRecord, matches: Matches, ghost h: Heap) returns (created: bool)
      requires ext.externalId.Some? && Port().Valid()
      requires h.Keys == Stored() && matches.Within(h.Keys) && Mirrors(h)
      modifies customerService.repository`log, Stored()
      ensures var run := Apply(Resolved(h, matches), Port().tables, ext);
              run.result == Success(created) && Port().log == old(Port().log) + run.calls && Mirrors(run.heap)
    {
      ghost var log0 := Port().log;
      var customer := PrimaryCustomer(ext, matches, h);
      ghost var p := Persist(Resolved(h, matches), Port().tables, ext);
      created := MergeAndPersist(ext, matches, customer, h);
      ghost var sweep := Sweep(p.heap, ext.externalId.value, ext.name, matches.duplicates);
      if matches.HasDuplicates() {
        UpdateDuplicates(ext, matches.duplicates, p.heap);
      } else {
        assert sweep == Effect(p.heap, []);
      }
      ConcatAssociative(log0, p.calls, sweep.calls);
    }

    /** The matched customer, or a new one carrying the incoming external id as both ids. */
    method PrimaryCustomer(ext: ExternalRecord, matches: Matches, ghost h: Heap) returns (customer: Customer)
      requires ext.externalId.Some? && matches.Within(h.Keys) && Mirrors(h)
      ensures customer.State() == Base(Resolved(h, matches), ext.externalId.value)
      ensures matches.customer.Some? ==> customer == matches.customer.value
      ensures matches.customer.None? ==> fresh(customer) && customer !in h
      ensures customer in h <==> matches.customer.Some?
    {
      if matches.customer.Some? {
        customer := matches.customer.value;
      } else {
        customer := new Customer();
        customer.externalId := ext.externalId;
        customer.masterExternalId := ext.externalId;
      }
    }

    /**
     * The middle of `syncExternalCustomer`: merge the record onto the primary customer, create or
     * update it, and add the shopping lists to the customer the port answered with. Returns
     * whether the primary customer was created.
     */
    method MergeAndPersist(ext: ExternalRecord, matches: Matches, customer: Customer, ghost h: Heap) returns (created: bool)
      requires ext.externalId.Some? && Port().Valid()
      requires h.Keys == Stored() && matches.Within(h.Keys) && Mirrors(h)
      requires customer.State() == Base(Resolved(h, matches), ext.externalId.value)
      requires matches.customer.Some? ==> customer == matches.customer.value
      requires customer in h <==> matches.customer.Some?
      modifies customer, Stored(), customerService.repository`log
      ensures var p := Persist(Resolved(h, matches), Port().tables, ext);
              created == Base(Resolved(h, matches), ext.externalId.value).internalId.None? &&
              Port().log == old(Port().log) + p.calls && Mirrors(p.heap)
    {
      ghost var log0 := Port().log;
      ghost var merged := Merged(ext, customer.State());
      ghost var h1: Heap := if matches.customer.Some? then h[customer := merged] else h;
      var answer;
      created, answer := MergeAndWrite(ext, matches, customer, h);
      ghost var before := answer.State();
      ghost var h2: Heap := if answer in h1 then h1[answer := WithLists(before, ext.shoppingLists)] else h1;
      UpdateRelations(ext, answer, h1);
      ConcatAssociative(log0, [WriteCall(merged)], RelationCalls(before, ext.shoppingLists));
      assert Persist(Resolved(h, matches), Port().tables, ext) ==
             Effect(h2, [WriteCall(merged)] + RelationCalls(before, ext.shoppingLists));
    }

    /**
     * Merge the record onto the primary customer and create or update it. `answer` is the customer
     * the port answered with: the one `ListHolder` names, or the primary customer itself.
     */
    method MergeAndWrite(ext: ExternalRecord, matches: Matches, customer: Customer, ghost h: Heap)
      returns (created: bool, answer: Customer)
      requires ext.externalId.Some? && Port().Valid()
      requires h.Keys == Stored() && matches.Within(h.Keys) && Mirrors(h)
      requires customer.State() == Base(Resolved(h, matches), ext.externalId.value)
      requires matches.customer.Some? ==> customer == matches.customer.value
      requires customer in h <==> matches.customer.Some?
      modifies customer, customerService.repository`log
      ensures var merged := Merged(ext, old(customer.State()));
              var h1 := if matches.customer.Some? then h[customer := merged] else h;
              var holder := ListHolder(Port().tables, matches.customer, merged);
              created == Base(Resolved(h, matches), ext.externalId.value).internalId.None? &&
              Port().log == old(Port().log) + [WriteCall(merged)] && Mirrors(h1) &&
              (answer in h1 <==> holder.Some?) && (holder.Some? ==> answer == holder.value) &&
              (answer == customer || answer in h) &&
              answer.State() == if holder.Some? then h1[holder.value] else merged
    {
      ghost var merged := Merged(ext, customer.State());
      ghost var h1: Heap := if matches.customer.Some? then h[customer := merged] else h;
      MergeRecord(ext, customer, h, h1);
      created, answer := WritePrimary(customer, h1);
      ghost var holder := ListHolder(Port().tables, matches.customer, merged);
      assert holder.Some? ==> answer == holder.value && answer in h1;
      assert holder.None? ==> answer == customer && customer !in h;
    }

    /** `populateFields`, `updatePreferredStore` and `updateContactInfo`, which only touch `customer`. */
    method MergeRecord(ext: ExternalRecord, customer: Customer, ghost h: Heap, ghost h1: Heap)
      requires Mirrors(h)
      requires h1 == if customer in h then h[customer := Merged(ext, customer.State())] else h
      modifies customer
      ensures customer.State() == Merged(ext, old(customer.State())) && Mirrors(h1)
    {
      PopulateFields(ext, customer);
      UpdatePreferredStore(ext, customer);
      UpdateContactInfo(ext, customer);
      forall c | c in h1
        ensures c.State() == h1[c]
      {
        if c != customer {
          assert c.State() == old(c.State());
        }
      }
    }

    /** The primary customer's create or update; returns whether it was a create, and the port's answer. */
    method WritePrimary(customer: Customer, ghost h: Heap) returns (created: bool, answer: Customer)
      requires Mirrors(h)
      modifies customerService.repository`log
      ensures Mirrors(h)
      ensures created == customer.internalId.None?
      ensures answer == Answer(if created then Port().tables.createAnswer else Port().tables.updateAnswer, customer)
      ensures Port().log == old(Port().log) + [WriteCall(customer.State())]
    {
      created := customer.internalId.None?;
      if created {
        answer := customerService.CreateCustomerRecord(customer);
      } else {
        answer := customerService.UpdateCustomerRecord(customer);
      }
    }

    method LoadCompany(externalCustomer: ExternalCustomer, ghost h: Heap) returns (r: Result<Matches, string>)
      requires externalCustomer.externalId.Some? && externalCustomer.companyNumber.Some?
      requires h.Keys == Stored() && Mirrors(h) && Port().Valid()
      modifies customerService.repository`log, Stored()
      ensures var externalId := old(externalCustomer.externalId.value);
              var companyNumber := old(externalCustomer.companyNumber.value);
              Port().log == old(Port().log) + CompanyLookupCalls(Port().tables, externalId, companyNumber) &&
              match ResolveCompany(h, CompanyMatches(Port().tables, externalId, companyNumber), externalId, companyNumber)
              case Failure(message) => r == Failure(message) && Mirrors(h)
              case Success(resolved) => r == Success(resolved.matches) && Mirrors(resolved.heap)
    {
      var externalId := externalCustomer.externalId.value;
      var companyNumber := externalCustomer.companyNumber.value;
      var matches := customerService.LoadCompanyCustomer(externalId, companyNumber);
      r := CheckCompany(matches, externalId, companyNumber, h);
    }

    /** The checks and rewrites `loadCompany` applies to the lookup's answer. */
    method CheckCompany(matches: Matches, externalId: string, companyNumber: string, ghost h: Heap)
      returns (r: Result<Matches, string>)
      requires Consistent(matches, h) && Mirrors(h)
      modifies ObjectsOf(matches.customer)
      ensures match ResolveCompany(h, matches, externalId, companyNumber)
              case Failure(message) => r == Failure(message) && Mirrors(h)
              case Success(resolved) => r == Success(resolved.matches) && Mirrors(resolved.heap)
    {
      MatchTermsDistinct();
      if matches.customer.Some? && matches.customer.value.customerType != Some(Company) {
        return Failure(NotCompanyMessage(externalId));
      }
      var m := matches;
      if m.matchTerm == Some(ExternalIdTerm) {
        var customer := m.customer.value;
        if Some(companyNumber) != customer.companyNumber {
          customer.masterExternalId := None;
          m := m.(duplicates := m.duplicates + [Some(customer)]);
          m := m.(customer := None);
          m := m.(matchTerm := None);
        }
      } else if m.matchTerm == Some(CompanyNumberTerm) {
        var customer := m.customer.value;
        var customerExternalId := customer.externalId;
        if customerExternalId.Some? && externalId != customerExternalId.value {
          return Failure(ExternalIdMismatchMessage(companyNumber, externalId, customerExternalId.value));
        }
        customer.externalId := Some(externalId);
        customer.masterExternalId := Some(externalId);
        m := m.(duplicates := m.duplicates + [None]);
      }
      return Success(m);
    }

    method LoadPerson(externalCustomer: ExternalCustomer, ghost h: Heap) returns (r: Result<Matches, string>)
      requires externalCustomer.externalId.Some?
      requires h.Keys == Stored() && Mirrors(h) && Port().Valid()
      modifies customerService.repository`log, Stored()
      ensures var externalId := old(externalCustomer.externalId.value);
              Port().log == old(Port().log) + PersonLookupCalls(externalId) &&
              match ResolvePerson(h, PersonMatches(Port().tables, externalId), externalId)
              case Failure(message) => r == Failure(message) && Mirrors(h)
              case Success(resolved) => r == Success(resolved.matches) && Mirrors(resolved.heap)
    {
      var externalId := externalCustomer.externalId.value;
      var matches := customerService.LoadPersonCustomer(externalId);
      r := CheckPerson(matches, externalId, h);
    }

    /**
     * The checks `loadPerson` applies to the lookup's answer. The rebinding branch cannot be
     * reached from `LoadPerson`, whose lookup always sets the term with the customer.
     */
    method CheckPerson(matches: Matches, externalId: string, ghost h: Heap) returns (r: Result<Matches, string>)
      requires Consistent(matches, h) && Mirrors(h)
      modifies ObjectsOf(matches.customer)
      ensures match ResolvePerson(h, matches, externalId)
              case Failure(message) => r == Failure(message) && Mirrors(h)
              case Success(resolved) => r == Success(resolved.matches) && Mirrors(resolved.heap)
    {
      if matches.customer.None? {
        return Success(matches);
      }
      if matches.customer.value.customerType != Some(Person) {
        return Failure(NotPersonMessage(externalId));
      }
      if matches.matchTerm != Some(ExternalIdTerm) {
        var customer := matches.customer.value;
        customer.externalId := Some(externalId);
        customer.masterExternalId := Some(externalId);
      }
      return Success(matches);
    }

    method PopulateFields(ext: ExternalRecord, customer: Customer)
      modifies customer
      ensures customer.State() == Populated(ext, old(customer.State()))
    {
      customer.name := ext.name;
      if ext.IsCompany() {
        customer.companyNumber := ext.companyNumber;
        customer.customerType := Some(Company);
      } else {
        customer.customerType := Some(Person);
        customer.bonusPointsBalance := ext.bonusPointsBalance;
      }
    }

    method UpdatePreferredStore(ext: ExternalRecord, customer: Customer)
      modifies customer
      ensures customer.State() == WithPreferredStore(ext, old(customer.State()))
    {
      customer.preferredStore := ext.preferredStore;
    }

    method UpdateContactInfo(ext: ExternalRecord, customer: Customer)
      modifies customer
      ensures customer.State() == WithContactInfo(ext, old(customer.State()))
    {
      customer.address := ext.GetPostalAddress();
    }

    method UpdateRelations(ext: ExternalRecord, customer: Customer, ghost h: Heap)
      requires Mirrors(h)
      modifies customer, customerService.repository`log
      ensures customer.State() == WithLists(old(customer.State()), ext.shoppingLists)
      ensures Port().log == old(Port().log) + RelationCalls(old(customer.State()), ext.shoppingLists)
      ensures Mirrors(if customer in h then h[customer := WithLists(old(customer.State()), ext.shoppingLists)] else h)
    {
      var lists := ext.shoppingLists;
      for i := 0 to |lists|
        invariant customer.State() == WithLists(old(customer.State()), lists[..i])
        invariant Port().log == old(Port().log) + RelationCalls(old(customer.State()), lists[..i])
      {
        assert lists[..i + 1][..i] == lists[..i];
        assert lists[..i + 1] == lists[..i] + [lists[i]];
        var _ := customerService.UpdateShoppingList(customer, lists[i]);
      }
      assert lists[..|lists|] == lists;
      ghost var h1: Heap := if customer in h then h[customer := WithLists(old(customer.State()), lists)] else h;
      forall c | c in h1
        ensures c.State() == h1[c]
      {
        if c != customer {
          assert c.State() == h[c];
        }
      }
    }

    /** The loop over the duplicates at the end of `syncExternalCustomer`. */
    method UpdateDuplicates(ext: ExternalRecord, duplicates: seq<Option<Customer>>, ghost h: Heap)
      requires ext.externalId.Some?
      requires h.Keys == Stored() && EntriesIn(duplicates, h.Keys) && Mirrors(h)
      modifies customerService.repository`log, Stored()
      ensures var sweep := Sweep(h, ext.externalId.value, ext.name, duplicates);
              Port().log == old(Port().log) + sweep.calls && Mirrors(sweep.heap)
    {
      ghost var done := Sweep(h, ext.externalId.value, ext.name, []);
      for i := 0 to |duplicates|
        invariant EntriesIn(duplicates[..i], h.Keys)
        invariant done == Sweep(h, ext.externalId.value, ext.name, duplicates[..i])
        invariant done.heap.Keys == h.Keys
        invariant Port().log == old(Port().log) + done.calls
        invariant Mirrors(done.heap)
      {
        SweepStep(h, ext.externalId.value, ext.name, duplicates, i);
        ghost var s := DuplicateState(done.heap, ext.externalId.value, ext.name, duplicates[i]);
        UpdateDuplicate(ext, duplicates[i], done.heap);
        ConcatAssociative(old(Port().log), done.calls, [WriteCall(s)]);
        done := Effect(if duplicates[i].Some? then done.heap[duplicates[i].value := s] else done.heap,
                       done.calls + [WriteCall(s)]);
      }
      assert duplicates[..|duplicates|] == duplicates;
    }

    method UpdateDuplicate(ext: ExternalRecord, duplicate: Option<Customer>, ghost h: Heap)
      requires ext.externalId.Some?
      requires Mirrors(h) && (duplicate.Some? ==> duplicate.value in h)
      modifies customerService.repository`log, ObjectsOf(duplicate)
      ensures var s := DuplicateState(h, ext.externalId.value, ext.name, duplicate);
              Port().log == old(Port().log) + [WriteCall(s)] &&
              Mirrors(if duplicate.Some? then h[duplicate.value := s] else h)
    {
      var customer: Customer;
      if duplicate.None? {
        customer := new Customer();
        customer.externalId := ext.externalId;
        customer.masterExternalId := ext.externalId;
      } else {
        customer := duplicate.value;
      }
      customer.name := ext.name;
      if customer.internalId.None? {
        var _ := customerService.CreateCustomerRecord(customer);
      } else {
        var _ := customerService.UpdateCustomerRecord(customer);
      }
    }
  }
}
