# customer-sync in Dafny

This project models the customer synchronisation of the `customer-sync` repository. A
customer record arrives from an external system: an `ExternalCustomer`, which is either a
company (it carries a company number) or a person. `CustomerSync.syncExternalCustomer`
reconciles it with the internal customers that a `CustomerRespository` holds:

- It looks the record up through `CustomerService`: by external id, then by master external
  id or by company number.
- It refuses a conflicting match with a `ConflictException`.
- It detaches or rebinds the customers it found.
- It merges the record's fields into the primary customer and creates or updates that
  customer.
- It adds the record's shopping lists.
- It renames and writes every duplicate.
- It returns whether the primary customer was created.

The model has two layers.

**Reference functions on values** (module `CustomerSyncs`):

- A `Heap` maps every stored customer object to its `CustomerState`.
- `Resolve` (built from `ResolveCompany` and `ResolvePerson`) gives the outcome of
  `loadCompany` or `loadPerson`.
- `Persist` gives the merge, the primary customer's create or update and the shopping lists;
  `ListHolder` names the customer the lists go to (the one the port's create or update answered
  with), and `Apply` adds the duplicate sweep.
- `SyncPlan` gives the whole run. A `Run` holds the result, every call made on the repository
  in order, and the final heap.

**Imperative classes**, which follow the Java objects:

- `Customer` and `ExternalCustomer` have mutable fields.
- `CustomerRespository` is a port: fixed lookup tables, fixed answers for `create` and `update`,
  and a log of every call.
- `CustomerService` and `CustomerSync` are the services.

Each method is proved against the reference functions. `SyncExternalCustomer` ensures that
its result, the calls it appended to the port's log, and the new state of every stored
customer are exactly those of `SyncPlan`. The properties of the synchronisation are lemmas
about those functions, in module `SyncProperties`.

A `ConflictException` becomes `Failure(message)` with the exact message text. A Java `null`
becomes `None`.

The model reproduces three behaviours of the code exactly:

- **Rebinding a company creates a second record.** When a company matched by company number is
  rebound to the incoming external id, the placeholder duplicate (`addDuplicate(null)`) makes
  the sweep create a second new customer with the same external id (`CompanyRebound`).
- **Duplicates are not checked for distinctness.** When the customer found by master id is the
  customer found by external id, that customer is written once more after its shopping lists
  (`SameCustomerWrittenTwice`).
- **The shopping lists go to the port's answer.** `customer` is reassigned to what the create or
  update returns, and `updateRelations` acts on that object, which need not be the one just
  merged (`ApplyToAnswer`, `NoMatchCreates`).

The person branch that rebinds a customer matched by a term other than the external id is
modelled as written. The lookup service never produces that case: `PersonMatches` gives a
customer only with the external-id term, and `PersonResolutionKeepsHeap` shows that a person's
resolution changes no customer.

## Model

| member | source | states |
|---|---|---|
| CustomerSyncs.CustomerSync.constructor | src/main/java/codingdojo/CustomerSync.java:16-18 | the sync wraps a service over the given repository |
| CustomerSyncs.CustomerSync.SyncExternalCustomer | src/main/java/codingdojo/CustomerSync.java:20-58 | the result, the port calls and every stored customer's new state are those `SyncPlan` gives for the stored states, the port's lookup tables and write answers, and the incoming record |
| CustomerSyncs.CustomerSync.ApplyMatches | src/main/java/codingdojo/CustomerSync.java:30-57 | after a conflict-free lookup, the result, the calls and the new states are those of `Apply` |
| CustomerSyncs.CustomerSync.PrimaryCustomer | src/main/java/codingdojo/CustomerSync.java:30-36 | the matched customer unchanged, or a fresh customer whose external and master ids are the incoming id; it is stored exactly when there was a match |
| CustomerSyncs.CustomerSync.MergeAndPersist | src/main/java/codingdojo/CustomerSync.java:38-49 | the customer is merged, then created exactly when it has no internal id and updated otherwise; the shopping lists then go to the customer the port answered with; the calls and the new states are those of `Persist`, and `created` is true exactly when the primary had no internal id |
| CustomerSyncs.CustomerSync.MergeAndWrite | src/main/java/codingdojo/CustomerSync.java:38-47 | after the merge and the one write, the answer is the customer `ListHolder` names (stored) or the new primary customer itself (not stored), and it has the state the merge left it in |
| CustomerSyncs.CustomerSync.MergeRecord | src/main/java/codingdojo/CustomerSync.java:38-40 | the customer takes the state `Merged` gives and no other customer changes |
| CustomerSyncs.CustomerSync.WritePrimary | src/main/java/codingdojo/CustomerSync.java:42-47 | a customer without internal id is created, any other updated; the answer is the port's create or update answer; no customer changes |
| CustomerSyncs.CustomerSync.PopulateFields | src/main/java/codingdojo/CustomerSync.java:94-104 | the name is copied; a company gets the company number and type COMPANY; a person gets type PERSON and the bonus points |
| CustomerSyncs.CustomerSync.UpdatePreferredStore | src/main/java/codingdojo/CustomerSync.java:86-88 | only the preferred store changes, to the record's |
| CustomerSyncs.CustomerSync.UpdateContactInfo | src/main/java/codingdojo/CustomerSync.java:106-108 | only the address changes, to the record's postal address |
| CustomerSyncs.CustomerSync.UpdateRelations | src/main/java/codingdojo/CustomerSync.java:60-64 | the record's lists are appended to the given customer's lists in order; for each list the port sees an updateShoppingList and then an update; no other customer changes |
| CustomerSyncs.CustomerSync.UpdateDuplicates | src/main/java/codingdojo/CustomerSync.java:51-55 | the duplicates are swept in order; the calls and the new states are those of `Sweep` |
| CustomerSyncs.CustomerSync.UpdateDuplicate | src/main/java/codingdojo/CustomerSync.java:70-84 | a null entry becomes a new customer carrying the incoming id as external and master id; the duplicate takes the record's name and is created when it has no internal id, otherwise updated |
| CustomerSyncs.CustomerSync.LoadCompany | src/main/java/codingdojo/CustomerSync.java:110-142 | the port sees the company lookups; the result and the changes to the matched customers are those of `ResolveCompany` |
| CustomerSyncs.CustomerSync.CheckCompany | src/main/java/codingdojo/CustomerSync.java:116-141 | the type conflict, the detach on a changed company number, the id-mismatch conflict and the rebind are those of `ResolveCompany` |
| CustomerSyncs.CustomerSync.LoadPerson | src/main/java/codingdojo/CustomerSync.java:144-165 | the port sees one lookup by external id; the result and the changes are those of `ResolvePerson` |
| CustomerSyncs.CustomerSync.CheckPerson | src/main/java/codingdojo/CustomerSync.java:148-163 | the type conflict and the rebind are those of `ResolvePerson` |
| CustomerSyncs.ResolveCompany | src/main/java/codingdojo/CustomerSync.java:116-141 | a successful company resolution keeps the set of customers, mentions only stored customers, and changes no internal id, shopping list or name |
| CustomerSyncs.ResolvePerson | src/main/java/codingdojo/CustomerSync.java:148-163 | a successful person resolution keeps the set of customers, mentions only stored customers, and changes no internal id, shopping list or name |
| CustomerSyncs.Resolve | src/main/java/codingdojo/CustomerSync.java:24-28 | the company or person resolution, chosen by `isCompany`, keeps the set of customers |
| CustomerSyncs.LookupMatches | src/main/java/codingdojo/CustomerSync.java:24-28 | the matches `loadCompanyCustomer` or `loadPersonCustomer` return only mention customers the port can hand out, carry a term only with a customer, and have no duplicates for a person |
| CustomerSyncs.NotCompanyMessage | src/main/java/codingdojo/CustomerSync.java:117 | the message is the conflict prefix, the incoming id, then " already exists and is not a company" |
| CustomerSyncs.NotPersonMessage | src/main/java/codingdojo/CustomerSync.java:153-154 | the message is the conflict prefix, the incoming id, then " already exists and is not a person" |
| CustomerSyncs.ExternalIdMismatchMessage | src/main/java/codingdojo/CustomerSync.java:131-132 | the message starts with the conflict prefix and the company number and ends with the external id found |
| CustomerSyncs.LookupCalls | src/main/java/codingdojo/CustomerSync.java:24-28 | a company makes two lookups, a person one; the first is by external id and none writes |
| CustomerSyncs.NewCustomerState | src/main/java/codingdojo/CustomerSync.java:33-35 | a new customer holds the incoming id as external and master id, and no internal id, name, type, company number or list |
| CustomerSyncs.Populated | src/main/java/codingdojo/CustomerSync.java:94-104 | the name is the record's; a company gets the company number and type COMPANY, a person type PERSON and the bonus points; no other field changes |
| CustomerSyncs.WithPreferredStore | src/main/java/codingdojo/CustomerSync.java:86-88 | the preferred store is the record's and no other field changes |
| CustomerSyncs.WithContactInfo | src/main/java/codingdojo/CustomerSync.java:106-108 | the address is the record's postal address and no other field changes |
| CustomerSyncs.DuplicateState | src/main/java/codingdojo/CustomerSync.java:70-79 | the duplicate takes the record's name and changes nothing else; a null entry becomes a customer with both ids set to the incoming id and no internal id; it is created exactly when it has no internal id |
| CustomerSyncs.Merged | src/main/java/codingdojo/CustomerSync.java:38-40 | the merge sets the name, preferred store and address; it sets the company fields or the person fields; it keeps the ids and the shopping lists |
| CustomerSyncs.WriteCall | src/main/java/codingdojo/CustomerSync.java:42-47 | persisting is a write, and it is a create exactly when there is no internal id |
| CustomerSyncs.RelationCalls | src/main/java/codingdojo/CustomerSync.java:60-64 | two port calls per shopping list |
| CustomerSyncs.Sweep | src/main/java/codingdojo/CustomerSync.java:51-55 | the sweep keeps the set of customers and makes one call per duplicate entry |
| CustomerSyncs.Base | src/main/java/codingdojo/CustomerSync.java:30-36 | the matched customer's stored state, or without a match a blank customer whose external and master external ids are the incoming id and which has no internal id, name, type, company number or lists |
| CustomerSyncs.ListHolder | src/main/java/codingdojo/CustomerSync.java:42-49 | the customer the lists go to is the create's answer for a customer without an internal id and the update's answer otherwise, or the primary customer itself when the port answers with its argument |
| CustomerSyncs.WithLists | src/main/java/codingdojo/services/CustomerService.java:60 | adding lists keeps the customer's own lists first, grows them by exactly the lists added, and changes nothing else |
| CustomerSyncs.Persist | src/main/java/codingdojo/CustomerSync.java:38-49 | merge, write and shopping lists keep the set of customers and make 1 + 2·lists calls |
| CustomerSyncs.Apply | src/main/java/codingdojo/CustomerSync.java:30-57 | merge, persistence and sweep keep the set of customers |
| CustomerSyncs.SyncPlan | src/main/java/codingdojo/CustomerSync.java:20-58 | a whole run keeps the set of customers |
| SyncProperties.NotCompanyMessageInjective | src/main/java/codingdojo/CustomerSync.java:117 | the "not a company" message determines the external id it names |
| SyncProperties.TypeConflictMessagesDiffer | src/main/java/codingdojo/CustomerSync.java:117-154 | the company and person type-conflict messages never coincide |
| SyncProperties.MismatchMessageNamesAll | src/main/java/codingdojo/CustomerSync.java:131-132 | the id-mismatch message holds the company number, the incoming id and the found id, each at its position |
| SyncProperties.SweepRenames | src/main/java/codingdojo/CustomerSync.java:70-84 | after the sweep, each listed duplicate holds the record's name and every other customer is unchanged |
| SyncProperties.SweepWrites | src/main/java/codingdojo/CustomerSync.java:51-55 | the i-th sweep call writes the i-th duplicate, renamed |
| SyncProperties.SweepPlaceholdersCreate | src/main/java/codingdojo/CustomerSync.java:71-80 | a null duplicate entry creates a new customer with both ids set to the incoming id and the record's name |
| SyncProperties.SweepLast | src/main/java/codingdojo/CustomerSync.java:51-55 | a duplicate swept last ends with the record's name, and its write is the last call of the sweep |
| SyncProperties.RelationCallsOrder | src/main/java/codingdojo/services/CustomerService.java:59-64 | for list i: first updateShoppingList(list i), then an update of the customer holding lists 0..i appended |
| SyncProperties.RelationCallsWrite | src/main/java/codingdojo/services/CustomerService.java:59-64 | every shopping-list call is a write |
| SyncProperties.ApplyCreated | src/main/java/codingdojo/CustomerSync.java:42-47 | `created`, the first write being a create, and the primary being absent or without internal id are all equivalent |
| SyncProperties.ApplyFirstWrite | src/main/java/codingdojo/CustomerSync.java:38-47 | the first call after resolution is the create or update of the primary customer merged with the record |
| SyncProperties.ApplyFrame | src/main/java/codingdojo/CustomerSync.java:38-55 | a customer that is neither the primary, a duplicate nor a write answer keeps its state |
| SyncProperties.ApplyToDuplicate | src/main/java/codingdojo/CustomerSync.java:51-55 | a duplicate that is neither the primary nor the customer the lists went to ends with the record's name and is otherwise unchanged |
| SyncProperties.ApplyWrites | src/main/java/codingdojo/CustomerSync.java:42-55 | after the lookups there are 1 + 2·lists + duplicates calls, all writes |
| SyncProperties.ApplyPrimary | src/main/java/codingdojo/CustomerSync.java:38-55 | the matched primary ends merged; it holds the record's lists appended exactly when the lists went to it |
| SyncProperties.ApplyToAnswer | src/main/java/codingdojo/CustomerSync.java:43-49 | a stored answer other than the primary gets the record's lists appended to its own, and the record's name only if it is also a duplicate |
| SyncProperties.ApplyDetached | src/main/java/codingdojo/CustomerSync.java:32-55 | with no primary, the first write creates the merged new customer; a duplicate swept last ends renamed, holding the lists too when it was the create's answer, and is written last |
| SyncProperties.ApplyPlaceholderLast | src/main/java/codingdojo/CustomerSync.java:71-80 | a placeholder swept last makes the last call the create of a second new customer |
| SyncProperties.ApplyPrimaryAgain | src/main/java/codingdojo/CustomerSync.java:51-55 | when the only duplicate is the primary, it is written first merged and last again as the shopping-list step left it |
| SyncProperties.ResolutionKeepsRecords | src/main/java/codingdojo/CustomerSync.java:110-164 | resolution changes no internal id, shopping list or name |
| SyncProperties.StaleCompanyResolution | src/main/java/codingdojo/CustomerSync.java:120-127 | a company found by external id with another company number loses its master id, is queued as the last duplicate, and the primary and term are cleared |
| SyncProperties.MatchedCompanyPassesThrough | src/main/java/codingdojo/CustomerSync.java:114-122 | a company found by external id, of type company and with the record's company number, is handed on with the heap untouched and the lookups' matches as they are |
| SyncProperties.CompanyResolutionKeepsOthers | src/main/java/codingdojo/CustomerSync.java:110-142 | a company's conflict checks keep every duplicate found, never replace the primary match by another customer, and change no customer other than the primary |
| SyncProperties.RebindResolution | src/main/java/codingdojo/CustomerSync.java:128-139 | a company found by company number with no or the same external id gets both ids set to the incoming id, and one null duplicate is queued |
| SyncProperties.NoMatchResolution | src/main/java/codingdojo/services/CustomerService.java:17-49 | with no hit, the resolution is empty and changes nothing |
| SyncProperties.PersonResolutionHasNoDuplicates | src/main/java/codingdojo/CustomerSync.java:144-164 | a person resolution never carries duplicates |
| SyncProperties.PersonResolutionKeepsHeap | src/main/java/codingdojo/CustomerSync.java:148-163 | a successful person resolution changes no customer: the rebind branch is never taken |
| SyncProperties.ConflictWritesNothing | src/main/java/codingdojo/CustomerSync.java:116-155 | a conflict issues only the lookups, no write, and changes no customer |
| SyncProperties.CompanyConflicts | src/main/java/codingdojo/CustomerSync.java:116-133 | a company sync fails if and only if the match is not a company, or the company-number match carries another external id; each failure comes with its exact message |
| SyncProperties.PersonConflicts | src/main/java/codingdojo/CustomerSync.java:152-155 | a person sync fails if and only if the customer found is not a person, with the "not a person" message |
| SyncProperties.NoMatchCreates | src/main/java/codingdojo/CustomerSync.java:32-49 | with no hit, the run is the lookups, then one create of a customer whose external and master ids are the incoming id and which has no internal id, then the list calls on the create's answer; the result is true and only that answer, when stored, changes, by getting the lists |
| SyncProperties.StaleCompanyDetached | src/main/java/codingdojo/CustomerSync.java:120-127 | a stale company match ends with its master id cleared, its own internal id and the record's name, plus the lists when it was the create's answer; it is written last; a new customer is created after the two lookups |
| SyncProperties.CompanyRebound | src/main/java/codingdojo/CustomerSync.java:128-139 | a company-number match ends merged with both ids set to the incoming id, holding the lists exactly when the lists went to it; the run has 2 + 1 + 2·lists + 1 calls; the last call creates a second new customer |
| SyncProperties.SameCustomerWrittenTwice | src/main/java/codingdojo/services/CustomerService.java:21-27 | when the master-id match is the external-id match, that customer is written merged after the lookups and again, last, as the shopping-list step left it |
| SyncProperties.CreatedIffPrimaryIsNew | src/main/java/codingdojo/CustomerSync.java:42-47 | the result is true if and only if the first write is a create, if and only if the primary is new or has no internal id |
| SyncProperties.UnrelatedUnchanged | src/main/java/codingdojo/CustomerSync.java:20-58 | a customer the lookups did not return, and that is no write answer, ends the run in the state it started in |
| SyncProperties.FirstWriteIsMergedPrimary | src/main/java/codingdojo/CustomerSync.java:20-47 | without conflict, the first call after the lookups writes the primary merged with the record; for a person matched by external id, and for a company matched by external id with the same company number, that is the stored customer merged, and a stored company is updated with the result "not created" |
| SyncProperties.MasterDuplicateRenamed | src/main/java/codingdojo/services/CustomerService.java:21-27 | a company's master-id match other than its external-id match, and no write answer, ends with the record's name and is otherwise unchanged |
| SyncProperties.WriteCount | src/main/java/codingdojo/CustomerSync.java:20-58 | a successful run is the lookups (no writes), then 1 + 2·lists + duplicates writes |
| SyncProperties.PersonCallCount | src/main/java/codingdojo/services/CustomerService.java:39-49 | a successful person run makes exactly 2 + 2·lists calls |
| SyncProperties.PrimaryFinalState | src/main/java/codingdojo/CustomerSync.java:38-62 | the matched primary ends merged, with the record's name and its own internal id; its lists are its own followed by the record's when the lists went to it, else its own |
| CustomerServices.MatchTermsDistinct | src/main/java/codingdojo/services/CustomerService.java:9-10 | `EXTERNAL_ID` and `COMPANY_NUMBER` differ |
| CustomerServices.CompanyMatches | src/main/java/codingdojo/services/CustomerService.java:17-37 | an external-id hit gives term EXTERNAL_ID and the master-id hit as the only duplicate; otherwise a company-number hit gives term COMPANY_NUMBER; a customer exactly when a term |
| CustomerServices.CompanyLookupCalls | src/main/java/codingdojo/services/CustomerService.java:17-37 | two lookups: by external id, then by master id after a hit or by company number after a miss, never both |
| CustomerServices.PersonMatches | src/main/java/codingdojo/services/CustomerService.java:39-49 | the external-id hit, term EXTERNAL_ID exactly when found, no duplicates |
| CustomerServices.PersonLookupCalls | src/main/java/codingdojo/services/CustomerService.java:41 | one lookup, by the external id, not a write |
| CustomerServices.Matches.HasDuplicates | src/main/java/codingdojo/CustomerSync.java:51 | there are duplicates exactly when the list of duplicates is not empty |
| CustomerServices.CustomerService.constructor | src/main/java/codingdojo/services/CustomerService.java:13-15 | the service keeps the repository |
| CustomerServices.CustomerService.LoadCompanyCustomer | src/main/java/codingdojo/services/CustomerService.java:17-37 | returns `CompanyMatches` and logs `CompanyLookupCalls` |
| CustomerServices.CustomerService.LoadPersonCustomer | src/main/java/codingdojo/services/CustomerService.java:39-49 | returns `PersonMatches` and logs one lookup |
| CustomerServices.CustomerService.UpdateCustomerRecord | src/main/java/codingdojo/services/CustomerService.java:51-53 | one update call with the customer's state; answers what the port's update answers |
| CustomerServices.CustomerService.CreateCustomerRecord | src/main/java/codingdojo/services/CustomerService.java:55-57 | one create call with the customer's state; answers what the port's create answers |
| CustomerServices.CustomerService.UpdateShoppingList | src/main/java/codingdojo/services/CustomerService.java:59-64 | the list is appended to the customer's lists, then the port sees updateShoppingList and then an update of the new state; answers what the port's update answers |
| Repositories.Find | src/main/java/codingdojo/repositories/CustomerRespository.java:14-18 | a lookup answers the stored customer exactly when the key is present, otherwise null |
| Repositories.CustomerRespository.constructor | src/main/java/codingdojo/repositories/CustomerRespository.java:6-19 | the port starts with an empty log over lookups and write answers that return stored customers |
| Repositories.CustomerRespository.FindByExternalId | src/main/java/codingdojo/repositories/CustomerRespository.java:14 | answers the external-id table and logs the call |
| Repositories.CustomerRespository.FindByMasterExternalId | src/main/java/codingdojo/repositories/CustomerRespository.java:16 | answers the master-id table and logs the call |
| Repositories.CustomerRespository.FindByCompanyNumber | src/main/java/codingdojo/repositories/CustomerRespository.java:18 | answers the company-number table and logs the call |
| Repositories.CustomerRespository.Create | src/main/java/codingdojo/repositories/CustomerRespository.java:10 | logs a create of the customer's state and answers the fixed create answer, or the customer itself when there is none |
| Repositories.CustomerRespository.Update | src/main/java/codingdojo/repositories/CustomerRespository.java:8 | logs an update of the customer's state and answers the fixed update answer, or the customer itself when there is none |
| Repositories.CustomerRespository.UpdateShoppingList | src/main/java/codingdojo/repositories/CustomerRespository.java:12 | logs the shopping list |
| Customers.Customer.constructor | src/main/java/codingdojo/CustomerSync.java:33 | a new customer has every field null and no shopping lists |
| Customers.Customer.AddShoppingList | src/main/java/codingdojo/services/CustomerService.java:60 | the list is appended after the existing ones and nothing else changes |
| ExternalCustomers.ExternalCustomer.constructor | src/main/java/codingdojo/models/ExternalCustomer.java:6-13 | every field starts null and the list of shopping lists starts empty |
| ExternalCustomers.ExternalRecord.IsCompany | src/main/java/codingdojo/models/ExternalCustomer.java:23-25 | a record is a company exactly when its company number is not null |
| ExternalCustomers.ExternalRecord.GetPostalAddress | src/main/java/codingdojo/models/ExternalCustomer.java:27-29 | the postal address is the stored address |
| ExternalCustomers.ExternalCustomer.IsCompany | src/main/java/codingdojo/models/ExternalCustomer.java:23-25 | a company exactly when the company number is not null |
| ExternalCustomers.ExternalCustomer.GetPostalAddress | src/main/java/codingdojo/models/ExternalCustomer.java:27-29 | the postal address is the stored address, the same as `getAddress` |
| ExternalCustomers.ExternalCustomer.GetAddress | src/main/java/codingdojo/models/ExternalCustomer.java:67-69 | the stored address |
| ExternalCustomers.ExternalCustomer.SetName | src/main/java/codingdojo/models/ExternalCustomer.java:35-37 | only the name changes |
| ExternalCustomers.ExternalCustomer.SetPreferredStore | src/main/java/codingdojo/models/ExternalCustomer.java:43-45 | only the preferred store changes |
| ExternalCustomers.ExternalCustomer.SetShoppingLists | src/main/java/codingdojo/models/ExternalCustomer.java:51-53 | only the shopping lists change |
| ExternalCustomers.ExternalCustomer.SetExternalId | src/main/java/codingdojo/models/ExternalCustomer.java:55-57 | only the external id changes |
| ExternalCustomers.ExternalCustomer.SetCompanyNumber | src/main/java/codingdojo/models/ExternalCustomer.java:59-61 | only the company number changes |
| ExternalCustomers.ExternalCustomer.SetAddress | src/main/java/codingdojo/models/ExternalCustomer.java:63-65 | only the address changes |
| ExternalCustomers.ExternalCustomer.SetBonusPointsBalance | src/main/java/codingdojo/models/ExternalCustomer.java:75-77 | only the bonus points balance changes |
| ExternalCustomers.ExternalCustomer.Equals | src/main/java/codingdojo/models/ExternalCustomer.java:79-98 | `equals` holds exactly for a non-null object with the same seven field values |
| ExternalCustomers.EqualsIsEquivalence | src/main/java/codingdojo/models/ExternalCustomer.java:79-98 | `equals` is reflexive and symmetric, and false against null |
| ShoppingLists.ShoppingList.Equals | src/main/java/codingdojo/models/ShoppingList.java:18-31 | `equals` holds exactly for a non-null list with the same products |
| ShoppingLists.ShoppingList.GetProducts | src/main/java/codingdojo/models/ShoppingList.java:14-16 | the products returned determine the list: a list built from them is the same list |
| ShoppingLists.ConstructorKeepsProducts | src/main/java/codingdojo/models/ShoppingList.java:10-16 | `getProducts` returns the constructor's arguments, in order |
| ShoppingLists.EqualsIffSameProducts | src/main/java/codingdojo/models/ShoppingList.java:18-31 | two lists are equal if and only if their product sequences are |
| ShoppingLists.EqualsIsEquivalence | src/main/java/codingdojo/models/ShoppingList.java:18-31 | `equals` is reflexive and symmetric, and false against null |
| ShoppingLists.ListEqualsIsSequenceEquality | src/main/java/codingdojo/models/ExternalCustomer.java:94 | element-wise `equals` on two lists of shopping lists is the same as equality of the sequences |

## Left out

- `CustomerRespository` is an interface, and the model replaces it with a port: fixed lookup tables, a fixed answer for `create` and one for `update`, and a log of calls. Each answer is a stored customer, or, when absent, the customer the write was given. The answers assign no internal id and change no customer.
- A `create` or `update` that answers null is not modelled. With a null answer and a non-empty list of shopping lists, the source throws a `NullPointerException` in `CustomerService.updateShoppingList` (`CustomerService.java:60`).
- The value `updateShoppingList` returns from the repository is ignored, as in the source.
- Repository exceptions, storage beyond the lookup tables, and concurrent access are not modelled.
- The port's `Valid()` requires that lookups return only customers in its explicit set of stored customers. That set is what the sync may modify.
- `Customer`, `Address`, `CustomerType`, `CustomerMatchesService` and `ConflictException` are modelled from how `CustomerSync` and `CustomerService` use them:
  - `new Customer()` has every field null and no shopping lists;
  - `addShoppingList` appends a list;
  - matches start empty and `addDuplicate` appends;
  - `hasDuplicates` means a non-empty list of duplicates;
  - an address is compared by value.
- CustomerSyncs.CustomerSync.SyncExternalCustomer: requires a non-null external id. The external id is the record's identity and the key of every lookup, and a repository lookup by a null key has no defined answer, so the port's tables are keyed by strings.
  - The source itself dereferences the id only at `CustomerSync.java:130`: on the company-number path, when the customer found there has an external id.
  - A person with a null external id, or a company on any other path, is synced by the source without error, from lookups by null. The model does not cover those runs.
- CustomerSyncs.CustomerSync.LoadCompany: requires a non-null external id, as the lookup key (see above). It also requires a non-null company number, which holds on every path, because the sync calls `loadCompany` only when `isCompany()` holds.
- CustomerSyncs.CustomerSync.LoadPerson: requires a non-null external id, as the lookup key. The source's `loadPerson` never dereferences it.
- ExternalCustomers.ExternalCustomer.constructor: the Java field `shoppingLists` starts null, and the model starts it empty. For a record whose lists were never set, the source makes the lookups and the primary customer's create or update, and then throws a `NullPointerException` at `CustomerSync.java:61`: the write has happened and the duplicates are never swept. The model adds no list and goes on to the sweep.
- `hashCode` of `ExternalCustomer` and `ShoppingList` is left out, because nothing in the core uses it.
- A null product is not modelled: a product is a `string`, never null. The source's `ShoppingList(String...)` at `models/ShoppingList.java:10-12` keeps one through `Arrays.asList`, and `Objects.equals` at line 30 compares it. Nothing in the core creates or reads a product, so the sync's behaviour does not depend on it.
- The private `createCustomer` and `updateCustomer` wrappers (`CustomerSync.java:66-68`, `90-92`) each forward one call. The model makes those calls on the service directly.
- The getters of `ExternalCustomer` are field reads. The sync's private helpers read one snapshot of the record, its `Record()` value, taken at the start; nothing changes the record during a sync.
- The bonus points balance, a Java `Integer`, is modelled only as a 32-bit range. No arithmetic is done on it.
