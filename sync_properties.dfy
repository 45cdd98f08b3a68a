/**
 * Properties of the synchronisation, stated on the value-level functions the methods of
 * `CustomerSync` are proved to follow: the conflict messages, the duplicate sweep, the
 * shopping-list calls and whole runs of `SyncPlan`.
 */
module SyncProperties {
  import opened Wrappers
  import opened ShoppingLists
  import opened Customers
  import opened ExternalCustomers
  import opened Repositories
  import opened CustomerServices
  import opened CustomerSyncs

  // ---------------------------------------------------------------- conflict messages

  /** The type conflict message of a company is the prefix, the incoming id and a fixed suffix. */
  lemma NotCompanyMessageInjective(a: string, b: string)
    ensures NotCompanyMessage(a) == NotCompanyMessage(b) ==> a == b
  {
    var m, n := NotCompanyMessage(a), NotCompanyMessage(b);
    if m == n {
      assert |a| == |b|;
      assert a == m[|ConflictPrefix|..|ConflictPrefix| + |a|];
      assert b == n[|ConflictPrefix|..|ConflictPrefix| + |b|];
    }
  }

  /** A company conflict can never be mistaken for a person conflict, whatever the two ids. */
  lemma TypeConflictMessagesDiffer(a: string, b: string)
    ensures NotCompanyMessage(a) != NotPersonMessage(b)
  {
    var m, n := NotCompanyMessage(a), NotPersonMessage(b);
    assert m[|m| - 1] == 'y';
    assert n[|n| - 1] == 'n';
  }

  /** The company-number conflict names the company number, the incoming id and the found id, in that order. */
  lemma MismatchMessageNamesAll(companyNumber: string, externalId: string, found: string)
    ensures var m := ExternalIdMismatchMessage(companyNumber, externalId, found);
            var i := |ConflictPrefix|;
            var j := i + |companyNumber| + |" doesn't match external id "|;
            var k := j + |externalId| + |" instead found "|;
            m[..i] == ConflictPrefix &&
            m[i..i + |companyNumber|] == companyNumber &&
            m[j..j + |externalId|] == externalId &&
            m[k..] == found
  {
    var middle, tail := " doesn't match external id ", " instead found ";
    var m := ExternalIdMismatchMessage(companyNumber, externalId, found);
    assert m == ConflictPrefix + companyNumber + middle + externalId + tail + found;
    var i := |ConflictPrefix|;
    var j := i + |companyNumber| + |middle|;
    var k := j + |externalId| + |tail|;
    assert m[..i] == ConflictPrefix;
    assert m[i..i + |companyNumber|] == companyNumber;
    assert m[j..j + |externalId|] == externalId;
    assert m[k..] == found;
  }

  // ---------------------------------------------------------------- the duplicate sweep

  /** The sweep only renames: each stored duplicate ends with the incoming name, all else untouched. */
  lemma {:induction false} SweepRenames(h: Heap, externalId: string, name: Option<string>, ds: seq<Option<Customer>>)
    requires EntriesIn(ds, h.Keys)
    ensures var e := Sweep(h, externalId, name, ds);
            forall c :: c in h ==> e.heap[c] == if Some(c) in ds then h[c].(name := name) else h[c]
    decreases |ds|
  {
    if ds != [] {
      var n := |ds| - 1;
      assert EntriesIn(ds[..n], h.Keys);
      SweepRenames(h, externalId, name, ds[..n]);
      var before := Sweep(h, externalId, name, ds[..n]);
      var e := Sweep(h, externalId, name, ds);
      forall c | c in h
        ensures e.heap[c] == if Some(c) in ds then h[c].(name := name) else h[c]
      {
        assert Some(c) in ds <==> Some(c) in ds[..n] || ds[n] == Some(c) by {
          assert ds == ds[..n] + [ds[n]];
        }
      }
    }
  }

  /** Entry `i` of the sweep writes its customer with the incoming name. */
  lemma {:induction false} SweepWrites(h: Heap, externalId: string, name: Option<string>, ds: seq<Option<Customer>>)
    requires EntriesIn(ds, h.Keys)
    ensures var e := Sweep(h, externalId, name, ds);
            forall i :: 0 <= i < |ds| ==> e.calls[i] == WriteCall(DuplicateState(h, externalId, name, ds[i]))
    decreases |ds|
  {
    if ds != [] {
      var n := |ds| - 1;
      assert EntriesIn(ds[..n], h.Keys);
      var before := Sweep(h, externalId, name, ds[..n]);
      SweepWrites(h, externalId, name, ds[..n]);
      SweepRenames(h, externalId, name, ds[..n]);
      var last := DuplicateState(h, externalId, name, ds[n]);
      if ds[n].Some? {
        var c := ds[n].value;
        assert c in h;
        assert before.heap[c] == h[c] || before.heap[c] == h[c].(name := name);
        assert DuplicateState(before.heap, externalId, name, ds[n]) == last;
      }
      var e := Sweep(h, externalId, name, ds);
      assert e.calls == before.calls + [WriteCall(last)];
      forall i | 0 <= i < |ds|
        ensures e.calls[i] == WriteCall(DuplicateState(h, externalId, name, ds[i]))
      {
        if i < n {
          assert ds[..n][i] == ds[i];
          assert e.calls[i] == before.calls[i] == WriteCall(DuplicateState(h, externalId, name, ds[i]));
        } else {
          assert i == n && e.calls[i] == WriteCall(last);
        }
      }
    }
  }

  /** A placeholder entry of the sweep creates a new customer holding the incoming id as both ids. */
  lemma SweepPlaceholdersCreate(h: Heap, externalId: string, name: Option<string>, ds: seq<Option<Customer>>)
    requires EntriesIn(ds, h.Keys)
    ensures var e := Sweep(h, externalId, name, ds);
            forall i :: 0 <= i < |ds| && ds[i].None? ==> e.calls[i] == PortCall.Create(NewCustomerState(externalId).(name := name))
  {
    SweepWrites(h, externalId, name, ds);
  }

  /** A duplicate swept last ends with the incoming name, which is also the last write. */
  lemma SweepLast(h: Heap, externalId: string, name: Option<string>, ds: seq<Option<Customer>>, c: Customer)
    requires EntriesIn(ds, h.Keys) && |ds| > 0 && ds[|ds| - 1] == Some(c)
    ensures var e := Sweep(h, externalId, name, ds);
            e.heap[c] == h[c].(name := name) && e.calls[|ds| - 1] == WriteCall(h[c].(name := name))
  {
    SweepRenames(h, externalId, name, ds);
    SweepWrites(h, externalId, name, ds);
  }

  // ---------------------------------------------------------------- shopping lists

  /** Per list and in order: the list is written, then the customer holding every list so far. */
  lemma {:induction false} RelationCallsOrder(c: CustomerState, lists: seq<ShoppingList>)
    ensures var calls := RelationCalls(c, lists);
            forall i :: 0 <= i < |lists| ==>
              calls[2 * i] == PortCall.UpdateShoppingList(lists[i]) &&
              calls[2 * i + 1] == PortCall.Update(WithLists(c, lists[..i + 1]))
    decreases |lists|
  {
    if lists != [] {
      var n := |lists| - 1;
      RelationCallsOrder(c, lists[..n]);
      var calls := RelationCalls(c, lists);
      forall i | 0 <= i < |lists|
        ensures calls[2 * i] == PortCall.UpdateShoppingList(lists[i])
        ensures calls[2 * i + 1] == PortCall.Update(WithLists(c, lists[..i + 1]))
      {
        if i < n {
          assert lists[..n][i] == lists[i];
          assert lists[..n][..i + 1] == lists[..i + 1];
        } else {
          assert lists[..i + 1] == lists;
        }
      }
    }
  }

  /** Every shopping-list call writes. */
  lemma RelationCallsWrite(c: CustomerState, lists: seq<ShoppingList>)
    ensures forall i :: 0 <= i < |RelationCalls(c, lists)| ==> RelationCalls(c, lists)[i].IsWrite()
  {
    var calls := RelationCalls(c, lists);
    RelationCallsOrder(c, lists);
    forall i | 0 <= i < |calls|
      ensures calls[i].IsWrite()
    {
      var j := i / 2;
      assert i == 2 * j || i == 2 * j + 1;
    }
  }

  // ---------------------------------------------------------------- after resolution

  /** The primary write tells whether the primary customer is new: no match, or no internal id. */
  lemma ApplyCreated(r: Resolved, t: Tables, ext: ExternalRecord)
    requires ext.externalId.Some? && r.matches.Within(r.heap.Keys) && t.Customers() <= r.heap.Keys
    ensures var run := Apply(r, t, ext);
            var primary := r.matches.customer;
            run.result.Success? && |run.calls| > 0 &&
            (run.result.value <==> run.calls[0].Create?) &&
            (run.result.value <==> primary.None? || r.heap[primary.value].internalId.None?)
  {
    var p := Persist(r, t, ext);
    assert Apply(r, t, ext).calls[0] == p.calls[0];
  }

  /** One write for the primary customer, two calls per shopping list, one write per duplicate: all writes. */
  lemma ApplyWrites(r: Resolved, t: Tables, ext: ExternalRecord)
    requires ext.externalId.Some? && r.matches.Within(r.heap.Keys) && t.Customers() <= r.heap.Keys
    ensures var run := Apply(r, t, ext);
            |run.calls| == 1 + 2 * |ext.shoppingLists| + |r.matches.duplicates| &&
            forall i :: 0 <= i < |run.calls| ==> run.calls[i].IsWrite()
  {
    var merged := Merged(ext, Base(r, ext.externalId.value));
    var p := Persist(r, t, ext);
    var run := Apply(r, t, ext);
    var holder := ListHolder(t, r.matches.customer, merged);
    var h1 := if r.matches.customer.Some? then r.heap[r.matches.customer.value := merged] else r.heap;
    var before := if holder.Some? then h1[holder.value] else merged;
    var relations := RelationCalls(before, ext.shoppingLists);
    assert p.calls == [WriteCall(merged)] + relations;
    var sweep := Sweep(p.heap, ext.externalId.value, ext.name, r.matches.duplicates);
    RelationCallsWrite(before, ext.shoppingLists);
    SweepWrites(p.heap, ext.externalId.value, ext.name, r.matches.duplicates);
    assert run.calls == [WriteCall(merged)] + relations + sweep.calls;
    forall i | 0 <= i < |run.calls|
      ensures run.calls[i].IsWrite()
    {
      if i == 0 {
        assert run.calls[0] == WriteCall(merged);
      } else if i < 1 + |relations| {
        assert run.calls[i] == relations[i - 1];
        assert relations[i - 1].IsWrite();
      } else {
        var k := i - 1 - |relations|;
        assert run.calls[i] == sweep.calls[k];
        assert sweep.calls[k] == WriteCall(DuplicateState(p.heap, ext.externalId.value, ext.name, r.matches.duplicates[k]));
      }
    }
  }

  /**
   * A matched primary customer ends merged with the record; it holds the record's lists after its
   * own when it is the customer the lists went to.
   */
  lemma ApplyPrimary(r: Resolved, t: Tables, ext: ExternalRecord)
    requires ext.externalId.Some? && r.matches.Within(r.heap.Keys) && t.Customers() <= r.heap.Keys
    requires r.matches.customer.Some?
    ensures var c := r.matches.customer.value;
            var merged := Merged(ext, r.heap[c]);
            Apply(r, t, ext).heap[c] == if ListHolder(t, r.matches.customer, merged) == Some(c) then WithLists(merged, ext.shoppingLists) else merged
  {
    var p := Persist(r, t, ext);
    SweepRenames(p.heap, ext.externalId.value, ext.name, r.matches.duplicates);
  }

  /**
   * A stored answer other than the primary customer gets the record's lists after its own, and the
   * record's name only if it is also a duplicate.
   */
  lemma ApplyToAnswer(r: Resolved, t: Tables, ext: ExternalRecord, d: Customer)
    requires ext.externalId.Some? && r.matches.Within(r.heap.Keys) && t.Customers() <= r.heap.Keys
    requires ListHolder(t, r.matches.customer, Merged(ext, Base(r, ext.externalId.value))) == Some(d)
    requires r.matches.customer != Some(d)
    ensures var listed := WithLists(r.heap[d], ext.shoppingLists);
            Apply(r, t, ext).heap[d] == if Some(d) in r.matches.duplicates then listed.(name := ext.name) else listed
  {
    var p := Persist(r, t, ext);
    assert p.heap[d] == WithLists(r.heap[d], ext.shoppingLists);
    SweepRenames(p.heap, ext.externalId.value, ext.name, r.matches.duplicates);
  }

  /** The first call after resolution writes the primary customer merged with the record. */
  lemma ApplyFirstWrite(r: Resolved, t: Tables, ext: ExternalRecord)
    requires ext.externalId.Some? && r.matches.Within(r.heap.Keys) && t.Customers() <= r.heap.Keys
    ensures var run := Apply(r, t, ext);
            |run.calls| > 0 && run.calls[0] == WriteCall(Merged(ext, Base(r, ext.externalId.value)))
  {
    var p := Persist(r, t, ext);
    assert Apply(r, t, ext).calls[0] == p.calls[0];
  }

  /** A customer that is neither the primary, a duplicate nor a write answer is left as it was. */
  lemma ApplyFrame(r: Resolved, t: Tables, ext: ExternalRecord, c: Customer)
    requires ext.externalId.Some? && r.matches.Within(r.heap.Keys) && t.Customers() <= r.heap.Keys
    requires c in r.heap && r.matches.customer != Some(c) && Some(c) !in r.matches.duplicates
    requires t.createAnswer != Some(c) && t.updateAnswer != Some(c)
    ensures Apply(r, t, ext).heap[c] == r.heap[c]
  {
    var p := Persist(r, t, ext);
    assert p.heap[c] == r.heap[c];
    SweepRenames(p.heap, ext.externalId.value, ext.name, r.matches.duplicates);
  }

  /** A duplicate that is neither the primary nor the customer the lists went to ends only renamed. */
  lemma ApplyToDuplicate(r: Resolved, t: Tables, ext: ExternalRecord, d: Customer)
    requires ext.externalId.Some? && r.matches.Within(r.heap.Keys) && t.Customers() <= r.heap.Keys
    requires d in r.heap && Some(d) in r.matches.duplicates && r.matches.customer != Some(d)
    requires ListHolder(t, r.matches.customer, Merged(ext, Base(r, ext.externalId.value))) != Some(d)
    ensures Apply(r, t, ext).heap[d] == r.heap[d].(name := ext.name)
  {
    var p := Persist(r, t, ext);
    assert p.heap[d] == r.heap[d];
    SweepRenames(p.heap, ext.externalId.value, ext.name, r.matches.duplicates);
  }

  /**
   * Without a primary customer, a new one is created first and the shopping lists go to the
   * create's answer; a duplicate `c` swept last is written last, renamed.
   */
  lemma ApplyDetached(r: Resolved, t: Tables, ext: ExternalRecord, c: Customer)
    requires ext.externalId.Some? && r.matches.Within(r.heap.Keys) && t.Customers() <= r.heap.Keys
    requires r.matches.customer.None?
    requires |r.matches.duplicates| > 0 && r.matches.duplicates[|r.matches.duplicates| - 1] == Some(c)
    ensures var run := Apply(r, t, ext);
            var listed := if t.createAnswer == Some(c) then WithLists(r.heap[c], ext.shoppingLists) else r.heap[c];
            var renamed := listed.(name := ext.name);
            run.result == Success(true) && run.heap[c] == renamed &&
            run.calls[0] == PortCall.Create(Merged(ext, NewCustomerState(ext.externalId.value))) &&
            run.calls[|run.calls| - 1] == WriteCall(renamed)
  {
    var ds := r.matches.duplicates;
    var p := Persist(r, t, ext);
    var listed := if t.createAnswer == Some(c) then WithLists(r.heap[c], ext.shoppingLists) else r.heap[c];
    assert p.heap[c] == listed;
    var sweep := Sweep(p.heap, ext.externalId.value, ext.name, ds);
    SweepLast(p.heap, ext.externalId.value, ext.name, ds, c);
    var run := Apply(r, t, ext);
    assert run.calls == p.calls + sweep.calls;
    assert run.calls[0] == p.calls[0];
    assert run.calls[|run.calls| - 1] == sweep.calls[|ds| - 1];
  }

  /** A placeholder swept last makes the last call a create of a new customer with both ids and the name. */
  lemma ApplyPlaceholderLast(r: Resolved, t: Tables, ext: ExternalRecord)
    requires ext.externalId.Some? && r.matches.Within(r.heap.Keys) && t.Customers() <= r.heap.Keys
    requires |r.matches.duplicates| > 0 && r.matches.duplicates[|r.matches.duplicates| - 1] == None
    ensures var run := Apply(r, t, ext);
            |run.calls| > 0 &&
            run.calls[|run.calls| - 1] == PortCall.Create(NewCustomerState(ext.externalId.value).(name := ext.name))
  {
    var ds := r.matches.duplicates;
    var p := Persist(r, t, ext);
    var sweep := Sweep(p.heap, ext.externalId.value, ext.name, ds);
    SweepPlaceholdersCreate(p.heap, ext.externalId.value, ext.name, ds);
    var run := Apply(r, t, ext);
    assert run.calls == p.calls + sweep.calls;
    assert run.calls[|run.calls| - 1] == sweep.calls[|ds| - 1];
  }

  /**
   * When the only duplicate is the primary customer itself, it is written once more, last, as the
   * shopping-list step left it.
   */
  lemma ApplyPrimaryAgain(r: Resolved, t: Tables, ext: ExternalRecord)
    requires ext.externalId.Some? && r.matches.Within(r.heap.Keys) && t.Customers() <= r.heap.Keys
    requires r.matches.customer.Some? && r.matches.duplicates == [r.matches.customer]
    ensures var c := r.matches.customer.value;
            var run := Apply(r, t, ext);
            var merged := Merged(ext, r.heap[c]);
            var persisted := if ListHolder(t, r.matches.customer, merged) == Some(c) then WithLists(merged, ext.shoppingLists) else merged;
            |run.calls| == 2 + 2 * |ext.shoppingLists| &&
            run.calls[0] == WriteCall(merged) &&
            run.calls[|run.calls| - 1] == WriteCall(persisted)
  {
    var c := r.matches.customer.value;
    var merged := Merged(ext, r.heap[c]);
    var p := Persist(r, t, ext);
    var persisted := if ListHolder(t, r.matches.customer, merged) == Some(c) then WithLists(merged, ext.shoppingLists) else merged;
    assert p.heap[c] == persisted;
    SweepWrites(p.heap, ext.externalId.value, ext.name, r.matches.duplicates);
    var run := Apply(r, t, ext);
    var sweep := Sweep(p.heap, ext.externalId.value, ext.name, r.matches.duplicates);
    assert sweep.calls[0] == WriteCall(persisted.(name := ext.name));
    assert persisted.(name := ext.name) == persisted;
    assert run.calls == p.calls + sweep.calls;
    assert run.calls[0] == p.calls[0];
    assert run.calls[|run.calls| - 1] == sweep.calls[0];
  }

  // ---------------------------------------------------------------- resolution

  /** Resolution never touches internal ids, shopping lists or names, and keeps failures as they are. */
  lemma ResolutionKeepsRecords(h: Heap, t: Tables, ext: ExternalRecord)
    requires ext.externalId.Some? && t.Customers() <= h.Keys && Resolve(h, t, ext).Success?
    ensures var r := Resolve(h, t, ext).value;
            forall c :: c in h ==>
              r.heap[c].internalId == h[c].internalId && r.heap[c].shoppingLists == h[c].shoppingLists &&
              r.heap[c].name == h[c].name
  {
  }

  /** A company with a differing company number, found by external id, is detached. */
  lemma StaleCompanyResolution(h: Heap, t: Tables, ext: ExternalRecord)
    requires ext.externalId.Some? && ext.companyNumber.Some? && t.Customers() <= h.Keys
    requires ext.externalId.value in t.byExternalId
    requires var c := t.byExternalId[ext.externalId.value];
             h[c].customerType == Some(Company) && h[c].companyNumber != ext.companyNumber
    ensures var c := t.byExternalId[ext.externalId.value];
            var r := Resolve(h, t, ext);
            r.Success? && r.value.heap == h[c := h[c].(masterExternalId := None)] &&
            r.value.matches.customer.None? && r.value.matches.matchTerm.None? &&
            |r.value.matches.duplicates| > 0 &&
            r.value.matches.duplicates[|r.value.matches.duplicates| - 1] == Some(c)
  {
    MatchTermsDistinct();
  }

  /**
   * A company found by external id, of type company and with the record's company number, is
   * handed on untouched: the heap and the lookups' matches pass through as they are.
   */
  lemma MatchedCompanyPassesThrough(h: Heap, t: Tables, ext: ExternalRecord)
    requires ext.externalId.Some? && ext.IsCompany() && t.Customers() <= h.Keys
    requires ext.externalId.value in t.byExternalId
    requires var c := t.byExternalId[ext.externalId.value];
             h[c].customerType == Some(Company) && h[c].companyNumber == ext.companyNumber
    ensures Resolve(h, t, ext) == Success(Resolved(h, CompanyMatches(t, ext.externalId.value, ext.companyNumber.value)))
  {
    MatchTermsDistinct();
  }

  /**
   * A company's resolution keeps every duplicate the lookups found, keeps or drops the primary
   * match but never swaps it, and leaves every other customer as it was.
   */
  lemma CompanyResolutionKeepsOthers(h: Heap, m: Matches, externalId: string, companyNumber: string)
    requires Consistent(m, h) && ResolveCompany(h, m, externalId, companyNumber).Success?
    ensures var r := ResolveCompany(h, m, externalId, companyNumber).value;
            (forall x :: x in m.duplicates ==> x in r.matches.duplicates) &&
            (r.matches.customer.Some? ==> r.matches.customer == m.customer) &&
            (forall c :: c in h && m.customer != Some(c) ==> r.heap[c] == h[c])
  {
    MatchTermsDistinct();
  }

  /** A company found by company number, free to take the incoming id, is rebound with a placeholder. */
  lemma RebindResolution(h: Heap, t: Tables, ext: ExternalRecord)
    requires ext.externalId.Some? && ext.companyNumber.Some? && t.Customers() <= h.Keys
    requires ext.externalId.value !in t.byExternalId && ext.companyNumber.value in t.byCompanyNumber
    requires var c := t.byCompanyNumber[ext.companyNumber.value];
             h[c].customerType == Some(Company) && h[c].externalId in {None, ext.externalId}
    ensures var id := ext.externalId.value;
            var c := t.byCompanyNumber[ext.companyNumber.value];
            Resolve(h, t, ext) ==
              Success(Resolved(h[c := h[c].(externalId := Some(id), masterExternalId := Some(id))],
                               Matches(Some(c), Some(CompanyNumberTerm), [None])))
  {
    MatchTermsDistinct();
    var m := CompanyMatches(t, ext.externalId.value, ext.companyNumber.value);
    assert m.duplicates + [None] == [None];
  }

  /** Without any hit, the resolution is empty and the heap stays as it is. */
  lemma NoMatchResolution(h: Heap, t: Tables, ext: ExternalRecord)
    requires ext.externalId.Some? && t.Customers() <= h.Keys
    requires ext.externalId.value !in t.byExternalId
    requires ext.companyNumber.Some? ==> ext.companyNumber.value !in t.byCompanyNumber
    ensures Resolve(h, t, ext) == Success(Resolved(h, NoMatches))
  {
  }

  /** A person's resolution never carries duplicates. */
  lemma PersonResolutionHasNoDuplicates(h: Heap, t: Tables, ext: ExternalRecord)
    requires ext.externalId.Some? && ext.companyNumber.None? && t.Customers() <= h.Keys
    requires Resolve(h, t, ext).Success?
    ensures Resolve(h, t, ext).value.matches.duplicates == []
  {
  }

  /** A person's resolution rebinds nothing: the heap it hands on is the one it was given. */
  lemma PersonResolutionKeepsHeap(h: Heap, t: Tables, ext: ExternalRecord)
    requires ext.externalId.Some? && ext.companyNumber.None? && t.Customers() <= h.Keys
    requires Resolve(h, t, ext).Success?
    ensures Resolve(h, t, ext).value.heap == h
  {
  }

  // ---------------------------------------------------------------- whole runs

  /** A conflict only looks up: no write is issued and no customer is changed. */
  lemma ConflictWritesNothing(h: Heap, t: Tables, ext: ExternalRecord)
    requires ext.externalId.Some? && t.Customers() <= h.Keys
    requires SyncPlan(h, t, ext).result.Failure?
    ensures var run := SyncPlan(h, t, ext);
            run.heap == h && run.calls == LookupCalls(t, ext) &&
            forall i :: 0 <= i < |run.calls| ==> !run.calls[i].IsWrite()
  {
  }

  /** When a company record conflicts. */
  predicate CompanyConflict(h: Heap, t: Tables, externalId: string, companyNumber: string)
    requires t.Customers() <= h.Keys
  {
    if externalId in t.byExternalId then
      h[t.byExternalId[externalId]].customerType != Some(Company)
    else if companyNumber in t.byCompanyNumber then
      var c := t.byCompanyNumber[companyNumber];
      h[c].customerType != Some(Company) || (h[c].externalId.Some? && h[c].externalId.value != externalId)
    else
      false
  }

  /**
   * A company record conflicts exactly when the customer found is not a company, or when the
   * customer found by company number carries another external id; each case has its message.
   */
  lemma CompanyConflicts(h: Heap, t: Tables, ext: ExternalRecord)
    requires ext.externalId.Some? && ext.companyNumber.Some? && t.Customers() <= h.Keys
    ensures var id, number := ext.externalId.value, ext.companyNumber.value;
            var r := SyncPlan(h, t, ext).result;
            (r.Failure? <==> CompanyConflict(h, t, id, number)) &&
            (id in t.byExternalId && h[t.byExternalId[id]].customerType != Some(Company) ==>
               r == Failure(NotCompanyMessage(id))) &&
            (id !in t.byExternalId && number in t.byCompanyNumber ==>
               var c := t.byCompanyNumber[number];
               (h[c].customerType != Some(Company) ==> r == Failure(NotCompanyMessage(id))) &&
               (h[c].customerType == Some(Company) && h[c].externalId.Some? && h[c].externalId.value != id ==>
                  r == Failure(ExternalIdMismatchMessage(number, id, h[c].externalId.value))))
  {
    MatchTermsDistinct();
  }

  /** A person record conflicts exactly when the customer found by external id is not a person. */
  lemma PersonConflicts(h: Heap, t: Tables, ext: ExternalRecord)
    requires ext.externalId.Some? && ext.companyNumber.None? && t.Customers() <= h.Keys
    ensures var id := ext.externalId.value;
            var r := SyncPlan(h, t, ext).result;
            (r.Failure? <==> id in t.byExternalId && h[t.byExternalId[id]].customerType != Some(Person)) &&
            (r.Failure? ==> r == Failure(NotPersonMessage(id)))
  {
  }

  /**
   * Nothing found: one new customer is created, carrying the incoming id as external and master
   * id, followed by the shopping-list calls on the create's answer. Only that answer, when it is
   * a stored customer, changes: it gets the record's lists after its own.
   */
  lemma NoMatchCreates(h: Heap, t: Tables, ext: ExternalRecord)
    requires ext.externalId.Some? && t.Customers() <= h.Keys
    requires ext.externalId.value !in t.byExternalId
    requires ext.companyNumber.Some? ==> ext.companyNumber.value !in t.byCompanyNumber
    ensures var id := ext.externalId.value;
            var run := SyncPlan(h, t, ext);
            var created := Merged(ext, NewCustomerState(id));
            var a := t.createAnswer;
            var before := if a.Some? then h[a.value] else created;
            run.result == Success(true) &&
            run.heap == (if a.Some? then h[a.value := WithLists(h[a.value], ext.shoppingLists)] else h) &&
            run.calls == LookupCalls(t, ext) + ([PortCall.Create(created)] + RelationCalls(before, ext.shoppingLists)) &&
            created.externalId == Some(id) && created.masterExternalId == Some(id) && created.internalId == None
  {
    NoMatchResolution(h, t, ext);
    var r := Resolved(h, NoMatches);
    var p := Persist(r, t, ext);
    assert Apply(r, t, ext) == Run(p.calls + [], p.heap, Success(true));
    assert p.calls + [] == p.calls;
  }


  /**
   * A company found by external id whose company number differs is detached: its master id is
   * cleared, it is swept as a duplicate (last write), and a new customer is created for the record.
   * It gets the record's lists too when it is the create's answer.
   */
  lemma StaleCompanyDetached(h: Heap, t: Tables, ext: ExternalRecord)
    requires ext.externalId.Some? && ext.companyNumber.Some? && t.Customers() <= h.Keys
    requires ext.externalId.value in t.byExternalId
    requires var c := t.byExternalId[ext.externalId.value];
             h[c].customerType == Some(Company) && h[c].companyNumber != ext.companyNumber
    ensures var id := ext.externalId.value;
            var c := t.byExternalId[id];
            var run := SyncPlan(h, t, ext);
            var cleared := h[c].(masterExternalId := None);
            var listed := if t.createAnswer == Some(c) then WithLists(cleared, ext.shoppingLists) else cleared;
            var detached := listed.(name := ext.name);
            run.result == Success(true) &&
            run.heap[c] == detached && detached.masterExternalId.None? && detached.internalId == h[c].internalId &&
            |run.calls| > 2 && run.calls[2] == PortCall.Create(Merged(ext, NewCustomerState(id))) &&
            run.calls[|run.calls| - 1] == WriteCall(detached)
  {
    var c := t.byExternalId[ext.externalId.value];
    StaleCompanyResolution(h, t, ext);
    var r := Resolve(h, t, ext).value;
    ApplyDetached(r, t, ext, c);
    var rest := Apply(r, t, ext);
    assert SyncPlan(h, t, ext).calls == LookupCalls(t, ext) + rest.calls;
  }


  /**
   * A company found by company number and free to take the incoming id is rebound to it
   * (external and master id) and merged; it gets the record's lists unless the port answered its
   * write with another customer, and the placeholder duplicate creates one more new customer.
   */
  lemma CompanyRebound(h: Heap, t: Tables, ext: ExternalRecord)
    requires ext.externalId.Some? && ext.companyNumber.Some? && t.Customers() <= h.Keys
    requires ext.externalId.value !in t.byExternalId && ext.companyNumber.value in t.byCompanyNumber
    requires var c := t.byCompanyNumber[ext.companyNumber.value];
             h[c].customerType == Some(Company) && h[c].externalId in {None, ext.externalId}
    ensures var id := ext.externalId.value;
            var c := t.byCompanyNumber[ext.companyNumber.value];
            var run := SyncPlan(h, t, ext);
            var merged := Merged(ext, h[c].(externalId := Some(id), masterExternalId := Some(id)));
            run.result == Success(h[c].internalId.None?) &&
            run.heap[c] == (if ListHolder(t, Some(c), merged) == Some(c) then WithLists(merged, ext.shoppingLists) else merged) &&
            run.heap[c].externalId == Some(id) && run.heap[c].masterExternalId == Some(id) &&
            |run.calls| == 2 + 1 + 2 * |ext.shoppingLists| + 1 &&
            run.calls[|run.calls| - 1] == PortCall.Create(NewCustomerState(id).(name := ext.name))
  {
    RebindResolution(h, t, ext);
    var r := Resolve(h, t, ext).value;
    ApplyCreated(r, t, ext);
    ApplyWrites(r, t, ext);
    ApplyPrimary(r, t, ext);
    ApplyPlaceholderLast(r, t, ext);
  }


  /**
   * When the customer found by external id is also the one found by master id, the duplicates
   * are not checked for distinctness: the same customer is written again, last, as the
   * shopping-list step left it.
   */
  lemma SameCustomerWrittenTwice(h: Heap, t: Tables, ext: ExternalRecord)
    requires ext.externalId.Some? && ext.companyNumber.Some? && t.Customers() <= h.Keys
    requires var id := ext.externalId.value;
             id in t.byExternalId && id in t.byMasterExternalId && t.byExternalId[id] == t.byMasterExternalId[id]
    requires var c := t.byExternalId[ext.externalId.value];
             h[c].customerType == Some(Company) && h[c].companyNumber == ext.companyNumber
    ensures var c := t.byExternalId[ext.externalId.value];
            var run := SyncPlan(h, t, ext);
            var merged := Merged(ext, h[c]);
            var persisted := if ListHolder(t, Some(c), merged) == Some(c) then WithLists(merged, ext.shoppingLists) else merged;
            run.result == Success(h[c].internalId.None?) &&
            run.heap[c] == persisted &&
            |run.calls| == 2 + 1 + 2 * |ext.shoppingLists| + 1 &&
            run.calls[2] == WriteCall(merged) && run.calls[|run.calls| - 1] == WriteCall(persisted)
  {
    MatchTermsDistinct();
    var c := t.byExternalId[ext.externalId.value];
    var r := Resolve(h, t, ext).value;
    assert r == Resolved(h, Matches(Some(c), Some(ExternalIdTerm), [Some(c)]));
    ApplyCreated(r, t, ext);
    ApplyPrimary(r, t, ext);
    ApplyPrimaryAgain(r, t, ext);
  }


  /**
   * The sync never touches a customer the lookups did not return, unless the port answers a write
   * with it: its state after the run is its state before.
   */
  lemma UnrelatedUnchanged(h: Heap, t: Tables, ext: ExternalRecord, c: Customer)
    requires ext.externalId.Some? && t.Customers() <= h.Keys && c in h
    requires var m := LookupMatches(t, ext); m.customer != Some(c) && Some(c) !in m.duplicates
    requires t.createAnswer != Some(c) && t.updateAnswer != Some(c)
    ensures SyncPlan(h, t, ext).heap[c] == h[c]
  {
    MatchTermsDistinct();
    var m := LookupMatches(t, ext);
    match Resolve(h, t, ext)
    case Failure(_) =>
    case Success(r) =>
      assert r.heap[c] == h[c];
      assert forall x :: Some(c) != x ==> Some(c) !in m.duplicates + [x];
      ApplyFrame(r, t, ext, c);
  }

  /**
   * Without conflict, the first call after the lookups writes the primary customer merged with
   * the record. For a person matched by external id, and for a company matched by external id
   * with the same company number, that is the stored customer merged, so it keeps its internal
   * and master external ids; a stored company is updated and the result is "not created".
   */
  lemma FirstWriteIsMergedPrimary(h: Heap, t: Tables, ext: ExternalRecord)
    requires ext.externalId.Some? && t.Customers() <= h.Keys
    requires SyncPlan(h, t, ext).result.Success?
    ensures var r := Resolve(h, t, ext).value;
            var run := SyncPlan(h, t, ext);
            var k := |LookupCalls(t, ext)|;
            k < |run.calls| && run.calls[k] == WriteCall(Merged(ext, Base(r, ext.externalId.value))) &&
            (ext.companyNumber.None? && r.matches.customer.Some? ==>
               run.calls[k] == WriteCall(Merged(ext, h[r.matches.customer.value]))) &&
            (MatchedCompany(h, t, ext) ==>
               var c := t.byExternalId[ext.externalId.value];
               k == 2 && run.calls[2] == WriteCall(Merged(ext, h[c])) &&
               (h[c].internalId.Some? ==> run.calls[2].Update? && run.result == Success(false)))
  {
    var r := Resolve(h, t, ext).value;
    ApplyFirstWrite(r, t, ext);
    var rest := Apply(r, t, ext);
    assert SyncPlan(h, t, ext).calls == LookupCalls(t, ext) + rest.calls;
    if ext.companyNumber.None? {
      PersonResolutionKeepsHeap(h, t, ext);
    } else if MatchedCompany(h, t, ext) {
      MatchedCompanyPassesThrough(h, t, ext);
      ApplyCreated(r, t, ext);
    }
  }

  /** A company found by external id, of type company, with the record's company number. */
  predicate MatchedCompany(h: Heap, t: Tables, ext: ExternalRecord)
    requires t.Customers() <= h.Keys
  {
    ext.externalId.Some? && ext.companyNumber.Some? && ext.externalId.value in t.byExternalId &&
    var c := t.byExternalId[ext.externalId.value];
    h[c].customerType == Some(Company) && h[c].companyNumber == ext.companyNumber
  }

  /**
   * A company's master-id duplicate that is neither the external-id match nor a write answer
   * ends with the record's name and is otherwise unchanged.
   */
  lemma MasterDuplicateRenamed(h: Heap, t: Tables, ext: ExternalRecord)
    requires ext.externalId.Some? && ext.companyNumber.Some? && t.Customers() <= h.Keys
    requires SyncPlan(h, t, ext).result.Success?
    requires var id := ext.externalId.value; id in t.byExternalId && id in t.byMasterExternalId
    requires var d := t.byMasterExternalId[ext.externalId.value];
             d != t.byExternalId[ext.externalId.value] && t.createAnswer != Some(d) && t.updateAnswer != Some(d)
    ensures var d := t.byMasterExternalId[ext.externalId.value];
            SyncPlan(h, t, ext).heap[d] == h[d].(name := ext.name)
  {
    MatchTermsDistinct();
    var id := ext.externalId.value;
    var c, d := t.byExternalId[id], t.byMasterExternalId[id];
    var m := LookupMatches(t, ext);
    assert m.customer == Some(c) && m.duplicates == [Some(d)];
    CompanyResolutionKeepsOthers(h, m, id, ext.companyNumber.value);
    var r := Resolve(h, t, ext).value;
    assert r == ResolveCompany(h, m, id, ext.companyNumber.value).value;
    ApplyToDuplicate(r, t, ext, d);
  }

  /**
   * The result says whether the primary customer was created: it is what the first write after
   * the lookups is, and it depends only on the primary customer's internal id, never on the duplicates.
   */
  lemma CreatedIffPrimaryIsNew(h: Heap, t: Tables, ext: ExternalRecord)
    requires ext.externalId.Some? && t.Customers() <= h.Keys
    requires SyncPlan(h, t, ext).result.Success?
    ensures var run := SyncPlan(h, t, ext);
            var k := |LookupCalls(t, ext)|;
            var primary := Resolve(h, t, ext).value.matches.customer;
            k < |run.calls| && (run.result.value <==> run.calls[k].Create?) &&
            (run.result.value <==> primary.None? || h[primary.value].internalId.None?)
  {
    var r := Resolve(h, t, ext).value;
    ApplyCreated(r, t, ext);
    ResolutionKeepsRecords(h, t, ext);
  }

  /**
   * Without conflict: the lookups, one write of the primary customer, two calls per shopping
   * list and one write per duplicate, every call after the lookups a write.
   */
  lemma WriteCount(h: Heap, t: Tables, ext: ExternalRecord)
    requires ext.externalId.Some? && t.Customers() <= h.Keys
    requires SyncPlan(h, t, ext).result.Success?
    ensures var run := SyncPlan(h, t, ext);
            var k := |LookupCalls(t, ext)|;
            |run.calls| == k + 1 + 2 * |ext.shoppingLists| + |Resolve(h, t, ext).value.matches.duplicates| &&
            (forall i :: 0 <= i < k ==> !run.calls[i].IsWrite()) &&
            (forall i :: k <= i < |run.calls| ==> run.calls[i].IsWrite())
  {
    var r := Resolve(h, t, ext).value;
    ApplyWrites(r, t, ext);
    var rest := Apply(r, t, ext);
    assert SyncPlan(h, t, ext).calls == LookupCalls(t, ext) + rest.calls;
    ReadsThenWrites(LookupCalls(t, ext), rest.calls);
  }

  /** A run of reads followed by a run of writes: the split point separates the two. */
  lemma ReadsThenWrites(queries: seq<PortCall>, updates: seq<PortCall>)
    requires forall i :: 0 <= i < |queries| ==> !queries[i].IsWrite()
    requires forall i :: 0 <= i < |updates| ==> updates[i].IsWrite()
    ensures forall i :: 0 <= i < |queries| ==> !(queries + updates)[i].IsWrite()
    ensures forall i :: |queries| <= i < |queries + updates| ==> (queries + updates)[i].IsWrite()
  {
    forall i | |queries| <= i < |queries + updates|
      ensures (queries + updates)[i].IsWrite()
    {
      assert (queries + updates)[i] == updates[i - |queries|];
    }
  }

  /** A person record never has duplicates: one lookup, one write and two calls per shopping list. */
  lemma PersonCallCount(h: Heap, t: Tables, ext: ExternalRecord)
    requires ext.externalId.Some? && ext.companyNumber.None? && t.Customers() <= h.Keys
    requires SyncPlan(h, t, ext).result.Success?
    ensures |SyncPlan(h, t, ext).calls| == 2 + 2 * |ext.shoppingLists|
  {
    PersonResolutionHasNoDuplicates(h, t, ext);
    ApplyWrites(Resolve(h, t, ext).value, t, ext);
  }

  /**
   * The primary customer ends merged with the record; when the lists went to it, it holds its own
   * shopping lists followed by the record's, in order, and otherwise only its own. The duplicate
   * sweep changes nothing the merge set.
   */
  lemma PrimaryFinalState(h: Heap, t: Tables, ext: ExternalRecord)
    requires ext.externalId.Some? && t.Customers() <= h.Keys
    requires SyncPlan(h, t, ext).result.Success? && Resolve(h, t, ext).value.matches.customer.Some?
    ensures var r := Resolve(h, t, ext).value;
            var c := r.matches.customer.value;
            var merged := Merged(ext, r.heap[c]);
            var final := SyncPlan(h, t, ext).heap[c];
            var listed := ListHolder(t, r.matches.customer, merged) == Some(c);
            final == (if listed then WithLists(merged, ext.shoppingLists) else merged) &&
            final.shoppingLists == (if listed then h[c].shoppingLists + ext.shoppingLists else h[c].shoppingLists) &&
            final.name == ext.name && final.internalId == h[c].internalId
  {
    ApplyPrimary(Resolve(h, t, ext).value, t, ext);
    ResolutionKeepsRecords(h, t, ext);
  }

}
