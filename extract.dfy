/**
 * The extraction engine: `ExtractOperation` runs its steps in order, each
 * step pulling the records of one object and registering, for every record
 * it stores, the ids its lookups require from objects still to come. The
 * operation keeps the ledger: per object, the ids extracted so far and the
 * ids still required. The run stops at the first step that collects errors.
 *
 * The org is given as a finite store of records per object; every query is
 * answered from it and appended to a log. Each output file is the sequence
 * of rows written to it.
 */
module Extraction {
  import opened Common
  import opened Ids
  import opened Schema
  import opened Mapping
  import opened ExtractRecords

  /** Which records of its object a step extracts. */
  datatype ExtractionScope = AllRecords | QueryScope | Descendents | SelectedRecords

  /** A query sent to the org: a bulk query, with or without the step's WHERE clause, or an id query. */
  datatype QueryCall =
    | BulkQuery(objectName: string, filtered: bool)
    | IdQuery(objectName: string, field: string, batch: seq<SalesforceId>, inList: string)

  // ---------------------------------------------------------------------
  // Batches of an id query.

  /** The elements of a sequence, as a set. */
  function Elems<T>(s: seq<T>): set<T> {
    set x | x in s
  }

  /** No element appears twice. */
  predicate NoRepeats<T(==)>(s: seq<T>) {
    forall i, j :: 0 <= i < j < |s| ==> s[i] != s[j]
  }

  /**
   * A query of one batch: at least one id, the IN-list built from exactly
   * those ids, and, for ids in the 18-character form, a list that keeps
   * within the budget unless the batch is a single id.
   */
  predicate BatchOk(c: QueryCall, maxLen: int) {
    && c.IdQuery? && c.batch != [] && NoRepeats(c.batch) && c.inList == InList(c.batch)
    && ((forall i :: 0 <= i < |c.batch| ==> |c.batch[i].id| == 18) ==> |c.inList| < maxLen || |c.batch| == 1)
  }

  /** The ids queried by a sequence of id queries. */
  function Covered(calls: seq<QueryCall>): (ids: set<SalesforceId>)
    requires forall k :: 0 <= k < |calls| ==> calls[k].IdQuery?
    ensures forall k, i :: 0 <= k < |calls| && 0 <= i < |calls[k].batch| ==> calls[k].batch[i] in ids
  {
    if calls == [] then {} else Covered(calls[..|calls| - 1]) + Elems(calls[|calls| - 1].batch)
  }

  /** Every id of `ids` is taken into exactly one batch of `calls`, and nothing else is. */
  predicate Partitions(calls: seq<QueryCall>, ids: set<SalesforceId>) {
    && (forall k :: 0 <= k < |calls| ==> calls[k].IdQuery?)
    && Covered(calls) == ids
    && forall k, l :: 0 <= k < l < |calls| ==> Elems(calls[k].batch) !! Elems(calls[l].batch)
  }

  /**
   * Part way through one batch of `perform_id_field_pass`: the ids taken so
   * far, none twice, make up `batch`, whose IN-list is `inList`; the ids not
   * yet taken are `rest`; and with ids in the 18-character form the list is
   * within the budget unless it holds a single id.
   */
  predicate Batching(ids: set<SalesforceId>, maxLen: int, batch: seq<SalesforceId>, inList: string, rest: set<SalesforceId>) {
    && batch != [] && NoRepeats(batch) && inList == InList(batch)
    && Elems(batch) + rest == ids && Elems(batch) !! rest
    && ((forall i :: 0 <= i < |batch| ==> |batch[i].id| == 18) ==> |inList| < maxLen || |batch| == 1)
  }

  /**
   * The inner loop of `perform_id_field_pass`: ids are taken from `ids` one
   * at a time into a batch while the IN-list stays short of the budget.
   * The batch is not empty, and stops short only when `ids` is exhausted.
   */
  method NextBatch(ids: set<SalesforceId>, maxLen: int) returns (batch: seq<SalesforceId>, inList: string, rest: set<SalesforceId>)
    requires ids != {}
    ensures Batching(ids, maxLen, batch, inList, rest)
    ensures rest == {} || |inList| >= maxLen - 22
  {
    var x :| x in ids;
    rest := ids - {x};
    batch := [x];
    inList := "'" + x.id + "'";
    assert Elems(batch) == {x};
    while |inList| < maxLen - 22 && |rest| > 0
      invariant Batching(ids, maxLen, batch, inList, rest)
      decreases |rest|
    {
      var y :| y in rest;
      TakeOneMore(ids, maxLen, batch, inList, rest, y);
      rest := rest - {y};
      inList := inList + ", '" + y.id + "'";
      batch := batch + [y];
    }
  }

  /** Taking one more id while the IN-list is short of the budget keeps the batch as `Batching` says. */
  lemma TakeOneMore(ids: set<SalesforceId>, maxLen: int, batch: seq<SalesforceId>, inList: string, rest: set<SalesforceId>,
                    y: SalesforceId)
    requires Batching(ids, maxLen, batch, inList, rest) && y in rest && |inList| < maxLen - 22
    ensures Batching(ids, maxLen, batch + [y], inList + ", '" + y.id + "'", rest - {y})
  {
    assert (batch + [y])[..|batch|] == batch;
    assert Elems(batch + [y]) == Elems(batch) + {y};
    if forall i :: 0 <= i < |batch| + 1 ==> |(batch + [y])[i].id| == 18 {
      forall i | 0 <= i < |batch| ensures |batch[i].id| == 18 {
        assert (batch + [y])[i] == batch[i];
      }
    }
  }

  /** The ids extracted so far for any of `targets`. */
  function ExtractedFor(extracted: Ledger, targets: seq<string>): (ids: set<SalesforceId>)
    ensures forall id :: id in ids <==> exists t :: t in targets && id in IdsIn(extracted, t)
  {
    if targets == [] then {}
    else ExtractedFor(extracted, targets[..|targets| - 1]) + IdsIn(extracted, targets[|targets| - 1])
  }

  // ---------------------------------------------------------------------
  // The ledger.

  /** The records the org holds for object `o`. */
  function RecordsOf(store: map<string, seq<Record>>, o: string): seq<Record> {
    if o in store then store[o] else []
  }

  /** Only ids the org holds are extracted. */
  predicate Within(extracted: Ledger, store: map<string, seq<Record>>) {
    forall o :: o in extracted ==> extracted[o] <= IdsOf(RecordsOf(store, o))
  }

  /** No id is both required and extracted for the same object. */
  predicate Disjoint(required: Ledger, extracted: Ledger) {
    forall o :: o in required ==> required[o] !! IdsIn(extracted, o)
  }

  /** No object's set has lost an id between `m` and `m'`. */
  predicate Grown(m: Ledger, m': Ledger) {
    forall o :: o in m ==> m[o] <= IdsIn(m', o)
  }

  /** Adding ids to one object's set loses none. */
  lemma GrownByAdding(m: Ledger, o: string, ids: set<SalesforceId>)
    ensures Grown(m, m[o := IdsIn(m, o) + ids])
  {
  }

  lemma GrownTrans(m0: Ledger, m: Ledger, m': Ledger)
    requires Grown(m0, m) && Grown(m, m')
    ensures Grown(m0, m')
  {
    forall o | o in m0 ensures m0[o] <= IdsIn(m', o) {
      assert IdsIn(m, o) <= IdsIn(m', o);
    }
  }

  /** The ids extracted for some target only grow with the ledger. */
  lemma ExtractedForGrows(m: Ledger, m': Ledger, targets: seq<string>)
    requires Grown(m, m')
    ensures ExtractedFor(m, targets) <= ExtractedFor(m', targets)
  {
    forall id | id in ExtractedFor(m, targets) ensures id in ExtractedFor(m', targets) {
      var t :| t in targets && id in IdsIn(m, t);
      assert id in IdsIn(m', t);
    }
  }

  /** Only ids the org holds for the object are extracted for it. */
  lemma WithinAt(extracted: Ledger, store: map<string, seq<Record>>, o: string)
    requires Within(extracted, store)
    ensures IdsIn(extracted, o) <= IdsOf(RecordsOf(store, o))
  {
  }

  lemma GrownAt(m: Ledger, m': Ledger, o: string)
    requires Grown(m, m')
    ensures IdsIn(m, o) <= IdsIn(m', o)
  {
  }

  /** The required and the extracted ids of one object never meet. */
  lemma DisjointAt(required: Ledger, extracted: Ledger, o: string)
    requires Disjoint(required, extracted)
    ensures IdsIn(required, o) !! IdsIn(extracted, o)
  {
  }

  /** Each output file holds one row per id extracted for its object. */
  predicate RowsMatch(files: map<string, seq<Record>>, extracted: Ledger) {
    forall o :: o in files ==> |files[o]| == |IdsIn(extracted, o)|
  }

  /**
   * Storing a record the org holds keeps the three: its id becomes
   * extracted and stops being required, and a row is written exactly when
   * the id is new.
   */
  lemma StoreKeepsLedger(required: Ledger, extracted: Ledger, files: map<string, seq<Record>>,
                         store: map<string, seq<Record>>, o: string, id: SalesforceId, row: Record,
                         required': Ledger, extracted': Ledger, files': map<string, seq<Record>>)
    requires Disjoint(required, extracted) && RowsMatch(files, extracted) && Within(extracted, store)
    requires o in files && id in IdsOf(RecordsOf(store, o))
    requires extracted' == extracted[o := IdsIn(extracted, o) + {id}]
    requires required' == if id in IdsIn(required, o) then required[o := IdsIn(required, o) - {id}] else required
    requires files' == if id in IdsIn(extracted, o) then files else files[o := files[o] + [row]]
    ensures Disjoint(required', extracted') && RowsMatch(files', extracted') && Within(extracted', store)
    ensures files'.Keys == files.Keys
  {
    StoreKeepsDisjoint(required, extracted, o, id, required', extracted');
    StoreKeepsWithin(extracted, store, o, id, extracted');
    StoreKeepsRows(extracted, files, o, id, row, extracted', files');
  }

  lemma StoreKeepsDisjoint(required: Ledger, extracted: Ledger, o: string, id: SalesforceId, required': Ledger, extracted': Ledger)
    requires Disjoint(required, extracted)
    requires extracted' == extracted[o := IdsIn(extracted, o) + {id}]
    requires required' == if id in IdsIn(required, o) then required[o := IdsIn(required, o) - {id}] else required
    ensures Disjoint(required', extracted')
  {
    forall x | x in required'
      ensures required'[x] !! IdsIn(extracted', x)
    {
      if x != o {
        assert IdsIn(extracted', x) == IdsIn(extracted, x);
      }
    }
  }

  lemma StoreKeepsWithin(extracted: Ledger, store: map<string, seq<Record>>, o: string, id: SalesforceId, extracted': Ledger)
    requires Within(extracted, store) && id in IdsOf(RecordsOf(store, o))
    requires extracted' == extracted[o := IdsIn(extracted, o) + {id}]
    ensures Within(extracted', store)
  {
  }

  lemma StoreKeepsRows(extracted: Ledger, files: map<string, seq<Record>>, o: string, id: SalesforceId, row: Record,
                       extracted': Ledger, files': map<string, seq<Record>>)
    requires RowsMatch(files, extracted) && o in files
    requires extracted' == extracted[o := IdsIn(extracted, o) + {id}]
    requires files' == if id in IdsIn(extracted, o) then files else files[o := files[o] + [row]]
    ensures RowsMatch(files', extracted') && files'.Keys == files.Keys
  {
    var isNew := id !in IdsIn(extracted, o);
    assert |IdsIn(extracted', o)| == |IdsIn(extracted, o)| + (if isNew then 1 else 0) by {
      if isNew {
        assert |IdsIn(extracted, o) + {id}| == |IdsIn(extracted, o)| + 1;
      } else {
        assert IdsIn(extracted, o) + {id} == IdsIn(extracted, o);
      }
    }
    forall x | x in files'
      ensures |files'[x]| == |IdsIn(extracted', x)|
    {
      if x != o {
        assert files'[x] == files[x] && IdsIn(extracted', x) == IdsIn(extracted, x);
      }
    }
  }

  /**
   * `add_dependency` on the ledger: the id becomes required for object `o`
   * unless it has already been extracted.
   */
  function WithDependency(required: Ledger, extracted: Ledger, o: string, id: SalesforceId): (r: Ledger)
    ensures IdsIn(r, o) == IdsIn(required, o) + ({id} - IdsIn(extracted, o))
    ensures forall x :: x != o ==> IdsIn(r, x) == IdsIn(required, x)
    ensures r.Keys == required.Keys + {o}
    ensures Disjoint(required, extracted) ==> Disjoint(r, extracted)
  {
    required[o := IdsIn(required, o) + (if id in IdsIn(extracted, o) then {} else {id})]
  }

  /** The ids the self lookups already visited (those not in `todo`) register. */
  function SelfVisited(selfLookups: set<string>, todo: set<string>, overrides: map<string, LookupBehavior>,
                       default: SelfLookupBehavior, rec: Record): set<SalesforceId>
    requires selfLookups <= rec.Keys
  {
    set f | f in selfLookups && f !in todo && Traced(SelfBehaviorFor(overrides, default, f)) && rec[f].Text? :: IdOf(rec[f])
  }

  /** Visiting one more self lookup adds at most its own id. */
  lemma SelfVisitedStep(selfLookups: set<string>, todo: set<string>, l: string, overrides: map<string, LookupBehavior>,
                        default: SelfLookupBehavior, rec: Record)
    requires selfLookups <= rec.Keys && l in todo && todo <= selfLookups
    ensures SelfVisited(selfLookups, todo - {l}, overrides, default, rec) ==
            SelfVisited(selfLookups, todo, overrides, default, rec) +
            (if Traced(SelfBehaviorFor(overrides, default, l)) && rec[l].Text? then {IdOf(rec[l])} else {})
  {
  }

  /** Before the loop nothing is visited; after it, every self lookup is. */
  lemma SelfVisitedAll(selfLookups: set<string>, overrides: map<string, LookupBehavior>, default: SelfLookupBehavior,
                       rec: Record)
    requires selfLookups <= rec.Keys
    ensures SelfVisited(selfLookups, selfLookups, overrides, default, rec) == {}
    ensures SelfVisited(selfLookups, {}, overrides, default, rec) == SelfDependencies(selfLookups, overrides, default, rec)
  {
  }

  /**
   * The loop over the self lookups of `store_result`, on the ids required
   * for the step's own object: each traced, non-null self lookup adds its
   * id unless that id has already been extracted.
   */
  method RegisterSelfLookups(required: set<SalesforceId>, extracted: set<SalesforceId>, selfLookups: set<string>,
                             overrides: map<string, LookupBehavior>, default: SelfLookupBehavior, rec: Record)
    returns (r: set<SalesforceId>)
    requires selfLookups <= rec.Keys
    ensures r == required + (SelfDependencies(selfLookups, overrides, default, rec) - extracted)
  {
    r := required;
    var todo := selfLookups;
    SelfVisitedAll(selfLookups, overrides, default, rec);
    while todo != {}
      invariant SelfRegistered(r, required, extracted, selfLookups, todo, overrides, default, rec)
      decreases |todo|
    {
      var l :| l in todo;
      SelfRegisteredStep(r, required, extracted, selfLookups, todo, l, overrides, default, rec);
      if Traced(SelfBehaviorFor(overrides, default, l)) && rec[l].Text? && IdOf(rec[l]) !in extracted {
        r := r + {IdOf(rec[l])};
      }
      todo := todo - {l};
    }
  }

  /** The ids required for the step's object after the self lookups outside `todo` were registered. */
  predicate SelfRegistered(r: set<SalesforceId>, required: set<SalesforceId>, extracted: set<SalesforceId>, selfLookups: set<string>,
                           todo: set<string>, overrides: map<string, LookupBehavior>, default: SelfLookupBehavior, rec: Record)
    requires selfLookups <= rec.Keys
  {
    todo <= selfLookups && r == required + (SelfVisited(selfLookups, todo, overrides, default, rec) - extracted)
  }

  /** Registering self lookup `l` extends the registered ids by that lookup's id, unless it was extracted. */
  lemma SelfRegisteredStep(r: set<SalesforceId>, required: set<SalesforceId>, extracted: set<SalesforceId>, selfLookups: set<string>,
                           todo: set<string>, l: string, overrides: map<string, LookupBehavior>, default: SelfLookupBehavior,
                           rec: Record)
    requires selfLookups <= rec.Keys && l in todo
    requires SelfRegistered(r, required, extracted, selfLookups, todo, overrides, default, rec)
    ensures SelfRegistered(if Traced(SelfBehaviorFor(overrides, default, l)) && rec[l].Text? && IdOf(rec[l]) !in extracted
                           then r + {IdOf(rec[l])} else r,
                           required, extracted, selfLookups, todo - {l}, overrides, default, rec)
  {
    SelfVisitedStep(selfLookups, todo, l, overrides, default, rec);
  }

  /** The ids the dependent lookups already visited (those not in `todo`) register on object `x`. */
  function DependentVisited(dependent: set<string>, todo: set<string>, fieldMap: FieldMap, keyPrefixes: map<string, string>,
                            sobjects: seq<string>, name: string, rec: Record, x: string): set<SalesforceId>
    requires name in sobjects && dependent <= rec.Keys && dependent <= fieldMap.Keys
    requires forall f :: f in dependent ==> |fieldMap[f].referenceTo| > 0
    requires forall f :: f in dependent && rec[f].Text? ==> KeyPrefix(rec[f].s) in keyPrefixes
  {
    set f | f in dependent && f !in todo && rec[f].Text? && DependentTarget(fieldMap[f], keyPrefixes, sobjects, name, rec[f].s) == Some(x)
          :: IdOf(rec[f])
  }

  /** Visiting one more dependent lookup adds at most its own id, on its target. */
  lemma DependentVisitedStep(dependent: set<string>, todo: set<string>, f: string, fieldMap: FieldMap,
                             keyPrefixes: map<string, string>, sobjects: seq<string>, name: string, rec: Record)
    requires name in sobjects && dependent <= rec.Keys && dependent <= fieldMap.Keys
    requires forall g :: g in dependent ==> |fieldMap[g].referenceTo| > 0
    requires forall g :: g in dependent && rec[g].Text? ==> KeyPrefix(rec[g].s) in keyPrefixes
    requires f in todo && todo <= dependent
    ensures forall x :: (DependentVisited(dependent, todo - {f}, fieldMap, keyPrefixes, sobjects, name, rec, x) ==
                         DependentVisited(dependent, todo, fieldMap, keyPrefixes, sobjects, name, rec, x) +
                         (if rec[f].Text? && DependentTarget(fieldMap[f], keyPrefixes, sobjects, name, rec[f].s) == Some(x)
                          then {IdOf(rec[f])} else {}))
  {
  }

  /** Before the loop nothing is visited; after it, every dependent lookup is. */
  lemma DependentVisitedAll(dependent: set<string>, fieldMap: FieldMap, keyPrefixes: map<string, string>,
                            sobjects: seq<string>, name: string, rec: Record)
    requires name in sobjects && dependent <= rec.Keys && dependent <= fieldMap.Keys
    requires forall g :: g in dependent ==> |fieldMap[g].referenceTo| > 0
    requires forall g :: g in dependent && rec[g].Text? ==> KeyPrefix(rec[g].s) in keyPrefixes
    ensures forall x :: DependentVisited(dependent, dependent, fieldMap, keyPrefixes, sobjects, name, rec, x) == {}
    ensures forall x :: DependentVisited(dependent, {}, fieldMap, keyPrefixes, sobjects, name, rec, x) ==
                        DependentDependencies(dependent, fieldMap, keyPrefixes, sobjects, name, rec, x)
  {
  }

  /** The objects the dependent lookups already visited (those not in `todo`) register an id on. */
  function TargetsVisited(dependent: set<string>, todo: set<string>, fieldMap: FieldMap, keyPrefixes: map<string, string>,
                          sobjects: seq<string>, name: string, rec: Record): set<string>
    requires name in sobjects && dependent <= rec.Keys && dependent <= fieldMap.Keys
    requires forall f :: f in dependent ==> |fieldMap[f].referenceTo| > 0
    requires forall f :: f in dependent && rec[f].Text? ==> KeyPrefix(rec[f].s) in keyPrefixes
  {
    set f | f in dependent && f !in todo && rec[f].Text? && DependentTarget(fieldMap[f], keyPrefixes, sobjects, name, rec[f].s).Some?
          :: DependentTarget(fieldMap[f], keyPrefixes, sobjects, name, rec[f].s).value
  }

  /** Visiting one more dependent lookup adds at most its target. */
  lemma TargetsVisitedStep(dependent: set<string>, todo: set<string>, f: string, fieldMap: FieldMap,
                           keyPrefixes: map<string, string>, sobjects: seq<string>, name: string, rec: Record)
    requires name in sobjects && dependent <= rec.Keys && dependent <= fieldMap.Keys
    requires forall g :: g in dependent ==> |fieldMap[g].referenceTo| > 0
    requires forall g :: g in dependent && rec[g].Text? ==> KeyPrefix(rec[g].s) in keyPrefixes
    requires f in todo && todo <= dependent
    ensures TargetsVisited(dependent, todo - {f}, fieldMap, keyPrefixes, sobjects, name, rec) ==
            TargetsVisited(dependent, todo, fieldMap, keyPrefixes, sobjects, name, rec) +
            (if rec[f].Text? && DependentTarget(fieldMap[f], keyPrefixes, sobjects, name, rec[f].s).Some?
             then {DependentTarget(fieldMap[f], keyPrefixes, sobjects, name, rec[f].s).value} else {})
  {
  }

  /** Only a visited target receives ids: any other object gets none from the dependent lookups. */
  lemma OnlyTargetsRegistered(dependent: set<string>, fieldMap: FieldMap, keyPrefixes: map<string, string>,
                              sobjects: seq<string>, name: string, rec: Record, x: string)
    requires name in sobjects && dependent <= rec.Keys && dependent <= fieldMap.Keys
    requires forall g :: g in dependent ==> |fieldMap[g].referenceTo| > 0
    requires forall g :: g in dependent && rec[g].Text? ==> KeyPrefix(rec[g].s) in keyPrefixes
    ensures x !in TargetsVisited(dependent, {}, fieldMap, keyPrefixes, sobjects, name, rec) ==>
            DependentDependencies(dependent, fieldMap, keyPrefixes, sobjects, name, rec, x) == {}
  {
    if id :| id in DependentDependencies(dependent, fieldMap, keyPrefixes, sobjects, name, rec, x) {
      var f :| f in dependent && rec[f].Text? && DependentTarget(fieldMap[f], keyPrefixes, sobjects, name, rec[f].s) == Some(x);
      assert x in TargetsVisited(dependent, {}, fieldMap, keyPrefixes, sobjects, name, rec);
    }
  }

  /**
   * One turn of the loop over the dependent lookups: a non-null lookup
   * whose target is known registers its id there (see `WithDependency`).
   */
  function DependentStep(r: Ledger, extracted: Ledger, f: string, fieldMap: FieldMap, keyPrefixes: map<string, string>,
                         sobjects: seq<string>, name: string, rec: Record): Ledger
    requires name in sobjects && f in rec && f in fieldMap && |fieldMap[f].referenceTo| > 0
    requires rec[f].Text? ==> KeyPrefix(rec[f].s) in keyPrefixes
  {
    if rec[f].Text? && DependentTarget(fieldMap[f], keyPrefixes, sobjects, name, rec[f].s).Some?
    then WithDependency(r, extracted, DependentTarget(fieldMap[f], keyPrefixes, sobjects, name, rec[f].s).value, IdOf(rec[f]))
    else r
  }

  /** The ledger after the dependent lookups outside `todo` were registered. */
  ghost predicate DependentRegistered(r: Ledger, required: Ledger, extracted: Ledger, dependent: set<string>, todo: set<string>,
                                fieldMap: FieldMap, keyPrefixes: map<string, string>, sobjects: seq<string>, name: string, rec: Record)
    requires name in sobjects && dependent <= rec.Keys && dependent <= fieldMap.Keys
    requires forall f :: f in dependent ==> |fieldMap[f].referenceTo| > 0
    requires forall f :: f in dependent && rec[f].Text? ==> KeyPrefix(rec[f].s) in keyPrefixes
  {
    forall x :: IdsIn(r, x) == IdsIn(required, x) +
      (DependentVisited(dependent, todo, fieldMap, keyPrefixes, sobjects, name, rec, x) - IdsIn(extracted, x))
  }

  /** Registering lookup `f` extends the registered ledger by that lookup. */
  lemma DependentRegisteredStep(r: Ledger, r': Ledger, required: Ledger, extracted: Ledger, dependent: set<string>, todo: set<string>,
                                f: string, fieldMap: FieldMap, keyPrefixes: map<string, string>, sobjects: seq<string>,
                                name: string, rec: Record)
    requires name in sobjects && dependent <= rec.Keys && dependent <= fieldMap.Keys
    requires forall g :: g in dependent ==> |fieldMap[g].referenceTo| > 0
    requires forall g :: g in dependent && rec[g].Text? ==> KeyPrefix(rec[g].s) in keyPrefixes
    requires f in todo && todo <= dependent
    requires DependentRegistered(r, required, extracted, dependent, todo, fieldMap, keyPrefixes, sobjects, name, rec)
    requires r' == DependentStep(r, extracted, f, fieldMap, keyPrefixes, sobjects, name, rec)
    ensures DependentRegistered(r', required, extracted, dependent, todo - {f}, fieldMap, keyPrefixes, sobjects, name, rec)
  {
    DependentVisitedStep(dependent, todo, f, fieldMap, keyPrefixes, sobjects, name, rec);
    forall x ensures IdsIn(r', x) == IdsIn(required, x) +
                     (DependentVisited(dependent, todo - {f}, fieldMap, keyPrefixes, sobjects, name, rec, x) - IdsIn(extracted, x))
    {
      var before := DependentVisited(dependent, todo, fieldMap, keyPrefixes, sobjects, name, rec, x);
      assert IdsIn(r, x) == IdsIn(required, x) + (before - IdsIn(extracted, x));
    }
  }

  /** Registering lookup `f` adds its target, if it has one, to the ledger's objects. */
  lemma DependentKeysStep(r: Ledger, r': Ledger, required: Ledger, extracted: Ledger, dependent: set<string>, todo: set<string>,
                          f: string, fieldMap: FieldMap, keyPrefixes: map<string, string>, sobjects: seq<string>,
                          name: string, rec: Record)
    requires name in sobjects && dependent <= rec.Keys && dependent <= fieldMap.Keys
    requires forall g :: g in dependent ==> |fieldMap[g].referenceTo| > 0
    requires forall g :: g in dependent && rec[g].Text? ==> KeyPrefix(rec[g].s) in keyPrefixes
    requires f in todo && todo <= dependent
    requires r.Keys == required.Keys + TargetsVisited(dependent, todo, fieldMap, keyPrefixes, sobjects, name, rec)
    requires r' == DependentStep(r, extracted, f, fieldMap, keyPrefixes, sobjects, name, rec)
    ensures r'.Keys == required.Keys + TargetsVisited(dependent, todo - {f}, fieldMap, keyPrefixes, sobjects, name, rec)
  {
    TargetsVisitedStep(dependent, todo, f, fieldMap, keyPrefixes, sobjects, name, rec);
  }

  /**
   * The loop over the dependent lookups of `store_result`: each non-null
   * dependent lookup with a target (see `DependentTarget`) makes its id
   * required for that target, unless the id has already been extracted.
   */
  method RegisterDependentLookups(required: Ledger, extracted: Ledger, name: string, dependent: set<string>,
                                  fieldMap: FieldMap, keyPrefixes: map<string, string>, sobjects: seq<string>, rec: Record)
    returns (r: Ledger)
    requires name in sobjects && dependent <= rec.Keys && dependent <= fieldMap.Keys
    requires forall f :: f in dependent ==> |fieldMap[f].referenceTo| > 0
    requires forall f :: f in dependent && rec[f].Text? ==> KeyPrefix(rec[f].s) in keyPrefixes
    ensures forall x :: IdsIn(r, x) == IdsIn(required, x) +
              (DependentDependencies(dependent, fieldMap, keyPrefixes, sobjects, name, rec, x) - IdsIn(extracted, x))
    ensures r.Keys == required.Keys + TargetsVisited(dependent, {}, fieldMap, keyPrefixes, sobjects, name, rec)
    ensures Disjoint(required, extracted) ==> Disjoint(r, extracted)
  {
    r := required;
    var todo := dependent;
    DependentsRegisteredFirst(required, extracted, dependent, fieldMap, keyPrefixes, sobjects, name, rec);
    while todo != {}
      invariant DependentsRegistered(r, required, extracted, dependent, todo, fieldMap, keyPrefixes, sobjects, name, rec)
      decreases |todo|
    {
      var f :| f in todo;
      DependentsRegisteredStep(r, required, extracted, dependent, todo, f, fieldMap, keyPrefixes, sobjects, name, rec);
      r, todo := DependentStep(r, extracted, f, fieldMap, keyPrefixes, sobjects, name, rec), todo - {f};
    }
    DependentsRegisteredLast(r, required, extracted, dependent, fieldMap, keyPrefixes, sobjects, name, rec);
  }

  /** Before the loop of `RegisterDependentLookups`, nothing is registered. */
  lemma DependentsRegisteredFirst(required: Ledger, extracted: Ledger, dependent: set<string>, fieldMap: FieldMap,
                                  keyPrefixes: map<string, string>, sobjects: seq<string>, name: string, rec: Record)
    requires name in sobjects && dependent <= rec.Keys && dependent <= fieldMap.Keys
    requires forall g :: g in dependent ==> |fieldMap[g].referenceTo| > 0
    requires forall g :: g in dependent && rec[g].Text? ==> KeyPrefix(rec[g].s) in keyPrefixes
    ensures DependentsRegistered(required, required, extracted, dependent, dependent, fieldMap, keyPrefixes, sobjects, name, rec)
  {
    DependentVisitedAll(dependent, fieldMap, keyPrefixes, sobjects, name, rec);
    assert TargetsVisited(dependent, dependent, fieldMap, keyPrefixes, sobjects, name, rec) == {};
  }

  /** After the loop of `RegisterDependentLookups`, every dependent lookup is registered. */
  lemma DependentsRegisteredLast(r: Ledger, required: Ledger, extracted: Ledger, dependent: set<string>, fieldMap: FieldMap,
                                 keyPrefixes: map<string, string>, sobjects: seq<string>, name: string, rec: Record)
    requires name in sobjects && dependent <= rec.Keys && dependent <= fieldMap.Keys
    requires forall g :: g in dependent ==> |fieldMap[g].referenceTo| > 0
    requires forall g :: g in dependent && rec[g].Text? ==> KeyPrefix(rec[g].s) in keyPrefixes
    requires DependentsRegistered(r, required, extracted, dependent, {}, fieldMap, keyPrefixes, sobjects, name, rec)
    ensures forall x :: IdsIn(r, x) == IdsIn(required, x) +
              (DependentDependencies(dependent, fieldMap, keyPrefixes, sobjects, name, rec, x) - IdsIn(extracted, x))
    ensures r.Keys == required.Keys + TargetsVisited(dependent, {}, fieldMap, keyPrefixes, sobjects, name, rec)
    ensures Disjoint(required, extracted) ==> Disjoint(r, extracted)
  {
    DependentVisitedAll(dependent, fieldMap, keyPrefixes, sobjects, name, rec);
  }

  /** The loop invariant of `RegisterDependentLookups`: the lookups outside `todo` are registered, and the ledger stays disjoint. */
  ghost predicate DependentsRegistered(r: Ledger, required: Ledger, extracted: Ledger, dependent: set<string>, todo: set<string>,
                                       fieldMap: FieldMap, keyPrefixes: map<string, string>, sobjects: seq<string>, name: string,
                                       rec: Record)
    requires name in sobjects && dependent <= rec.Keys && dependent <= fieldMap.Keys
    requires forall f :: f in dependent ==> |fieldMap[f].referenceTo| > 0
    requires forall f :: f in dependent && rec[f].Text? ==> KeyPrefix(rec[f].s) in keyPrefixes
  {
    && todo <= dependent
    && r.Keys == required.Keys + TargetsVisited(dependent, todo, fieldMap, keyPrefixes, sobjects, name, rec)
    && DependentRegistered(r, required, extracted, dependent, todo, fieldMap, keyPrefixes, sobjects, name, rec)
    && (Disjoint(required, extracted) ==> Disjoint(r, extracted))
  }

  /** One turn of the loop of `RegisterDependentLookups` keeps its invariant. */
  lemma DependentsRegisteredStep(r: Ledger, required: Ledger, extracted: Ledger, dependent: set<string>, todo: set<string>,
                                 f: string, fieldMap: FieldMap, keyPrefixes: map<string, string>, sobjects: seq<string>,
                                 name: string, rec: Record)
    requires name in sobjects && dependent <= rec.Keys && dependent <= fieldMap.Keys
    requires forall g :: g in dependent ==> |fieldMap[g].referenceTo| > 0
    requires forall g :: g in dependent && rec[g].Text? ==> KeyPrefix(rec[g].s) in keyPrefixes
    requires f in todo
    requires DependentsRegistered(r, required, extracted, dependent, todo, fieldMap, keyPrefixes, sobjects, name, rec)
    ensures DependentsRegistered(DependentStep(r, extracted, f, fieldMap, keyPrefixes, sobjects, name, rec), required, extracted,
                                 dependent, todo - {f}, fieldMap, keyPrefixes, sobjects, name, rec)
  {
    var r' := DependentStep(r, extracted, f, fieldMap, keyPrefixes, sobjects, name, rec);
    DependentRegisteredStep(r, r', required, extracted, dependent, todo, f, fieldMap, keyPrefixes, sobjects, name, rec);
    DependentKeysStep(r, r', required, extracted, dependent, todo, f, fieldMap, keyPrefixes, sobjects, name, rec);
  }

  /** Replacing one object's required ids by ids none of which is extracted keeps the ledger disjoint. */
  lemma DisjointUpdate(required: Ledger, extracted: Ledger, o: string, ids: set<SalesforceId>)
    requires Disjoint(required, extracted) && ids !! IdsIn(extracted, o)
    ensures Disjoint(required[o := ids], extracted)
  {
  }

  /**
   * The ledger of required ids after `rec` registered its lookups: every
   * id it registers on an object (see `Registered`) and not yet extracted
   * there joins that object's set. The step's own object and every target
   * of a non-null dependent lookup get an entry.
   */
  function Registration(required: Ledger, extracted: Ledger, name: string, lk: Lookups,
                        overrides: map<string, LookupBehavior>, default: SelfLookupBehavior, fieldMap: FieldMap,
                        keyPrefixes: map<string, string>, sobjects: seq<string>, rec: Record): Ledger
    requires name in sobjects && Fits(rec, lk, fieldMap, keyPrefixes)
  {
    map x | x in RegistrationKeys(required, name, lk, fieldMap, keyPrefixes, sobjects, rec)
          :: IdsIn(required, x) + (Registered(name, lk, overrides, default, fieldMap, keyPrefixes, sobjects, rec, x) - IdsIn(extracted, x))
  }

  /** The objects the ledger has an entry for after `rec` registered its lookups. */
  function RegistrationKeys(required: Ledger, name: string, lk: Lookups, fieldMap: FieldMap,
                            keyPrefixes: map<string, string>, sobjects: seq<string>, rec: Record): set<string>
    requires name in sobjects && Fits(rec, lk, fieldMap, keyPrefixes)
  {
    required.Keys + {name} + TargetsVisited(lk.dependent, {}, fieldMap, keyPrefixes, sobjects, name, rec)
  }

  /** What `Registration` requires of each object. */
  lemma RegistrationIds(required: Ledger, extracted: Ledger, name: string, lk: Lookups,
                        overrides: map<string, LookupBehavior>, default: SelfLookupBehavior, fieldMap: FieldMap,
                        keyPrefixes: map<string, string>, sobjects: seq<string>, rec: Record, x: string)
    requires name in sobjects && Fits(rec, lk, fieldMap, keyPrefixes)
    ensures IdsIn(Registration(required, extracted, name, lk, overrides, default, fieldMap, keyPrefixes, sobjects, rec), x) ==
            IdsIn(required, x) + (Registered(name, lk, overrides, default, fieldMap, keyPrefixes, sobjects, rec, x) - IdsIn(extracted, x))
  {
    var m := Registration(required, extracted, name, lk, overrides, default, fieldMap, keyPrefixes, sobjects, rec);
    if x !in RegistrationKeys(required, name, lk, fieldMap, keyPrefixes, sobjects, rec) {
      OnlyTargetsRegistered(lk.dependent, fieldMap, keyPrefixes, sobjects, name, rec, x);
      assert x !in m && x !in required;
    } else {
      assert x in m;
    }
  }

  /** The keys of `RegistrationsCombine`. */
  lemma RegistrationKeysAre(req0: Ledger, ext: Ledger, selfIds: set<SalesforceId>, r: Ledger, name: string, lk: Lookups,
                            overrides: map<string, LookupBehavior>, default: SelfLookupBehavior, fieldMap: FieldMap,
                            keyPrefixes: map<string, string>, sobjects: seq<string>, rec: Record)
    requires name in sobjects && Fits(rec, lk, fieldMap, keyPrefixes)
    requires r.Keys == req0[name := selfIds].Keys + TargetsVisited(lk.dependent, {}, fieldMap, keyPrefixes, sobjects, name, rec)
    ensures r.Keys == Registration(req0, ext, name, lk, overrides, default, fieldMap, keyPrefixes, sobjects, rec).Keys
  {
    assert req0[name := selfIds].Keys == req0.Keys + {name};
  }

  /** The self lookups registered first and the dependent lookups next build the ledger `Registration` describes. */
  lemma RegistrationsCombine(req0: Ledger, ext: Ledger, selfIds: set<SalesforceId>, r: Ledger, name: string, lk: Lookups,
                             overrides: map<string, LookupBehavior>, default: SelfLookupBehavior, fieldMap: FieldMap,
                             keyPrefixes: map<string, string>, sobjects: seq<string>, rec: Record)
    requires name in sobjects && Fits(rec, lk, fieldMap, keyPrefixes)
    requires selfIds == IdsIn(req0, name) + (SelfDependencies(lk.selfLookups, overrides, default, rec) - IdsIn(ext, name))
    requires forall x :: IdsIn(r, x) == IdsIn(req0[name := selfIds], x) +
               (DependentDependencies(lk.dependent, fieldMap, keyPrefixes, sobjects, name, rec, x) - IdsIn(ext, x))
    requires r.Keys == req0[name := selfIds].Keys + TargetsVisited(lk.dependent, {}, fieldMap, keyPrefixes, sobjects, name, rec)
    ensures r == Registration(req0, ext, name, lk, overrides, default, fieldMap, keyPrefixes, sobjects, rec)
  {
    var m := Registration(req0, ext, name, lk, overrides, default, fieldMap, keyPrefixes, sobjects, rec);
    RegistrationKeysAre(req0, ext, selfIds, r, name, lk, overrides, default, fieldMap, keyPrefixes, sobjects, rec);
    RegistrationValues(req0, ext, selfIds, r, name, lk, overrides, default, fieldMap, keyPrefixes, sobjects, rec);
    SameLedger(r, m);
  }

  /**
   * The ledger once `id` of object `o` is extracted: the id is no longer
   * required for `o`; an id that was not required leaves the ledger as it is.
   */
  function Satisfied(required: Ledger, o: string, id: SalesforceId): (r: Ledger)
    ensures IdsIn(r, o) == IdsIn(required, o) - {id}
    ensures forall x :: x != o ==> IdsIn(r, x) == IdsIn(required, x)
    ensures r.Keys == required.Keys
  {
    if id in IdsIn(required, o) then required[o := IdsIn(required, o) - {id}] else required
  }

  /**
   * The first two loops of `store_result`: the record's traced self lookups
   * and its dependent lookups make their ids required, except the ids
   * already extracted.
   */
  method RegisterLookups(required: Ledger, extracted: Ledger, name: string, lk: Lookups,
                         overrides: map<string, LookupBehavior>, default: SelfLookupBehavior, fieldMap: FieldMap,
                         keyPrefixes: map<string, string>, sobjects: seq<string>, rec: Record)
    returns (r: Ledger)
    requires name in sobjects && Fits(rec, lk, fieldMap, keyPrefixes) && Disjoint(required, extracted)
    ensures r == Registration(required, extracted, name, lk, overrides, default, fieldMap, keyPrefixes, sobjects, rec)
    ensures Disjoint(r, extracted)
  {
    var selfIds := RegisterSelfLookups(IdsIn(required, name), IdsIn(extracted, name), lk.selfLookups, overrides, default, rec);
    DisjointUpdate(required, extracted, name, selfIds);
    r := RegisterDependentLookups(required[name := selfIds], extracted, name, lk.dependent, fieldMap, keyPrefixes, sobjects, rec);
    RegistrationsCombine(required, extracted, selfIds, r, name, lk, overrides, default, fieldMap, keyPrefixes, sobjects, rec);
  }

  /** Two ledgers with the same objects and the same entries are equal. */
  lemma SameLedger(r: Ledger, m: Ledger)
    requires r.Keys == m.Keys && forall x :: x in r ==> r[x] == m[x]
    ensures r == m
  {
  }

  /** The entries of `RegistrationsCombine`. */
  lemma RegistrationValues(req0: Ledger, ext: Ledger, selfIds: set<SalesforceId>, r: Ledger, name: string, lk: Lookups,
                           overrides: map<string, LookupBehavior>, default: SelfLookupBehavior, fieldMap: FieldMap,
                           keyPrefixes: map<string, string>, sobjects: seq<string>, rec: Record)
    requires name in sobjects && Fits(rec, lk, fieldMap, keyPrefixes)
    requires selfIds == IdsIn(req0, name) + (SelfDependencies(lk.selfLookups, overrides, default, rec) - IdsIn(ext, name))
    requires forall x :: IdsIn(r, x) == IdsIn(req0[name := selfIds], x) +
               (DependentDependencies(lk.dependent, fieldMap, keyPrefixes, sobjects, name, rec, x) - IdsIn(ext, x))
    requires r.Keys == Registration(req0, ext, name, lk, overrides, default, fieldMap, keyPrefixes, sobjects, rec).Keys
    ensures forall x :: x in r ==> r[x] == Registration(req0, ext, name, lk, overrides, default, fieldMap, keyPrefixes, sobjects, rec)[x]
  {
    forall x | x in r
      ensures r[x] == Registration(req0, ext, name, lk, overrides, default, fieldMap, keyPrefixes, sobjects, rec)[x]
    {
      RegistrationAgreesAt(req0, ext, selfIds, r[x], name, lk, overrides, default, fieldMap, keyPrefixes, sobjects, rec, x);
    }
  }

  /** One entry of `RegistrationsCombine`. */
  lemma RegistrationAgreesAt(req0: Ledger, ext: Ledger, selfIds: set<SalesforceId>, after: set<SalesforceId>, name: string,
                             lk: Lookups, overrides: map<string, LookupBehavior>, default: SelfLookupBehavior,
                             fieldMap: FieldMap, keyPrefixes: map<string, string>, sobjects: seq<string>, rec: Record, x: string)
    requires name in sobjects && Fits(rec, lk, fieldMap, keyPrefixes)
    requires selfIds == IdsIn(req0, name) + (SelfDependencies(lk.selfLookups, overrides, default, rec) - IdsIn(ext, name))
    requires after == IdsIn(req0[name := selfIds], x) +
               (DependentDependencies(lk.dependent, fieldMap, keyPrefixes, sobjects, name, rec, x) - IdsIn(ext, x))
    requires x in Registration(req0, ext, name, lk, overrides, default, fieldMap, keyPrefixes, sobjects, rec)
    ensures after == Registration(req0, ext, name, lk, overrides, default, fieldMap, keyPrefixes, sobjects, rec)[x]
  {
    RegistrationCombinesAt(req0, ext, selfIds, after, name, lk, overrides, default, fieldMap, keyPrefixes, sobjects, rec, x);
    RegistrationIds(req0, ext, name, lk, overrides, default, fieldMap, keyPrefixes, sobjects, rec, x);
  }

  /** `RegistrationsCombine` for one object `x`, given what `x` holds after both loops. */
  lemma RegistrationCombinesAt(req0: Ledger, ext: Ledger, selfIds: set<SalesforceId>, after: set<SalesforceId>, name: string,
                               lk: Lookups, overrides: map<string, LookupBehavior>, default: SelfLookupBehavior,
                               fieldMap: FieldMap, keyPrefixes: map<string, string>, sobjects: seq<string>, rec: Record, x: string)
    requires name in sobjects && Fits(rec, lk, fieldMap, keyPrefixes)
    requires selfIds == IdsIn(req0, name) + (SelfDependencies(lk.selfLookups, overrides, default, rec) - IdsIn(ext, name))
    requires after == IdsIn(req0[name := selfIds], x) +
               (DependentDependencies(lk.dependent, fieldMap, keyPrefixes, sobjects, name, rec, x) - IdsIn(ext, x))
    ensures after == IdsIn(req0, x) + (Registered(name, lk, overrides, default, fieldMap, keyPrefixes, sobjects, rec, x) - IdsIn(ext, x))
  {
    if x == name {
      assert IdsIn(req0[name := selfIds], x) == selfIds;
    } else {
      assert IdsIn(req0[name := selfIds], x) == IdsIn(req0, x);
    }
  }

  // ---------------------------------------------------------------------
  // The operation.

  /** The objects of the steps, in order. */
  function ObjectNames(steps: seq<ExtractionStep>): (r: seq<string>)
    ensures |r| == |steps| && forall i :: 0 <= i < |steps| ==> r[i] == steps[i].objectName
  {
    if steps == [] then [] else ObjectNames(steps[..|steps| - 1]) + [steps[|steps| - 1].objectName]
  }

  class ExtractOperation {
    var steps: seq<ExtractionStep>
    /** The describe data of each object (`get_field_map`). */
    const fieldMaps: map<string, FieldMap>
    /** Key prefix to object name (`get_sobject_name_for_id`). */
    const keyPrefixes: map<string, string>
    /** The records the org holds for each object. */
    const store: map<string, seq<Record>>
    var requiredIds: Ledger
    var extractedIds: Ledger
    /** The rows written so far to each object's output file. */
    var outputFiles: map<string, seq<Record>>
    /** The mapper of each object that has one, set up before the run. */
    const mappers: map<string, DataMapper>
    /** Every query sent, oldest first. */
    var queries: seq<QueryCall>

    constructor (fieldMaps: map<string, FieldMap>, keyPrefixes: map<string, string>, store: map<string, seq<Record>>,
                 mappers: map<string, DataMapper>)
      ensures this.fieldMaps == fieldMaps && this.keyPrefixes == keyPrefixes && this.store == store && this.mappers == mappers
      ensures steps == [] && requiredIds == map[] && extractedIds == map[]
      ensures outputFiles == map[] && queries == []
    {
      this.fieldMaps := fieldMaps;
      this.keyPrefixes := keyPrefixes;
      this.store := store;
      steps := [];
      requiredIds := map[];
      extractedIds := map[];
      outputFiles := map[];
      this.mappers := mappers;
      queries := [];
    }

    /** `add_step`: the step, built for this operation, joins the end of the list. */
    method AddStep(step: ExtractionStep)
      requires step.context == this
      modifies this`steps
      ensures steps == old(steps) + [step]
    {
      steps := steps + [step];
    }

    /** `get_sobject_list`: the steps' objects, in order. */
    function SObjects(): (r: seq<string>)
      reads this`steps
      ensures |r| == |steps| && forall i :: 0 <= i < |steps| ==> r[i] == steps[i].objectName
    {
      ObjectNames(steps)
    }

    /** The errors of each step, in order. */
    function StepErrors(): (r: seq<seq<Error>>)
      reads this`steps, steps
      ensures |r| == |steps| && forall i :: 0 <= i < |steps| ==> r[i] == steps[i].errors
    {
      var ss := steps;
      seq(|ss|, i reads ss requires 0 <= i < |ss| => ss[i].errors)
    }

    /**
     * The run stopped at step `k`: every step before it ended without
     * errors, step `k` ended with some, and every later step still has the
     * errors it had before the run (`before`).
     */
    predicate StoppedAt(k: int, before: seq<seq<Error>>)
      reads this`steps, steps
    {
      && 0 <= k < |steps| && |before| == |steps| && steps[k].errors != []
      && (forall j :: 0 <= j < k ==> steps[j].errors == [])
      && (forall j :: k < j < |steps| ==> steps[j].errors == before[j])
    }

    /**
     * `execute`: the steps run in order. The run stops at the first step
     * that ends with errors and returns -1, leaving the later steps as they
     * were; it returns 0 when every step ends without errors.
     */
    method Execute() returns (r: int)
      requires Valid() && Distinct(ObjectNames(steps))
      requires forall i :: 0 <= i < |steps| ==> steps[i].context == this && steps[i].Configured()
      modifies this`requiredIds, this`extractedIds, this`outputFiles, this`queries, steps
      ensures Valid()
      ensures r == 0 || r == -1
      ensures r == 0 <==> forall i :: 0 <= i < |steps| ==> steps[i].errors == []
      ensures r == -1 ==> exists k :: StoppedAt(k, old(StepErrors()))
    {
      ghost var before := StepErrors();
      var i := 0;
      while i < |steps|
        invariant 0 <= i <= |steps| && Valid()
        invariant forall j :: 0 <= j < i ==> steps[j].errors == []
        invariant forall j :: i <= j < |steps| ==> steps[j].errors == before[j]
      {
        var failed := RunStep(i);
        if failed {
          assert StoppedAt(i, before);
          return -1;
        }
        i := i + 1;
      }
      return 0;
    }

    /** One round of `execute`: the `i`th step runs and reports whether it ended with errors. */
    method RunStep(i: nat) returns (failed: bool)
      requires i < |steps| && Valid() && Distinct(ObjectNames(steps))
      requires steps[i].context == this && steps[i].Configured()
      modifies this`requiredIds, this`extractedIds, this`outputFiles, this`queries, steps[i]
      ensures Valid()
      ensures failed <==> steps[i].errors != []
      ensures forall j :: 0 <= j < |steps| && j != i ==> steps[j].errors == old(steps[j].errors)
      ensures outputFiles.Keys == old(outputFiles.Keys)
      ensures forall x :: x != steps[i].objectName ==>
                GetExtractedIds(x) == old(GetExtractedIds(x)) && RecordsOf(outputFiles, x) == old(RecordsOf(outputFiles, x))
    {
      var step := steps[i];
      forall j | 0 <= j < |steps| && j != i ensures steps[j] != step {
        assert ObjectNames(steps)[j] != ObjectNames(steps)[i];
      }
      assert step.objectName in ObjectNames(steps);
      ghost var s0 := step.Now();
      ghost var _ := step.Execute();
      OthersKeptBy(step.View(), s0, step.Now());
      failed := |step.errors| > 0;
    }

    /** `set_output_file`: a fresh output file for the object. */
    method SetOutputFile(objectName: string)
      modifies this`outputFiles
      ensures outputFiles == old(outputFiles)[objectName := []]
    {
      outputFiles := outputFiles[objectName := []];
    }

    /**
     * The operation is set up for a step of `objectName` over the fields
     * `fieldScope`: the object is described, its fields include a non-lookup
     * `Id`, and every record the org holds for it carries exactly those
     * fields, in the form the server returns them, each with an id of its own.
     */
    predicate Configured(objectName: string, fieldScope: seq<string>) {
      && objectName in fieldMaps
      && Elems(fieldScope) <= fieldMaps[objectName].Keys
      && "Id" in fieldScope && fieldMaps[objectName]["Id"].fieldType != "reference"
      && RecordsOk(StoreOf(objectName), Elems(fieldScope), fieldMaps[objectName], keyPrefixes)
      && SingleIds(StoreOf(objectName))
    }

    /** The records the org holds for the object. */
    function StoreOf(objectName: string): seq<Record> {
      RecordsOf(store, objectName)
    }

    /** The ids of the records the org holds for the object. */
    function StoreIds(objectName: string): (ids: set<SalesforceId>)
      ensures forall r: Record :: r in StoreOf(objectName) && "Id" in r && r["Id"].Text? ==> IdOf(r["Id"]) in ids
    {
      IdsOf(StoreOf(objectName))
    }

    /** `get_dependencies`. */
    function GetDependencies(objectName: string): set<SalesforceId>
      reads this`requiredIds
    {
      IdsIn(requiredIds, objectName)
    }

    /** `get_extracted_ids`. */
    function GetExtractedIds(objectName: string): set<SalesforceId>
      reads this`extractedIds
    {
      IdsIn(extractedIds, objectName)
    }

    /** No id is both extracted and still required for the same object. */
    predicate LedgerOk()
      reads this`requiredIds, this`extractedIds
    {
      Disjoint(requiredIds, extractedIds)
    }

    /** Only ids the org holds are ever extracted. */
    predicate Bounded()
      reads this`extractedIds
    {
      Within(extractedIds, store)
    }

    /** Each output file holds one row per id extracted for its object. */
    predicate RowsCounted()
      reads this`outputFiles, this`extractedIds
    {
      RowsMatch(outputFiles, extractedIds)
    }

    /** Every step's object has its output file. */
    predicate FilesOpen()
      reads this`steps, this`outputFiles
    {
      forall o :: o in ObjectNames(steps) ==> o in outputFiles
    }

    /** The invariants the run keeps. */
    predicate Valid()
      reads this`steps, this`requiredIds, this`extractedIds, this`outputFiles
    {
      LedgerOk() && Bounded() && RowsCounted() && FilesOpen()
    }

    /**
     * `add_dependency`: the id becomes required for the object unless it has
     * already been extracted; no other object's requirements change.
     */
    method AddDependency(objectName: string, id: SalesforceId)
      modifies this`requiredIds
      ensures requiredIds == WithDependency(old(requiredIds), extractedIds, objectName, id)
      ensures id in GetExtractedIds(objectName) ==> GetDependencies(objectName) == old(GetDependencies(objectName))
      ensures id !in GetExtractedIds(objectName) ==> id in GetDependencies(objectName)
      ensures old(LedgerOk()) ==> LedgerOk()
    {
      requiredIds := WithDependency(requiredIds, extractedIds, objectName, id);
    }

    /** The row written for a record of the object: the record, renamed and transformed by the object's mapper if it has one. */
    function OutputRow(objectName: string, rec: Record, order: seq<string>): Record
      requires forall k :: k in rec ==> k in order
    {
      RowFor(mappers, objectName, rec, order)
    }

    /**
     * `store_result`: the record's id is extracted and no longer required
     * for the object; a row is written the first time the id is stored and
     * never again.
     */
    method StoreResult(objectName: string, rec: Record, order: seq<string>)
      requires "Id" in rec && rec["Id"].Text? && objectName in outputFiles
      requires IdOf(rec["Id"]) in StoreIds(objectName)
      requires forall k :: k in rec ==> k in order
      requires Valid()
      modifies this`extractedIds, this`requiredIds, this`outputFiles
      ensures extractedIds == old(extractedIds[objectName := IdsIn(extractedIds, objectName) + {IdOf(rec["Id"])}])
      ensures requiredIds == old(Satisfied(requiredIds, objectName, IdOf(rec["Id"])))
      ensures old(IdOf(rec["Id"]) !in GetExtractedIds(objectName)) ==>
                outputFiles == old(outputFiles)[objectName := old(outputFiles[objectName]) + [OutputRow(objectName, rec, order)]]
      ensures old(IdOf(rec["Id"]) in GetExtractedIds(objectName)) ==> outputFiles == old(outputFiles)
      ensures IdOf(rec["Id"]) in GetExtractedIds(objectName) && IdOf(rec["Id"]) !in GetDependencies(objectName)
      ensures Grown(old(extractedIds), extractedIds)
      ensures Valid()
    {
      var id := IdOf(rec["Id"]);
      var row := OutputRow(objectName, rec, order);
      var files := if id in GetExtractedIds(objectName) then outputFiles
                   else outputFiles[objectName := outputFiles[objectName] + [row]];
      var required := Satisfied(requiredIds, objectName, id);
      extractedIds := extractedIds[objectName := GetExtractedIds(objectName) + {id}];
      outputFiles := files;
      requiredIds := required;
      StoreKeepsLedger(old(requiredIds), old(extractedIds), old(outputFiles), store, objectName, id, row,
                       requiredIds, extractedIds, outputFiles);
      GrownByAdding(old(extractedIds), objectName, {id});
    }

    /**
     * `get_sobject_ids_for_reference`: the ids extracted so far for any
     * target of the field.
     */
    method GetSObjectIdsForReference(objectName: string, field: string) returns (ids: set<SalesforceId>)
      requires objectName in fieldMaps && field in fieldMaps[objectName]
      ensures ids == ExtractedFor(extractedIds, fieldMaps[objectName][field].referenceTo)
    {
      var targets := fieldMaps[objectName][field].referenceTo;
      ids := {};
      var i := 0;
      while i < |targets|
        invariant 0 <= i <= |targets|
        invariant ids == ExtractedFor(extractedIds, targets[..i])
      {
        if targets[i] in extractedIds {
          ids := ids + extractedIds[targets[i]];
        }
        assert targets[..i + 1][..i] == targets[..i];
        i := i + 1;
      }
      assert targets[..i] == targets;
    }

    /** A bulk query of the object, answered from the store. */
    method Query(objectName: string, where: Option<Record -> bool>) returns (recs: seq<Record>)
      modifies this`queries
      ensures queries == old(queries) + [BulkQuery(objectName, where.Some?)]
      ensures recs == if where.Some? then Selected(StoreOf(objectName), where.value) else StoreOf(objectName)
    {
      queries := queries + [BulkQuery(objectName, where.Some?)];
      recs := if where.Some? then Selected(StoreOf(objectName), where.value) else StoreOf(objectName);
    }

    /** `query_all` of `field IN (inList)`, answered from the store. */
    method QueryAll(objectName: string, field: string, batch: seq<SalesforceId>, inList: string) returns (recs: seq<Record>)
      modifies this`queries
      ensures queries == old(queries) + [IdQuery(objectName, field, batch, inList)]
      ensures recs == WithIdIn(StoreOf(objectName), field, Elems(batch))
    {
      queries := queries + [IdQuery(objectName, field, batch, inList)];
      recs := WithIdIn(StoreOf(objectName), field, Elems(batch));
    }
  }

  /** What the outside-lookup policy does with one lookup of a record. */
  datatype PolicyAction = Keep | DropLookup | Report

  /**
   * The policy's verdict on descendent lookup `k` of `rec`: an outside
   * reference is dropped under DROP_FIELD and reported under ERROR; any
   * other lookup is kept.
   */
  function ActionAt(descendent: set<string>, fieldMap: FieldMap, keyPrefixes: map<string, string>, extracted: Ledger,
                    rec: Record, overrides: map<string, LookupBehavior>, default: OutsideLookupBehavior, k: string): PolicyAction
    requires descendent <= rec.Keys && descendent <= fieldMap.Keys
    requires forall f :: f in descendent ==> |fieldMap[f].referenceTo| > 0
    requires forall f :: f in descendent && rec[f].Text? ==> KeyPrefix(rec[f].s) in keyPrefixes
  {
    if k in descendent && CrossReference(fieldMap[k], keyPrefixes, extracted, rec[k]) then
      (if OutsideBehaviorFor(overrides, default, k) == Outside(DropField) then DropLookup
       else if OutsideBehaviorFor(overrides, default, k) == Outside(RaiseError) then Report
       else Keep)
    else Keep
  }

  /** The verdicts agree with the dropped and the reported lookups. */
  lemma VerdictsAgree(descendent: set<string>, fieldMap: FieldMap, keyPrefixes: map<string, string>, extracted: Ledger,
                      rec: Record, overrides: map<string, LookupBehavior>, default: OutsideLookupBehavior,
                      verdicts: map<string, PolicyAction>)
    requires descendent <= rec.Keys && descendent <= fieldMap.Keys
    requires forall f :: f in descendent ==> |fieldMap[f].referenceTo| > 0
    requires forall f :: f in descendent && rec[f].Text? ==> KeyPrefix(rec[f].s) in keyPrefixes
    requires forall k :: k in descendent ==>
               k in verdicts && verdicts[k] == ActionAt(descendent, fieldMap, keyPrefixes, extracted, rec, overrides, default, k)
    ensures var flagged := CrossReferences(descendent, fieldMap, keyPrefixes, extracted, rec);
            && (set k | k in descendent && verdicts[k] == DropLookup) == Dropped(flagged, overrides, default)
            && (set k | k in descendent && verdicts[k] == Report) == Raised(flagged, overrides, default)
  {
  }

  /**
   * The loop over the descendent lookups of `store_result`, given the
   * policy's verdict on each: a dropped lookup leaves the record, a
   * reported one adds an error, in the order the lookups are visited.
   */
  method ApplyVerdicts(name: string, rec: Record, fields: set<string>, verdicts: map<string, PolicyAction>)
    returns (out: Record, raised: seq<Error>)
    requires "Id" in rec && fields <= rec.Keys && fields <= verdicts.Keys
    ensures out == Remove(rec, set k | k in fields && verdicts[k] == DropLookup)
    ensures NoRepeats(raised) && Elems(raised) == OutsideErrors(name, rec, set k | k in fields && verdicts[k] == Report)
  {
    var todo := fields;
    ghost var dropped: set<string> := {};
    ghost var order: seq<string> := [];
    out := rec;
    raised := [];
    while todo != {}
      invariant todo <= fields
      invariant out == Remove(rec, dropped)
      invariant forall k :: k in dropped <==> k in fields && k !in todo && verdicts[k] == DropLookup
      invariant Elems(order) <= fields && raised == ErrorsOf(name, rec, order)
      invariant NoRepeats(order)
      invariant forall k :: k in fields && k !in todo && verdicts[k] == Report <==> k in order
      decreases |todo|
    {
      var f :| f in todo;
      if verdicts[f] == DropLookup {
        RemoveOneMore(rec, dropped, f);
        out := out - {f};
        dropped := dropped + {f};
      } else if verdicts[f] == Report {
        ReportOneMore(name, rec, order, f);
        raised := raised + [OutsideError(name, rec, f)];
        order := order + [f];
      }
      todo := todo - {f};
    }
    assert Elems(order) == set k | k in fields && verdicts[k] == Report;
    ReportsInOrder(name, rec, order, raised, set k | k in fields && verdicts[k] == Report);
  }

  /**
   * The outside-lookup policy over all descendent lookups of a record: the
   * outside references under DROP_FIELD leave the record, and those under
   * ERROR are reported, each once.
   */
  method ApplyOutsidePolicy(name: string, descendent: set<string>, fieldMap: FieldMap, keyPrefixes: map<string, string>,
                            extracted: Ledger, rec: Record, overrides: map<string, LookupBehavior>,
                            default: OutsideLookupBehavior)
    returns (out: Record, raised: seq<Error>)
    requires "Id" in rec && descendent <= rec.Keys && descendent <= fieldMap.Keys
    requires forall f :: f in descendent ==> |fieldMap[f].referenceTo| > 0
    requires forall f :: f in descendent && rec[f].Text? ==> KeyPrefix(rec[f].s) in keyPrefixes
    ensures var flagged := CrossReferences(descendent, fieldMap, keyPrefixes, extracted, rec);
            && out == Remove(rec, Dropped(flagged, overrides, default))
            && NoRepeats(raised)
            && Elems(raised) == OutsideErrors(name, rec, Raised(flagged, overrides, default))
  {
    var verdicts := map k | k in descendent :: ActionAt(descendent, fieldMap, keyPrefixes, extracted, rec, overrides, default, k);
    out, raised := ApplyVerdicts(name, rec, descendent, verdicts);
    VerdictsAgree(descendent, fieldMap, keyPrefixes, extracted, rec, overrides, default, verdicts);
  }

  /** Dropping one more key. */
  lemma RemoveOneMore(rec: Record, dropped: set<string>, f: string)
    ensures Remove(rec, dropped) - {f} == Remove(rec, dropped + {f})
  {
  }

  /** The reports for `order`, one per field, in that order. */
  function ErrorsOf(name: string, rec: Record, order: seq<string>): (r: seq<Error>)
    requires "Id" in rec && Elems(order) <= rec.Keys
    ensures |r| == |order| && forall i :: 0 <= i < |order| ==> r[i] == OutsideError(name, rec, order[i])
  {
    if order == [] then [] else ErrorsOf(name, rec, order[..|order| - 1]) + [OutsideError(name, rec, order[|order| - 1])]
  }

  /** Reporting one more field, not reported before. */
  lemma ReportOneMore(name: string, rec: Record, order: seq<string>, f: string)
    requires "Id" in rec && Elems(order) <= rec.Keys && f in rec && NoRepeats(order) && f !in order
    ensures ErrorsOf(name, rec, order + [f]) == ErrorsOf(name, rec, order) + [OutsideError(name, rec, f)]
    ensures Elems(order + [f]) == Elems(order) + {f} && NoRepeats(order + [f])
  {
    assert (order + [f])[..|order|] == order;
  }

  /** Reports made one per field, for distinct fields, are distinct and are the errors of those fields. */
  lemma ReportsInOrder(name: string, rec: Record, order: seq<string>, raised: seq<Error>, reported: set<string>)
    requires "Id" in rec && Elems(order) <= rec.Keys && raised == ErrorsOf(name, rec, order)
    requires NoRepeats(order) && Elems(order) == reported
    ensures NoRepeats(raised) && Elems(raised) == OutsideErrors(name, rec, reported)
  {
    forall e | e in OutsideErrors(name, rec, reported) ensures e in Elems(raised) {
      var f :| f in reported && f in rec && e == OutsideError(name, rec, f);
      assert f in Elems(order);
      var i :| 0 <= i < |order| && order[i] == f;
      assert raised[i] == e;
    }
    forall e | e in Elems(raised) ensures e in OutsideErrors(name, rec, reported) {
      var i :| 0 <= i < |raised| && raised[i] == e;
      assert order[i] in Elems(order);
    }
    forall i, j | 0 <= i < j < |raised| ensures raised[i] != raised[j] {
      assert raised[i].field == order[i] && raised[j].field == order[j];
    }
  }

  /**
   * The loops of `store_result` that run before the record is stored, on
   * values: the ledger after the record registered its lookups, the record
   * without the outside references the policy drops, and the reports for
   * those it refuses.
   */
  method ExamineResult(required: Ledger, extracted: Ledger, name: string, lk: Lookups,
                       overrides: map<string, LookupBehavior>, selfDefault: SelfLookupBehavior,
                       outsideDefault: OutsideLookupBehavior, fieldMap: FieldMap, keyPrefixes: map<string, string>,
                       sobjects: seq<string>, rec: Record)
    returns (required': Ledger, out: Record, raised: seq<Error>)
    requires name in sobjects && "Id" in rec && Fits(rec, lk, fieldMap, keyPrefixes) && Disjoint(required, extracted)
    ensures required' == Registration(required, extracted, name, lk, overrides, selfDefault, fieldMap, keyPrefixes, sobjects, rec)
    ensures Disjoint(required', extracted)
    ensures var flagged := CrossReferences(lk.descendent, fieldMap, keyPrefixes, extracted, rec);
            && out == Remove(rec, Dropped(flagged, overrides, outsideDefault))
            && NoRepeats(raised)
            && Elems(raised) == OutsideErrors(name, rec, Raised(flagged, overrides, outsideDefault))
  {
    required' := RegisterLookups(required, extracted, name, lk, overrides, selfDefault, fieldMap, keyPrefixes, sobjects, rec);
    out, raised := ApplyOutsidePolicy(name, lk.descendent, fieldMap, keyPrefixes, extracted, rec, overrides, outsideDefault);
  }

  /** `errs` extends `errs0` by outside-reference errors only. */
  predicate OutsideAppended(errs0: seq<Error>, errs: seq<Error>) {
    errs0 <= errs && forall k :: |errs0| <= k < |errs| ==> errs[k].OutsideReference?
  }

  lemma OutsideAppendedTrans(errs0: seq<Error>, errs1: seq<Error>, errs2: seq<Error>)
    requires OutsideAppended(errs0, errs1) && OutsideAppended(errs1, errs2)
    ensures OutsideAppended(errs0, errs2)
  {
    forall k | |errs0| <= k < |errs2| ensures errs2[k].OutsideReference? {
      if k < |errs1| {
        assert errs2[k] == errs1[k];
      }
    }
  }

  /** The errors a record's outside references are reported as are all outside-reference errors. */
  lemma ReportedAreOutside(name: string, rec: Record, fields: set<string>, errs0: seq<Error>, errs: seq<Error>)
    requires "Id" in rec && errs0 <= errs && Elems(errs[|errs0|..]) == OutsideErrors(name, rec, fields)
    ensures OutsideAppended(errs0, errs)
  {
    forall k | |errs0| <= k < |errs| ensures errs[k].OutsideReference? {
      assert errs[k] == errs[|errs0|..][k - |errs0|];
      assert errs[k] in OutsideErrors(name, rec, fields);
    }
  }

  /**
   * Part way through storing the records of one answer, for object `o`:
   * the first `i` of them have their ids extracted on top of those of `m0`,
   * no object has lost an extracted id, no id required at the start stays
   * required unless it is one of theirs, and errors have only been appended.
   */
  predicate Stored(recs: seq<Record>, i: nat, o: string, m0: Ledger, d0: set<SalesforceId>, errs0: seq<Error>,
                   m: Ledger, d: set<SalesforceId>, errs: seq<Error>) {
    && i <= |recs| && IdsIn(m, o) == IdsIn(m0, o) + IdsOf(recs[..i]) && Grown(m0, m)
    && d0 - IdsOf(recs[..i]) <= d && OutsideAppended(errs0, errs)
  }

  lemma StoredStep(recs: seq<Record>, i: nat, o: string, m0: Ledger, d0: set<SalesforceId>, errs0: seq<Error>,
                   m: Ledger, d: set<SalesforceId>, errs: seq<Error>, m': Ledger, d': set<SalesforceId>, errs': seq<Error>)
    requires Stored(recs, i, o, m0, d0, errs0, m, d, errs) && i < |recs| && "Id" in recs[i] && recs[i]["Id"].Text?
    requires IdsIn(m', o) == IdsIn(m, o) + {IdOf(recs[i]["Id"])} && Grown(m, m')
    requires d - {IdOf(recs[i]["Id"])} <= d' && OutsideAppended(errs, errs')
    ensures Stored(recs, i + 1, o, m0, d0, errs0, m', d', errs')
  {
    IdsOfPrefix(recs, i);
    OutsideAppendedTrans(errs0, errs, errs');
  }

  lemma StoredLast(recs: seq<Record>, o: string, m0: Ledger, d0: set<SalesforceId>, errs0: seq<Error>,
                   m: Ledger, d: set<SalesforceId>, errs: seq<Error>)
    requires Stored(recs, |recs|, o, m0, d0, errs0, m, d, errs)
    ensures IdsIn(m, o) == IdsIn(m0, o) + IdsOf(recs) && Grown(m0, m) && d0 - IdsOf(recs) <= d && OutsideAppended(errs0, errs)
  {
    assert recs[..|recs|] == recs;
  }

  /**
   * The queries of one `perform_id_field_pass` of object `o` by `field`:
   * each takes a batch that keeps within the budget, and together they take
   * every id of `ids` exactly once.
   */
  predicate IdPass(calls: seq<QueryCall>, o: string, field: string, ids: set<SalesforceId>, maxLen: int) {
    && Partitions(calls, ids)
    && forall k :: 0 <= k < |calls| ==> BatchOk(calls[k], maxLen) && calls[k].objectName == o && calls[k].field == field
  }

  /** A batch takes ids from those not yet queried, at least one. */
  lemma BatchTaken(idSet: set<SalesforceId>, ids: set<SalesforceId>, maxLen: int, batch: seq<SalesforceId>, inList: string,
                   rest: set<SalesforceId>)
    requires ids <= idSet && Batching(ids, maxLen, batch, inList, rest)
    ensures rest <= idSet && |rest| < |ids| && idSet - rest == (idSet - ids) + Elems(batch)
  {
    assert batch[0] in Elems(batch);
  }

  /** One more batch, taken from the ids not yet queried, extends the pass. */
  lemma IdPassStep(calls: seq<QueryCall>, o: string, field: string, idSet: set<SalesforceId>,
                   ids: set<SalesforceId>, maxLen: int, batch: seq<SalesforceId>, inList: string, rest: set<SalesforceId>)
    requires ids <= idSet && IdPass(calls, o, field, idSet - ids, maxLen) && Batching(ids, maxLen, batch, inList, rest)
    requires idSet - rest == (idSet - ids) + Elems(batch)
    ensures IdPass(calls + [IdQuery(o, field, batch, inList)], o, field, idSet - rest, maxLen)
  {
    var calls' := calls + [IdQuery(o, field, batch, inList)];
    assert calls'[..|calls|] == calls;
    assert Covered(calls') == Covered(calls) + Elems(batch);
    forall k, l | 0 <= k < l < |calls'| ensures Elems(calls'[k].batch) !! Elems(calls'[l].batch) {
      if l == |calls| {
        forall x | x in Elems(calls[k].batch) ensures x !in Elems(batch) {
          var i :| 0 <= i < |calls[k].batch| && calls[k].batch[i] == x;
        }
      }
    }
  }

  /**
   * Part way through `perform_id_field_pass` of object `o` by `field`: the
   * queries sent since `q0` are `calls`, which take the ids of `idSet` not
   * in `ids` as the pass requires, and the records found for those ids
   * are gathered.
   */
  predicate Passing(q0: seq<QueryCall>, calls: seq<QueryCall>, q: seq<QueryCall>, o: string, field: string,
                    idSet: set<SalesforceId>, ids: set<SalesforceId>, maxLen: int, held: seq<Record>,
                    m0: Ledger, d0: set<SalesforceId>, errs0: seq<Error>, m: Ledger, d: set<SalesforceId>, errs: seq<Error>) {
    && ids <= idSet && q == q0 + calls
    && IdPass(calls, o, field, idSet - ids, maxLen)
    && Gathered(o, IdsOf(WithIdIn(held, field, idSet - ids)), m0, d0, errs0, m, d, errs)
  }

  lemma PassingStep(q0: seq<QueryCall>, calls: seq<QueryCall>, q: seq<QueryCall>, o: string, field: string,
                    idSet: set<SalesforceId>, ids: set<SalesforceId>, maxLen: int, held: seq<Record>,
                    m0: Ledger, d0: set<SalesforceId>, errs0: seq<Error>, m: Ledger, d: set<SalesforceId>, errs: seq<Error>,
                    batch: seq<SalesforceId>, inList: string, rest: set<SalesforceId>,
                    q': seq<QueryCall>, m': Ledger, d': set<SalesforceId>, errs': seq<Error>)
    requires Passing(q0, calls, q, o, field, idSet, ids, maxLen, held, m0, d0, errs0, m, d, errs)
    requires Batching(ids, maxLen, batch, inList, rest)
    requires q' == q + [IdQuery(o, field, batch, inList)]
    requires Gathered(o, IdsOf(WithIdIn(held, field, Elems(batch))), m, d, errs, m', d', errs')
    ensures |rest| < |ids|
    ensures Passing(q0, calls + [IdQuery(o, field, batch, inList)], q', o, field, idSet, rest, maxLen, held,
                    m0, d0, errs0, m', d', errs')
  {
    BatchTaken(idSet, ids, maxLen, batch, inList, rest);
    IdPassStep(calls, o, field, idSet, ids, maxLen, batch, inList, rest);
    GatheredStep(o, held, field, idSet - ids, Elems(batch), m0, d0, errs0, m, d, errs, m', d', errs');
    assert q' == q0 + (calls + [IdQuery(o, field, batch, inList)]);
  }

  lemma PassingLast(q0: seq<QueryCall>, calls: seq<QueryCall>, q: seq<QueryCall>, o: string, field: string,
                    idSet: set<SalesforceId>, maxLen: int, held: seq<Record>,
                    m0: Ledger, d0: set<SalesforceId>, errs0: seq<Error>, m: Ledger, d: set<SalesforceId>, errs: seq<Error>)
    requires Passing(q0, calls, q, o, field, idSet, {}, maxLen, held, m0, d0, errs0, m, d, errs)
    ensures q0 <= q && IdPass(q[|q0|..], o, field, idSet, maxLen)
    ensures Gathered(o, IdsOf(WithIdIn(held, field, idSet)), m0, d0, errs0, m, d, errs)
  {
    assert idSet - {} == idSet;
    assert q[|q0|..] == calls;
  }

  /**
   * Part way through a pass of object `o` by `field`, after the ids `done`:
   * the records found for them have their ids extracted on top of those of
   * `m0`, no object has lost an extracted id, no id required at the start
   * stays required unless one of them was found, and errors have only been
   * appended.
   */
  predicate Gathered(o: string, found: set<SalesforceId>, m0: Ledger, d0: set<SalesforceId>, errs0: seq<Error>,
                     m: Ledger, d: set<SalesforceId>, errs: seq<Error>) {
    IdsIn(m, o) == IdsIn(m0, o) + found && Grown(m0, m) && d0 - found <= d && OutsideAppended(errs0, errs)
  }

  lemma GatheredStep(o: string, held: seq<Record>, field: string, done: set<SalesforceId>, more: set<SalesforceId>,
                     m0: Ledger, d0: set<SalesforceId>, errs0: seq<Error>, m: Ledger, d: set<SalesforceId>, errs: seq<Error>,
                     m': Ledger, d': set<SalesforceId>, errs': seq<Error>)
    requires Gathered(o, IdsOf(WithIdIn(held, field, done)), m0, d0, errs0, m, d, errs)
    requires Gathered(o, IdsOf(WithIdIn(held, field, more)), m, d, errs, m', d', errs')
    ensures Gathered(o, IdsOf(WithIdIn(held, field, done + more)), m0, d0, errs0, m', d', errs')
  {
    WithIdInUnion(held, field, done, more);
    OutsideAppendedTrans(errs0, errs, errs');
  }

  /**
   * What `resolve_registered_dependencies` finds missing: the ids required
   * before the pass (`pre`) that the org does not hold. Those it holds are
   * found and extracted, so they stop being required; those it does not
   * hold stay required.
   */
  lemma Unresolved(o: string, held: seq<Record>, pre: set<SalesforceId>, m0: Ledger, errs0: seq<Error>,
                   required: Ledger, m: Ledger, errs: seq<Error>)
    requires Gathered(o, IdsOf(WithIdIn(held, "Id", pre)), m0, pre, errs0, m, IdsIn(required, o), errs)
    requires Disjoint(required, m)
    ensures IdsIn(required, o) * pre == pre - IdsOf(held)
    ensures IdsIn(m, o) == IdsIn(m0, o) + pre * IdsOf(held)
  {
    WithIdInById(held, pre);
    DisjointAt(required, m, o);
  }

  /** The text of each id, as the error message lists them. */
  function Texts(ids: set<SalesforceId>): (r: set<string>)
    ensures forall x :: x in ids ==> x.id in r
    ensures forall t :: t in r ==> SalesforceId(t) in ids
  {
    set x | x in ids :: x.id
  }

  /**
   * Part way through the lookup passes over `fields` of object `o`, with
   * `todo` still to go: for each field done, the records whose field points
   * at an id extracted at the start (`m0`) for one of its targets are
   * extracted; no extracted id has been lost and errors have only been
   * appended.
   */
  predicate Looked(o: string, held: seq<Record>, fm: FieldMap, fields: set<string>, todo: set<string>,
                   m0: Ledger, errs0: seq<Error>, m: Ledger, errs: seq<Error>) {
    && fields <= fm.Keys && todo <= fields && Grown(m0, m) && errs0 <= errs
    && forall f :: f in fields && f !in todo ==> IdsOf(WithIdIn(held, f, ExtractedFor(m0, fm[f].referenceTo))) <= IdsIn(m, o)
  }

  lemma LookedStep(o: string, held: seq<Record>, fm: FieldMap, fields: set<string>, todo: set<string>, f: string,
                   m0: Ledger, errs0: seq<Error>, m: Ledger, d: set<SalesforceId>, errs: seq<Error>,
                   m': Ledger, d': set<SalesforceId>, errs': seq<Error>)
    requires Looked(o, held, fm, fields, todo, m0, errs0, m, errs) && f in todo
    requires Gathered(o, IdsOf(WithIdIn(held, f, ExtractedFor(m, fm[f].referenceTo))), m, d, errs, m', d', errs')
    ensures Looked(o, held, fm, fields, todo - {f}, m0, errs0, m', errs')
  {
    GrownTrans(m0, m, m');
    ExtractedForGrows(m0, m, fm[f].referenceTo);
    WithIdInGrows(held, f, ExtractedFor(m0, fm[f].referenceTo), ExtractedFor(m, fm[f].referenceTo));
  }

  /**
   * The self lookups of object `o` are closed over the ids `e`: every
   * record whose self lookup points at one of them is itself one of them.
   */
  predicate SelfClosed(held: seq<Record>, selfLookups: set<string>, e: set<SalesforceId>) {
    forall l :: l in selfLookups ==> IdsOf(WithIdIn(held, l, e)) <= e
  }

  /**
   * A round of the self-lookup loop that extracts nothing new leaves the
   * self lookups closed: each of them already pointed only at records
   * extracted before the round.
   */
  lemma ClosedAtFixedPoint(o: string, held: seq<Record>, fm: FieldMap, selfLookups: set<string>, mb: Ledger, m: Ledger)
    requires forall l :: l in selfLookups ==> l in fm && o in fm[l].referenceTo
    requires forall l :: l in selfLookups ==> IdsOf(WithIdIn(held, l, ExtractedFor(mb, fm[l].referenceTo))) <= IdsIn(m, o)
    requires IdsIn(m, o) == IdsIn(mb, o)
    ensures SelfClosed(held, selfLookups, IdsIn(m, o))
  {
    forall l | l in selfLookups ensures IdsOf(WithIdIn(held, l, IdsIn(m, o))) <= IdsIn(m, o) {
      assert IdsIn(mb, o) <= ExtractedFor(mb, fm[l].referenceTo);
      WithIdInGrows(held, l, IdsIn(mb, o), ExtractedFor(mb, fm[l].referenceTo));
    }
  }

  /**
   * The extracted ids of an object grow within the ids the org holds, so
   * a round that changes their count brings the loop closer to its end,
   * and one that does not leaves them as they were.
   */
  lemma RoundProgress(before: set<SalesforceId>, after: set<SalesforceId>, held: set<SalesforceId>)
    requires before <= after <= held
    ensures |after| <= |held|
    ensures |before| == |after| ==> before == after
    ensures |before| != |after| ==> |held| - |after| < |held| - |before|
  {
    assert after == before + (after - before);
    assert held == after + (held - after);
    if |before| == |after| {
      assert after - before == {};
    }
  }

  /**
   * The outcome of one round of the self-lookup loop, from the ledger
   * before it (`mb`), after its lookup passes (`mm`) and after its
   * dependency pass (`m`).
   */
  lemma RoundOutcome(o: string, held: seq<Record>, heldIds: set<SalesforceId>, fm: FieldMap, selfLookups: set<string>,
                     mb: Ledger, errs0: seq<Error>, mm: Ledger, errs1: seq<Error>, m: Ledger, errs2: seq<Error>)
    requires forall l :: l in selfLookups ==> l in fm && o in fm[l].referenceTo
    requires Looked(o, held, fm, selfLookups, {}, mb, errs0, mm, errs1)
    requires Grown(mm, m) && errs1 <= errs2 && IdsIn(m, o) <= heldIds
    ensures Grown(mb, m) && errs0 <= errs2
    ensures 0 <= |heldIds| - |IdsIn(m, o)|
    ensures |IdsIn(mb, o)| != |IdsIn(m, o)| ==> |heldIds| - |IdsIn(m, o)| < |heldIds| - |IdsIn(mb, o)|
    ensures |IdsIn(mb, o)| == |IdsIn(m, o)| ==> SelfClosed(held, selfLookups, IdsIn(m, o))
  {
    GrownTrans(mb, mm, m);
    assert IdsIn(mb, o) <= IdsIn(m, o) && IdsIn(mm, o) <= IdsIn(m, o);
    RoundProgress(IdsIn(mb, o), IdsIn(m, o), heldIds);
    if |IdsIn(mb, o)| == |IdsIn(m, o)| {
      ClosedAtFixedPoint(o, held, fm, selfLookups, mb, m);
    }
  }

  /**
   * The ids `pre` required of object `o` when its dependency pass started
   * are dealt with: those the org holds (`heldIds`) are extracted, and the
   * others are reported, all of them in one error among those added since
   * `errs0`.
   */
  predicate DependenciesMet(o: string, pre: set<SalesforceId>, heldIds: set<SalesforceId>, extracted: set<SalesforceId>,
                            errs0: seq<Error>, errs: seq<Error>) {
    && pre * heldIds <= extracted && errs0 <= errs
    && (pre - heldIds != {} ==> UnresolvedDependencies(o, Texts(pre - heldIds)) in errs[|errs0|..])
  }

  /** What holds of the errors added since `errs1` holds of those added since an earlier `errs0`. */
  lemma DependenciesMetSince(o: string, pre: set<SalesforceId>, heldIds: set<SalesforceId>, extracted: set<SalesforceId>,
                             errs0: seq<Error>, errs1: seq<Error>, errs: seq<Error>)
    requires DependenciesMet(o, pre, heldIds, extracted, errs1, errs) && errs0 <= errs1
    ensures DependenciesMet(o, pre, heldIds, extracted, errs0, errs)
  {
    if pre - heldIds != {} {
      var k :| |errs1| <= k < |errs| && errs[k] == UnresolvedDependencies(o, Texts(pre - heldIds));
      assert errs[k] == errs[|errs0|..][k - |errs0|];
    }
  }

  /**
   * What the dependency pass of object `o` leaves behind, however the run
   * goes on: the ids it extracted stay extracted, and the error reporting
   * the ids it found missing stays among the errors.
   */
  /**
   * What the dependency pass of object `o` did, from the errors `errs0`
   * before it to `errs1` after it: the ids `pre` required when it started
   * that the org holds are extracted, and if any others remain, one error
   * reporting all of them comes last.
   */
  predicate DependencyPassed(o: string, pre: set<SalesforceId>, heldIds: set<SalesforceId>, x1: set<SalesforceId>,
                             errs0: seq<Error>, errs1: seq<Error>) {
    && pre * heldIds <= x1
    && (pre - heldIds != {} ==>
          && errs1 != [] && errs1[|errs1| - 1] == UnresolvedDependencies(o, Texts(pre - heldIds))
          && errs0 <= errs1[..|errs1| - 1])
    && (pre - heldIds == {} ==> errs0 <= errs1)
  }

  /**
   * How the dependency pass over the ids `pre` ends, from extracted ids
   * `x0` and errors `errs0` to `x` and `errs`: the ids `missing` are those
   * of `pre` the org does not hold, the others are extracted, the missing
   * ones are reported in one error, appended last, exactly when there are
   * any, and every other error added is an outside reference.
   */
  predicate MissingOut(o: string, pre: set<SalesforceId>, heldIds: set<SalesforceId>, x0: set<SalesforceId>, x: set<SalesforceId>,
                       errs0: seq<Error>, errs: seq<Error>, missing: set<SalesforceId>) {
    && missing == pre - heldIds && x == x0 + pre * heldIds
    && (missing != {} ==> errs != [] && errs[|errs| - 1] == UnresolvedDependencies(o, Texts(missing)))
    && (missing != {} ==> OutsideAppended(errs0, errs[..|errs| - 1]))
    && (missing == {} ==> OutsideAppended(errs0, errs))
    && DependencyPassed(o, pre, heldIds, x, errs0, errs)
  }

  /** Appending the error for the ids `missing`, when there are any, to errors `errs1` ends the pass. */
  lemma MissingReported(o: string, pre: set<SalesforceId>, heldIds: set<SalesforceId>, x0: set<SalesforceId>, x: set<SalesforceId>,
                        errs0: seq<Error>, errs1: seq<Error>, missing: set<SalesforceId>, errs: seq<Error>)
    requires missing == pre - heldIds && x == x0 + pre * heldIds && OutsideAppended(errs0, errs1)
    requires errs == errs1 + if missing == {} then [] else [UnresolvedDependencies(o, Texts(missing))]
    ensures MissingOut(o, pre, heldIds, x0, x, errs0, errs, missing)
  {
    if missing != {} {
      assert errs[..|errs| - 1] == errs1;
    }
  }

  lemma DependencyPassLasts(o: string, pre: set<SalesforceId>, heldIds: set<SalesforceId>,
                            x1: set<SalesforceId>, x2: set<SalesforceId>, errs0: seq<Error>, errs1: seq<Error>, errs2: seq<Error>)
    requires DependencyPassed(o, pre, heldIds, x1, errs0, errs1)
    requires x1 <= x2 && errs1 <= errs2
    ensures DependenciesMet(o, pre, heldIds, x2, errs0, errs2)
  {
    if pre - heldIds != {} {
      assert errs2[|errs1| - 1] == errs1[|errs1| - 1];
      assert errs2[|errs1| - 1] == errs2[|errs0|..][|errs1| - 1 - |errs0|];
    }
  }

  /**
   * What the scope branch of `execute` extracts for object `o`, starting
   * from the ledger `m0`: for a step of a query, every record its WHERE
   * clause selects; for a step of descendents, every record whose
   * descendent lookup points at a record extracted, at the start, for one
   * of the lookup's targets.
   */
  predicate ScopeExtracted(o: string, held: seq<Record>, fm: FieldMap, scope: ExtractionScope, where: Record -> bool,
                           descendent: set<string>, m0: Ledger, m: Ledger) {
    && (scope == QueryScope ==> IdsOf(Selected(held, where)) <= IdsIn(m, o))
    && (scope == Descendents ==>
          descendent <= fm.Keys &&
          forall f :: f in descendent ==> IdsOf(WithIdIn(held, f, ExtractedFor(m0, fm[f].referenceTo))) <= IdsIn(m, o))
  }

  /** What is extracted stays extracted. */
  lemma ScopeExtractedGrows(o: string, held: seq<Record>, fm: FieldMap, scope: ExtractionScope, where: Record -> bool,
                            descendent: set<string>, m0: Ledger, m: Ledger, m': Ledger)
    requires ScopeExtracted(o, held, fm, scope, where, descendent, m0, m) && Grown(m, m')
    ensures ScopeExtracted(o, held, fm, scope, where, descendent, m0, m')
  {
    GrownAt(m, m', o);
  }

  /** The row written for a record of object `o`: the record, renamed and transformed by the object's mapper if it has one. */
  function RowFor(mappers: map<string, DataMapper>, o: string, rec: Record, order: seq<string>): Record
    requires forall k :: k in rec ==> k in order
  {
    if o in mappers then TransformRecord(mappers[o], rec, order) else rec
  }

  /** No two records of `recs` carry the same id, as no two records of a Salesforce object do. */
  predicate SingleIds(recs: seq<Record>) {
    forall r, r' {:trigger SameId(r, r')} :: r in recs && r' in recs && SameId(r, r') ==> r == r'
  }

  /** `r` and `r'` carry the same id. */
  predicate SameId(r: Record, r': Record) {
    "Id" in r && "Id" in r' && r["Id"] == r'["Id"]
  }

  /** What the passes of a step change: the two ledgers, the output files and the step's errors. */
  datatype RunState = RunState(required: Ledger, extracted: Ledger, files: map<string, seq<Record>>, errors: seq<Error>)

  /**
   * From state `s0` to state `s` the run only grew: errors were appended,
   * ids extracted, rows appended to the output file of object `o`, and no
   * other object lost a required id. Every other object's extracted ids
   * and output file are as they were (`OthersKept`).
   */
  ghost predicate Extended(o: string, s0: RunState, s: RunState) {
    && s0.errors <= s.errors && Grown(s0.extracted, s.extracted)
    && (forall x :: x in s0.required && x != o ==> s0.required[x] <= IdsIn(s.required, x))
    && RecordsOf(s0.files, o) <= RecordsOf(s.files, o)
    && OthersKept(o, s0, s)
  }

  /** Only object `o` had ids extracted or rows written from `s0` to `s`; the same objects have output files. */
  ghost predicate OthersKept(o: string, s0: RunState, s: RunState) {
    && s.files.Keys == s0.files.Keys
    && forall x :: x != o ==> IdsIn(s.extracted, x) == IdsIn(s0.extracted, x) && RecordsOf(s.files, x) == RecordsOf(s0.files, x)
  }

  /** A step that made progress touched no other object's extracted ids or output file. */
  lemma OthersKeptBy(v: StepView, s0: RunState, s: RunState)
    requires ViewOk(v) && Progress(v, s0, s)
    ensures OthersKept(v.name, s0, s)
  {
  }

  lemma ExtendedTrans(o: string, s0: RunState, s1: RunState, s2: RunState)
    requires Extended(o, s0, s1) && Extended(o, s1, s2)
    ensures Extended(o, s0, s2)
  {
    GrownTrans(s0.extracted, s1.extracted, s2.extracted);
  }

  /** The errors added since `errs0` include those added since `errs0` or since a later `errs1`. */
  lemma AddedSince(errs0: seq<Error>, errs1: seq<Error>, errs2: seq<Error>)
    requires errs0 <= errs1 <= errs2
    ensures Elems(errs1[|errs0|..]) <= Elems(errs2[|errs0|..]) && Elems(errs2[|errs1|..]) <= Elems(errs2[|errs0|..])
  {
    assert errs2[|errs0|..] == errs1[|errs0|..] + errs2[|errs1|..];
  }

  /**
   * What the passes of a step read and never change: the step's object,
   * fields and lookup policy, and the operation's describe data of the
   * object, key prefixes, objects, the records the org holds for the
   * object, and mappers.
   */
  datatype StepView = StepView(name: string, fieldScope: seq<string>, lk: Lookups, overrides: map<string, LookupBehavior>,
                               selfDefault: SelfLookupBehavior, outsideDefault: OutsideLookupBehavior, fieldMap: FieldMap,
                               keyPrefixes: map<string, string>, sobjects: seq<string>, held: seq<Record>,
                               mappers: map<string, DataMapper>)

  /** The step is scanned, its object is one of the operation's, and no two of the object's records share an id. */
  predicate ViewOk(v: StepView) {
    v.name in v.sobjects && LookupsOk(v.lk, Elems(v.fieldScope), v.fieldMap) && SingleIds(v.held)
  }

  /** A record the org holds for the step's object, in the form the engine expects. */
  predicate Held(v: StepView, rec: Record) {
    rec in v.held && rec.Keys == Elems(v.fieldScope) && RecordOk(rec, Elems(v.fieldScope), v.fieldMap, v.keyPrefixes)
  }

  /** The descendent lookups of `rec` that reference a record outside the run, against the extracted ids `m`. */
  function FlaggedUnder(v: StepView, m: Ledger, rec: Record): set<string>
    requires ViewOk(v) && Held(v, rec)
  {
    OkRecordFits(rec, v.lk, Elems(v.fieldScope), v.fieldMap, v.keyPrefixes);
    CrossReferences(v.lk.descendent, v.fieldMap, v.keyPrefixes, m, rec)
  }

  /** The ids the lookups of `rec` register on object `x`, if not yet extracted there. */
  function RegistersOn(v: StepView, rec: Record, x: string): set<SalesforceId>
    requires ViewOk(v) && Held(v, rec)
  {
    OkRecordFits(rec, v.lk, Elems(v.fieldScope), v.fieldMap, v.keyPrefixes);
    Registered(v.name, v.lk, v.overrides, v.selfDefault, v.fieldMap, v.keyPrefixes, v.sobjects, rec, x)
  }

  /** The ledger of required ids `req` once `rec` has registered its lookups against the extracted ids `m`. */
  function LedgerUnder(v: StepView, req: Ledger, m: Ledger, rec: Record): Ledger
    requires ViewOk(v) && Held(v, rec)
  {
    OkRecordFits(rec, v.lk, Elems(v.fieldScope), v.fieldMap, v.keyPrefixes);
    Registration(req, m, v.name, v.lk, v.overrides, v.selfDefault, v.fieldMap, v.keyPrefixes, v.sobjects, rec)
  }

  /** What is left of `rec`, stored against the extracted ids `m`, once the policy has dropped its outside references. */
  function KeptUnder(v: StepView, m: Ledger, rec: Record): Record
    requires ViewOk(v) && Held(v, rec)
  {
    Remove(rec, Dropped(FlaggedUnder(v, m, rec), v.overrides, v.outsideDefault))
  }

  /** The row written for `rec` when it is stored against the extracted ids `m`: what the policy keeps of it. */
  function KeptRow(v: StepView, m: Ledger, rec: Record): Record
    requires ViewOk(v) && Held(v, rec)
  {
    RowFor(v.mappers, v.name, KeptUnder(v, m, rec), v.fieldScope)
  }

  /** The errors the policy reports when `rec` is stored against the extracted ids `m`. */
  function ReportedUnder(v: StepView, m: Ledger, rec: Record): set<Error>
    requires ViewOk(v) && Held(v, rec)
  {
    OutsideErrors(v.name, rec, Raised(FlaggedUnder(v, m, rec), v.overrides, v.outsideDefault))
  }

  /** `rec` was stored against the extracted ids `m`: its reported errors are among `added`, its row among `rows`. */
  predicate StoredAgainst(v: StepView, m: Ledger, rec: Record, added: set<Error>, rows: seq<Record>)
    requires ViewOk(v) && Held(v, rec)
  {
    ReportedUnder(v, m, rec) <= added && KeptRow(v, m, rec) in rows
  }

  /**
   * `rec` was stored against the extracted ids as they stood at some
   * point from `m0` to `m`, with its errors among `added` and its row
   * among `rows`.
   */
  ghost predicate StoredBetween(v: StepView, m0: Ledger, m: Ledger, rec: Record, added: set<Error>, rows: seq<Record>)
    requires ViewOk(v) && Held(v, rec)
  {
    exists mt :: Grown(m0, mt) && Grown(mt, m) && StoredAgainst(v, mt, rec, added, rows)
  }

  /** The ids `rec` registers on each other object are required (`req`) or extracted (`m`) there. */
  ghost predicate RegistersKept(v: StepView, rec: Record, req: Ledger, m: Ledger)
    requires ViewOk(v) && Held(v, rec)
  {
    forall x {:trigger RegistersOn(v, rec, x)} :: x != v.name ==> RegistersOn(v, rec, x) <= IdsIn(req, x) + IdsIn(m, x)
  }

  /** `rec` is a record of the step's object whose id is extracted in `m` and not in `m0`. */
  predicate Newly(v: StepView, m0: Ledger, m: Ledger, rec: Record) {
    Held(v, rec) && IdOf(rec["Id"]) in IdsIn(m, v.name) - IdsIn(m0, v.name)
  }

  /**
   * What `ExamineResult` computes for a record the step holds, in the
   * step's terms: the ledger it registers, the record it keeps, and the
   * errors it reports, appended to `errs0` as outside references.
   */
  lemma Examined(v: StepView, req: Ledger, m: Ledger, rec: Record, required: Ledger, out: Record, raised: seq<Error>,
                 errs0: seq<Error>)
    requires ViewOk(v) && Held(v, rec) && Fits(rec, v.lk, v.fieldMap, v.keyPrefixes)
    requires required == Registration(req, m, v.name, v.lk, v.overrides, v.selfDefault, v.fieldMap, v.keyPrefixes, v.sobjects, rec)
    requires var flagged := CrossReferences(v.lk.descendent, v.fieldMap, v.keyPrefixes, m, rec);
             && out == Remove(rec, Dropped(flagged, v.overrides, v.outsideDefault))
             && NoRepeats(raised)
             && Elems(raised) == OutsideErrors(v.name, rec, Raised(flagged, v.overrides, v.outsideDefault))
    ensures required == LedgerUnder(v, req, m, rec) && out == KeptUnder(v, m, rec)
    ensures var errs := errs0 + raised;
            && |errs| >= |errs0| && errs[..|errs0|] == errs0 && NoRepeats(errs[|errs0|..])
            && Elems(errs[|errs0|..]) == ReportedUnder(v, m, rec) && OutsideAppended(errs0, errs)
  {
    var errs := errs0 + raised;
    assert errs[|errs0|..] == raised && errs[..|errs0|] == errs0;
    ReportedAreOutside(v.name, rec, Raised(FlaggedUnder(v, m, rec), v.overrides, v.outsideDefault), errs0, errs);
  }

  /**
   * Every record of the step's object whose id was extracted between `s0`
   * and `s` was stored against the extracted ids as they stood at some
   * point in between, and the ids it registers on other objects are
   * required or extracted there.
   */
  ghost predicate Treated(v: StepView, s0: RunState, s: RunState)
    requires ViewOk(v)
  {
    && s0.errors <= s.errors
    && forall r {:trigger Newly(v, s0.extracted, s.extracted, r)} :: Newly(v, s0.extracted, s.extracted, r) ==>
         StoredBetween(v, s0.extracted, s.extracted, r, Elems(s.errors[|s0.errors|..]), RecordsOf(s.files, v.name)) &&
         RegistersKept(v, r, s.required, s.extracted)
  }

  /**
   * What the step did from state `s0` to state `s`: the run only grew
   * (`Extended`), and every record of the object whose id was extracted on
   * the way was stored as `store_result` stores it (`Treated`).
   */
  ghost predicate Progress(v: StepView, s0: RunState, s: RunState)
    requires ViewOk(v)
  {
    Extended(v.name, s0, s) && Treated(v, s0, s)
  }

  /** A step that changed nothing made progress. */
  lemma ProgressNone(v: StepView, s: RunState)
    requires ViewOk(v)
    ensures Progress(v, s, s)
  {
  }

  /** Progress from `s0` to `s1` and from `s1` to `s2` is progress from `s0` to `s2`. */
  lemma ProgressTrans(v: StepView, s0: RunState, s1: RunState, s2: RunState)
    requires ViewOk(v) && Progress(v, s0, s1) && Progress(v, s1, s2)
    ensures Progress(v, s0, s2)
  {
    var o := v.name;
    ExtendedTrans(o, s0, s1, s2);
    AddedSince(s0.errors, s1.errors, s2.errors);
    var added1, added2 := Elems(s1.errors[|s0.errors|..]), Elems(s2.errors[|s0.errors|..]);
    forall r | Newly(v, s0.extracted, s2.extracted, r)
      ensures StoredBetween(v, s0.extracted, s2.extracted, r, added2, RecordsOf(s2.files, o))
      ensures RegistersKept(v, r, s2.required, s2.extracted)
    {
      if IdOf(r["Id"]) in IdsIn(s1.extracted, o) {
        assert Newly(v, s0.extracted, s1.extracted, r);
        var m :| Grown(s0.extracted, m) && Grown(m, s1.extracted) && StoredAgainst(v, m, r, added1, RecordsOf(s1.files, o));
        GrownTrans(m, s1.extracted, s2.extracted);
        StoredAgainstLasts(v, m, r, added1, RecordsOf(s1.files, o), added2, RecordsOf(s2.files, o));
        forall x | x != o ensures RegistersOn(v, r, x) <= IdsIn(s2.required, x) + IdsIn(s2.extracted, x) {
          GrownAt(s1.extracted, s2.extracted, x);
        }
      } else {
        assert Newly(v, s1.extracted, s2.extracted, r);
        var m :| Grown(s1.extracted, m) && Grown(m, s2.extracted) &&
                 StoredAgainst(v, m, r, Elems(s2.errors[|s1.errors|..]), RecordsOf(s2.files, o));
        GrownTrans(s0.extracted, s1.extracted, m);
        StoredAgainstLasts(v, m, r, Elems(s2.errors[|s1.errors|..]), RecordsOf(s2.files, o), added2, RecordsOf(s2.files, o));
      }
    }
  }

  /** Errors appended after a stretch of progress leave it progress. */
  lemma ProgressMoreErrors(v: StepView, s0: RunState, s: RunState, errs: seq<Error>)
    requires ViewOk(v) && Progress(v, s0, s) && s.errors <= errs
    ensures Progress(v, s0, s.(errors := errs))
  {
    ProgressTrans(v, s0, s, s.(errors := errs));
  }

  /**
   * An outside reference under ERROR becomes an error of the step: when a
   * record of the step's object is extracted between `s0` and `s`, and its
   * descendent lookup `f` holds an id that, at `s`, is still not extracted
   * for its target, the outside-reference error naming the record and `f`
   * is among the errors added since `s0`.
   */
  lemma {:induction false} OutsideReferenceReported(v: StepView, s0: RunState, s: RunState, rec: Record, f: string)
    requires ViewOk(v) && Progress(v, s0, s) && Newly(v, s0.extracted, s.extracted, rec)
    requires f in v.lk.descendent && rec[f].Text?
    requires OutsideBehaviorFor(v.overrides, v.outsideDefault, f) == Outside(RaiseError)
    requires IdOf(rec[f]) !in IdsIn(s.extracted, DescendentTarget(v.fieldMap[f], v.keyPrefixes, rec[f].s))
    ensures OutsideError(v.name, rec, f) in Elems(s.errors[|s0.errors|..])
  {
    var added, rows := Elems(s.errors[|s0.errors|..]), RecordsOf(s.files, v.name);
    assert StoredBetween(v, s0.extracted, s.extracted, rec, added, rows);
    var mt :| Grown(s0.extracted, mt) && Grown(mt, s.extracted) && StoredAgainst(v, mt, rec, added, rows);
    GrownAt(mt, s.extracted, DescendentTarget(v.fieldMap[f], v.keyPrefixes, rec[f].s));
    assert f in FlaggedUnder(v, mt, rec);
  }

  /** A record stored stays stored as errors and rows are appended. */
  lemma StoredAgainstLasts(v: StepView, m: Ledger, rec: Record, added: set<Error>, rows: seq<Record>,
                           added': set<Error>, rows': seq<Record>)
    requires ViewOk(v) && Held(v, rec) && StoredAgainst(v, m, rec, added, rows) && added <= added' && rows <= rows'
    ensures StoredAgainst(v, m, rec, added', rows')
  {
    var k :| 0 <= k < |rows| && rows[k] == KeptRow(v, m, rec);
    assert rows'[k] == rows[k];
  }

  /**
   * `store_result` took the run from `s` to `s'` storing `rec`: its id is
   * extracted and no longer required, its lookups registered, its row
   * written if the id is new, and its reported errors appended; no other
   * object has ids extracted.
   */
  predicate StoreStep(v: StepView, rec: Record, s: RunState, s': RunState)
    requires ViewOk(v) && Held(v, rec)
  {
    && v.name in s.files
    && s'.extracted == s.extracted[v.name := IdsIn(s.extracted, v.name) + {IdOf(rec["Id"])}]
    && IdsIn(s'.extracted, v.name) == IdsIn(s.extracted, v.name) + {IdOf(rec["Id"])} && Grown(s.extracted, s'.extracted)
    && s'.required == Satisfied(LedgerUnder(v, s.required, s.extracted, rec), v.name, IdOf(rec["Id"]))
    && (IdOf(rec["Id"]) !in IdsIn(s.extracted, v.name) ==>
          s'.files == s.files[v.name := s.files[v.name] + [KeptRow(v, s.extracted, rec)]])
    && (IdOf(rec["Id"]) in IdsIn(s.extracted, v.name) ==> s'.files == s.files)
    && s.errors <= s'.errors && Elems(s'.errors[|s.errors|..]) == ReportedUnder(v, s.extracted, rec)
  }

  /** The first `i` records of `recs` were stored from state `s0` on, giving state `s`. */
  ghost predicate StoredSoFar(v: StepView, recs: seq<Record>, i: nat, s0: RunState, s: RunState)
    requires ViewOk(v)
  {
    && Stored(recs, i, v.name, s0.extracted, IdsIn(s0.required, v.name), s0.errors, s.extracted, IdsIn(s.required, v.name), s.errors)
    && Progress(v, s0, s)
  }

  /** Storing the next record of `recs` carries `StoredSoFar` one record further. */
  lemma StoreAdvances(v: StepView, recs: seq<Record>, i: nat, s0: RunState, s: RunState, s': RunState)
    requires ViewOk(v) && i < |recs| && Held(v, recs[i]) && StoredSoFar(v, recs, i, s0, s)
    requires StoreStep(v, recs[i], s, s') && OutsideAppended(s.errors, s'.errors)
    ensures StoredSoFar(v, recs, i + 1, s0, s')
  {
    OkRecordFits(recs[i], v.lk, Elems(v.fieldScope), v.fieldMap, v.keyPrefixes);
    RegistrationIds(s.required, s.extracted, v.name, v.lk, v.overrides, v.selfDefault, v.fieldMap, v.keyPrefixes, v.sobjects,
                    recs[i], v.name);
    StoredStep(recs, i, v.name, s0.extracted, IdsIn(s0.required, v.name), s0.errors, s.extracted, IdsIn(s.required, v.name), s.errors,
               s'.extracted, IdsIn(s'.required, v.name), s'.errors);
    StoreProgress(v, recs[i], s, s');
    ProgressTrans(v, s0, s, s');
  }

  /**
   * Storing one record is progress: what `StoreResult` ensures, written
   * against the state `s` before it and `s'` after it.
   */
  lemma StoreProgress(v: StepView, rec: Record, s: RunState, s': RunState)
    requires ViewOk(v) && Held(v, rec) && StoreStep(v, rec, s, s')
    ensures Progress(v, s, s')
  {
    StoreRegisters(v, rec, s.required, s.extracted, s'.required, s'.extracted);
    StoreExtends(v, rec, s, s');
    StoreTreats(v, rec, s, s');
  }

  /** The part of `StoreProgress` about the run state: it only grows. */
  lemma StoreExtends(v: StepView, rec: Record, s: RunState, s': RunState)
    requires ViewOk(v) && Held(v, rec) && StoreStep(v, rec, s, s')
    requires forall x :: x in s.required && x != v.name ==> s.required[x] <= IdsIn(s'.required, x)
    ensures Extended(v.name, s, s')
  {
    StoreKeepsOthers(v.name, IdsIn(s.extracted, v.name) + {IdOf(rec["Id"])}, s.files[v.name] + [KeptRow(v, s.extracted, rec)], s, s');
  }

  /** Storing a record of object `o` touches no other object's extracted ids or output file. */
  lemma StoreKeepsOthers(o: string, ids: set<SalesforceId>, rows: seq<Record>, s: RunState, s': RunState)
    requires o in s.files && s'.extracted == s.extracted[o := ids]
    requires s'.files == s.files || s'.files == s.files[o := rows]
    ensures OthersKept(o, s, s')
  {
  }

  /** The part of `StoreProgress` about the record: if its id is new, it was stored. */
  lemma StoreTreats(v: StepView, rec: Record, s: RunState, s': RunState)
    requires ViewOk(v) && Held(v, rec) && StoreStep(v, rec, s, s') && RegistersKept(v, rec, s'.required, s'.extracted)
    ensures Treated(v, s, s')
  {
    var o := v.name;
    if IdOf(rec["Id"]) !in IdsIn(s.extracted, o) {
      assert s'.files[o][|s.files[o]|] == KeptRow(v, s.extracted, rec);
      StoredOnce(v, rec, s, s');
    } else {
      assert IdsIn(s'.extracted, o) - IdsIn(s.extracted, o) == {};
    }
  }

  /**
   * The ids `rec` registers on another object when it is stored are
   * required or extracted there afterwards, and no id required there stops
   * being so.
   */
  lemma StoreRegisters(v: StepView, rec: Record, req: Ledger, m: Ledger, req': Ledger, m': Ledger)
    requires ViewOk(v) && Held(v, rec) && Grown(m, m')
    requires req' == Satisfied(LedgerUnder(v, req, m, rec), v.name, IdOf(rec["Id"]))
    ensures forall x :: x in req && x != v.name ==> req[x] <= IdsIn(req', x)
    ensures RegistersKept(v, rec, req', m')
  {
    OkRecordFits(rec, v.lk, Elems(v.fieldScope), v.fieldMap, v.keyPrefixes);
    forall x | x != v.name
      ensures IdsIn(req, x) <= IdsIn(req', x) && RegistersOn(v, rec, x) <= IdsIn(req', x) + IdsIn(m', x)
    {
      RegistrationIds(req, m, v.name, v.lk, v.overrides, v.selfDefault, v.fieldMap, v.keyPrefixes, v.sobjects, rec, x);
      GrownAt(m, m', x);
    }
  }

  /**
   * A record whose id is new when it is stored in state `s` is the only
   * record of the object newly extracted, so what holds of it is what the
   * step did.
   */
  lemma StoredOnce(v: StepView, rec: Record, s: RunState, s': RunState)
    requires ViewOk(v) && Held(v, rec) && s.errors <= s'.errors
    requires IdsIn(s'.extracted, v.name) == IdsIn(s.extracted, v.name) + {IdOf(rec["Id"])}
    requires StoredAgainst(v, s.extracted, rec, Elems(s'.errors[|s.errors|..]), RecordsOf(s'.files, v.name))
    requires Grown(s.extracted, s'.extracted) && RegistersKept(v, rec, s'.required, s'.extracted)
    ensures Treated(v, s, s')
  {
    forall r | Newly(v, s.extracted, s'.extracted, r)
      ensures StoredBetween(v, s.extracted, s'.extracted, r, Elems(s'.errors[|s.errors|..]), RecordsOf(s'.files, v.name))
      ensures RegistersKept(v, r, s'.required, s'.extracted)
    {
      assert SameId(r, rec);
      assert Grown(s.extracted, s.extracted);
    }
  }

  class ExtractionStep {
    const objectName: string
    const scope: ExtractionScope
    /** The fields extracted, in the order of the output columns. */
    const fieldScope: seq<string>
    /** The step's WHERE clause, as the condition it selects records by. */
    const where: Record -> bool
    const selfLookupBehavior: SelfLookupBehavior
    const outsideLookupBehavior: OutsideLookupBehavior
    /** Per-field overrides of either kind. */
    var lookupBehaviors: map<string, LookupBehavior>
    var lookups: Lookups
    var errors: seq<Error>
    /** The operation the step runs in. */
    const context: ExtractOperation

    constructor (context: ExtractOperation, objectName: string, scope: ExtractionScope, fieldScope: seq<string>, where: Record -> bool,
                 selfLookupBehavior: SelfLookupBehavior, outsideLookupBehavior: OutsideLookupBehavior)
      ensures this.objectName == objectName && this.scope == scope && this.fieldScope == fieldScope && this.where == where
      ensures this.selfLookupBehavior == selfLookupBehavior && this.outsideLookupBehavior == outsideLookupBehavior
      ensures lookupBehaviors == map[] && lookups == NoLookups && errors == [] && this.context == context
    {
      this.objectName := objectName;
      this.scope := scope;
      this.fieldScope := fieldScope;
      this.where := where;
      this.selfLookupBehavior := selfLookupBehavior;
      this.outsideLookupBehavior := outsideLookupBehavior;
      lookupBehaviors := map[];
      lookups := NoLookups;
      errors := [];
      this.context := context;
    }

    /**
     * `set_lookup_behavior_for_field`: the field now follows `b`, under
     * whichever of the two lookups to the field it is consulted for; every
     * other field is as before.
     */
    method SetLookupBehaviorForField(field: string, b: LookupBehavior)
      modifies this`lookupBehaviors
      ensures SelfBehaviorFor(lookupBehaviors, selfLookupBehavior, field) == b
      ensures OutsideBehaviorFor(lookupBehaviors, outsideLookupBehavior, field) == b
      ensures forall f :: f != field ==>
                && SelfBehaviorFor(lookupBehaviors, selfLookupBehavior, f) == old(SelfBehaviorFor(lookupBehaviors, selfLookupBehavior, f))
                && OutsideBehaviorFor(lookupBehaviors, outsideLookupBehavior, f) == old(OutsideBehaviorFor(lookupBehaviors, outsideLookupBehavior, f))
      ensures lookupBehaviors == old(lookupBehaviors)[field := b]
    {
      lookupBehaviors := lookupBehaviors[field := b];
    }

    /** The step belongs to an operation set up for it, which lists its object. */
    predicate Configured()
      reads context`steps
    {
      && context.Configured(objectName, fieldScope)
      && objectName in ObjectNames(context.steps)
    }

    /** `scan_fields`: the step's lookups, classified against the operation's objects. */
    method ScanFields()
      requires Configured()
      modifies this`lookups
      ensures lookups == Schema.ScanFields(objectName, Elems(fieldScope), context.fieldMaps[objectName], ObjectNames(context.steps))
      ensures LookupsOk(lookups, Elems(fieldScope), context.fieldMaps[objectName])
    {
      lookups := Schema.ScanFields(objectName, Elems(fieldScope), context.fieldMaps[objectName], ObjectNames(context.steps));
    }

    /** Configured, with its lookups scanned. */
    predicate Scanned()
      reads this`lookups, context`steps
    {
      && context.Configured(objectName, fieldScope)
      && objectName in ObjectNames(context.steps)
      && LookupsOk(lookups, Elems(fieldScope), context.fieldMaps[objectName])
    }

    /** Scanned, with its output file open. */
    predicate Ready()
      reads this`lookups, context`steps, context`outputFiles
    {
      && context.Configured(objectName, fieldScope)
      && objectName in ObjectNames(context.steps)
      && LookupsOk(lookups, Elems(fieldScope), context.fieldMaps[objectName])
      && objectName in context.outputFiles
    }

    /** A record the org holds for the step's object, in the form the engine expects. */
    predicate Fetched(rec: Record)
    {
      && objectName in context.fieldMaps && rec in context.StoreOf(objectName)
      && rec.Keys == Elems(fieldScope) && RecordOk(rec, Elems(fieldScope), context.fieldMaps[objectName], context.keyPrefixes)
    }

    /** The run as the passes of the step see it. */
    function Now(): RunState
      reads this`errors, context`requiredIds, context`extractedIds, context`outputFiles
    {
      RunState(context.requiredIds, context.extractedIds, context.outputFiles, errors)
    }

    /** What the passes of the step read and never change. */
    function View(): StepView
      reads this`lookups, this`lookupBehaviors, context`steps
    {
      StepView(objectName, fieldScope, lookups, lookupBehaviors, selfLookupBehavior, outsideLookupBehavior,
               if objectName in context.fieldMaps then context.fieldMaps[objectName] else map[], context.keyPrefixes, ObjectNames(context.steps), context.StoreOf(objectName),
               context.mappers)
    }

    /**
     * The loops of `store_result` that run before the record is stored: the
     * record's traced self lookups and its dependent lookups make their ids
     * required, except the ids already extracted; of its descendent lookups
     * that are outside references, those the policy drops leave the record
     * and those it refuses are reported, each once.
     */
    method RegisterResult(rec: Record) returns (out: Record)
      requires Ready() && context.Valid() && Fetched(rec)
      modifies this`errors, context`requiredIds
      ensures Ready() && context.Valid()
      ensures context.requiredIds == old(LedgerUnder(View(), context.requiredIds, context.extractedIds, rec))
      ensures out == old(KeptUnder(View(), context.extractedIds, rec))
      ensures "Id" in out && out["Id"] == rec["Id"] && out.Keys <= rec.Keys
      ensures |errors| >= |old(errors)| && errors[..|old(errors)|] == old(errors) && NoRepeats(errors[|old(errors)|..])
      ensures Elems(errors[|old(errors)|..]) == old(ReportedUnder(View(), context.extractedIds, rec))
      ensures OutsideAppended(old(errors), errors)
    {
      var fm := context.fieldMaps[objectName];
      OkRecordFits(rec, lookups, Elems(fieldScope), fm, context.keyPrefixes);
      var required, raised;
      required, out, raised := ExamineResult(context.requiredIds, context.extractedIds, objectName, lookups, lookupBehaviors,
                                             selfLookupBehavior, outsideLookupBehavior, fm, context.keyPrefixes,
                                             ObjectNames(context.steps), rec);
      Examined(View(), context.requiredIds, context.extractedIds, rec, required, out, raised, errors);
      errors, context.requiredIds := errors + raised, required;
    }

    /**
     * `store_result`: the record registers its lookups, its outside
     * references are dropped or reported, each reported one once, and the
     * operation stores what is left of it, so that its id is extracted and
     * no longer required, and a row is written for it unless its id was
     * extracted before.
     */
    method StoreResult(rec: Record)
      requires Ready() && context.Valid() && Fetched(rec)
      modifies this`errors, context`requiredIds, context`extractedIds, context`outputFiles
      ensures Ready() && context.Valid()
      ensures OutsideAppended(old(errors), errors) && NoRepeats(errors[|old(errors)|..])
      ensures StoreStep(old(View()), rec, old(Now()), Now())
    {
      var out := RegisterResult(rec);
      context.StoreResult(objectName, out, fieldScope);
    }

    /** One turn of the loop of `StoreResults`: the next record is stored. */
    method StoreNext(recs: seq<Record>, i: nat, ghost v: StepView, ghost s0: RunState)
      requires Ready() && context.Valid() && View() == v && i < |recs| && Fetched(recs[i])
      requires StoredSoFar(v, recs, i, s0, Now())
      modifies this`errors, context`requiredIds, context`extractedIds, context`outputFiles
      ensures Ready() && context.Valid() && View() == v
      ensures StoredSoFar(v, recs, i + 1, s0, Now())
    {
      ghost var s := Now();
      StoreResult(recs[i]);
      StoreAdvances(v, recs, i, s0, s, Now());
    }

    /**
     * The loop of `perform_bulk_api_pass` and `perform_id_field_pass` over
     * the records of one answer: each is stored in turn, so the ids of all
     * of them are extracted, and no id still required before stays so
     * unless it is one of theirs.
     */
    method StoreResults(recs: seq<Record>)
      requires Ready() && context.Valid() && forall r :: r in recs ==> Fetched(r)
      modifies this`errors, context`requiredIds, context`extractedIds, context`outputFiles
      ensures Ready() && context.Valid()
      ensures context.GetExtractedIds(objectName) == old(context.GetExtractedIds(objectName)) + IdsOf(recs)
      ensures Grown(old(context.extractedIds), context.extractedIds)
      ensures old(context.GetDependencies(objectName)) - IdsOf(recs) <= context.GetDependencies(objectName)
      ensures OutsideAppended(old(errors), errors)
      ensures View() == old(View()) && Progress(old(View()), old(Now()), Now())
    {
      ghost var s0, v := Now(), View();
      ProgressNone(v, s0);
      var i := 0;
      while i < |recs|
        invariant 0 <= i <= |recs|
        invariant Ready() && context.Valid() && View() == v
        invariant StoredSoFar(v, recs, i, s0, Now())
      {
        StoreNext(recs, i, v, s0);
        i := i + 1;
      }
      StoredLast(recs, objectName, s0.extracted, IdsIn(s0.required, objectName), s0.errors,
                 context.extractedIds, context.GetDependencies(objectName), errors);
    }

    /** The records of an answer drawn from the org's records of the object are ones the engine can process. */
    lemma AnswerFetched(recs: seq<Record>)
      requires context.Configured(objectName, fieldScope)
      requires forall r :: r in recs ==> r in context.StoreOf(objectName)
      ensures forall r :: r in recs ==> Fetched(r)
    {
      forall r | r in recs ensures Fetched(r) {
        RecordsOkAt(context.StoreOf(objectName), Elems(fieldScope), context.fieldMaps[objectName], context.keyPrefixes, r);
      }
    }

    /**
     * One round of the outer loop of `perform_id_field_pass`: a batch is
     * taken from `ids`, queried, and every record found is stored.
     */
    method FetchBatch(field: string, ids: set<SalesforceId>, maxLen: int)
      returns (batch: seq<SalesforceId>, inList: string, rest: set<SalesforceId>)
      requires Ready() && context.Valid() && ids != {}
      modifies this`errors, context`requiredIds, context`extractedIds, context`outputFiles, context`queries
      ensures Ready() && context.Valid()
      ensures Batching(ids, maxLen, batch, inList, rest)
      ensures context.queries == old(context.queries) + [IdQuery(objectName, field, batch, inList)]
      ensures Gathered(objectName, IdsOf(WithIdIn(context.StoreOf(objectName), field, Elems(batch))),
                       old(context.extractedIds), old(context.GetDependencies(objectName)), old(errors),
                       context.extractedIds, context.GetDependencies(objectName), errors)
      ensures View() == old(View()) && Progress(old(View()), old(Now()), Now())
    {
      batch, inList, rest := NextBatch(ids, maxLen);
      var recs := context.QueryAll(objectName, field, batch, inList);
      AnswerFetched(recs);
      StoreResults(recs);
    }

    /**
     * `perform_id_field_pass`: the ids of `idSet` are queried by `field` in
     * batches whose IN-list keeps within the budget of the WHERE clause,
     * each id in exactly one batch, and every record found is stored. No
     * query is sent for an empty set.
     */
    method PerformIdFieldPass(field: string, idSet: set<SalesforceId>)
      requires Ready() && context.Valid()
      modifies this`errors, context`requiredIds, context`extractedIds, context`outputFiles, context`queries
      ensures Ready() && context.Valid()
      ensures old(context.queries) <= context.queries
      ensures IdPass(context.queries[|old(context.queries)|..], objectName, field, idSet, MaxListLength(fieldScope))
      ensures idSet == {} ==> context.queries == old(context.queries)
      ensures Gathered(objectName, IdsOf(WithIdIn(context.StoreOf(objectName), field, idSet)),
                       old(context.extractedIds), old(context.GetDependencies(objectName)), old(errors),
                       context.extractedIds, context.GetDependencies(objectName), errors)
      ensures View() == old(View()) && Progress(old(View()), old(Now()), Now())
    {
      if idSet == {} {
        WithIdInNone(context.StoreOf(objectName), field);
        ProgressNone(View(), Now());
      } else {
        FetchBatches(field, idSet);
      }
    }

    /** The loop of `perform_id_field_pass` over the batches of a non-empty id set. */
    method FetchBatches(field: string, idSet: set<SalesforceId>)
      requires Ready() && context.Valid() && idSet != {}
      modifies this`errors, context`requiredIds, context`extractedIds, context`outputFiles, context`queries
      ensures Ready() && context.Valid()
      ensures old(context.queries) <= context.queries
      ensures IdPass(context.queries[|old(context.queries)|..], objectName, field, idSet, MaxListLength(fieldScope))
      ensures Gathered(objectName, IdsOf(WithIdIn(context.StoreOf(objectName), field, idSet)),
                       old(context.extractedIds), old(context.GetDependencies(objectName)), old(errors),
                       context.extractedIds, context.GetDependencies(objectName), errors)
      ensures View() == old(View()) && Progress(old(View()), old(Now()), Now())
    {
      ghost var q0, m0, d0, errs0 := context.queries, context.extractedIds, context.GetDependencies(objectName), errors;
      ghost var held := context.StoreOf(objectName);
      ghost var calls: seq<QueryCall> := [];
      ghost var s0, v := Now(), View();
      ProgressNone(v, s0);
      var ids := idSet;
      var maxLen := MaxListLength(fieldScope);
      WithIdInNone(held, field);
      while ids != {}
        invariant Ready() && context.Valid() && View() == v && Progress(v, s0, Now())
        invariant Passing(q0, calls, context.queries, objectName, field, idSet, ids, maxLen, held,
                          m0, d0, errs0, context.extractedIds, context.GetDependencies(objectName), errors)
        decreases |ids|
      {
        ghost var q, m, d, errs := context.queries, context.extractedIds, context.GetDependencies(objectName), errors;
        ghost var s := Now();
        var batch, inList, rest := FetchBatch(field, ids, maxLen);
        ProgressTrans(v, s0, s, Now());
        PassingStep(q0, calls, q, objectName, field, idSet, ids, maxLen, held, m0, d0, errs0, m, d, errs,
                    batch, inList, rest, context.queries, context.extractedIds, context.GetDependencies(objectName), errors);
        calls := calls + [IdQuery(objectName, field, batch, inList)];
        ids := rest;
      }
      PassingLast(q0, calls, context.queries, objectName, field, idSet, maxLen, held,
                  m0, d0, errs0, context.extractedIds, context.GetDependencies(objectName), errors);
    }

    /**
     * `resolve_registered_dependencies`: the ids required for the object
     * are queried by `Id`. The ids it reports missing are those of them the
     * org does not hold, and they are reported in one error, appended
     * last, exactly when there are any; the ids the org holds are extracted.
     */
    method ResolveRegisteredDependencies() returns (missing: set<SalesforceId>)
      requires Ready() && context.Valid()
      modifies this`errors, context`requiredIds, context`extractedIds, context`outputFiles, context`queries
      ensures Ready() && context.Valid()
      ensures missing == old(context.GetDependencies(objectName)) - context.StoreIds(objectName)
      ensures missing <= context.GetDependencies(objectName)
      ensures context.GetExtractedIds(objectName) ==
              old(context.GetExtractedIds(objectName)) + old(context.GetDependencies(objectName)) * context.StoreIds(objectName)
      ensures missing != {} ==> errors != [] && errors[|errors| - 1] == UnresolvedDependencies(objectName, Texts(missing))
      ensures missing != {} ==> OutsideAppended(old(errors), errors[..|errors| - 1])
      ensures missing == {} ==> OutsideAppended(old(errors), errors)
      ensures DependencyPassed(objectName, old(context.GetDependencies(objectName)), context.StoreIds(objectName),
                               context.GetExtractedIds(objectName), old(errors), errors)
      ensures Progress(old(View()), old(Now()), Now())
    {
      var pre := context.GetDependencies(objectName);
      PerformIdFieldPass("Id", pre);
      missing := ReportUnresolved(pre, old(context.extractedIds), old(errors), old(View()), old(Now()));
    }

    /**
     * The end of `resolve_registered_dependencies`, once the id pass over
     * the ids `pre` has run from extracted ids `m0` and errors `errs0`:
     * the ids of `pre` still required are the missing ones, and they are
     * reported in one error when there are any.
     */
    method ReportUnresolved(pre: set<SalesforceId>, ghost m0: Ledger, ghost errs0: seq<Error>, ghost v: StepView, ghost s0: RunState)
      returns (missing: set<SalesforceId>)
      requires ViewOk(v) && Progress(v, s0, Now()) && Disjoint(context.requiredIds, context.extractedIds)
      requires Gathered(objectName, IdsOf(WithIdIn(context.StoreOf(objectName), "Id", pre)),
                        m0, pre, errs0, context.extractedIds, context.GetDependencies(objectName), errors)
      modifies this`errors
      ensures missing <= context.GetDependencies(objectName)
      ensures MissingOut(objectName, pre, context.StoreIds(objectName), IdsIn(m0, objectName), context.GetExtractedIds(objectName),
                         errs0, errors, missing)
      ensures Progress(v, s0, Now())
    {
      missing := context.GetDependencies(objectName) * pre;
      Unresolved(objectName, context.StoreOf(objectName), pre, m0, errs0, context.requiredIds, context.extractedIds, errors);
      ghost var errs1 := errors;
      ReportMissing(missing, v, s0);
      MissingReported(objectName, pre, context.StoreIds(objectName), IdsIn(m0, objectName), context.GetExtractedIds(objectName),
                      errs0, errs1, missing, errors);
    }

    /** The error listing the ids `missing`, appended when there are any. */
    method ReportMissing(missing: set<SalesforceId>, ghost v: StepView, ghost s0: RunState)
      requires ViewOk(v) && Progress(v, s0, Now())
      modifies this`errors
      ensures Progress(v, s0, Now())
      ensures errors == old(errors) + if missing == {} then [] else [UnresolvedDependencies(objectName, Texts(missing))]
    {
      ghost var s1 := Now();
      if missing != {} {
        errors := errors + [UnresolvedDependencies(objectName, Texts(missing))];
      }
      ProgressMoreErrors(v, s0, s1, errors);
    }

    /**
     * `perform_lookup_pass`: an id pass by the lookup field over the ids
     * extracted so far for any of the field's targets.
     */
    method PerformLookupPass(field: string)
      requires Ready() && context.Valid() && field in context.fieldMaps[objectName]
      modifies this`errors, context`requiredIds, context`extractedIds, context`outputFiles, context`queries
      ensures Ready() && context.Valid()
      ensures old(context.queries) <= context.queries
      ensures IdPass(context.queries[|old(context.queries)|..], objectName, field,
                     old(ExtractedFor(context.extractedIds, context.fieldMaps[objectName][field].referenceTo)), MaxListLength(fieldScope))
      ensures Gathered(objectName, IdsOf(WithIdIn(context.StoreOf(objectName), field,
                                                  old(ExtractedFor(context.extractedIds, context.fieldMaps[objectName][field].referenceTo)))),
                       old(context.extractedIds), old(context.GetDependencies(objectName)), old(errors),
                       context.extractedIds, context.GetDependencies(objectName), errors)
      ensures View() == old(View()) && Progress(old(View()), old(Now()), Now())
    {
      var ids := context.GetSObjectIdsForReference(objectName, field);
      PerformIdFieldPass(field, ids);
    }

    /**
     * `perform_bulk_api_pass`: one bulk query of the object, with the
     * step's WHERE clause when `filtered`, and every record it returns
     * stored.
     */
    method PerformBulkApiPass(filtered: bool)
      requires Ready() && context.Valid()
      modifies this`errors, context`requiredIds, context`extractedIds, context`outputFiles, context`queries
      ensures Ready() && context.Valid()
      ensures context.queries == old(context.queries) + [BulkQuery(objectName, filtered)]
      ensures Gathered(objectName, IdsOf(if filtered then Selected(context.StoreOf(objectName), where) else context.StoreOf(objectName)),
                       old(context.extractedIds), old(context.GetDependencies(objectName)), old(errors),
                       context.extractedIds, context.GetDependencies(objectName), errors)
      ensures View() == old(View()) && Progress(old(View()), old(Now()), Now())
    {
      var recs := context.Query(objectName, if filtered then Some(where) else None);
      AnswerFetched(recs);
      StoreResults(recs);
    }

    /**
     * The loop `for f in fields: self.perform_lookup_pass(f)`: for each
     * field, the records whose field points at an id extracted, at the
     * start, for one of its targets end up extracted.
     */
    method LookupPasses(fields: set<string>)
      requires Ready() && context.Valid() && fields <= lookups.all
      modifies this`errors, context`requiredIds, context`extractedIds, context`outputFiles, context`queries
      ensures Ready() && context.Valid()
      ensures Looked(objectName, context.StoreOf(objectName), context.fieldMaps[objectName], fields, {},
                     old(context.extractedIds), old(errors), context.extractedIds, errors)
      ensures old(context.GetDependencies(objectName)) <= context.GetDependencies(objectName) + context.GetExtractedIds(objectName)
      ensures View() == old(View()) && Progress(old(View()), old(Now()), Now())
    {
      ghost var m0, errs0 := context.extractedIds, errors;
      ghost var d0 := context.GetDependencies(objectName);
      ghost var held, fm := context.StoreOf(objectName), context.fieldMaps[objectName];
      ghost var s0, v := Now(), View();
      ProgressNone(v, s0);
      var todo := fields;
      while todo != {}
        invariant Ready() && context.Valid() && View() == v && Progress(v, s0, Now())
        invariant Looked(objectName, held, fm, fields, todo, m0, errs0, context.extractedIds, errors)
        invariant d0 <= context.GetDependencies(objectName) + context.GetExtractedIds(objectName)
        decreases |todo|
      {
        var f :| f in todo;
        LookupNext(f, fields, todo, m0, errs0, d0, held, fm, v, s0);
        todo := todo - {f};
      }
    }

    /** One turn of the loop of `LookupPasses`: the lookup pass by field `f`. */
    method LookupNext(f: string, fields: set<string>, todo: set<string>, ghost m0: Ledger, ghost errs0: seq<Error>,
                      ghost d0: set<SalesforceId>, ghost held: seq<Record>, ghost fm: FieldMap, ghost v: StepView, ghost s0: RunState)
      requires Ready() && context.Valid() && View() == v && Progress(v, s0, Now()) && f in todo
      requires held == context.StoreOf(objectName) && fm == context.fieldMaps[objectName] && fields <= lookups.all
      requires Looked(objectName, held, fm, fields, todo, m0, errs0, context.extractedIds, errors)
      requires d0 <= context.GetDependencies(objectName) + context.GetExtractedIds(objectName)
      modifies this`errors, context`requiredIds, context`extractedIds, context`outputFiles, context`queries
      ensures Ready() && context.Valid() && View() == v && Progress(v, s0, Now())
      ensures held == context.StoreOf(objectName) && fm == context.fieldMaps[objectName]
      ensures Looked(objectName, held, fm, fields, todo - {f}, m0, errs0, context.extractedIds, errors)
      ensures d0 <= context.GetDependencies(objectName) + context.GetExtractedIds(objectName)
    {
      ghost var m, d, errs := context.extractedIds, context.GetDependencies(objectName), errors;
      ghost var s := Now();
      PerformLookupPass(f);
      ProgressTrans(v, s0, s, Now());
      GrownAt(m, context.extractedIds, objectName);
      LookedStep(objectName, held, fm, fields, todo, f, m0, errs0, m, d, errs,
                 context.extractedIds, context.GetDependencies(objectName), errors);
    }

    /**
     * One round of the self-lookup loop of `execute`: lookup passes over
     * the self lookups, then a dependency pass. The round reports whether
     * the count of extracted records changed. If it did, more of the
     * finitely many records the org holds are extracted; if not, the self
     * lookups are closed over the extracted records.
     */
    method SelfLookupRound() returns (grew: bool)
      requires Ready() && context.Valid()
      requires forall l :: l in lookups.selfLookups ==> objectName in context.fieldMaps[objectName][l].referenceTo
      modifies this`errors, context`requiredIds, context`extractedIds, context`outputFiles, context`queries
      ensures Ready() && context.Valid()
      ensures Grown(old(context.extractedIds), context.extractedIds) && old(errors) <= errors
      ensures 0 <= |context.StoreIds(objectName)| - |context.GetExtractedIds(objectName)|
      ensures grew ==> |context.StoreIds(objectName)| - |context.GetExtractedIds(objectName)| <
                       |context.StoreIds(objectName)| - old(|context.GetExtractedIds(objectName)|)
      ensures !grew ==> SelfClosed(context.StoreOf(objectName), lookups.selfLookups, context.GetExtractedIds(objectName))
      ensures View() == old(View()) && Progress(old(View()), old(Now()), Now())
    {
      ghost var mb, errs0 := context.extractedIds, errors;
      var before := |context.GetExtractedIds(objectName)|;
      LookupPasses(lookups.selfLookups);
      ghost var mm, errs1 := context.extractedIds, errors;
      ghost var s1 := Now();
      var _ := ResolveRegisteredDependencies();
      ProgressTrans(View(), old(Now()), s1, Now());
      WithinAt(context.extractedIds, context.store, objectName);
      RoundOutcome(objectName, context.StoreOf(objectName), context.StoreIds(objectName), context.fieldMaps[objectName],
                   lookups.selfLookups, mb, errs0, mm, errs1, context.extractedIds, errors);
      var after := |context.GetExtractedIds(objectName)|;
      grew := before != after;
    }

    /**
     * The self-lookup loop of `execute`: rounds until one extracts no new
     * record. It ends, since each further round extracts at least one more
     * of the finitely many records the org holds, and then the self lookups
     * are closed over the extracted records.
     */
    method TraceSelfLookups()
      requires Ready() && context.Valid()
      requires forall l :: l in lookups.selfLookups ==> objectName in context.fieldMaps[objectName][l].referenceTo
      modifies this`errors, context`requiredIds, context`extractedIds, context`outputFiles, context`queries
      ensures Ready() && context.Valid()
      ensures SelfClosed(context.StoreOf(objectName), lookups.selfLookups, context.GetExtractedIds(objectName))
      ensures Grown(old(context.extractedIds), context.extractedIds) && old(errors) <= errors
      ensures View() == old(View()) && Progress(old(View()), old(Now()), Now())
    {
      ghost var m0, errs0 := context.extractedIds, errors;
      ghost var s0, v := Now(), View();
      ProgressNone(v, s0);
      while true
        invariant Ready() && context.Valid() && Grown(m0, context.extractedIds) && errs0 <= errors
        invariant View() == v && Progress(v, s0, Now())
        decreases |context.StoreIds(objectName)| - |context.GetExtractedIds(objectName)|
      {
        ghost var m := context.extractedIds;
        ghost var s := Now();
        var grew := SelfLookupRound();
        ProgressTrans(v, s0, s, Now());
        GrownTrans(m0, m, context.extractedIds);
        if !grew {
          break;
        }
      }
    }

    /**
     * The scope branch of `execute` for a step other than one of all
     * records: a step of a query sends the bulk query with its WHERE
     * clause, a step of descendents makes a lookup pass per descendent
     * lookup, and a step of selected records does nothing here.
     */
    method ScopePass()
      requires Ready() && context.Valid() && scope != AllRecords
      modifies this`errors, context`requiredIds, context`extractedIds, context`outputFiles, context`queries
      ensures Ready() && context.Valid()
      ensures Grown(old(context.extractedIds), context.extractedIds) && old(errors) <= errors
      ensures ScopeExtracted(objectName, context.StoreOf(objectName), context.fieldMaps[objectName], scope, where,
                             lookups.descendent, old(context.extractedIds), context.extractedIds)
      ensures old(context.GetDependencies(objectName)) <= context.GetDependencies(objectName) + context.GetExtractedIds(objectName)
      ensures View() == old(View()) && Progress(old(View()), old(Now()), Now())
    {
      if scope == QueryScope {
        PerformBulkApiPass(true);
      } else if scope == Descendents {
        LookupPasses(lookups.descendent);
      } else {
        ProgressNone(View(), Now());
      }
    }

    /** The self-lookup loop, run when the step traces all self lookups and has some. */
    method TraceWhenAll()
      requires Ready() && context.Valid() && scope != AllRecords
      requires forall l :: l in lookups.selfLookups ==> objectName in context.fieldMaps[objectName][l].referenceTo
      modifies this`errors, context`requiredIds, context`extractedIds, context`outputFiles, context`queries
      ensures Ready() && context.Valid()
      ensures Grown(old(context.extractedIds), context.extractedIds) && old(errors) <= errors
      ensures lookups.selfLookups != {} && selfLookupBehavior == TraceAll ==>
                SelfClosed(context.StoreOf(objectName), lookups.selfLookups, context.GetExtractedIds(objectName))
      ensures View() == old(View()) && Progress(old(View()), old(Now()), Now())
    {
      if |lookups.selfLookups| > 0 && selfLookupBehavior == TraceAll && scope != AllRecords {
        TraceSelfLookups();
      } else {
        ProgressNone(View(), Now());
      }
    }

    /**
     * The tail of `execute` for a step other than one of all records: the
     * dependency pass, then, when the step traces all self lookups and has
     * some, the self-lookup loop.
     */
    method ResolveAndTrace()
      requires Ready() && context.Valid() && scope != AllRecords
      requires forall l :: l in lookups.selfLookups ==> objectName in context.fieldMaps[objectName][l].referenceTo
      modifies this`errors, context`requiredIds, context`extractedIds, context`outputFiles, context`queries
      ensures Ready() && context.Valid()
      ensures Grown(old(context.extractedIds), context.extractedIds) && old(errors) <= errors
      ensures lookups.selfLookups != {} && selfLookupBehavior == TraceAll ==>
                SelfClosed(context.StoreOf(objectName), lookups.selfLookups, context.GetExtractedIds(objectName))
      ensures DependenciesMet(objectName, old(context.GetDependencies(objectName)), context.StoreIds(objectName),
                              context.GetExtractedIds(objectName), old(errors), errors)
      ensures View() == old(View()) && Progress(old(View()), old(Now()), Now())
    {
      ghost var m0, errs0 := context.extractedIds, errors;
      ghost var pre, heldIds := context.GetDependencies(objectName), context.StoreIds(objectName);
      var missing := ResolveRegisteredDependencies();
      ghost var m1, errs1 := context.extractedIds, errors;
      ghost var s1 := Now();
      TraceWhenAll();
      ProgressTrans(View(), old(Now()), s1, Now());
      GrownTrans(m0, m1, context.extractedIds);
      GrownAt(m1, context.extractedIds, objectName);
      DependencyPassLasts(objectName, pre, heldIds, IdsIn(m1, objectName), context.GetExtractedIds(objectName), errs0, errs1, errors);
    }

    /**
     * `execute`: the step scans its lookups, then extracts by its scope. A
     * step of all records sends one bulk query and stops there. Otherwise
     * the scope branch runs, then every step resolves its registered
     * dependencies and, when it traces all self lookups and has some, runs
     * the self-lookup loop to its fixed point.
     */
    method Execute() returns (ghost pending: set<SalesforceId>)
      requires Configured() && context.Valid() && objectName in context.outputFiles
      modifies this`lookups, this`errors, context`requiredIds, context`extractedIds, context`outputFiles, context`queries
      ensures Ready() && context.Valid()
      ensures lookups == Schema.ScanFields(objectName, Elems(fieldScope), context.fieldMaps[objectName], ObjectNames(context.steps))
      ensures Grown(old(context.extractedIds), context.extractedIds) && old(errors) <= errors
      ensures scope == AllRecords ==> context.queries == old(context.queries) + [BulkQuery(objectName, false)]
      ensures scope == AllRecords ==>
                context.GetExtractedIds(objectName) == old(context.GetExtractedIds(objectName)) + context.StoreIds(objectName)
      ensures scope != AllRecords ==>
                ScopeExtracted(objectName, context.StoreOf(objectName), context.fieldMaps[objectName], scope, where,
                               lookups.descendent, old(context.extractedIds), context.extractedIds)
      ensures scope != AllRecords && lookups.selfLookups != {} && selfLookupBehavior == TraceAll ==>
                SelfClosed(context.StoreOf(objectName), lookups.selfLookups, context.GetExtractedIds(objectName))
      ensures scope != AllRecords ==>
                && old(context.GetDependencies(objectName)) <= pending + context.GetExtractedIds(objectName)
                && DependenciesMet(objectName, pending, context.StoreIds(objectName), context.GetExtractedIds(objectName),
                                   old(errors), errors)
      ensures scope != AllRecords ==>
                old(context.GetDependencies(objectName)) * context.StoreIds(objectName) <= context.GetExtractedIds(objectName)
      ensures Progress(View(), old(Now()), Now())
    {
      pending := {};
      ScanFields();
      if scope == AllRecords {
        PerformBulkApiPass(false);
        return;
      }
      ghost var m0, errs0 := context.extractedIds, errors;
      ghost var s0 := Now();
      ScopePass();
      ghost var m1, errs1 := context.extractedIds, errors;
      ghost var s1 := Now();
      pending := context.GetDependencies(objectName);
      ResolveAndTrace();
      ProgressTrans(View(), s0, s1, Now());
      GrownAt(m1, context.extractedIds, objectName);
      DependenciesMetSince(objectName, pending, context.StoreIds(objectName), context.GetExtractedIds(objectName), errs0, errs1, errors);
      ScopeExtractedGrows(objectName, context.StoreOf(objectName), context.fieldMaps[objectName], scope, where,
                          lookups.descendent, m0, m1, context.extractedIds);
      GrownTrans(m0, m1, context.extractedIds);
    }
  }
}
