/**
 * The per-record rules of the extraction engine: which ids a record
 * registers as dependencies, which descendent lookups are outside
 * references and what the outside-lookup policy does with them, and the
 * IN-list an id query is built from. All of it is pure; the ledger it reads
 * is passed as a map from object name to id set.
 */
module ExtractRecords {
  import opened Common
  import opened Ids
  import opened Schema

  /** An id set per object: `required_ids` or `extracted_ids`. */
  type Ledger = map<string, set<SalesforceId>>

  /** `get_dependencies` / `get_extracted_ids`: the object's set, empty when it has none. */
  function IdsIn(m: Ledger, o: string): (ids: set<SalesforceId>)
    ensures o in m ==> ids == m[o]
    ensures o !in m ==> ids == {}
  {
    if o in m then m[o] else {}
  }

  /** The form in which the server returns ids: 18 characters, no white space. */
  predicate LongId(s: string) {
    |s| == 18 && forall i :: 0 <= i < |s| ==> !IsSpace(s[i])
  }

  /** `SalesforceId` keeps an id in the server's form as it is. */
  lemma LongIdParses(s: string)
    requires LongId(s)
    ensures FromString(s) == Ok(SalesforceId(s))
  {
    assert !IsSpace(s[0]) && !IsSpace(s[17]);
    StripUnchanged(s);
    var r := FromString(s);
    assert r.Ok?;
    assert r.value.id == r.value.id[..18] == s;
  }

  /** `SalesforceId(v)` for a value in the server's form (see `LongIdParses`). */
  function IdOf(v: Val): SalesforceId
    requires v.Text?
  {
    SalesforceId(v.s)
  }

  // ---------------------------------------------------------------------
  // Lookup behaviours. The step keeps overrides of both kinds in one
  // dictionary and reads it for both questions.

  /** `get_self_lookup_behavior_for_field`: the override if there is one, else the step's default. */
  function SelfBehaviorFor(overrides: map<string, LookupBehavior>, default: SelfLookupBehavior, f: string): LookupBehavior {
    if f in overrides then overrides[f] else Self(default)
  }

  /** `get_outside_lookup_behavior_for_field`: the override if there is one, else the step's default. */
  function OutsideBehaviorFor(overrides: map<string, LookupBehavior>, default: OutsideLookupBehavior, f: string): LookupBehavior {
    if f in overrides then overrides[f] else Outside(default)
  }

  /** A self lookup is traced unless its behaviour is `TRACE_NONE`. */
  predicate Traced(b: LookupBehavior) {
    b != Self(TraceNone)
  }

  /**
   * An override takes precedence over the default for both questions, and
   * an override of one kind answers the other question too: an
   * outside-lookup override makes a self lookup traced, and a self-lookup
   * override makes an outside reference neither dropped, nor kept by
   * INCLUDE, nor an error.
   */
  lemma SharedOverrides(overrides: map<string, LookupBehavior>, ds: SelfLookupBehavior, dout: OutsideLookupBehavior,
                        f: string, b: LookupBehavior)
    ensures SelfBehaviorFor(overrides[f := b], ds, f) == b && OutsideBehaviorFor(overrides[f := b], dout, f) == b
    ensures b.Outside? ==> Traced(SelfBehaviorFor(overrides[f := b], ds, f))
    ensures b.Self? ==> !OutsideBehaviorFor(overrides[f := b], dout, f).Outside?
    ensures f !in overrides ==> SelfBehaviorFor(overrides, ds, f) == Self(ds) && OutsideBehaviorFor(overrides, dout, f) == Outside(dout)
  {
  }

  // ---------------------------------------------------------------------
  // What a record needs for the rules below to apply.

  /**
   * The step's lookup groups are drawn from the fields the record carries,
   * each lookup has a target, the record has an `Id`, and every non-null
   * lookup value has a key prefix the operation knows.
   */
  predicate Fits(rec: Record, lk: Lookups, fieldMap: FieldMap, keyPrefixes: map<string, string>) {
    && "Id" in rec && rec["Id"].Text?
    && lk.selfLookups <= lk.all && lk.descendent <= lk.all && lk.dependent <= lk.all
    && lk.all <= rec.Keys && lk.all <= fieldMap.Keys
    && (forall f :: f in lk.all ==> |fieldMap[f].referenceTo| > 0)
    && (forall f :: f in lk.all && rec[f].Text? ==> KeyPrefix(rec[f].s) in keyPrefixes)
  }

  // ---------------------------------------------------------------------
  // Dependencies a record registers.

  /** The ids the record's self lookups register: those traced and not null. */
  function SelfDependencies(selfLookups: set<string>, overrides: map<string, LookupBehavior>, default: SelfLookupBehavior,
                            rec: Record): set<SalesforceId>
    requires selfLookups <= rec.Keys
  {
    set f | f in selfLookups && Traced(SelfBehaviorFor(overrides, default, f)) && rec[f].Text? :: IdOf(rec[f])
  }

  /**
   * The object a dependent lookup holding `s` registers a dependency on: a
   * single-target field's target; for a polymorphic field, the object the
   * key prefix names, unless that object is not extracted or comes before
   * the step's own object.
   */
  function DependentTarget(fd: FieldDescriptor, keyPrefixes: map<string, string>, sobjects: seq<string>,
                           name: string, s: string): (t: Option<string>)
    requires |fd.referenceTo| > 0 && name in sobjects
    requires |fd.referenceTo| > 1 ==> KeyPrefix(s) in keyPrefixes
    ensures |fd.referenceTo| == 1 ==> t == Some(fd.referenceTo[0])
    ensures |fd.referenceTo| > 1 && t.Some? ==>
              t.value == ObjectForId(keyPrefixes, s) && t.value in sobjects && IndexOf(sobjects, t.value) >= IndexOf(sobjects, name)
    ensures |fd.referenceTo| > 1 && t.None? ==>
              var o := ObjectForId(keyPrefixes, s); o !in sobjects || IndexOf(sobjects, o) < IndexOf(sobjects, name)
  {
    if |fd.referenceTo| > 1 then
      var o := ObjectForId(keyPrefixes, s);
      if o !in sobjects then None
      else if IndexOf(sobjects, o) < IndexOf(sobjects, name) then None
      else Some(o)
    else Some(fd.referenceTo[0])
  }

  /**
   * A dependency is registered only on an object extracted no earlier than
   * the step's own: with each object listed once, a dependent lookup's
   * target sits at or after the step's object, so its step has not yet run
   * or is the running one.
   */
  lemma DependenciesPointDown(name: string, scope: set<string>, fieldMap: FieldMap, sobjects: seq<string>,
                              keyPrefixes: map<string, string>, f: string, s: string)
    requires name in sobjects && scope <= fieldMap.Keys && Distinct(sobjects)
    requires f in ScanFields(name, scope, fieldMap, sobjects).dependent
    requires |fieldMap[f].referenceTo| > 1 ==> KeyPrefix(s) in keyPrefixes
    ensures |fieldMap[f].referenceTo| > 0
    ensures var t := DependentTarget(fieldMap[f], keyPrefixes, sobjects, name, s);
            t.Some? ==> t.value in sobjects && IndexOf(sobjects, t.value) >= IndexOf(sobjects, name)
  {
    var fd := fieldMap[f];
    var here := IndexOf(sobjects, name);
    var t :| t in fd.referenceTo && t in sobjects && IndexOf(sobjects, t) > here;
    if |fd.referenceTo| == 1 {
      assert t == fd.referenceTo[0];
    }
  }

  /** The ids the record's dependent lookups register on object `x`. */
  function DependentDependencies(dependent: set<string>, fieldMap: FieldMap, keyPrefixes: map<string, string>,
                                 sobjects: seq<string>, name: string, rec: Record, x: string): set<SalesforceId>
    requires name in sobjects && dependent <= rec.Keys && dependent <= fieldMap.Keys
    requires forall f :: f in dependent ==> |fieldMap[f].referenceTo| > 0
    requires forall f :: f in dependent && rec[f].Text? ==> KeyPrefix(rec[f].s) in keyPrefixes
  {
    set f | f in dependent && rec[f].Text? && DependentTarget(fieldMap[f], keyPrefixes, sobjects, name, rec[f].s) == Some(x)
          :: IdOf(rec[f])
  }

  /** Taking one more self lookup into account adds at most its own id. */
  lemma SelfDependenciesAdd(done: set<string>, l: string, overrides: map<string, LookupBehavior>, default: SelfLookupBehavior,
                            rec: Record)
    requires done <= rec.Keys && l in rec
    ensures SelfDependencies(done + {l}, overrides, default, rec) ==
            SelfDependencies(done, overrides, default, rec) +
            (if Traced(SelfBehaviorFor(overrides, default, l)) && rec[l].Text? then {IdOf(rec[l])} else {})
  {
  }

  /** Taking one more dependent lookup into account adds at most its own id, and only on its target. */
  lemma DependentDependenciesAdd(done: set<string>, f: string, fieldMap: FieldMap, keyPrefixes: map<string, string>,
                                 sobjects: seq<string>, name: string, rec: Record, x: string)
    requires name in sobjects && done + {f} <= rec.Keys && done + {f} <= fieldMap.Keys
    requires forall g :: g in done + {f} ==> |fieldMap[g].referenceTo| > 0
    requires forall g :: g in done + {f} && rec[g].Text? ==> KeyPrefix(rec[g].s) in keyPrefixes
    ensures DependentDependencies(done + {f}, fieldMap, keyPrefixes, sobjects, name, rec, x) ==
            DependentDependencies(done, fieldMap, keyPrefixes, sobjects, name, rec, x) +
            (if rec[f].Text? && DependentTarget(fieldMap[f], keyPrefixes, sobjects, name, rec[f].s) == Some(x)
             then {IdOf(rec[f])} else {})
  {
  }

  /**
   * The ids storing `rec` registers as required for object `x`, before
   * those already extracted are skipped: its traced self lookups on the
   * step's own object, and its dependent lookups on their targets.
   */
  function Registered(name: string, lk: Lookups, overrides: map<string, LookupBehavior>, default: SelfLookupBehavior,
                      fieldMap: FieldMap, keyPrefixes: map<string, string>, sobjects: seq<string>, rec: Record,
                      x: string): set<SalesforceId>
    requires name in sobjects && Fits(rec, lk, fieldMap, keyPrefixes)
  {
    (if x == name then SelfDependencies(lk.selfLookups, overrides, default, rec) else {})
    + DependentDependencies(lk.dependent, fieldMap, keyPrefixes, sobjects, name, rec, x)
  }

  /**
   * With the groups `scan_fields` builds and each object listed once, a
   * record registers ids only on its own object or on objects listed after
   * it: on objects whose steps are still to run.
   */
  lemma RegisteredPointsDown(name: string, scope: set<string>, fieldMap: FieldMap, sobjects: seq<string>,
                             keyPrefixes: map<string, string>, overrides: map<string, LookupBehavior>,
                             default: SelfLookupBehavior, rec: Record, x: string)
    requires name in sobjects && scope <= fieldMap.Keys && Distinct(sobjects)
    requires Fits(rec, ScanFields(name, scope, fieldMap, sobjects), fieldMap, keyPrefixes)
    requires Registered(name, ScanFields(name, scope, fieldMap, sobjects), overrides, default, fieldMap, keyPrefixes, sobjects, rec, x) != {}
    ensures x in sobjects && IndexOf(sobjects, x) >= IndexOf(sobjects, name)
  {
    var lk := ScanFields(name, scope, fieldMap, sobjects);
    if x != name {
      var id :| id in DependentDependencies(lk.dependent, fieldMap, keyPrefixes, sobjects, name, rec, x);
      var f :| f in lk.dependent && rec[f].Text? && DependentTarget(fieldMap[f], keyPrefixes, sobjects, name, rec[f].s) == Some(x);
      DependenciesPointDown(name, scope, fieldMap, sobjects, keyPrefixes, f, rec[f].s);
    }
  }

  // ---------------------------------------------------------------------
  // Outside references among the descendent lookups.

  /** The object a descendent lookup holding `s` points at: its one target, or the object its key prefix names. */
  function DescendentTarget(fd: FieldDescriptor, keyPrefixes: map<string, string>, s: string): string
    requires |fd.referenceTo| > 0 && KeyPrefix(s) in keyPrefixes
  {
    if |fd.referenceTo| == 1 then fd.referenceTo[0] else ObjectForId(keyPrefixes, s)
  }

  /**
   * A descendent lookup is an outside (cross-hierarchy) reference when it
   * holds an id not extracted for the object it points at. A null lookup
   * references nothing.
   */
  predicate CrossReference(fd: FieldDescriptor, keyPrefixes: map<string, string>, extracted: Ledger, v: Val)
    requires |fd.referenceTo| > 0 && (v.Text? ==> KeyPrefix(v.s) in keyPrefixes)
  {
    v.Text? && IdOf(v) !in IdsIn(extracted, DescendentTarget(fd, keyPrefixes, v.s))
  }

  /**
   * The same test as the code makes it: `None` is never among the extracted
   * ids, so a null single-target lookup counts as an outside reference, and
   * a null polymorphic lookup makes the key-prefix lookup fail (`None`
   * here).
   */
  function CrossReferenceAsWritten(fd: FieldDescriptor, keyPrefixes: map<string, string>, extracted: Ledger, v: Val): (r: Option<bool>)
    requires |fd.referenceTo| > 0 && (v.Text? ==> KeyPrefix(v.s) in keyPrefixes)
    ensures v.Text? ==> r == Some(CrossReference(fd, keyPrefixes, extracted, v))
    ensures v.Null? ==> (r.Some? <==> |fd.referenceTo| == 1) && (r.Some? ==> r.value)
  {
    if v.Null? then (if |fd.referenceTo| == 1 then Some(true) else None)
    else Some(IdOf(v) !in IdsIn(extracted, DescendentTarget(fd, keyPrefixes, v.s)))
  }

  /**
   * The two tests part only on null lookups: the code reports a null
   * single-target lookup as an outside reference (and so, under ERROR, an
   * error naming the value `None`), where no record is referenced at all.
   */
  lemma NullLookupIsOutsideAsWritten(fd: FieldDescriptor, keyPrefixes: map<string, string>, extracted: Ledger, v: Val)
    requires |fd.referenceTo| > 0 && (v.Text? ==> KeyPrefix(v.s) in keyPrefixes)
    ensures (CrossReferenceAsWritten(fd, keyPrefixes, extracted, v) == Some(CrossReference(fd, keyPrefixes, extracted, v)))
            <==> v.Text?
  {
  }

  /**
   * The concrete input: a null `AccountId` on a Contact (a single-target
   * lookup to Account) is an outside reference as written, whatever has been
   * extracted, and references nothing by the intended test.
   */
  lemma NullAccountIdIsOutsideAsWritten(keyPrefixes: map<string, string>, extracted: Ledger)
    ensures var fd := FieldDescriptor("reference", ["Account"], "tns:ID");
            CrossReferenceAsWritten(fd, keyPrefixes, extracted, Null) == Some(true)
            && !CrossReference(fd, keyPrefixes, extracted, Null)
  {
  }

  /** The descendent lookups of the record that are outside references. */
  function CrossReferences(descendent: set<string>, fieldMap: FieldMap, keyPrefixes: map<string, string>,
                           extracted: Ledger, rec: Record): (r: set<string>)
    requires descendent <= rec.Keys && descendent <= fieldMap.Keys
    requires forall f :: f in descendent ==> |fieldMap[f].referenceTo| > 0
    requires forall f :: f in descendent && rec[f].Text? ==> KeyPrefix(rec[f].s) in keyPrefixes
    ensures r <= descendent
  {
    set f | f in descendent && CrossReference(fieldMap[f], keyPrefixes, extracted, rec[f])
  }

  /** The outside references the policy drops from the record. */
  function Dropped(flagged: set<string>, overrides: map<string, LookupBehavior>, default: OutsideLookupBehavior): (r: set<string>)
    ensures r <= flagged
  {
    set f | f in flagged && OutsideBehaviorFor(overrides, default, f) == Outside(DropField)
  }

  /** The error an outside reference in field `f` is reported as. */
  function OutsideError(name: string, rec: Record, f: string): Error
    requires "Id" in rec && f in rec
  {
    OutsideReference(name, rec["Id"], f, rec[f])
  }

  /** The outside references the policy reports as errors. */
  function Raised(flagged: set<string>, overrides: map<string, LookupBehavior>, default: OutsideLookupBehavior): (r: set<string>)
    ensures r <= flagged
  {
    set f | f in flagged && OutsideBehaviorFor(overrides, default, f) == Outside(RaiseError)
  }

  /**
   * The policy on one descendent lookup `f`: the stored record keeps `f`
   * unless it is an outside reference under DROP_FIELD; an error is
   * reported exactly for an outside reference under ERROR; a lookup that
   * references an extracted record, a null one, or one under INCLUDE is
   * kept as it is.
   */
  lemma OutsidePolicy(descendent: set<string>, fieldMap: FieldMap, keyPrefixes: map<string, string>, extracted: Ledger,
                      rec: Record, overrides: map<string, LookupBehavior>, default: OutsideLookupBehavior, f: string)
    requires descendent <= rec.Keys && descendent <= fieldMap.Keys
    requires forall g :: g in descendent ==> |fieldMap[g].referenceTo| > 0
    requires forall g :: g in descendent && rec[g].Text? ==> KeyPrefix(rec[g].s) in keyPrefixes
    requires f in descendent
    ensures var flagged := CrossReferences(descendent, fieldMap, keyPrefixes, extracted, rec);
            var b := OutsideBehaviorFor(overrides, default, f);
            && (f in Remove(rec, Dropped(flagged, overrides, default)) <==>
                  !(CrossReference(fieldMap[f], keyPrefixes, extracted, rec[f]) && b == Outside(DropField)))
            && (f in Raised(flagged, overrides, default) <==>
                  CrossReference(fieldMap[f], keyPrefixes, extracted, rec[f]) && b == Outside(RaiseError))
            && (rec[f].Null? ==> f !in flagged)
  {
  }

  /**
   * Under ERROR, a descendent lookup holding an id not extracted for its
   * target is reported: storing the record adds an outside-reference error
   * naming the record and the field.
   */
  lemma UnextractedIsReported(name: string, descendent: set<string>, fieldMap: FieldMap, keyPrefixes: map<string, string>,
                              extracted: Ledger, rec: Record, f: string)
    requires descendent <= rec.Keys && descendent <= fieldMap.Keys && "Id" in rec
    requires forall g :: g in descendent ==> |fieldMap[g].referenceTo| > 0
    requires forall g :: g in descendent && rec[g].Text? ==> KeyPrefix(rec[g].s) in keyPrefixes
    requires f in descendent && rec[f].Text?
    requires IdOf(rec[f]) !in IdsIn(extracted, DescendentTarget(fieldMap[f], keyPrefixes, rec[f].s))
    ensures OutsideError(name, rec, f) in
              OutsideErrors(name, rec, Raised(CrossReferences(descendent, fieldMap, keyPrefixes, extracted, rec), map[], RaiseError))
  {
  }

  // ---------------------------------------------------------------------
  // The IN-list of an id query.

  /** `', '.join(fields)`. */
  function Join(fields: seq<string>): (r: string)
    ensures fields == [] ==> r == ""
  {
    if fields == [] then ""
    else if |fields| == 1 then fields[0]
    else Join(fields[..|fields| - 1]) + ", " + fields[|fields| - 1]
  }

  /**
   * The budget of the IN-list: a WHERE clause is at most 4000 characters,
   * less its skeleton `WHERE <fields> IN ()`.
   */
  function MaxListLength(fields: seq<string>): (n: int)
    ensures n == 4000 - (|Join(fields)| + 12)
  {
    4000 - |"WHERE " + Join(fields) + " IN ()"|
  }

  /** The quoted, comma-separated list of `ids`, in the order they were taken. */
  function InList(ids: seq<SalesforceId>): (r: string)
    ensures ids == [] ==> r == ""
    ensures (forall i :: 0 <= i < |ids| ==> |ids[i].id| == 18) && ids != [] ==> |r| == 22 * |ids| - 2
  {
    if ids == [] then ""
    else if |ids| == 1 then "'" + ids[0].id + "'"
    else InList(ids[..|ids| - 1]) + ", '" + ids[|ids| - 1].id + "'"
  }

  /** The WHERE clause of an id query by `field`. */
  function WhereClause(field: string, inList: string): string {
    "WHERE " + field + " IN (" + inList + ")"
  }

  /** Each field of the list is at most as long as the joined list. */
  lemma {:induction false} JoinCovers(fields: seq<string>, i: nat)
    requires i < |fields|
    ensures |fields[i]| <= |Join(fields)|
  {
    if |fields| > 1 && i < |fields| - 1 {
      JoinCovers(fields[..|fields| - 1], i);
    }
  }

  /**
   * The budget is taken from the whole field list, so an IN-list within it
   * keeps the WHERE clause of a query by any one of those fields under 4000
   * characters.
   */
  lemma WhereClauseFits(fields: seq<string>, field: string, inList: string)
    requires field in fields && |inList| < MaxListLength(fields)
    ensures |WhereClause(field, inList)| < 4000
  {
    var i :| 0 <= i < |fields| && fields[i] == field;
    JoinCovers(fields, i);
  }

  // ---------------------------------------------------------------------
  // The server's answers.

  /** A record of object `o` that the engine can process: its `Id` and every non-null reference in the step's scope are ids in the server's form. */
  predicate RecordOk(rec: Record, scope: set<string>, fieldMap: FieldMap, keyPrefixes: map<string, string>) {
    && "Id" in rec && rec["Id"].Text? && LongId(rec["Id"].s)
    && scope <= rec.Keys
    && forall f :: f in scope && f in fieldMap && fieldMap[f].fieldType == "reference" && rec[f].Text? ==>
         LongId(rec[f].s) && KeyPrefix(rec[f].s) in keyPrefixes
  }

  /** Every record of `recs` carries exactly the fields of `scope` and is one the engine can process. */
  predicate RecordsOk(recs: seq<Record>, scope: set<string>, fieldMap: FieldMap, keyPrefixes: map<string, string>) {
    recs == [] || (recs[0].Keys == scope && RecordOk(recs[0], scope, fieldMap, keyPrefixes) && RecordsOk(recs[1..], scope, fieldMap, keyPrefixes))
  }

  /** A record drawn from well-formed records is well formed. */
  lemma {:induction false} RecordsOkAt(recs: seq<Record>, scope: set<string>, fieldMap: FieldMap, keyPrefixes: map<string, string>, rec: Record)
    requires RecordsOk(recs, scope, fieldMap, keyPrefixes) && rec in recs
    ensures rec.Keys == scope && RecordOk(rec, scope, fieldMap, keyPrefixes)
  {
    if recs[0] != rec {
      RecordsOkAt(recs[1..], scope, fieldMap, keyPrefixes, rec);
    }
  }

  /** Records drawn from well-formed records are well formed. */
  lemma {:induction false} RecordsOkWithin(recs: seq<Record>, sub: seq<Record>, scope: set<string>, fieldMap: FieldMap,
                                           keyPrefixes: map<string, string>)
    requires RecordsOk(recs, scope, fieldMap, keyPrefixes) && forall x :: x in sub ==> x in recs
    ensures RecordsOk(sub, scope, fieldMap, keyPrefixes)
  {
    if sub != [] {
      RecordsOkAt(recs, scope, fieldMap, keyPrefixes, sub[0]);
      RecordsOkWithin(recs, sub[1..], scope, fieldMap, keyPrefixes);
    }
  }

  /** The record matches `field IN (ids)`: the field holds one of the ids. */
  predicate Matches(rec: Record, field: string, ids: set<SalesforceId>) {
    field in rec && rec[field].Text? && IdOf(rec[field]) in ids
  }

  /** `query_all` of `field IN (...)`: the records of `recs` that match, in order. */
  function WithIdIn(recs: seq<Record>, field: string, ids: set<SalesforceId>): (r: seq<Record>)
    ensures forall x :: x in r <==> x in recs && Matches(x, field, ids)
    ensures |r| <= |recs|
  {
    if recs == [] then []
    else (if Matches(recs[0], field, ids) then [recs[0]] else []) + WithIdIn(recs[1..], field, ids)
  }

  /** A bulk query with a WHERE clause: the records of `recs` the clause selects, in order. */
  function Selected(recs: seq<Record>, where: Record -> bool): (r: seq<Record>)
    ensures forall x :: x in r <==> x in recs && where(x)
    ensures |r| <= |recs|
  {
    if recs == [] then []
    else (if where(recs[0]) then [recs[0]] else []) + Selected(recs[1..], where)
  }

  /** The ids of the records of `recs` that carry one. */
  function IdsOf(recs: seq<Record>): (r: set<SalesforceId>)
    ensures forall x: Record :: x in recs && "Id" in x && x["Id"].Text? ==> IdOf(x["Id"]) in r
  {
    if recs == [] then {}
    else (if "Id" in recs[0] && recs[0]["Id"].Text? then {IdOf(recs[0]["Id"])} else {}) + IdsOf(recs[1..])
  }

  /** One more record adds its id, if it has one. */
  lemma {:induction false} IdsOfSnoc(recs: seq<Record>, r: Record)
    ensures IdsOf(recs + [r]) == IdsOf(recs) + (if "Id" in r && r["Id"].Text? then {IdOf(r["Id"])} else {})
  {
    if recs == [] {
      assert [] + [r] == [r];
    } else {
      assert (recs + [r])[1..] == recs[1..] + [r];
      IdsOfSnoc(recs[1..], r);
    }
  }

  /** The ids of a longer prefix. */
  lemma IdsOfPrefix(recs: seq<Record>, i: nat)
    requires i < |recs| && "Id" in recs[i] && recs[i]["Id"].Text?
    ensures IdsOf(recs[..i + 1]) == IdsOf(recs[..i]) + {IdOf(recs[i]["Id"])}
  {
    assert recs[..i + 1] == recs[..i] + [recs[i]];
    IdsOfSnoc(recs[..i], recs[i]);
  }

  /** The ids of two answers together. */
  lemma {:induction false} IdsOfAppend(a: seq<Record>, b: seq<Record>)
    ensures IdsOf(a + b) == IdsOf(a) + IdsOf(b)
  {
    if a != [] {
      assert (a + b)[1..] == a[1..] + b;
      IdsOfAppend(a[1..], b);
    } else {
      assert a + b == b;
    }
  }

  /** The ids of an id query's answer, one record at a time. */
  lemma WithIdInIds(recs: seq<Record>, field: string, a: set<SalesforceId>)
    requires recs != []
    ensures IdsOf(WithIdIn(recs, field, a)) ==
            IdsOf(if Matches(recs[0], field, a) then [recs[0]] else []) + IdsOf(WithIdIn(recs[1..], field, a))
  {
    IdsOfAppend(if Matches(recs[0], field, a) then [recs[0]] else [], WithIdIn(recs[1..], field, a));
  }

  /** An id query for no ids finds nothing. */
  lemma {:induction false} WithIdInNone(recs: seq<Record>, field: string)
    ensures WithIdIn(recs, field, {}) == []
  {
    if recs != [] {
      WithIdInNone(recs[1..], field);
    }
  }

  /** An id query for the union of two id sets finds the records of both. */
  lemma {:induction false} WithIdInUnion(recs: seq<Record>, field: string, a: set<SalesforceId>, b: set<SalesforceId>)
    ensures IdsOf(WithIdIn(recs, field, a + b)) == IdsOf(WithIdIn(recs, field, a)) + IdsOf(WithIdIn(recs, field, b))
  {
    if recs != [] {
      WithIdInIds(recs, field, a + b);
      WithIdInIds(recs, field, a);
      WithIdInIds(recs, field, b);
      WithIdInUnion(recs[1..], field, a, b);
    }
  }

  /** An id query for more ids finds at least the same records. */
  lemma {:induction false} WithIdInGrows(recs: seq<Record>, field: string, a: set<SalesforceId>, b: set<SalesforceId>)
    requires a <= b
    ensures IdsOf(WithIdIn(recs, field, a)) <= IdsOf(WithIdIn(recs, field, b))
  {
    if recs != [] {
      WithIdInIds(recs, field, a);
      WithIdInIds(recs, field, b);
      WithIdInGrows(recs[1..], field, a, b);
    }
  }

  /** Querying by `Id` finds exactly the requested ids that the records carry. */
  lemma {:induction false} WithIdInById(recs: seq<Record>, a: set<SalesforceId>)
    ensures IdsOf(WithIdIn(recs, "Id", a)) == IdsOf(recs) * a
  {
    if recs != [] {
      WithIdInIds(recs, "Id", a);
      WithIdInById(recs[1..], a);
    }
  }

  /** The errors reported for outside references in `fields`. */
  function OutsideErrors(name: string, rec: Record, fields: set<string>): set<Error>
    requires "Id" in rec
  {
    set f | f in fields && f in rec :: OutsideError(name, rec, f)
  }

  /**
   * What `scan_fields` guarantees of the lookup groups: each group is part
   * of `all`, and `all` holds in-scope reference fields with a target.
   */
  predicate LookupsOk(lk: Lookups, scope: set<string>, fieldMap: FieldMap) {
    && lk.selfLookups <= lk.all && lk.descendent <= lk.all && lk.dependent <= lk.all
    && lk.all <= scope && scope <= fieldMap.Keys
    && forall f :: f in lk.all ==> fieldMap[f].fieldType == "reference" && |fieldMap[f].referenceTo| > 0
  }

  /** A record the engine can process fits well-formed lookup groups. */
  lemma OkRecordFits(rec: Record, lk: Lookups, scope: set<string>, fieldMap: FieldMap, keyPrefixes: map<string, string>)
    requires RecordOk(rec, scope, fieldMap, keyPrefixes) && LookupsOk(lk, scope, fieldMap)
    ensures Fits(rec, lk, fieldMap, keyPrefixes)
  {
  }
}
