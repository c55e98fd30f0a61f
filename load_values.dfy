/**
 * The per-record functions of the load engine (`LoadStep`): lookup
 * remapping under the outside-lookup policy, value coercion for the bulk
 * channel, and the split of a record into the part inserted in the first
 * pass and the part kept for the second.
 */
module LoadRecords {
  import opened Common
  import opened Ids
  import opened Schema
  import opened Mapping

  /** The old id to new id map of a load run (`global_id_map`). */
  type IdMap = map<SalesforceId, SalesforceId>

  /** Why a lookup value could not be remapped. */
  datatype LookupFailure =
    | NotAnId(cause: ValueError)     // `SalesforceId(value)` raised `ValueError`
    | OutsideNotAllowed(error: Error) // the `AmaxaException` of the ERROR policy
    | NotAString                      // the value is `None`; `SalesforceId` calls `strip()` on it

  /** A step's outside-lookup policy: a default and per-field overrides. */
  datatype LookupPolicy = LookupPolicy(default: OutsideLookupBehavior, overrides: map<string, OutsideLookupBehavior>)

  /** `get_lookup_behavior_for_field`. */
  function BehaviorFor(p: LookupPolicy, field: string): (b: OutsideLookupBehavior)
    ensures field in p.overrides ==> b == p.overrides[field]
    ensures field !in p.overrides ==> b == p.default
  {
    if field in p.overrides then p.overrides[field] else p.default
  }

  /**
   * `get_value_for_lookup`: an empty value stays empty; a value whose id
   * has a new id becomes that new id; otherwise the behaviour decides:
   * keep the value, drop it to empty, or fail.
   */
  function GetValueForLookup(idMap: IdMap, b: OutsideLookupBehavior, objectName: string,
                             lookup: string, value: Val, recordId: Val): (r: Result<Val, LookupFailure>)
    ensures value == Text("") ==> r == Ok(Text(""))
    ensures value.Null? ==> r == Err(NotAString)
    ensures NonEmpty(value) && FromString(value.s).Err? ==> r == Err(NotAnId(InvalidId(value.s)))
    ensures NonEmpty(value) && FromString(value.s).Ok? ==>
              var id := FromString(value.s).value;
              && (id in idMap ==> r == Ok(Text(idMap[id].id)))
              && (id !in idMap && b == Include ==> r == Ok(value))
              && (id !in idMap && b == DropField ==> r == Ok(Text("")))
              && (id !in idMap && b == RaiseError ==>
                    r == Err(OutsideNotAllowed(OutsideReference(objectName, recordId, lookup, value))))
  {
    if value == Text("") then Ok(Text(""))
    else if value.Null? then Err(NotAString)
    else match FromString(value.s)
      case Err(e) => Err(NotAnId(e))
      case Ok(id) =>
        if id in idMap then Ok(Text(idMap[id].id))
        else match b
          case Include => Ok(value)
          case RaiseError => Err(OutsideNotAllowed(OutsideReference(objectName, recordId, lookup, value)))
          case DropField => Ok(Text(""))
  }

  /** The value a lookup field of `record` gets under the step's policy. */
  function Remapped(objectName: string, p: LookupPolicy, idMap: IdMap, record: Record, k: string, recordId: Val): Result<Val, LookupFailure>
    requires k in record
  {
    GetValueForLookup(idMap, BehaviorFor(p, k), objectName, k, record[k], recordId)
  }

  /** Every lookup of `record` among the first `n` keys of `order` remaps. */
  predicate RemapsBefore(objectName: string, p: LookupPolicy, idMap: IdMap, record: Record,
                         lookups: set<string>, recordId: Val, order: seq<string>, n: int)
  {
    forall j :: 0 <= j < n && j < |order| && order[j] in record && order[j] in lookups ==>
      Remapped(objectName, p, idMap, record, order[j], recordId).Ok?
  }

  /** Position `i` of `order` is the first lookup of `record` whose remapping fails, with `e`. */
  predicate FirstLookupFailureAt(objectName: string, p: LookupPolicy, idMap: IdMap, record: Record,
                                 lookups: set<string>, recordId: Val, order: seq<string>, i: int, e: LookupFailure)
  {
    && 0 <= i < |order| && order[i] in record && order[i] in lookups
    && Remapped(objectName, p, idMap, record, order[i], recordId) == Err(e)
    && RemapsBefore(objectName, p, idMap, record, lookups, recordId, order, i)
  }

  /** The first key of `order` that is a lookup of `record` whose remapping fails. */
  function FirstLookupFailure(objectName: string, p: LookupPolicy, idMap: IdMap, record: Record,
                              lookups: set<string>, recordId: Val, order: seq<string>): (r: Option<LookupFailure>)
    ensures r.None? <==> RemapsBefore(objectName, p, idMap, record, lookups, recordId, order, |order|)
    ensures r.Some? ==> exists i :: FirstLookupFailureAt(objectName, p, idMap, record, lookups, recordId, order, i, r.value)
  {
    if order == [] then None
    else
      var k := order[0];
      if k in record && k in lookups && Remapped(objectName, p, idMap, record, k, recordId).Err?
      then
        var e := Remapped(objectName, p, idMap, record, k, recordId).error;
        assert FirstLookupFailureAt(objectName, p, idMap, record, lookups, recordId, order, 0, e);
        Some(e)
      else
        var rest := FirstLookupFailure(objectName, p, idMap, record, lookups, recordId, order[1..]);
        assert forall i :: 1 <= i < |order| ==> order[i] == order[1..][i - 1];
        assert rest.Some? ==> exists i :: FirstLookupFailureAt(objectName, p, idMap, record, lookups, recordId, order, i, rest.value) by {
          if rest.Some? {
            var i :| FirstLookupFailureAt(objectName, p, idMap, record, lookups, recordId, order[1..], i, rest.value);
            assert FirstLookupFailureAt(objectName, p, idMap, record, lookups, recordId, order, i + 1, rest.value);
          }
        }
        rest
  }

  /**
   * `populate_lookups`: remaps every lookup of the record; the first
   * failure in key order is raised.
   */
  function PopulateLookups(objectName: string, p: LookupPolicy, idMap: IdMap, record: Record,
                           lookups: set<string>, recordId: Val, order: seq<string>): (r: Result<Record, LookupFailure>)
    requires forall k :: k in record ==> k in order
    ensures r.Ok? <==> forall k :: k in record && k in lookups ==> Remapped(objectName, p, idMap, record, k, recordId).Ok?
    ensures r.Ok? ==> r.value.Keys == record.Keys
    ensures r.Ok? ==> forall k :: k in record && k !in lookups ==> r.value[k] == record[k]
    ensures r.Ok? ==> forall k :: k in record && k in lookups ==> r.value[k] == Remapped(objectName, p, idMap, record, k, recordId).value
    ensures r.Err? ==> exists i :: FirstLookupFailureAt(objectName, p, idMap, record, lookups, recordId, order, i, r.error)
  {
    match FirstLookupFailure(objectName, p, idMap, record, lookups, recordId, order)
    case Some(e) => Err(e)
    case None =>
      assert forall k :: k in record && k in lookups ==> Remapped(objectName, p, idMap, record, k, recordId).Ok? by {
        forall k | k in record && k in lookups ensures Remapped(objectName, p, idMap, record, k, recordId).Ok? {
          var i :| 0 <= i < |order| && order[i] == k;
        }
      }
      Ok(map k | k in record :: if k in lookups then Remapped(objectName, p, idMap, record, k, recordId).value else record[k])
  }

  const FalseWords: seq<string> := ["no", "false", "n", "f", "0", ""]
  const TrueWords: seq<string> := ["yes", "true", "y", "t", "1"]
  const PassThroughTypes: seq<string> := ["xsd:string", "xsd:date", "xsd:dateTime", "xsd:int", "xsd:double"]

  /**
   * `convert_value`: Booleans are normalised to `'true'`/`'false'` from
   * their case-insensitive spellings and anything else is rejected; for the
   * other types an empty value becomes `None`, ids and the listed types pass
   * through, and unknown types become `None`.
   */
  function ConvertValue(value: Val, soapType: string): (r: Result<Val, ValueError>)
    ensures soapType == "xsd:boolean" ==>
              && (value.Null? || LowerAll(value.s) in FalseWords <==> r == Ok(Text("false")))
              && (value.Text? && LowerAll(value.s) !in FalseWords && LowerAll(value.s) in TrueWords <==> r == Ok(Text("true")))
              && (r.Err? <==> value.Text? && LowerAll(value.s) !in FalseWords + TrueWords)
              && (r.Err? ==> r.error == InvalidBoolean(value.s))
    ensures soapType != "xsd:boolean" ==> r.Ok?
    ensures soapType != "xsd:boolean" && !NonEmpty(value) ==> r == Ok(Null)
    ensures soapType != "xsd:boolean" && NonEmpty(value) ==>
              r == (if soapType == "tns:ID" || soapType in PassThroughTypes then Ok(value) else Ok(Null))
  {
    if soapType == "xsd:boolean" then
      if value.Null? || LowerAll(value.s) in FalseWords then Ok(Text("false"))
      else if LowerAll(value.s) in TrueWords then Ok(Text("true"))
      else Err(InvalidBoolean(value.s))
    else if value.Null? || |value.s| == 0 then Ok(Null)
    else if soapType == "tns:ID" then Ok(value)
    else if soapType in PassThroughTypes then Ok(value)
    else Ok(Null)
  }

  /** A coerced Boolean coerces to itself: coercion is idempotent on Booleans. */
  lemma BooleanCoercionIdempotent(value: Val)
    requires ConvertValue(value, "xsd:boolean").Ok?
    ensures var v := ConvertValue(value, "xsd:boolean").value;
            (v == Text("true") || v == Text("false")) && ConvertValue(v, "xsd:boolean") == Ok(v)
  {
    var v := ConvertValue(value, "xsd:boolean").value;
    assert LowerAll("false") == "false";
    assert LowerAll("true") == "true";
    assert "true" !in FalseWords;
  }

  /** The soap type `primitivize` reads for a field. */
  function SoapType(fieldMap: FieldMap, k: string): string
    requires k in fieldMap
  {
    fieldMap[k].soapType
  }

  /** Every value of `record` under the first `n` keys of `order` coerces. */
  predicate CoercesBefore(fieldMap: FieldMap, record: Record, order: seq<string>, n: int)
    requires record.Keys <= fieldMap.Keys
  {
    forall j :: 0 <= j < n && j < |order| && order[j] in record ==>
      ConvertValue(record[order[j]], SoapType(fieldMap, order[j])).Ok?
  }

  /** Position `i` of `order` is the first key of `record` whose value fails to coerce, with `e`. */
  predicate FirstCoercionFailureAt(fieldMap: FieldMap, record: Record, order: seq<string>, i: int, e: ValueError)
    requires record.Keys <= fieldMap.Keys
  {
    && 0 <= i < |order| && order[i] in record
    && ConvertValue(record[order[i]], SoapType(fieldMap, order[i])) == Err(e)
    && CoercesBefore(fieldMap, record, order, i)
  }

  /** The first key of `order` whose value fails to coerce. */
  function FirstCoercionFailure(fieldMap: FieldMap, record: Record, order: seq<string>): (r: Option<ValueError>)
    requires record.Keys <= fieldMap.Keys
    ensures r.None? <==> CoercesBefore(fieldMap, record, order, |order|)
    ensures r.Some? ==> exists i :: FirstCoercionFailureAt(fieldMap, record, order, i, r.value)
  {
    if order == [] then None
    else
      var k := order[0];
      if k in record && ConvertValue(record[k], SoapType(fieldMap, k)).Err?
      then
        var e := ConvertValue(record[k], SoapType(fieldMap, k)).error;
        assert FirstCoercionFailureAt(fieldMap, record, order, 0, e);
        Some(e)
      else
        var rest := FirstCoercionFailure(fieldMap, record, order[1..]);
        assert forall i :: 1 <= i < |order| ==> order[i] == order[1..][i - 1];
        assert rest.Some? ==> exists i :: FirstCoercionFailureAt(fieldMap, record, order, i, rest.value) by {
          if rest.Some? {
            var i :| FirstCoercionFailureAt(fieldMap, record, order[1..], i, rest.value);
            assert FirstCoercionFailureAt(fieldMap, record, order, i + 1, rest.value);
          }
        }
        rest
  }

  /** `primitivize`: coerces every value by its field's soap type, keeping the keys. */
  function Primitivize(fieldMap: FieldMap, record: Record, order: seq<string>): (r: Result<Record, ValueError>)
    requires record.Keys <= fieldMap.Keys
    requires forall k :: k in record ==> k in order
    ensures r.Ok? <==> forall k :: k in record ==> ConvertValue(record[k], SoapType(fieldMap, k)).Ok?
    ensures r.Ok? ==> r.value.Keys == record.Keys
    ensures r.Ok? ==> forall k :: k in record ==> r.value[k] == ConvertValue(record[k], SoapType(fieldMap, k)).value
    ensures r.Err? ==> exists i :: FirstCoercionFailureAt(fieldMap, record, order, i, r.error)
  {
    match FirstCoercionFailure(fieldMap, record, order)
    case Some(e) => Err(e)
    case None =>
      assert forall k :: k in record ==> ConvertValue(record[k], SoapType(fieldMap, k)).Ok? by {
        forall k | k in record ensures ConvertValue(record[k], SoapType(fieldMap, k)).Ok? {
          var i :| 0 <= i < |order| && order[i] == k;
        }
      }
      Ok(map k | k in record :: ConvertValue(record[k], SoapType(fieldMap, k)).value)
  }

  /** The lookups whose values are filled in by the second pass. */
  function Deferred(l: Lookups): set<string> {
    l.dependent + l.selfLookups
  }

  /** `clean_dependent_lookups`: the record without its dependent and self lookups. */
  function CleanDependentLookups(record: Record, l: Lookups): (r: Record)
    ensures r.Keys == record.Keys - Deferred(l)
    ensures forall k :: k in r ==> r[k] == record[k]
  {
    Remove(record, Deferred(l))
  }

  /** `extract_dependent_lookups`: only the dependent and self lookups, and `Id`. */
  function ExtractDependentLookups(record: Record, l: Lookups): (r: Record)
    ensures r.Keys == record.Keys * (Deferred(l) + {"Id"})
    ensures forall k :: k in r ==> r[k] == record[k]
  {
    Restrict(record, Deferred(l) + {"Id"})
  }

  /**
   * The two parts of the split share at most `Id`, and together they give
   * back the record: nothing is lost between the passes.
   */
  lemma SplitRebuildsRecord(record: Record, l: Lookups)
    ensures CleanDependentLookups(record, l).Keys * ExtractDependentLookups(record, l).Keys <= {"Id"}
    ensures CleanDependentLookups(record, l) + ExtractDependentLookups(record, l) == record
  {
    var a, b := CleanDependentLookups(record, l), ExtractDependentLookups(record, l);
    assert (a + b).Keys == record.Keys;
    forall k | k in record ensures (a + b)[k] == record[k] {
      if k in b { assert b[k] == record[k]; } else { assert k in a; }
    }
  }

  /**
   * Whether a record is queued for the second pass: besides `Id`, at least
   * one value is neither `None` nor `''` (the source counts non-empty values
   * and asks for more than one).
   */
  predicate HasDeferredWork(dependentPart: Record) {
    |PopulatedKeys(dependentPart)| > 1
  }

  /** With a populated `Id`, a record is queued exactly when one of its deferred lookups is populated. */
  lemma QueuedIffDeferredLookupPopulated(record: Record, l: Lookups)
    requires "Id" in record && NonEmpty(record["Id"]) && "Id" !in Deferred(l)
    ensures HasDeferredWork(ExtractDependentLookups(record, l)) <==>
              exists k :: k in record && k in Deferred(l) && NonEmpty(record[k])
  {
    var part := ExtractDependentLookups(record, l);
    var ks := PopulatedKeys(part);
    assert "Id" in ks;
    if exists k :: k in record && k in Deferred(l) && NonEmpty(record[k]) {
      var k :| k in record && k in Deferred(l) && NonEmpty(record[k]);
      assert {"Id", k} <= ks;
      assert |{"Id", k}| == 2;
      SubsetSize({"Id", k}, ks);
    } else {
      assert ks == {"Id"};
    }
  }

  lemma SubsetSize<T>(a: set<T>, b: set<T>)
    requires a <= b
    ensures |a| <= |b|
  {
    assert b == a + (b - a);
  }

  /** `LoadStep.transform_record`: the object's mapper, if any, then the field scope. */
  function TransformForLoad(mapper: Option<DataMapper>, scope: set<string>, record: Record, order: seq<string>): (r: Record)
    requires forall k :: k in record ==> k in order
    ensures r.Keys <= scope
  {
    var mapped := if mapper.Some? then TransformRecord(mapper.value, record, order) else record;
    Restrict(mapped, scope)
  }

  /** The key order after renaming: each key of `order` under its new name. */
  function RenamedOrder(mapper: Option<DataMapper>, order: seq<string>): (r: seq<string>)
    ensures |r| == |order|
  {
    if mapper.Some? then seq(|order|, i requires 0 <= i < |order| => TransformKey(mapper.value, order[i])) else order
  }

  lemma RenamedOrderCovers(mapper: Option<DataMapper>, scope: set<string>, record: Record, order: seq<string>)
    requires forall k :: k in record ==> k in order
    ensures forall k :: k in TransformForLoad(mapper, scope, record, order) ==> k in RenamedOrder(mapper, order)
  {
    forall k | k in TransformForLoad(mapper, scope, record, order) ensures k in RenamedOrder(mapper, order) {
      if mapper.Some? {
        var k0 :| k0 in record && TransformKey(mapper.value, k0) == k;
        var i :| 0 <= i < |order| && order[i] == k0;
        assert RenamedOrder(mapper, order)[i] == k;
      }
    }
  }

  /** How preparing a record can fail: an error the step records, or an exception it does not catch. */
  datatype Fault = Caught(error: Error) | Uncaught(failure: LookupFailure)

  /** Everything the first pass needs to prepare one record of a step. */
  datatype Preparation = Preparation(
    objectName: string,
    scope: set<string>,
    fieldMap: FieldMap,
    mapper: Option<DataMapper>,
    policy: LookupPolicy,
    lookups: Lookups)

  predicate PreparationOk(prep: Preparation) {
    prep.scope <= prep.fieldMap.Keys
  }

  /**
   * The first-pass pipeline of `LoadStep.execute` for one input record:
   * transform, drop the deferred lookups, remap the descendent lookups,
   * coerce. A bad id or Boolean becomes a `BadData` error, an outside
   * reference under ERROR its own error; a `None` lookup value escapes.
   */
  function PrepareRecord(prep: Preparation, idMap: IdMap, record: Record, order: seq<string>): (r: Result<Record, Fault>)
    requires PreparationOk(prep)
    requires forall k :: k in record ==> k in order
    requires "Id" in record
    ensures r.Ok? ==> r.value.Keys <= prep.scope && r.value.Keys !! Deferred(prep.lookups)
    ensures r.Ok? ==> r.value.Keys == TransformForLoad(prep.mapper, prep.scope, record, order).Keys - Deferred(prep.lookups)
  {
    var recordId := record["Id"];
    var transformed := TransformForLoad(prep.mapper, prep.scope, record, order);
    var cleaned := CleanDependentLookups(transformed, prep.lookups);
    var order' := RenamedOrder(prep.mapper, order);
    RenamedOrderCovers(prep.mapper, prep.scope, record, order);
    match PopulateLookups(prep.objectName, prep.policy, idMap, cleaned, prep.lookups.descendent, recordId, order')
    case Err(NotAnId(e)) => Err(Caught(BadData(recordId, e)))
    case Err(OutsideNotAllowed(e)) => Err(Caught(e))
    case Err(NotAString) => Err(Uncaught(NotAString))
    case Ok(populated) =>
      match Primitivize(prep.fieldMap, populated, order')
      case Err(e) => Err(Caught(BadData(recordId, e)))
      case Ok(coerced) => Ok(coerced)
  }
}
