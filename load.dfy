/**
 * The load engine: `LoadOperation` runs its steps in two passes. The first
 * pass inserts each object's records with descendent lookups remapped to
 * new ids and the dependent and self lookups held back; the second pass
 * fills those in with updates. The run stops at the first step that
 * collects errors.
 *
 * The bulk channel is given as two outcome functions: for an object, the
 * batch sent and a position in it, whether that record was inserted (and
 * its new id) or updated. Every call is appended to a log.
 */
module Load {
  import opened Common
  import opened Ids
  import opened Schema
  import opened Mapping
  import opened LoadRecords

  /** `SalesforceId(v)` on a field value: `None` has no `strip`, a malformed string raises `ValueError`. */
  function ParseVal(v: Val): (r: Result<SalesforceId, LookupFailure>)
  {
    if v.Null? then Err(NotAString)
    else match FromString(v.s)
      case Ok(id) => Ok(id)
      case Err(e) => Err(NotAnId(e))
  }

  /** An input file as `csv.DictReader` yields it: a header and the rows. */
  datatype InputFile = InputFile(header: seq<string>, rows: seq<Record>)

  /** A row of an input file: its keys come from the header, which has an `Id` column. */
  predicate RowOk(row: Record, header: seq<string>) {
    && (forall k :: k in row ==> k in header)
    && "Id" in row
  }

  predicate InputOk(f: InputFile) {
    forall i :: 0 <= i < |f.rows| ==> RowOk(f.rows[i], f.header)
  }

  /** The per-record result of a bulk insert. */
  datatype InsertResult = Inserted(newId: SalesforceId) | InsertFailed

  /** A call made on the bulk channel. */
  datatype BulkCall =
    | InsertCall(objectName: string, records: seq<Record>)
    | UpdateCall(objectName: string, records: seq<Record>)

  /** A row written to an object's result file. */
  datatype ResultRow = ResultRow(originalId: string, newId: string)

  /** Which pass a run stopped in. */
  datatype Phase = InsertPhase | UpdatePhase

  /**
   * How `LoadOperation.execute` ends: it returns 0, it returns -1 after the
   * step at `step` collected errors in pass `phase`, or an exception escapes
   * that step.
   */
  datatype Outcome =
    | Completed
    | Halted(step: nat, phase: Phase)
    | Raised(step: nat, phase: Phase, failure: LookupFailure)

  /** The value `execute` returns; an escaped exception returns none. */
  function ExitCode(o: Outcome): (r: Option<int>)
    ensures o.Completed? <==> r == Some(0)
    ensures o.Halted? <==> r == Some(-1)
    ensures o.Raised? <==> r.None?
  {
    match o
    case Completed => Some(0)
    case Halted(_, _) => Some(-1)
    case Raised(_, _, _) => None
  }

  // ---------------------------------------------------------------------
  // The first pass, record by record.

  /** What the first pass of a step has gathered so far. */
  datatype FirstPass = FirstPass(
    toLoad: seq<Record>,
    originalIds: seq<Val>,
    errors: seq<Error>,
    deferred: seq<Record>,
    raised: Option<LookupFailure>)

  const NoFirstPass: FirstPass := FirstPass([], [], [], [], None)

  /** The first-pass preparation of each input row, in order. */
  function PreparedRows(prep: Preparation, idMap: IdMap, rows: seq<Record>, header: seq<string>): (r: seq<Result<Record, Fault>>)
    requires PreparationOk(prep)
    requires forall i :: 0 <= i < |rows| ==> RowOk(rows[i], header)
    ensures |r| == |rows|
  {
    seq(|rows|, i requires 0 <= i < |rows| && RowOk(rows[i], header) => PrepareRecord(prep, idMap, rows[i], header))
  }

  /**
   * One input record in the first pass, given its preparation: its id is
   * noted, its deferred part is queued when it has work for the second
   * pass, and the prepared record is queued for insert, or its error noted,
   * or its failure escapes.
   */
  function FirstPassRecord(lookups: Lookups, acc: FirstPass, row: Record, prepared: Result<Record, Fault>): (r: FirstPass)
    requires "Id" in row
    ensures r.originalIds == acc.originalIds + [row["Id"]]
    ensures r.raised.None? <==> !(prepared.Err? && prepared.error.Uncaught?)
    ensures r.raised.None? ==> |r.toLoad| + |r.errors| == |acc.toLoad| + |acc.errors| + 1
  {
    var ids := acc.originalIds + [row["Id"]];
    var part := ExtractDependentLookups(row, lookups);
    var deferred := if HasDeferredWork(part) then acc.deferred + [part] else acc.deferred;
    match prepared
    case Ok(q) => FirstPass(acc.toLoad + [q], ids, acc.errors, deferred, None)
    case Err(Caught(e)) => FirstPass(acc.toLoad, ids, acc.errors + [e], deferred, None)
    case Err(Uncaught(f)) => FirstPass(acc.toLoad, ids, acc.errors, deferred, Some(f))
  }

  /**
   * The first pass over the remaining `rows`, from what has been gathered in
   * `acc`, stopping at the first escaped failure. Without one, every row's
   * id is noted and each row is either queued for insert or the cause of
   * exactly one error.
   */
  function FirstPassFrom(lookups: Lookups, acc: FirstPass, rows: seq<Record>, prepared: seq<Result<Record, Fault>>): (r: FirstPass)
    requires |rows| == |prepared|
    requires forall i :: 0 <= i < |rows| ==> "Id" in rows[i]
    ensures acc.raised.Some? ==> r == acc
    ensures r.raised.None? ==> |r.originalIds| == |acc.originalIds| + |rows|
    ensures r.raised.None? ==> |r.toLoad| + |r.errors| == |acc.toLoad| + |acc.errors| + |rows|
    decreases |rows|
  {
    if rows == [] || acc.raised.Some? then acc
    else FirstPassFrom(lookups, FirstPassRecord(lookups, acc, rows[0], prepared[0]), rows[1..], prepared[1..])
  }

  /** The whole first pass of a step over its input rows. */
  function FirstPassOver(lookups: Lookups, rows: seq<Record>, prepared: seq<Result<Record, Fault>>): (r: FirstPass)
    requires |rows| == |prepared|
    requires forall i :: 0 <= i < |rows| ==> "Id" in rows[i]
    ensures r.raised.None? ==> |r.originalIds| == |rows| == |r.toLoad| + |r.errors|
  {
    FirstPassFrom(lookups, NoFirstPass, rows, prepared)
  }

  /** A preparation whose failure escapes the first pass. */
  predicate Escapes(prepared: Result<Record, Fault>) {
    prepared.Err? && prepared.error.Uncaught?
  }

  /** Appending is associative. */
  lemma AppendAssoc<T>(a: seq<T>, b: seq<T>, c: seq<T>)
    ensures a + (b + c) == (a + b) + c
  {
  }

  /** The record a preparation queues for insert: itself when it succeeded. */
  function LoadedOne(prepared: Result<Record, Fault>): seq<Record> {
    if prepared.Ok? then [prepared.value] else []
  }

  /** The error a preparation records: its caught error, if any. */
  function CaughtOne(prepared: Result<Record, Fault>): seq<Error> {
    if prepared.Err? && prepared.error.Caught? then [prepared.error.error] else []
  }

  /** The deferred part a row queues: the part, when it has work for the second pass. */
  function PartOne(lookups: Lookups, row: Record): seq<Record> {
    var part := ExtractDependentLookups(row, lookups);
    if HasDeferredWork(part) then [part] else []
  }

  /** The prepared records, in row order. */
  function Loaded(prepared: seq<Result<Record, Fault>>): seq<Record> {
    if prepared == [] then [] else LoadedOne(prepared[0]) + Loaded(prepared[1..])
  }

  /** The errors the step records for its rows, in row order. */
  function CaughtErrors(prepared: seq<Result<Record, Fault>>): seq<Error> {
    if prepared == [] then [] else CaughtOne(prepared[0]) + CaughtErrors(prepared[1..])
  }

  /** The `Id` of each row, in order. */
  function RowIds(rows: seq<Record>): seq<Val>
    requires forall i :: 0 <= i < |rows| ==> "Id" in rows[i]
  {
    if rows == [] then [] else [rows[0]["Id"]] + RowIds(rows[1..])
  }

  /** The deferred part of each row that has work for the second pass, in row order. */
  function DeferredParts(lookups: Lookups, rows: seq<Record>): seq<Record> {
    if rows == [] then [] else PartOne(lookups, rows[0]) + DeferredParts(lookups, rows[1..])
  }

  /** No preparation's failure escapes. */
  predicate NoEscape(prepared: seq<Result<Record, Fault>>) {
    prepared == [] || (!Escapes(prepared[0]) && NoEscape(prepared[1..]))
  }

  lemma {:induction false} NoEscapeAll(prepared: seq<Result<Record, Fault>>)
    ensures NoEscape(prepared) <==> forall i :: 0 <= i < |prepared| ==> !Escapes(prepared[i])
  {
    if prepared != [] {
      NoEscapeAll(prepared[1..]);
      assert forall i :: 1 <= i < |prepared| ==> prepared[i] == prepared[1..][i - 1];
    }
  }

  /** Row `i` is the first whose failure escapes, with `f`. */
  predicate FirstEscapeAt(prepared: seq<Result<Record, Fault>>, i: int, f: LookupFailure) {
    && 0 <= i < |prepared| && prepared[i] == Err(Uncaught(f))
    && forall j :: 0 <= j < i ==> !Escapes(prepared[j])
  }

  /**
   * What the first pass gathers. It escapes exactly when some row's failure
   * escapes, and then with the first such failure. Without an escape, every
   * row's id is noted and every deferred part with work is queued, the
   * prepared records are queued for insert and the caught errors recorded,
   * each in row order.
   */
  lemma FirstPassContents(lookups: Lookups, acc: FirstPass, rows: seq<Record>, prepared: seq<Result<Record, Fault>>)
    requires |rows| == |prepared|
    requires forall i :: 0 <= i < |rows| ==> "Id" in rows[i]
    requires acc.raised.None?
    ensures var r := FirstPassFrom(lookups, acc, rows, prepared);
            && (r.raised.None? <==> forall i :: 0 <= i < |prepared| ==> !Escapes(prepared[i]))
            && (r.raised.Some? ==> exists i :: FirstEscapeAt(prepared, i, r.raised.value))
            && (r.raised.None? ==>
                  && r.toLoad == acc.toLoad + Loaded(prepared)
                  && r.errors == acc.errors + CaughtErrors(prepared)
                  && r.originalIds == acc.originalIds + RowIds(rows)
                  && r.deferred == acc.deferred + DeferredParts(lookups, rows))
  {
    FirstPassEscape(lookups, acc, rows, prepared);
    NoEscapeAll(prepared);
    if NoEscape(prepared) {
      FirstPassLoaded(lookups, acc, rows, prepared);
      FirstPassErrors(lookups, acc, rows, prepared);
      FirstPassIds(lookups, acc, rows, prepared);
      FirstPassDeferred(lookups, acc, rows, prepared);
    }
  }

  /** The first pass escapes exactly when a row's failure escapes, and then with the first one. */
  lemma {:induction false} FirstPassEscape(lookups: Lookups, acc: FirstPass, rows: seq<Record>, prepared: seq<Result<Record, Fault>>)
    requires |rows| == |prepared|
    requires forall i :: 0 <= i < |rows| ==> "Id" in rows[i]
    requires acc.raised.None?
    ensures var r := FirstPassFrom(lookups, acc, rows, prepared);
            && (r.raised.None? <==> forall i :: 0 <= i < |prepared| ==> !Escapes(prepared[i]))
            && (r.raised.Some? ==> exists i :: FirstEscapeAt(prepared, i, r.raised.value))
    decreases |rows|
  {
    if rows != [] {
      var next := FirstPassRecord(lookups, acc, rows[0], prepared[0]);
      assert FirstPassFrom(lookups, acc, rows, prepared) == FirstPassFrom(lookups, next, rows[1..], prepared[1..]);
      if Escapes(prepared[0]) {
        assert FirstPassFrom(lookups, next, rows[1..], prepared[1..]) == next;
        assert FirstEscapeAt(prepared, 0, next.raised.value);
      } else {
        PassingRow(lookups, acc, rows[0], prepared[0]);
        FirstPassEscape(lookups, next, rows[1..], prepared[1..]);
        var r := FirstPassFrom(lookups, next, rows[1..], prepared[1..]);
        assert forall i :: 1 <= i < |prepared| ==> prepared[i] == prepared[1..][i - 1];
        if r.raised.Some? {
          var i :| FirstEscapeAt(prepared[1..], i, r.raised.value);
          assert FirstEscapeAt(prepared, i + 1, r.raised.value);
        }
      }
    }
  }

  /** Without an escape, the prepared records are queued for insert, in row order. */
  lemma {:induction false} FirstPassLoaded(lookups: Lookups, acc: FirstPass, rows: seq<Record>, prepared: seq<Result<Record, Fault>>)
    requires |rows| == |prepared|
    requires forall i :: 0 <= i < |rows| ==> "Id" in rows[i]
    requires acc.raised.None?
    requires NoEscape(prepared)
    ensures var r := FirstPassFrom(lookups, acc, rows, prepared);
            r.raised.None? && r.toLoad == acc.toLoad + Loaded(prepared)
    decreases |rows|
  {
    if rows != [] {
      var next := PassOneRow(lookups, acc, rows, prepared);
      FirstPassLoaded(lookups, next, rows[1..], prepared[1..]);
      AppendAssoc(acc.toLoad, LoadedOne(prepared[0]), Loaded(prepared[1..]));
    }
  }

  /** Without an escape, the caught errors are recorded, in row order. */
  lemma {:induction false} FirstPassErrors(lookups: Lookups, acc: FirstPass, rows: seq<Record>, prepared: seq<Result<Record, Fault>>)
    requires |rows| == |prepared|
    requires forall i :: 0 <= i < |rows| ==> "Id" in rows[i]
    requires acc.raised.None?
    requires NoEscape(prepared)
    ensures var r := FirstPassFrom(lookups, acc, rows, prepared);
            r.raised.None? && r.errors == acc.errors + CaughtErrors(prepared)
    decreases |rows|
  {
    if rows != [] {
      var next := PassOneRow(lookups, acc, rows, prepared);
      FirstPassErrors(lookups, next, rows[1..], prepared[1..]);
      AppendAssoc(acc.errors, CaughtOne(prepared[0]), CaughtErrors(prepared[1..]));
    }
  }

  /** Without an escape, every row's id is noted, in row order. */
  lemma {:induction false} FirstPassIds(lookups: Lookups, acc: FirstPass, rows: seq<Record>, prepared: seq<Result<Record, Fault>>)
    requires |rows| == |prepared|
    requires forall i :: 0 <= i < |rows| ==> "Id" in rows[i]
    requires acc.raised.None?
    requires NoEscape(prepared)
    ensures var r := FirstPassFrom(lookups, acc, rows, prepared);
            r.raised.None? && r.originalIds == acc.originalIds + RowIds(rows)
    decreases |rows|
  {
    if rows != [] {
      var next := PassOneRow(lookups, acc, rows, prepared);
      FirstPassIds(lookups, next, rows[1..], prepared[1..]);
      AppendAssoc(acc.originalIds, [rows[0]["Id"]], RowIds(rows[1..]));
    }
  }

  /** Without an escape, the deferred part of every row with work is queued, in row order. */
  lemma {:induction false} FirstPassDeferred(lookups: Lookups, acc: FirstPass, rows: seq<Record>, prepared: seq<Result<Record, Fault>>)
    requires |rows| == |prepared|
    requires forall i :: 0 <= i < |rows| ==> "Id" in rows[i]
    requires acc.raised.None?
    requires NoEscape(prepared)
    ensures var r := FirstPassFrom(lookups, acc, rows, prepared);
            r.raised.None? && r.deferred == acc.deferred + DeferredParts(lookups, rows)
    decreases |rows|
  {
    if rows != [] {
      var next := PassOneRow(lookups, acc, rows, prepared);
      FirstPassDeferred(lookups, next, rows[1..], prepared[1..]);
      AppendAssoc(acc.deferred, PartOne(lookups, rows[0]), DeferredParts(lookups, rows[1..]));
    }
  }

  /** The first pass past a first row whose failure does not escape, with what it gathered from that row. */
  lemma PassOneRow(lookups: Lookups, acc: FirstPass, rows: seq<Record>, prepared: seq<Result<Record, Fault>>) returns (next: FirstPass)
    requires |rows| == |prepared| > 0
    requires forall i :: 0 <= i < |rows| ==> "Id" in rows[i]
    requires acc.raised.None? && !Escapes(prepared[0])
    ensures FirstPassFrom(lookups, acc, rows, prepared) == FirstPassFrom(lookups, next, rows[1..], prepared[1..])
    ensures next.toLoad == acc.toLoad + LoadedOne(prepared[0])
    ensures next.errors == acc.errors + CaughtOne(prepared[0])
    ensures next.originalIds == acc.originalIds + [rows[0]["Id"]]
    ensures next.deferred == acc.deferred + PartOne(lookups, rows[0])
    ensures next.raised.None?
  {
    next := FirstPassRecord(lookups, acc, rows[0], prepared[0]);
    PassingRow(lookups, acc, rows[0], prepared[0]);
  }

  /** A row whose failure does not escape, in the terms of the pass's contents. */
  lemma PassingRow(lookups: Lookups, acc: FirstPass, row: Record, prepared: Result<Record, Fault>)
    requires "Id" in row && !Escapes(prepared)
    ensures var next := FirstPassRecord(lookups, acc, row, prepared);
            && next.toLoad == acc.toLoad + LoadedOne(prepared)
            && next.errors == acc.errors + CaughtOne(prepared)
            && next.originalIds == acc.originalIds + [row["Id"]]
            && next.deferred == acc.deferred + PartOne(lookups, row)
            && next.raised.None?
  {
  }

  /** The parts queued for the second pass have work in them, keep their row's `Id` and take their keys from the header. */
  predicate PartsOk(parts: seq<Record>, header: seq<string>) {
    forall i :: 0 <= i < |parts| ==> RowOk(parts[i], header) && HasDeferredWork(parts[i])
  }

  /** The first pass queues only parts that have work in them and come from the input rows. */
  lemma {:induction false} DeferredPartsOk(lookups: Lookups, acc: FirstPass, rows: seq<Record>, prepared: seq<Result<Record, Fault>>, header: seq<string>)
    requires |rows| == |prepared|
    requires forall i :: 0 <= i < |rows| ==> "Id" in rows[i] && RowOk(rows[i], header)
    requires PartsOk(acc.deferred, header)
    ensures PartsOk(FirstPassFrom(lookups, acc, rows, prepared).deferred, header)
    decreases |rows|
  {
    if rows != [] && acc.raised.None? {
      DeferredPartsOk(lookups, FirstPassRecord(lookups, acc, rows[0], prepared[0]), rows[1..], prepared[1..], header);
    }
  }

  // ---------------------------------------------------------------------
  // Registering the results of an insert.

  /** What registering the results of an insert has done so far. */
  datatype Registration = Registration(
    idMap: IdMap,
    rows: seq<ResultRow>,
    errors: seq<Error>,
    raised: Option<LookupFailure>)

  /** `SalesforceId` applied to each original id, in order. */
  function ParsedIds(ids: seq<Val>): (r: seq<Result<SalesforceId, LookupFailure>>)
    ensures |r| == |ids|
  {
    seq(|ids|, i requires 0 <= i < |ids| => ParseVal(ids[i]))
  }

  /**
   * The result of inserting one record, given its original id and what
   * `SalesforceId` makes of it: a success maps the parsed original id to the
   * new id and writes a result row; a failure is an error; an original id
   * that `SalesforceId` rejects escapes.
   */
  function RegisterOne(objectName: string, acc: Registration, id: Val, parsed: Result<SalesforceId, LookupFailure>,
                       result: InsertResult): (r: Registration)
    ensures r.raised.None? ==> |r.rows| + |r.errors| == |acc.rows| + |acc.errors| + 1
  {
    if result.InsertFailed? then acc.(errors := acc.errors + [LoadFailed(objectName, id)])
    else match parsed
      case Err(f) => acc.(raised := Some(f))
      case Ok(oldId) =>
        acc.(idMap := acc.idMap[oldId := result.newId], rows := acc.rows + [ResultRow(oldId.id, result.newId.id)])
  }

  /**
   * The remaining results of an insert, in order, from what `acc` has done:
   * a later registration of the same id overwrites an earlier one, and the
   * first escaped failure stops the rest.
   */
  function RegisterFrom(objectName: string, acc: Registration, ids: seq<Val>, parsed: seq<Result<SalesforceId, LookupFailure>>,
                        results: seq<InsertResult>): (r: Registration)
    requires |ids| == |parsed| == |results|
    ensures acc.raised.Some? ==> r == acc
    ensures r.raised.None? ==> |r.rows| + |r.errors| == |acc.rows| + |acc.errors| + |ids|
    decreases |ids|
  {
    if ids == [] || acc.raised.Some? then acc
    else RegisterFrom(objectName, RegisterOne(objectName, acc, ids[0], parsed[0], results[0]), ids[1..], parsed[1..], results[1..])
  }

  /** Registering all the results of an insert into the map `m`. */
  function RegisterAll(objectName: string, m: IdMap, ids: seq<Val>, results: seq<InsertResult>): (r: Registration)
    requires |ids| == |results|
    ensures r.raised.None? ==> |r.rows| + |r.errors| == |ids|
  {
    RegisterFrom(objectName, Registration(m, [], [], None), ids, ParsedIds(ids), results)
  }

  /** Results that register nothing under `k` leave `k`'s mapping as it was. */
  lemma {:induction false} RegisterKeeps(objectName: string, acc: Registration, ids: seq<Val>, parsed: seq<Result<SalesforceId, LookupFailure>>,
                                         results: seq<InsertResult>, k: SalesforceId)
    requires |ids| == |parsed| == |results|
    requires forall i :: 0 <= i < |ids| && results[i].Inserted? ==> parsed[i] != Ok(k)
    ensures var r := RegisterFrom(objectName, acc, ids, parsed, results);
            && (k in r.idMap <==> k in acc.idMap)
            && (k in acc.idMap ==> r.idMap[k] == acc.idMap[k])
    decreases |ids|
  {
    if ids != [] && acc.raised.None? {
      forall i | 0 <= i < |ids| - 1 && results[1..][i].Inserted? ensures parsed[1..][i] != Ok(k) {
        assert results[1..][i] == results[i + 1] && parsed[1..][i] == parsed[i + 1];
      }
      RegisterKeeps(objectName, RegisterOne(objectName, acc, ids[0], parsed[0], results[0]), ids[1..], parsed[1..], results[1..], k);
    }
  }

  /**
   * A record whose insert succeeded, with no later successful record of the
   * same original id, leaves its new id in the map under its original id.
   */
  lemma {:induction false} RegisteredFinds(objectName: string, acc: Registration, ids: seq<Val>, parsed: seq<Result<SalesforceId, LookupFailure>>,
                                           results: seq<InsertResult>, j: nat)
    requires |ids| == |parsed| == |results| && j < |ids| && results[j].Inserted?
    requires RegisterFrom(objectName, acc, ids, parsed, results).raised.None?
    requires forall i :: j < i < |ids| && results[i].Inserted? ==> parsed[i] != parsed[j]
    ensures parsed[j].Ok?
    ensures var r := RegisterFrom(objectName, acc, ids, parsed, results);
            parsed[j].value in r.idMap && r.idMap[parsed[j].value] == results[j].newId
    decreases |ids|
  {
    var next := RegisterOne(objectName, acc, ids[0], parsed[0], results[0]);
    if j == 0 {
      forall i | 0 <= i < |ids| - 1 && results[1..][i].Inserted? ensures parsed[1..][i] != Ok(parsed[0].value) {
        assert results[1..][i] == results[i + 1] && parsed[1..][i] == parsed[i + 1];
      }
      RegisterKeeps(objectName, next, ids[1..], parsed[1..], results[1..], parsed[0].value);
    } else {
      forall i | j - 1 < i < |ids| - 1 && results[1..][i].Inserted? ensures parsed[1..][i] != parsed[1..][j - 1] {
        assert results[1..][i] == results[i + 1] && parsed[1..][i] == parsed[i + 1];
      }
      RegisteredFinds(objectName, next, ids[1..], parsed[1..], results[1..], j - 1);
    }
  }

  /**
   * Registration keeps every id already mapped and adds only the original
   * ids of records whose insert succeeded.
   */
  lemma {:induction false} RegisteredOnlySuccesses(objectName: string, acc: Registration, ids: seq<Val>,
                                                   parsed: seq<Result<SalesforceId, LookupFailure>>, results: seq<InsertResult>)
    requires |ids| == |parsed| == |results|
    ensures var r := RegisterFrom(objectName, acc, ids, parsed, results);
            && acc.idMap.Keys <= r.idMap.Keys
            && forall k :: k in r.idMap && k !in acc.idMap ==>
                 exists i :: 0 <= i < |ids| && results[i].Inserted? && parsed[i] == Ok(k)
    decreases |ids|
  {
    if ids != [] && acc.raised.None? {
      var next := RegisterOne(objectName, acc, ids[0], parsed[0], results[0]);
      RegisteredOnlySuccesses(objectName, next, ids[1..], parsed[1..], results[1..]);
      var r := RegisterFrom(objectName, acc, ids, parsed, results);
      forall k | k in r.idMap && k !in acc.idMap
        ensures exists i :: 0 <= i < |ids| && results[i].Inserted? && parsed[i] == Ok(k)
      {
        if k in next.idMap {
          assert results[0].Inserted? && parsed[0] == Ok(k);
        } else {
          var i :| 0 <= i < |ids| - 1 && results[1..][i].Inserted? && parsed[1..][i] == Ok(k);
          assert results[i + 1] == results[1..][i] && parsed[i + 1] == parsed[1..][i];
        }
      }
    }
  }

  /** The result files after `rows` are written to the object's file, when it has one. */
  function WithRows(files: map<string, seq<ResultRow>>, objectName: string, rows: seq<ResultRow>): (r: map<string, seq<ResultRow>>)
    ensures r.Keys == files.Keys
    ensures objectName in files ==> r[objectName] == files[objectName] + rows
    ensures forall o :: o in files && o != objectName ==> r[o] == files[o]
  {
    if objectName in files then files[objectName := files[objectName] + rows] else files
  }

  /** Writing `rows` and then `more` writes `rows + more`. */
  lemma WithRowsAppend(files: map<string, seq<ResultRow>>, objectName: string, rows: seq<ResultRow>, more: seq<ResultRow>)
    ensures WithRows(WithRows(files, objectName, rows), objectName, more) == WithRows(files, objectName, rows + more)
  {
    if objectName in files {
      assert files[objectName] + rows + more == files[objectName] + (rows + more);
    }
  }

  /** The errors for the records whose update failed, in order. */
  function FailedUpdates(objectName: string, ids: seq<Val>, results: seq<bool>): (r: seq<Error>)
    requires |ids| == |results|
    ensures |r| <= |ids|
    ensures r == [] <==> forall i :: 0 <= i < |results| ==> results[i]
    decreases |ids|
  {
    if ids == [] then []
    else
      var rest := FailedUpdates(objectName, ids[1..], results[1..]);
      assert forall i :: 1 <= i < |results| ==> results[1..][i - 1] == results[i];
      if results[0] then rest else [UpdateFailed(objectName, ids[0])] + rest
  }

  // ---------------------------------------------------------------------
  // The second pass, record by record.

  /** What the second pass of a step has gathered so far. */
  datatype SecondPass = SecondPass(
    toUpdate: seq<Record>,
    originalIds: seq<Val>,
    errors: seq<Error>,
    raised: Option<LookupFailure>)

  const NoSecondPass: SecondPass := SecondPass([], [], [], None)

  /** `str(get_new_id(id))`: the new id, or `"None"` when the record has none. */
  function NewIdText(idMap: IdMap, id: SalesforceId): (s: string)
    ensures id in idMap ==> s == idMap[id].id
    ensures id !in idMap ==> s == "None"
  {
    if id in idMap then idMap[id].id else "None"
  }

  /** The deferred lookups of each queued part, remapped, in order. */
  function PopulatedParts(objectName: string, p: LookupPolicy, idMap: IdMap, deferred: set<string>,
                          parts: seq<Record>, header: seq<string>): (r: seq<Result<Record, LookupFailure>>)
    requires forall i :: 0 <= i < |parts| ==> RowOk(parts[i], header)
    ensures |r| == |parts|
    ensures forall i :: 0 <= i < |parts| && r[i].Ok? ==> "Id" in r[i].value
  {
    seq(|parts|, i requires 0 <= i < |parts| && RowOk(parts[i], header) =>
      PopulateLookups(objectName, p, idMap, parts[i], deferred, parts[i]["Id"], header))
  }

  /**
   * One queued part in the second pass, given its remapping: an outside
   * reference under ERROR is noted and any other failure escapes; a part
   * that still holds work is queued for update under the new id of its
   * record, and a malformed `Id` escapes.
   */
  function SecondPassRecord(idMap: IdMap, acc: SecondPass, populated: Result<Record, LookupFailure>): (r: SecondPass)
    requires populated.Ok? ==> "Id" in populated.value
    ensures |r.toUpdate| - |acc.toUpdate| == |r.originalIds| - |acc.originalIds| <= 1
    ensures acc.toUpdate <= r.toUpdate && acc.originalIds <= r.originalIds
  {
    match populated
    case Err(OutsideNotAllowed(e)) => acc.(errors := acc.errors + [e])
    case Err(f) => acc.(raised := Some(f))
    case Ok(cleaned) =>
      if !HasDeferredWork(cleaned) then acc
      else match ParseVal(cleaned["Id"])
        case Err(f) => acc.(raised := Some(f))
        case Ok(id) =>
          acc.(toUpdate := acc.toUpdate + [cleaned["Id" := Text(NewIdText(idMap, id))]],
               originalIds := acc.originalIds + [cleaned["Id"]])
  }

  /** The second pass over the remaining remapped parts, stopping at the first escaped failure. */
  function SecondPassFrom(idMap: IdMap, acc: SecondPass, populated: seq<Result<Record, LookupFailure>>): (r: SecondPass)
    requires forall i :: 0 <= i < |populated| && populated[i].Ok? ==> "Id" in populated[i].value
    ensures acc.raised.Some? ==> r == acc
    ensures |r.toUpdate| - |acc.toUpdate| == |r.originalIds| - |acc.originalIds| <= |populated|
    ensures acc.toUpdate <= r.toUpdate && acc.originalIds <= r.originalIds
    decreases |populated|
  {
    if populated == [] || acc.raised.Some? then acc
    else SecondPassFrom(idMap, SecondPassRecord(idMap, acc, populated[0]), populated[1..])
  }

  /** The second pass from the `i`th part on is that part, then the rest. */
  lemma SecondPassAdvance(idMap: IdMap, acc: SecondPass, populated: seq<Result<Record, LookupFailure>>, i: nat)
    requires forall j :: 0 <= j < |populated| && populated[j].Ok? ==> "Id" in populated[j].value
    requires i < |populated| && acc.raised.None?
    ensures SecondPassFrom(idMap, acc, populated[i..]) ==
            SecondPassFrom(idMap, SecondPassRecord(idMap, acc, populated[i]), populated[i + 1..])
  {
    assert populated[i..][1..] == populated[i + 1..];
  }

  /** The whole second pass of a step over its remapped parts. */
  function SecondPassOver(idMap: IdMap, populated: seq<Result<Record, LookupFailure>>): (r: SecondPass)
    requires forall i :: 0 <= i < |populated| && populated[i].Ok? ==> "Id" in populated[i].value
    ensures |r.toUpdate| == |r.originalIds| <= |populated|
  {
    SecondPassFrom(idMap, NoSecondPass, populated)
  }

  /**
   * A remapping whose failure escapes the second pass: a failure other than
   * an outside reference under ERROR, or a part with work whose `Id` is not
   * an id.
   */
  predicate SecondEscapes(populated: Result<Record, LookupFailure>)
    requires populated.Ok? ==> "Id" in populated.value
  {
    || (populated.Err? && !populated.error.OutsideNotAllowed?)
    || (populated.Ok? && HasDeferredWork(populated.value) && ParseVal(populated.value["Id"]).Err?)
  }

  /** The failure that escapes with such a remapping. */
  function EscapeFailure(populated: Result<Record, LookupFailure>): LookupFailure
    requires populated.Ok? ==> "Id" in populated.value
    requires SecondEscapes(populated)
  {
    if populated.Err? then populated.error else ParseVal(populated.value["Id"]).error
  }

  /** No remapping's failure escapes. */
  predicate NoSecondEscape(populated: seq<Result<Record, LookupFailure>>)
    requires forall i :: 0 <= i < |populated| && populated[i].Ok? ==> "Id" in populated[i].value
  {
    populated == [] || (!SecondEscapes(populated[0]) && NoSecondEscape(populated[1..]))
  }

  lemma {:induction false} NoSecondEscapeAll(populated: seq<Result<Record, LookupFailure>>)
    requires forall i :: 0 <= i < |populated| && populated[i].Ok? ==> "Id" in populated[i].value
    ensures NoSecondEscape(populated) <==> forall i :: 0 <= i < |populated| ==> !SecondEscapes(populated[i])
  {
    if populated != [] {
      NoSecondEscapeAll(populated[1..]);
      assert forall i :: 1 <= i < |populated| ==> populated[i] == populated[1..][i - 1];
    }
  }

  /** Part `i` is the first whose failure escapes, with `f`. */
  predicate FirstSecondEscapeAt(populated: seq<Result<Record, LookupFailure>>, i: int, f: LookupFailure)
    requires forall i :: 0 <= i < |populated| && populated[i].Ok? ==> "Id" in populated[i].value
  {
    && 0 <= i < |populated| && SecondEscapes(populated[i]) && EscapeFailure(populated[i]) == f
    && forall j :: 0 <= j < i ==> !SecondEscapes(populated[j])
  }

  /** Whether a remapped part is sent: it still has work and its `Id` is an id. */
  predicate Sent(populated: Result<Record, LookupFailure>)
    requires populated.Ok? ==> "Id" in populated.value
  {
    populated.Ok? && HasDeferredWork(populated.value) && ParseVal(populated.value["Id"]).Ok?
  }

  /** The update a remapped part queues: the part under its record's new id, when it is sent. */
  function UpdateOne(idMap: IdMap, populated: Result<Record, LookupFailure>): seq<Record>
    requires populated.Ok? ==> "Id" in populated.value
  {
    if Sent(populated)
    then [populated.value["Id" := Text(NewIdText(idMap, ParseVal(populated.value["Id"]).value))]]
    else []
  }

  /** The original id a remapped part notes: its `Id`, when it is sent. */
  function SentIdOne(populated: Result<Record, LookupFailure>): seq<Val>
    requires populated.Ok? ==> "Id" in populated.value
  {
    if Sent(populated) then [populated.value["Id"]] else []
  }

  /** The error a remapping records: the outside reference refused under ERROR, if any. */
  function RefusedOne(populated: Result<Record, LookupFailure>): seq<Error> {
    if populated.Err? && populated.error.OutsideNotAllowed? then [populated.error.error] else []
  }

  /** The updates queued for the remapped parts, in order. */
  function Updates(idMap: IdMap, populated: seq<Result<Record, LookupFailure>>): seq<Record>
    requires forall i :: 0 <= i < |populated| && populated[i].Ok? ==> "Id" in populated[i].value
  {
    if populated == [] then [] else UpdateOne(idMap, populated[0]) + Updates(idMap, populated[1..])
  }

  /** The original ids of the parts sent, in order. */
  function SentIds(populated: seq<Result<Record, LookupFailure>>): seq<Val>
    requires forall i :: 0 <= i < |populated| && populated[i].Ok? ==> "Id" in populated[i].value
  {
    if populated == [] then [] else SentIdOne(populated[0]) + SentIds(populated[1..])
  }

  /** The outside references refused, in order. */
  function Refused(populated: seq<Result<Record, LookupFailure>>): seq<Error> {
    if populated == [] then [] else RefusedOne(populated[0]) + Refused(populated[1..])
  }

  /** The second pass past a first part whose failure does not escape, with what it gathered from that part. */
  lemma PassOnePart(idMap: IdMap, acc: SecondPass, populated: seq<Result<Record, LookupFailure>>) returns (next: SecondPass)
    requires forall i :: 0 <= i < |populated| && populated[i].Ok? ==> "Id" in populated[i].value
    requires acc.raised.None? && populated != [] && !SecondEscapes(populated[0])
    ensures SecondPassFrom(idMap, acc, populated) == SecondPassFrom(idMap, next, populated[1..])
    ensures next.toUpdate == acc.toUpdate + UpdateOne(idMap, populated[0])
    ensures next.originalIds == acc.originalIds + SentIdOne(populated[0])
    ensures next.errors == acc.errors + RefusedOne(populated[0])
    ensures next.raised == acc.raised
  {
    next := SecondPassRecord(idMap, acc, populated[0]);
    PassingPart(idMap, acc, populated[0]);
  }

  /** A part whose failure does not escape, in the terms of the pass's contents. */
  lemma PassingPart(idMap: IdMap, acc: SecondPass, populated: Result<Record, LookupFailure>)
    requires populated.Ok? ==> "Id" in populated.value
    requires !SecondEscapes(populated)
    ensures var next := SecondPassRecord(idMap, acc, populated);
            && next.toUpdate == acc.toUpdate + UpdateOne(idMap, populated)
            && next.originalIds == acc.originalIds + SentIdOne(populated)
            && next.errors == acc.errors + RefusedOne(populated)
            && next.raised == acc.raised
  {
  }

  /**
   * What the second pass gathers. It escapes exactly when some part's
   * failure escapes, and then with the first such failure. Without an
   * escape, each part that still has work is queued for update under its
   * record's new id, its original id noted, and each outside reference
   * refused under ERROR recorded, each in order.
   */
  lemma SecondPassContents(idMap: IdMap, acc: SecondPass, populated: seq<Result<Record, LookupFailure>>)
    requires forall i :: 0 <= i < |populated| && populated[i].Ok? ==> "Id" in populated[i].value
    requires acc.raised.None?
    ensures var r := SecondPassFrom(idMap, acc, populated);
            && (r.raised.None? <==> forall i :: 0 <= i < |populated| ==> !SecondEscapes(populated[i]))
            && (r.raised.Some? ==> exists i :: FirstSecondEscapeAt(populated, i, r.raised.value))
            && (r.raised.None? ==>
                  && r.toUpdate == acc.toUpdate + Updates(idMap, populated)
                  && r.originalIds == acc.originalIds + SentIds(populated)
                  && r.errors == acc.errors + Refused(populated))
  {
    SecondPassEscape(idMap, acc, populated);
    NoSecondEscapeAll(populated);
    if NoSecondEscape(populated) {
      SecondPassUpdates(idMap, acc, populated);
      SecondPassSentIds(idMap, acc, populated);
      SecondPassRefused(idMap, acc, populated);
    }
  }

  /** The second pass escapes exactly when a part's failure escapes, and then with the first one. */
  lemma {:induction false} SecondPassEscape(idMap: IdMap, acc: SecondPass, populated: seq<Result<Record, LookupFailure>>)
    requires forall i :: 0 <= i < |populated| && populated[i].Ok? ==> "Id" in populated[i].value
    requires acc.raised.None?
    ensures var r := SecondPassFrom(idMap, acc, populated);
            && (r.raised.None? <==> forall i :: 0 <= i < |populated| ==> !SecondEscapes(populated[i]))
            && (r.raised.Some? ==> exists i :: FirstSecondEscapeAt(populated, i, r.raised.value))
    decreases |populated|
  {
    if populated != [] {
      var next := SecondPassRecord(idMap, acc, populated[0]);
      assert SecondPassFrom(idMap, acc, populated) == SecondPassFrom(idMap, next, populated[1..]);
      if SecondEscapes(populated[0]) {
        assert next.raised == Some(EscapeFailure(populated[0]));
        assert SecondPassFrom(idMap, next, populated[1..]) == next;
        assert FirstSecondEscapeAt(populated, 0, next.raised.value);
      } else {
        PassingPart(idMap, acc, populated[0]);
        SecondPassEscape(idMap, next, populated[1..]);
        var r := SecondPassFrom(idMap, next, populated[1..]);
        assert forall i :: 1 <= i < |populated| ==> populated[i] == populated[1..][i - 1];
        if r.raised.Some? {
          var i :| FirstSecondEscapeAt(populated[1..], i, r.raised.value);
          assert FirstSecondEscapeAt(populated, i + 1, r.raised.value);
        }
      }
    }
  }

  /** Without an escape, each part sent is queued under its record's new id, in order. */
  lemma {:induction false} SecondPassUpdates(idMap: IdMap, acc: SecondPass, populated: seq<Result<Record, LookupFailure>>)
    requires forall i :: 0 <= i < |populated| && populated[i].Ok? ==> "Id" in populated[i].value
    requires acc.raised.None?
    requires NoSecondEscape(populated)
    ensures var r := SecondPassFrom(idMap, acc, populated);
            r.raised.None? && r.toUpdate == acc.toUpdate + Updates(idMap, populated)
    decreases |populated|
  {
    if populated != [] {
      var next := PassOnePart(idMap, acc, populated);
      SecondPassUpdates(idMap, next, populated[1..]);
      AppendAssoc(acc.toUpdate, UpdateOne(idMap, populated[0]), Updates(idMap, populated[1..]));
    }
  }

  /** Without an escape, the original id of each part sent is noted, in order. */
  lemma {:induction false} SecondPassSentIds(idMap: IdMap, acc: SecondPass, populated: seq<Result<Record, LookupFailure>>)
    requires forall i :: 0 <= i < |populated| && populated[i].Ok? ==> "Id" in populated[i].value
    requires acc.raised.None?
    requires NoSecondEscape(populated)
    ensures var r := SecondPassFrom(idMap, acc, populated);
            r.raised.None? && r.originalIds == acc.originalIds + SentIds(populated)
    decreases |populated|
  {
    if populated != [] {
      var next := PassOnePart(idMap, acc, populated);
      SecondPassSentIds(idMap, next, populated[1..]);
      AppendAssoc(acc.originalIds, SentIdOne(populated[0]), SentIds(populated[1..]));
    }
  }

  /** Without an escape, each outside reference refused under ERROR is recorded, in order. */
  lemma {:induction false} SecondPassRefused(idMap: IdMap, acc: SecondPass, populated: seq<Result<Record, LookupFailure>>)
    requires forall i :: 0 <= i < |populated| && populated[i].Ok? ==> "Id" in populated[i].value
    requires acc.raised.None?
    requires NoSecondEscape(populated)
    ensures var r := SecondPassFrom(idMap, acc, populated);
            r.raised.None? && r.errors == acc.errors + Refused(populated)
    decreases |populated|
  {
    if populated != [] {
      var next := PassOnePart(idMap, acc, populated);
      SecondPassRefused(idMap, next, populated[1..]);
      AppendAssoc(acc.errors, RefusedOne(populated[0]), Refused(populated[1..]));
    }
  }

  /** Every record queued for update is addressed by the new id of its original record (`"None"` when it has none). */
  predicate AddressedByNewIds(idMap: IdMap, q: SecondPass) {
    && |q.toUpdate| == |q.originalIds|
    && forall i :: 0 <= i < |q.originalIds| ==>
         && ParseVal(q.originalIds[i]).Ok?
         && "Id" in q.toUpdate[i]
         && q.toUpdate[i]["Id"] == Text(NewIdText(idMap, ParseVal(q.originalIds[i]).value))
  }

  lemma {:induction false} SecondPassAddressesNewIds(idMap: IdMap, acc: SecondPass, populated: seq<Result<Record, LookupFailure>>)
    requires forall i :: 0 <= i < |populated| && populated[i].Ok? ==> "Id" in populated[i].value
    requires AddressedByNewIds(idMap, acc)
    ensures AddressedByNewIds(idMap, SecondPassFrom(idMap, acc, populated))
    decreases |populated|
  {
    if populated != [] && acc.raised.None? {
      var next := SecondPassRecord(idMap, acc, populated[0]);
      assert AddressedByNewIds(idMap, next);
      SecondPassAddressesNewIds(idMap, next, populated[1..]);
    }
  }

  /**
   * Once an old id is registered, a lookup holding that id, in either of its
   * forms, is remapped to the new id whatever the outside-lookup behaviour.
   */
  lemma RegisteredIdResolves(idMap: IdMap, oldId: SalesforceId, newId: SalesforceId, b: OutsideLookupBehavior,
                             objectName: string, lookup: string, value: Val, recordId: Val)
    requires NonEmpty(value) && FromString(value.s) == Ok(oldId)
    ensures GetValueForLookup(idMap[oldId := newId], b, objectName, lookup, value, recordId) == Ok(Text(newId.id))
  {
  }

  /**
   * The loop of `LoadStep.execute` over the input rows, stopping when a
   * failure escapes.
   */
  method FirstPassLoop(prep: Preparation, idMap: IdMap, rows: seq<Record>, header: seq<string>) returns (p: FirstPass)
    requires PreparationOk(prep)
    requires forall i :: 0 <= i < |rows| ==> RowOk(rows[i], header)
    ensures p == FirstPassOver(prep.lookups, rows, PreparedRows(prep, idMap, rows, header))
  {
    ghost var prepared := PreparedRows(prep, idMap, rows, header);
    p := NoFirstPass;
    var i := 0;
    while i < |rows| && p.raised.None?
      invariant 0 <= i <= |rows|
      invariant FirstPassOver(prep.lookups, rows, prepared) == FirstPassFrom(prep.lookups, p, rows[i..], prepared[i..])
    {
      var row := rows[i];
      var part := ExtractDependentLookups(row, prep.lookups);
      var deferred := if HasDeferredWork(part) then p.deferred + [part] else p.deferred;
      var result := PrepareRecord(prep, idMap, row, header);
      assert result == prepared[i];
      ghost var next := FirstPassRecord(prep.lookups, p, row, result);
      match result {
        case Ok(q) => p := FirstPass(p.toLoad + [q], p.originalIds + [row["Id"]], p.errors, deferred, None);
        case Err(Caught(e)) => p := FirstPass(p.toLoad, p.originalIds + [row["Id"]], p.errors + [e], deferred, None);
        case Err(Uncaught(f)) => p := FirstPass(p.toLoad, p.originalIds + [row["Id"]], p.errors, deferred, Some(f));
      }
      assert p == next;
      assert rows[i..][1..] == rows[i + 1..] && prepared[i..][1..] == prepared[i + 1..];
      i := i + 1;
    }
  }

  /** The loop of `execute_dependent_updates` over the queued parts, stopping when a failure escapes. */
  method SecondPassLoop(objectName: string, policy: LookupPolicy, idMap: IdMap, all: set<string>,
                        parts: seq<Record>, header: seq<string>) returns (q: SecondPass)
    requires forall i :: 0 <= i < |parts| ==> RowOk(parts[i], header)
    ensures q == SecondPassOver(idMap, PopulatedParts(objectName, policy, idMap, all, parts, header))
  {
    ghost var populated := PopulatedParts(objectName, policy, idMap, all, parts, header);
    q := NoSecondPass;
    var i := 0;
    while i < |parts| && q.raised.None?
      invariant 0 <= i <= |parts|
      invariant SecondPassOver(idMap, populated) == SecondPassFrom(idMap, q, populated[i..])
    {
      var part := parts[i];
      var remapped := PopulateLookups(objectName, policy, idMap, part, all, part["Id"], header);
      assert remapped == populated[i];
      ghost var next := SecondPassRecord(idMap, q, remapped);
      SecondPassAdvance(idMap, q, populated, i);
      match remapped {
        case Err(OutsideNotAllowed(e)) => q := q.(errors := q.errors + [e]);
        case Err(f) => q := q.(raised := Some(f));
        case Ok(cleaned) =>
          if HasDeferredWork(cleaned) {
            match ParseVal(cleaned["Id"]) {
              case Err(f) => q := q.(raised := Some(f));
              case Ok(id) =>
                var newId := if id in idMap then idMap[id].id else "None";
                q := q.(toUpdate := q.toUpdate + [cleaned["Id" := Text(newId)]],
                        originalIds := q.originalIds + [cleaned["Id"]]);
            }
          }
      }
      assert q == next;
      i := i + 1;
    }
  }

  /** The loop noting an error for each record whose update failed, in order. */
  method FailedUpdatesLoop(objectName: string, ids: seq<Val>, results: seq<bool>) returns (errors: seq<Error>)
    requires |ids| == |results|
    ensures errors == FailedUpdates(objectName, ids, results)
  {
    errors := [];
    var j := 0;
    while j < |results|
      invariant 0 <= j <= |results|
      invariant errors + FailedUpdates(objectName, ids[j..], results[j..]) == FailedUpdates(objectName, ids, results)
    {
      if !results[j] {
        errors := errors + [UpdateFailed(objectName, ids[j])];
      }
      assert ids[j..][1..] == ids[j + 1..] && results[j..][1..] == results[j + 1..];
      j := j + 1;
    }
  }

  // ---------------------------------------------------------------------
  // The bulk channel.

  /**
   * The per-record results the channel returns for a bulk insert or update
   * of `records`: one answer per record sent, in the order sent.
   */
  function BulkResults<T>(outcome: (string, seq<Record>, nat) -> T, objectName: string, records: seq<Record>): (r: seq<T>)
    ensures |r| == |records|
  {
    seq(|records|, i requires 0 <= i => outcome(objectName, records, i))
  }

  /** A log that holds one insert per object of `names`, in order, and then only updates. */
  predicate InsertsThenUpdates(log: seq<BulkCall>, names: seq<string>) {
    && |names| <= |log|
    && (forall i :: 0 <= i < |names| ==> log[i].InsertCall? && log[i].objectName == names[i])
    && (forall i :: |names| <= i < |log| ==> log[i].UpdateCall?)
  }

  /** A log that holds at most one insert per object of `names`, in order, and nothing else. */
  predicate InsertsOnly(log: seq<BulkCall>, names: seq<string>) {
    && |log| <= |names|
    && (forall i :: 0 <= i < |log| ==> log[i].InsertCall? && log[i].objectName == names[i])
  }

  /** The pass an outcome was reached in; a completed run went through both. */
  function Stage(o: Outcome): Phase {
    match o
    case Completed => UpdatePhase
    case Halted(_, phase) => phase
    case Raised(_, phase, _) => phase
  }

  // ---------------------------------------------------------------------
  // The operation and its steps.

  class LoadOperation {
    var steps: seq<LoadStep>
    /** The describe data of each object (`get_field_map`). */
    const fieldMaps: map<string, FieldMap>
    var inputFiles: map<string, InputFile>
    /** The rows written so far to each object's result file. */
    var resultFiles: map<string, seq<ResultRow>>
    var mappers: map<string, DataMapper>
    var globalIdMap: IdMap
    /** Every call made on the bulk channel, oldest first. */
    var calls: seq<BulkCall>
    const insertOutcome: (string, seq<Record>, nat) -> InsertResult
    const updateOutcome: (string, seq<Record>, nat) -> bool

    constructor (fieldMaps: map<string, FieldMap>,
                 insertOutcome: (string, seq<Record>, nat) -> InsertResult,
                 updateOutcome: (string, seq<Record>, nat) -> bool)
      ensures this.fieldMaps == fieldMaps
      ensures this.insertOutcome == insertOutcome && this.updateOutcome == updateOutcome
      ensures steps == [] && inputFiles == map[] && resultFiles == map[] && mappers == map[]
      ensures globalIdMap == map[] && calls == []
    {
      this.fieldMaps := fieldMaps;
      this.insertOutcome := insertOutcome;
      this.updateOutcome := updateOutcome;
      steps := [];
      inputFiles := map[];
      resultFiles := map[];
      mappers := map[];
      globalIdMap := map[];
      calls := [];
    }

    /** `add_step`: the step joins the end of the list and runs in this operation. */
    method AddStep(step: LoadStep)
      modifies this`steps, step`context
      ensures steps == old(steps) + [step] && step.context == this
    {
      step.context := this;
      steps := steps + [step];
    }

    /** `get_sobject_list`: the steps' objects, in order. */
    function SObjects(): (r: seq<string>)
      reads this`steps
      ensures |r| == |steps| && forall i :: 0 <= i < |steps| ==> r[i] == steps[i].objectName
    {
      var ss := steps;
      seq(|ss|, i requires 0 <= i < |ss| => ss[i].objectName)
    }

    method SetInputFile(objectName: string, f: InputFile)
      modifies this`inputFiles
      ensures inputFiles == old(inputFiles)[objectName := f]
    {
      inputFiles := inputFiles[objectName := f];
    }

    /** `set_result_file`: a fresh result file for the object. */
    method SetResultFile(objectName: string)
      modifies this`resultFiles
      ensures resultFiles == old(resultFiles)[objectName := []]
    {
      resultFiles := resultFiles[objectName := []];
    }

    /** `get_new_id`: the new id registered for an old id, if any. */
    function GetNewId(oldId: SalesforceId): (r: Option<SalesforceId>)
      reads this
      ensures r.Some? <==> oldId in globalIdMap
      ensures r.Some? ==> r.value == globalIdMap[oldId]
    {
      if oldId in globalIdMap then Some(globalIdMap[oldId]) else None
    }

    /**
     * `register_new_id`: from now on `GetNewId(oldId)` is the new id, every
     * other id keeps its mapping, and when the object has a result file the
     * pair is written to it.
     */
    method RegisterNewId(objectName: string, oldId: SalesforceId, newId: SalesforceId)
      modifies this`globalIdMap, this`resultFiles
      ensures GetNewId(oldId) == Some(newId)
      ensures forall other :: other != oldId ==> GetNewId(other) == old(GetNewId(other))
      ensures globalIdMap == old(globalIdMap)[oldId := newId]
      ensures resultFiles == WithRows(old(resultFiles), objectName, [ResultRow(oldId.id, newId.id)])
    {
      globalIdMap := globalIdMap[oldId := newId];
      if objectName in resultFiles {
        resultFiles := resultFiles[objectName := resultFiles[objectName] + [ResultRow(oldId.id, newId.id)]];
      }
    }

    /** The bulk proxy's `insert`. */
    method Insert(objectName: string, records: seq<Record>) returns (results: seq<InsertResult>)
      modifies this`calls
      ensures calls == old(calls) + [InsertCall(objectName, records)]
      ensures results == BulkResults(insertOutcome, objectName, records)
    {
      calls := calls + [InsertCall(objectName, records)];
      results := BulkResults(insertOutcome, objectName, records);
    }

    /** The bulk proxy's `update`. */
    method Update(objectName: string, records: seq<Record>) returns (results: seq<bool>)
      modifies this`calls
      ensures calls == old(calls) + [UpdateCall(objectName, records)]
      ensures results == BulkResults(updateOutcome, objectName, records)
    {
      calls := calls + [UpdateCall(objectName, records)];
      results := BulkResults(updateOutcome, objectName, records);
    }

    /**
     * What a step needs of the operation: the object's describe data covers
     * the step's fields, and its input file is present and well formed.
     */
    predicate Configured(objectName: string, scope: set<string>)
      reads this`inputFiles
    {
      && objectName in fieldMaps && scope <= fieldMaps[objectName].Keys
      && objectName in inputFiles && InputOk(inputFiles[objectName])
    }

    /**
     * The operation is ready to run: each object is loaded by one step, every
     * step belongs to this operation and is configured, and the parts each
     * step has queued for the second pass come from its input file.
     */
    predicate Valid()
      reads this`steps, this`inputFiles, steps`context, steps`dependentLookupRecords
    {
      && Distinct(SObjects())
      && forall i :: 0 <= i < |steps| ==> StepOk(steps[i])
    }

    /** The step belongs to this operation, which is configured for it, and its queued parts are well formed. */
    predicate StepOk(s: LoadStep)
      reads s`context, s`dependentLookupRecords, this`inputFiles
    {
      s.context == this && s.QueuedOk()
    }

    /**
     * `execute`: runs the first pass of every step, in order, then the second
     * pass of every step, in order, stopping at the first step that has
     * collected errors. No update is sent before every step's insert has
     * been sent, and an insert is sent only by a step without errors.
     */
    method Execute() returns (outcome: Outcome)
      requires Valid()
      modifies this`globalIdMap, this`resultFiles, this`calls, steps
      ensures outcome.Completed? ==> forall i :: 0 <= i < |steps| ==> steps[i].errors == []
      ensures outcome.Halted? ==> outcome.step < |steps| && steps[outcome.step].errors != []
      ensures outcome.Raised? ==> outcome.step < |steps|
      ensures old(calls) <= calls
      ensures Stage(outcome) == InsertPhase ==> InsertsOnly(calls[|old(calls)|..], SObjects())
      ensures Stage(outcome) == UpdatePhase ==> InsertsThenUpdates(calls[|old(calls)|..], SObjects())
      ensures !outcome.Completed? ==> forall j :: 0 <= j < outcome.step ==> steps[j].errors == []
      ensures !outcome.Completed? && outcome.phase == InsertPhase ==> |calls| - |old(calls)| <= outcome.step + 1
      ensures !outcome.Completed? && outcome.phase == UpdatePhase ==> |calls| - |old(calls)| <= |steps| + outcome.step + 1
      ensures outcome.Completed? ==> |calls| - |old(calls)| <= 2 * |steps|
      ensures steps == old(steps)
    {
      outcome := InsertPass();
      if outcome.Completed? {
        outcome := UpdatePass();
      }
    }

    /**
     * The first loop of `execute`: each step's lookups are classified and its
     * first pass run, in order, stopping at the first step with errors. On
     * completion every step has sent exactly its one insert.
     */
    method InsertPass() returns (outcome: Outcome)
      requires Valid()
      modifies this`globalIdMap, this`resultFiles, this`calls, steps
      ensures Valid() && steps == old(steps)
      ensures !outcome.Completed? ==> Stage(outcome) == InsertPhase
      ensures outcome.Completed? ==> forall i :: 0 <= i < |steps| ==> steps[i].errors == []
      ensures outcome.Halted? ==> outcome.step < |steps| && steps[outcome.step].errors != []
      ensures outcome.Raised? ==> outcome.step < |steps|
      ensures old(calls) <= calls
      ensures InsertsOnly(calls[|old(calls)|..], SObjects())
      ensures outcome.Completed? ==> |calls| - |old(calls)| == |steps|
      ensures !outcome.Completed? ==> forall j :: 0 <= j < outcome.step ==> steps[j].errors == []
      ensures !outcome.Completed? ==> |calls| - |old(calls)| <= outcome.step + 1
    {
      var i := 0;
      while i < |steps|
        invariant 0 <= i <= |steps| && steps == old(steps)
        invariant Valid()
        invariant old(calls) <= calls
        invariant |calls| - |old(calls)| == i
        invariant forall k :: |old(calls)| <= k < |calls| ==>
                    calls[k].InsertCall? && calls[k].objectName == steps[k - |old(calls)|].objectName
        invariant forall j :: 0 <= j < i ==> steps[j].errors == []
      {
        var s := steps[i];
        var raised := InsertStep(i);
        if raised.Some? {
          return Raised(i, InsertPhase, raised.value);
        }
        if s.errors != [] {
          return Halted(i, InsertPhase);
        }
        i := i + 1;
      }
      return Completed;
    }

    /**
     * The turn of the first loop of `execute` for step `i`: at most one call
     * is sent, an insert of the step's object, and one is sent when the step
     * ends without errors or an escaped failure; no other step changes.
     */
    method InsertStep(i: nat) returns (raised: Option<LookupFailure>)
      requires Valid() && i < |steps|
      modifies this`globalIdMap, this`resultFiles, this`calls, steps[i]
      ensures Valid() && steps == old(steps)
      ensures old(calls) <= calls && |calls| <= |old(calls)| + 1
      ensures forall k :: |old(calls)| <= k < |calls| ==> calls[k].InsertCall? && calls[k].objectName == steps[i].objectName
      ensures raised.None? && steps[i].errors == [] ==> |calls| == |old(calls)| + 1
      ensures forall j :: 0 <= j < |steps| && j != i ==> steps[j].errors == old(steps[j].errors)
    {
      var s := steps[i];
      forall j | 0 <= j < |steps| && j != i ensures steps[j] != s {
        assert SObjects()[j] != SObjects()[i];
      }
      raised := s.RunFirstPass();
    }

    /**
     * The turn of the second loop of `execute` for step `i`: at most one
     * call is sent, an update; no other step changes.
     */
    method UpdateStep(i: nat) returns (raised: Option<LookupFailure>)
      requires Valid() && i < |steps|
      modifies this`calls, steps[i]
      ensures Valid() && steps == old(steps)
      ensures old(calls) <= calls && |calls| <= |old(calls)| + 1
      ensures forall k :: |old(calls)| <= k < |calls| ==> calls[k].UpdateCall? && calls[k].objectName == steps[i].objectName
      ensures forall j :: 0 <= j < |steps| && j != i ==> steps[j].errors == old(steps[j].errors)
    {
      var s := steps[i];
      forall j | 0 <= j < |steps| && j != i ensures steps[j] != s {
        assert SObjects()[j] != SObjects()[i];
      }
      raised := s.ExecuteDependentUpdates();
    }

    /**
     * The second loop of `execute`: each step's dependent updates, in order,
     * stopping at the first step with errors; only updates are sent.
     */
    method UpdatePass() returns (outcome: Outcome)
      requires Valid()
      requires forall i :: 0 <= i < |steps| ==> steps[i].errors == []
      modifies this`calls, steps
      ensures Stage(outcome) == UpdatePhase && steps == old(steps)
      ensures outcome.Completed? ==> forall i :: 0 <= i < |steps| ==> steps[i].errors == []
      ensures outcome.Halted? ==> outcome.step < |steps| && steps[outcome.step].errors != []
      ensures outcome.Raised? ==> outcome.step < |steps|
      ensures old(calls) <= calls
      ensures forall k :: |old(calls)| <= k < |calls| ==> calls[k].UpdateCall?
      ensures !outcome.Completed? ==> forall j :: 0 <= j < outcome.step ==> steps[j].errors == []
      ensures !outcome.Completed? ==> |calls| - |old(calls)| <= outcome.step + 1
      ensures outcome.Completed? ==> |calls| - |old(calls)| <= |steps|
    {
      var i := 0;
      while i < |steps|
        invariant 0 <= i <= |steps| && steps == old(steps)
        invariant Valid()
        invariant old(calls) <= calls
        invariant |calls| - |old(calls)| <= i
        invariant forall k :: |old(calls)| <= k < |calls| ==> calls[k].UpdateCall?
        invariant forall j :: 0 <= j < |steps| ==> steps[j].errors == []
      {
        var s := steps[i];
        var raised := UpdateStep(i);
        if raised.Some? {
          return Raised(i, UpdatePhase, raised.value);
        }
        if s.errors != [] {
          return Halted(i, UpdatePhase);
        }
        i := i + 1;
      }
      return Completed;
    }
  }

  class LoadStep {
    const objectName: string
    const fieldScope: set<string>
    const outsideLookupBehavior: OutsideLookupBehavior
    var lookupBehaviors: map<string, OutsideLookupBehavior>
    var lookups: Lookups
    var errors: seq<Error>
    /** The deferred parts queued by the first pass for the second. */
    var dependentLookupRecords: seq<Record>
    var context: LoadOperation?

    constructor (objectName: string, fieldScope: set<string>, outsideLookupBehavior: OutsideLookupBehavior)
      ensures this.objectName == objectName && this.fieldScope == fieldScope
      ensures this.outsideLookupBehavior == outsideLookupBehavior
      ensures lookupBehaviors == map[] && lookups == NoLookups
      ensures errors == [] && dependentLookupRecords == [] && context == null
    {
      this.objectName := objectName;
      this.fieldScope := fieldScope;
      this.outsideLookupBehavior := outsideLookupBehavior;
      lookupBehaviors := map[];
      lookups := NoLookups;
      errors := [];
      dependentLookupRecords := [];
      context := null;
    }

    /** The step's outside-lookup policy: its default and its per-field overrides. */
    function Policy(): LookupPolicy
      reads this`lookupBehaviors
    {
      LookupPolicy(outsideLookupBehavior, lookupBehaviors)
    }

    /** `set_lookup_behavior_for_field`: the field now follows `b`; every other field is as before. */
    method SetLookupBehaviorForField(field: string, b: OutsideLookupBehavior)
      modifies this`lookupBehaviors
      ensures BehaviorFor(Policy(), field) == b
      ensures forall f :: f != field ==> BehaviorFor(Policy(), f) == old(BehaviorFor(Policy(), f))
      ensures lookupBehaviors == old(lookupBehaviors)[field := b]
    {
      lookupBehaviors := lookupBehaviors[field := b];
    }

    /** The step belongs to an operation configured for its object. */
    predicate Ready()
      reads this`context, (if context == null then {} else {context})`inputFiles
    {
      context != null && context.Configured(objectName, fieldScope)
    }

    /** The header of the step's input file. */
    function Header(): seq<string>
      requires Ready()
      reads this`context, context`inputFiles
    {
      context.inputFiles[objectName].header
    }

    /** The parts queued for the second pass have work in them and come from rows of the input file. */
    predicate QueuedOk()
      reads this`context, this`dependentLookupRecords, (if context == null then {} else {context})`inputFiles
    {
      Ready() && PartsOk(dependentLookupRecords, Header())
    }

    /** Everything the first pass needs to prepare a record of this step. */
    function Prep(): (prep: Preparation)
      requires Ready()
      reads this`context, this`lookupBehaviors, this`lookups, context`inputFiles, context`mappers
      ensures PreparationOk(prep)
    {
      var mapper := if objectName in context.mappers then Some(context.mappers[objectName]) else None;
      Preparation(objectName, fieldScope, context.fieldMaps[objectName], mapper, Policy(), lookups)
    }

    /** `scan_fields`: the step's lookups, classified against the operation's objects. */
    method ScanFields()
      requires Ready() && objectName in context.SObjects()
      modifies this`lookups
      ensures lookups == Schema.ScanFields(objectName, fieldScope, context.fieldMaps[objectName], context.SObjects())
    {
      lookups := Schema.ScanFields(objectName, fieldScope, context.fieldMaps[objectName], context.SObjects());
    }

    /**
     * One turn of the operation's first loop: `scan_fields`, then `execute`.
     * At most one call is sent, an insert of this step's object, and it is
     * sent exactly when the first pass over the input rows, under the
     * lookups just classified, neither escapes nor leaves the step with
     * errors; registering the insert's results may add errors after it.
     */
    method RunFirstPass() returns (raised: Option<LookupFailure>)
      requires QueuedOk() && objectName in context.SObjects()
      modifies this`lookups, this`errors, this`dependentLookupRecords, context`globalIdMap, context`resultFiles, context`calls
      ensures QueuedOk()
      ensures old(context.calls) <= context.calls && |context.calls| <= |old(context.calls)| + 1
      ensures forall k :: |old(context.calls)| <= k < |context.calls| ==>
                context.calls[k].InsertCall? && context.calls[k].objectName == objectName
      ensures raised.None? && errors == [] ==> |context.calls| == |old(context.calls)| + 1
      ensures lookups == Schema.ScanFields(objectName, fieldScope, context.fieldMaps[objectName], context.SObjects())
      ensures var input := context.inputFiles[objectName];
              var p := FirstPassOver(lookups, input.rows, PreparedRows(Prep(), old(context.globalIdMap), input.rows, input.header));
              |context.calls| == |old(context.calls)| + 1 <==> p.raised.None? && old(errors) + p.errors == []
    {
      ScanFields();
      raised := Execute();
    }

    /**
     * `execute`, the first pass: every input row is prepared in order (see
     * `FirstPassOver`); a step with errors, old or new, sends nothing;
     * otherwise the prepared records are inserted and the results registered
     * in order (see `RegisterAll`).
     */
    method Execute() returns (raised: Option<LookupFailure>)
      requires Ready() && QueuedOk()
      modifies this`errors, this`dependentLookupRecords, context`globalIdMap, context`resultFiles, context`calls
      ensures QueuedOk()
      ensures var input := context.inputFiles[objectName];
              var p := FirstPassOver(lookups, input.rows, PreparedRows(old(Prep()), old(context.globalIdMap), input.rows, input.header));
              && dependentLookupRecords == old(dependentLookupRecords) + p.deferred
              && (p.raised.Some? || old(errors) + p.errors != [] ==>
                    && raised == p.raised && errors == old(errors) + p.errors
                    && unchanged(context))
              && (p.raised.None? && old(errors) + p.errors == [] ==>
                    var results := BulkResults(context.insertOutcome, objectName, p.toLoad);
                    var reg := RegisterAll(objectName, old(context.globalIdMap), p.originalIds, results);
                    && context.calls == old(context.calls) + [InsertCall(objectName, p.toLoad)]
                    && context.globalIdMap == reg.idMap
                    && context.resultFiles == WithRows(old(context.resultFiles), objectName, reg.rows)
                    && errors == reg.errors && raised == reg.raised)
    {
      var input := context.inputFiles[objectName];
      var toLoad, originalIds;
      toLoad, originalIds, raised := PrepareRows(input.rows, input.header);
      if raised.Some? || errors != [] {
        return;
      }
      var results := context.Insert(objectName, toLoad);
      raised := RegisterResults(originalIds, results);
    }

    /** The first pass over the input rows, its errors and queued parts added to the step's. */
    method PrepareRows(rows: seq<Record>, header: seq<string>) returns (toLoad: seq<Record>, originalIds: seq<Val>, raised: Option<LookupFailure>)
      requires Ready() && QueuedOk()
      requires rows == context.inputFiles[objectName].rows && header == Header()
      modifies this`errors, this`dependentLookupRecords
      ensures QueuedOk()
      ensures var p := FirstPassOver(lookups, rows, PreparedRows(Prep(), context.globalIdMap, rows, header));
              && toLoad == p.toLoad && originalIds == p.originalIds && raised == p.raised
              && errors == old(errors) + p.errors
              && dependentLookupRecords == old(dependentLookupRecords) + p.deferred
    {
      var p := FirstPassLoop(Prep(), context.globalIdMap, rows, header);
      errors := errors + p.errors;
      dependentLookupRecords := dependentLookupRecords + p.deferred;
      toLoad, originalIds, raised := p.toLoad, p.originalIds, p.raised;
      DeferredPartsOk(lookups, NoFirstPass, rows, PreparedRows(Prep(), context.globalIdMap, rows, header), header);
    }

    /** The loop registering the results of the insert, in order. */
    method RegisterResults(originalIds: seq<Val>, results: seq<InsertResult>) returns (raised: Option<LookupFailure>)
      requires context != null && |originalIds| == |results|
      modifies this`errors, context`globalIdMap, context`resultFiles
      ensures var reg := RegisterAll(objectName, old(context.globalIdMap), originalIds, results);
              && context.globalIdMap == reg.idMap
              && context.resultFiles == WithRows(old(context.resultFiles), objectName, reg.rows)
              && errors == old(errors) + reg.errors && raised == reg.raised
    {
      var parsed := ParsedIds(originalIds);
      ghost var files0, errors0 := context.resultFiles, errors;
      ghost var acc := Registration(context.globalIdMap, [], [], None);
      assert files0 == WithRows(files0, objectName, []) by {
        if objectName in files0 {
          assert files0[objectName] + [] == files0[objectName];
        }
      }
      raised := None;
      var j := 0;
      while j < |results| && raised.None?
        invariant 0 <= j <= |results|
        invariant RegisterAll(objectName, old(context.globalIdMap), originalIds, results)
               == RegisterFrom(objectName, acc, originalIds[j..], parsed[j..], results[j..])
        invariant context.globalIdMap == acc.idMap
        invariant context.resultFiles == WithRows(files0, objectName, acc.rows)
        invariant errors == errors0 + acc.errors && raised == acc.raised
      {
        match results[j] {
          case InsertFailed =>
            errors := errors + [LoadFailed(objectName, originalIds[j])];
          case Inserted(newId) =>
            match parsed[j] {
              case Err(f) => raised := Some(f);
              case Ok(id) =>
                context.RegisterNewId(objectName, id, newId);
                WithRowsAppend(files0, objectName, acc.rows, [ResultRow(id.id, newId.id)]);
            }
        }
        acc := RegisterOne(objectName, acc, originalIds[j], parsed[j], results[j]);
        assert originalIds[j..][1..] == originalIds[j + 1..];
        assert parsed[j..][1..] == parsed[j + 1..] && results[j..][1..] == results[j + 1..];
        j := j + 1;
      }
    }

    /**
     * `execute_dependent_updates`, the second pass: with no dependent or
     * self lookups nothing happens; otherwise every queued part is remapped
     * in order (see `SecondPassOver`), and the records that still hold work
     * are updated when there are some and the step has no errors.
     */
    method ExecuteDependentUpdates() returns (raised: Option<LookupFailure>)
      requires Ready() && QueuedOk()
      modifies this`errors, context`calls
      ensures var all := Deferred(lookups);
              var q := SecondPassOver(old(context.globalIdMap),
                         PopulatedParts(objectName, Policy(), old(context.globalIdMap), all, dependentLookupRecords, Header()));
              && (all == {} ==> raised.None? && errors == old(errors) && unchanged(context))
              && (all != {} && (q.raised.Some? || q.toUpdate == [] || old(errors) + q.errors != []) ==>
                    raised == q.raised && errors == old(errors) + q.errors && unchanged(context))
              && (all != {} && q.raised.None? && q.toUpdate != [] && old(errors) + q.errors == [] ==>
                    && raised.None?
                    && context.calls == old(context.calls) + [UpdateCall(objectName, q.toUpdate)]
                    && errors == FailedUpdates(objectName, q.originalIds, BulkResults(context.updateOutcome, objectName, q.toUpdate)))
    {
      raised := None;
      var all := Deferred(lookups);
      if all == {} {
        return;
      }
      var toUpdate, originalIds;
      toUpdate, originalIds, raised := RemapQueued(all);
      if raised.None? && toUpdate != [] && errors == [] {
        var results := context.Update(objectName, toUpdate);
        errors := FailedUpdatesLoop(objectName, originalIds, results);
      }
    }

    /** The second pass over the queued parts, its errors added to the step's. */
    method RemapQueued(all: set<string>) returns (toUpdate: seq<Record>, originalIds: seq<Val>, raised: Option<LookupFailure>)
      requires QueuedOk()
      modifies this`errors
      ensures var q := SecondPassOver(context.globalIdMap,
                         PopulatedParts(objectName, Policy(), context.globalIdMap, all, dependentLookupRecords, Header()));
              && toUpdate == q.toUpdate && originalIds == q.originalIds && raised == q.raised
              && errors == old(errors) + q.errors
    {
      var q := SecondPassLoop(objectName, Policy(), context.globalIdMap, all, dependentLookupRecords, Header());
      errors := errors + q.errors;
      toUpdate, originalIds, raised := q.toUpdate, q.originalIds, q.raised;
    }
  }
}
