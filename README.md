# amaxa core, modelled in Dafny

amaxa copies a graph of related Salesforce records from one org to another.
An **extraction** (`ExtractOperation` with one `ExtractionStep` per sObject)
pulls records object by object, in the configured order. Each step pulls all
records, the records a WHERE clause selects, the descendents of records
already extracted, or only the records other steps asked for. While storing
a record, the step registers the ids its lookups require from objects still
to come. It also traces self lookups to a fixed point, and applies the
outside-lookup policy (include, drop, error) to references that leave the
extracted set. A **load** (`LoadOperation` with one `LoadStep` per sObject)
runs in two passes. The first pass inserts each object's records with their
descendent lookups remapped to the new ids. The second pass fills in the
dependent and self lookups with updates. Both runs stop at the first step
that collects errors. Record ids (`SalesforceId`) are normalised to their
18-character, case-safe form. A `DataMapper` renames and transforms the
columns of a record.

Files:

- `common.dfy`: records, values and errors.
- `ids.dfy`: `SalesforceId`.
- `schema.dfy`: `scan_fields`.
- `mapper.dfy`: `DataMapper`.
- `load_values.dfy` and `load.dfy`: the load engine.
- `extract_values.dfy` and `extract.dfy`: the extraction engine.

The classes are Dafny classes whose methods update their fields, as the
source's do. The per-record logic is pure functions with lemmas about it.
The org is a parameter: a finite store of records per object for
extraction, and outcome functions for bulk inserts and updates when
loading. Every query or bulk call is appended to a log, so the contracts
can say what was sent.

The passes of an extraction step are tied together by **progress**
(`Progress` in `extract.dfy`), a relation between the run before and after
a pass. Errors are only appended. Extracted ids only grow, and the ids
required of other objects only grow. Only the step's own object gains
extracted ids or output rows: every other object's extracted ids and output
file stay as they were. Every record of the object newly extracted on the
way was stored as `store_result` stores it. So its reported
outside-reference errors are among the errors added, its row is in the
output file, and the ids it registers on other objects are required or
extracted there. A row that says "progress is kept" means this.

## Model

| member | source | states |
|---|---|---|
| Common.PopulatedKeys | amaxa/amaxa.py:339 | exactly the keys whose value is neither `None` nor `''` |
| Common.Restrict | amaxa/amaxa.py:312 | keeps exactly the keys in the kept set, with their values |
| Common.Remove | amaxa/amaxa.py:317 | drops exactly the given keys and keeps every other value |
| Ids.AlphabetShape | amaxa/amaxa.py:49 | the 32-symbol check alphabet is the upper-case letters followed by `0`-`5` |
| Ids.Strip | amaxa/amaxa.py:40 | the result has no white space at either end |
| Ids.StripStart | amaxa/amaxa.py:40 | removes exactly the leading white space |
| Ids.StripEnd | amaxa/amaxa.py:40 | removes exactly the trailing white space |
| Ids.StripUnchanged | amaxa/amaxa.py:40 | stripping a string with no white space at either end changes nothing |
| Ids.CaseBits | amaxa/amaxa.py:44-48 | the block's case mask fits in the block's bit width |
| Ids.CheckChar | amaxa/amaxa.py:43-49 | each check character is a symbol of the alphabet |
| Ids.Suffix | amaxa/amaxa.py:42-50 | three check characters, one per 5-character block |
| Ids.FromString | amaxa/amaxa.py:36-54 | succeeds exactly for 15 or 18 characters after stripping; the result is 18 characters and starts with the stripped input; a 15-character input is extended by its suffix; other lengths raise `ValueError` |
| Ids.EqualsString | amaxa/amaxa.py:56-62 | comparing with a string normalises the string (which may raise) and compares the 18-character forms |
| Ids.New | amaxa/amaxa.py:36-54 | the constructor with its two nested loops computes `FromString` |
| Ids.CheckSuffix | amaxa/amaxa.py:42-50 | the outer loop builds exactly the three check characters |
| Ids.BlockMask | amaxa/amaxa.py:44-48 | the inner loop's `baseTwo` is the block's case mask, below 32 |
| Ids.CaseBitsInjective | amaxa/amaxa.py:44-48 | equal case masks mean upper-case letters at the same positions |
| Ids.SymbolDistinct | amaxa/amaxa.py:49 | distinct masks give distinct check characters |
| Ids.BlockCase | amaxa/amaxa.py:43-49 | one block's check character decides the case of each of its five characters |
| Ids.SuffixDeterminesCase | amaxa/amaxa.py:41-50 | equal suffixes mean identical case at all fifteen positions |
| Ids.CaseDifferenceInBlock | amaxa/amaxa.py:41-50 | ids that differ only in case differ in some check character |
| Ids.LongFormIsCaseInsensitivelyUnique | amaxa/amaxa.py:41-50 | two 15-character ids differing only in case stay different after lower-casing their 18-character forms |
| Ids.EqualToBothForms | amaxa/amaxa.py:56-62 | an id equals both the 15-character string it came from and its own 18-character form |
| Ids.NormalisedIsFixedPoint | amaxa/amaxa.py:51-52 | normalising an 18-character id again changes nothing |
| Schema.IndexOf | amaxa/amaxa.py:168 | `list.index`: the first position holding the value |
| Schema.ScanFields | amaxa/amaxa.py:143-183 | the lookups are in-scope reference fields with an in-list target; the three groups are subsets of them; self lookups target the step's own object |
| Schema.ClassificationByPosition | amaxa/amaxa.py:151-183 | with objects listed once: a lookup iff some target is listed; descendent iff a target sits before the step's object; dependent iff one sits after; self iff it targets the step's object |
| Schema.InListByPosition | amaxa/amaxa.py:154 | "a target is in the list" iff some position holds a target |
| Schema.BeforeByPosition | amaxa/amaxa.py:166-170 | the descendent test by `index` iff a target sits before the step's object |
| Schema.AfterByPosition | amaxa/amaxa.py:179-183 | the dependent test by `index` iff a target sits after the step's object |
| Schema.GroupsCoverLookups | amaxa/amaxa.py:151-183 | every lookup is in at least one of the self, descendent and dependent groups |
| Mapping.ApplyAllAppend | amaxa/amaxa.py:676-677 | the transforms run left to right: the list composes in order |
| Mapping.TransformKeys | amaxa/amaxa.py:670-674 | the output keys are exactly the renamed input keys |
| Mapping.LastWins | amaxa/amaxa.py:670-671 | when two keys are renamed alike, the later key's transformed value wins |
| Mapping.TransformRecord | amaxa/amaxa.py:670-671 | the output keys are exactly the renamed keys of the record |
| Mapping.InjectiveRenaming | amaxa/amaxa.py:670-677 | under a one-to-one renaming, each key's value appears, transformed, under its new name |
| Mapping.IdentityMapper | amaxa/amaxa.py:666-674 | a mapper built with no arguments returns the record unchanged |
| LoadRecords.BehaviorFor | amaxa/amaxa.py:258-259 | a field's override wins; the step's default applies otherwise |
| LoadRecords.GetValueForLookup | amaxa/amaxa.py:261-279 | empty stays empty; a mapped id becomes its new id; else INCLUDE keeps, DROP_FIELD empties, ERROR fails; a bad id or `None` fails |
| LoadRecords.FirstLookupFailure | amaxa/amaxa.py:281-284 | none iff every lookup in key order remaps; otherwise the failure of the first lookup in key order that fails, every earlier one remapping |
| LoadRecords.PopulateLookups | amaxa/amaxa.py:281-284 | succeeds iff every lookup remaps; same keys, lookups remapped, other values untouched; a failure is that of the first failing lookup in key order |
| LoadRecords.ConvertValue | amaxa/amaxa.py:289-303 | Booleans become `true`/`false` from their case-insensitive spellings, anything else fails; other types: empty gives `None`, ids and listed types pass, unknown types give `None` |
| LoadRecords.BooleanCoercionIdempotent | amaxa/amaxa.py:290-295 | a coerced Boolean coerces to itself |
| LoadRecords.FirstCoercionFailure | amaxa/amaxa.py:305-306 | none iff every value in key order coerces; otherwise the error of the first value in key order that fails, every earlier one coercing |
| LoadRecords.Primitivize | amaxa/amaxa.py:286-306 | succeeds iff every value coerces, then each value is coerced by its field's soap type; a failure is the error of the first failing value in key order |
| LoadRecords.CleanDependentLookups | amaxa/amaxa.py:314-317 | the record without its dependent and self lookups |
| LoadRecords.ExtractDependentLookups | amaxa/amaxa.py:319-322 | only the dependent and self lookups, and `Id` |
| LoadRecords.SplitRebuildsRecord | amaxa/amaxa.py:314-322 | the two parts share at most `Id` and together give back the record |
| LoadRecords.QueuedIffDeferredLookupPopulated | amaxa/amaxa.py:338-340 | with a populated `Id`, a record is queued for the second pass iff one of its dependent or self lookups is populated |
| LoadRecords.TransformForLoad | amaxa/amaxa.py:308-312 | after the mapper, only fields in the step's scope remain |
| LoadRecords.PrepareRecord | amaxa/amaxa.py:342-359 | a prepared record holds only in-scope fields and none of the deferred lookups |
| Load.ExitCode | amaxa/amaxa.py:222-242 | 0 on completion, -1 on a halt, no value when an exception escapes |
| Load.PreparedRows | amaxa/amaxa.py:343-354 | one preparation per input row |
| Load.FirstPassRecord | amaxa/amaxa.py:332-359 | the row's id is noted; without an escape, the row is either queued for insert or one error |
| Load.FirstPassFrom | amaxa/amaxa.py:332-359 | stops at an escape; otherwise every row's id is noted and each row is queued or an error |
| Load.FirstPassOver | amaxa/amaxa.py:328-359 | without an escape, ids noted == rows == queued + errors |
| Load.FirstPassEscape | amaxa/amaxa.py:332-359 | the pass escapes iff some row's failure escapes, and then with the first such failure |
| Load.FirstPassContents | amaxa/amaxa.py:332-359 | without an escape: the prepared records are queued for insert and the caught errors recorded, each in row order; every row's `Id` is noted; exactly the deferred parts with work are queued |
| Load.DeferredPartsOk | amaxa/amaxa.py:338-340 | only parts with work in them, with the row's `Id`, are queued for the second pass |
| Load.RegisterOne | amaxa/amaxa.py:365-373 | each result either writes a result row or adds an error |
| Load.RegisterFrom | amaxa/amaxa.py:365-373 | stops at an escape; otherwise one row or error per result |
| Load.RegisterAll | amaxa/amaxa.py:364-373 | without an escape, rows + errors == results |
| Load.RegisterKeeps | amaxa/amaxa.py:209-210 | results that register nothing under an id leave its mapping unchanged |
| Load.RegisteredFinds | amaxa/amaxa.py:365-371 | a successful insert, with no later success of the same id, leaves its new id mapped under the original id |
| Load.RegisteredOnlySuccesses | amaxa/amaxa.py:365-373 | registration keeps old mappings and adds only the ids of successful inserts |
| Load.WithRows | amaxa/amaxa.py:211-217 | rows are appended to the object's result file, if it has one; other files are unchanged |
| Load.WithRowsAppend | amaxa/amaxa.py:211-217 | writing rows then more rows is writing both in order |
| Load.FailedUpdates | amaxa/amaxa.py:397-399 | no error iff every update succeeded; at most one error per record |
| Load.NewIdText | amaxa/amaxa.py:390 | `str(get_new_id(id))`: the new id, or `"None"` when there is none |
| Load.PopulatedParts | amaxa/amaxa.py:384-386 | one remapping per queued part; a successful one keeps `Id` |
| Load.SecondPassRecord | amaxa/amaxa.py:384-393 | at most one record queued, and its original id noted with it |
| Load.SecondPassFrom | amaxa/amaxa.py:384-393 | stops at an escape; the update queue and the noted ids grow together |
| Load.SecondPassOver | amaxa/amaxa.py:384-393 | one noted original id per queued update, at most one per part |
| Load.SecondPassEscape | amaxa/amaxa.py:384-393 | the pass escapes iff some part's failure escapes (a failure other than an outside reference under ERROR, or an `Id` that is not an id), and then with the first one |
| Load.SecondPassContents | amaxa/amaxa.py:384-393 | without an escape: each remapped part with work is queued for update under its record's new id, its original id noted, and each outside reference refused under ERROR recorded, in order |
| Load.SecondPassAddressesNewIds | amaxa/amaxa.py:389-391 | every queued update is addressed by the new id of its original record |
| Load.RegisteredIdResolves | amaxa/amaxa.py:261-270 | once an id is registered, a lookup holding it in either form remaps to the new id, whatever the policy |
| Load.FirstPassLoop | amaxa/amaxa.py:332-359 | the loop over the rows computes `FirstPassOver` |
| Load.SecondPassLoop | amaxa/amaxa.py:384-393 | the loop over the queued parts computes `SecondPassOver` |
| Load.FailedUpdatesLoop | amaxa/amaxa.py:397-399 | the loop computes `FailedUpdates` |
| Load.BulkResults | amaxa/amaxa.py:364-396 | the bulk insert or update answers once per record sent |
| Load.LoadOperation.constructor | amaxa/amaxa.py:190-195 | starts with no steps, files, mappers or id map |
| Load.LoadOperation.AddStep | amaxa/amaxa.py:87-89 | the step joins the end of the list and runs in this operation |
| Load.LoadOperation.SObjects | amaxa/amaxa.py:91-92 | the steps' objects, in order |
| Load.LoadOperation.SetInputFile | amaxa/amaxa.py:197-198 | sets the object's input file |
| Load.LoadOperation.SetResultFile | amaxa/amaxa.py:203-204 | opens an empty result file for the object |
| Load.LoadOperation.GetNewId | amaxa/amaxa.py:219-220 | the registered new id, or none |
| Load.LoadOperation.RegisterNewId | amaxa/amaxa.py:209-217 | afterwards the id maps to the new id, every other id keeps its mapping, and the pair is written to the object's result file |
| Load.LoadOperation.Insert | amaxa/amaxa.py:364 | logs one insert of exactly these records and returns the org's answers |
| Load.LoadOperation.Update | amaxa/amaxa.py:396 | logs one update of exactly these records and returns the org's answers |
| Load.LoadOperation.Execute | amaxa/amaxa.py:222-242 | 0 only when no step has errors; on a stop, every step before the stopping one is clean; each insert is sent before any update; a stop in the first loop sends at most one insert per step up to it, a stop in the second all inserts and at most one update per step up to it |
| Load.LoadOperation.InsertPass | amaxa/amaxa.py:224-232 | the first loop stops at the first step with errors or an escape, every earlier step clean and no insert sent after it; on completion exactly one insert per step, in order |
| Load.LoadOperation.UpdatePass | amaxa/amaxa.py:234-242 | the second loop sends only updates, at most one per step, and stops at the first step with errors or an escape, every earlier step clean and no update sent after it |
| Load.LoadOperation.InsertStep | amaxa/amaxa.py:225-227 | one turn of the first loop: at most one call, an insert of the step's object, sent when the step ends clean; the other steps' errors are untouched |
| Load.LoadOperation.UpdateStep | amaxa/amaxa.py:234-236 | one turn of the second loop: at most one call, an update of the step's object; the other steps' errors are untouched |
| Load.LoadStep.constructor | amaxa/amaxa.py:245-253 | starts with no overrides, lookups, errors or queued parts |
| Load.LoadStep.SetLookupBehaviorForField | amaxa/amaxa.py:255-259 | the field now follows the behaviour; other fields are as before |
| Load.LoadStep.ScanFields | amaxa/amaxa.py:143-183 | the step's lookups are classified against the operation's objects |
| Load.LoadStep.RunFirstPass | amaxa/amaxa.py:225-227 | the lookups are classified; at most one call, an insert of this object, sent iff the first pass over the input rows neither escapes nor leaves the step with errors |
| Load.LoadStep.Execute | amaxa/amaxa.py:324-373 | deferred parts queued; a step with errors or an escape sends nothing; otherwise one insert of the prepared records, whose results set the id map, result rows and errors |
| Load.LoadStep.PrepareRows | amaxa/amaxa.py:328-362 | the first pass over the rows, its errors and queued parts added to the step's |
| Load.LoadStep.RegisterResults | amaxa/amaxa.py:365-373 | the loop over the insert results computes `RegisterAll` on the id map, result file and errors |
| Load.LoadStep.ExecuteDependentUpdates | amaxa/amaxa.py:375-399 | no deferred lookups: nothing happens; otherwise the parts are remapped, and one update is sent only when there is work and no error |
| Load.LoadStep.RemapQueued | amaxa/amaxa.py:379-393 | the second pass over the queued parts, its errors added to the step's |
| ExtractRecords.IdsIn | amaxa/amaxa.py:446-447 | `get_extracted_ids`, and `get_dependencies` (432-433): the object's set, or empty |
| ExtractRecords.LongIdParses | amaxa/amaxa.py:51-52 | an 18-character id the server returns is kept as it is |
| ExtractRecords.SharedOverrides | amaxa/amaxa.py:475-482 | an override wins over both defaults; an override of one kind also answers the other question |
| ExtractRecords.DependentTarget | amaxa/amaxa.py:558-581 | a single-target lookup depends on its target; a polymorphic one on the prefix's object, unless that object is not extracted or comes earlier |
| ExtractRecords.DependenciesPointDown | amaxa/amaxa.py:558-581 | a dependent lookup registers only on an object at or after the step's own |
| ExtractRecords.RegisteredPointsDown | amaxa/amaxa.py:550-581 | a record registers ids only on its own object or on objects whose steps are still to run |
| ExtractRecords.CrossReferenceAsWritten | amaxa/amaxa.py:585-592 | the test as written: a null single-target lookup counts as outside; a null polymorphic one crashes |
| ExtractRecords.NullLookupIsOutsideAsWritten | amaxa/amaxa.py:585-592 | the test as written agrees with the intended one exactly on non-null lookups |
| ExtractRecords.NullAccountIdIsOutsideAsWritten | amaxa/amaxa.py:585-592 | a null single-target lookup to Account is outside as written and references nothing by the intended test |
| ExtractRecords.CrossReferences | amaxa/amaxa.py:585-592 | the outside references are among the descendent lookups |
| ExtractRecords.Dropped | amaxa/amaxa.py:596-597 | only outside references are dropped |
| ExtractRecords.Raised | amaxa/amaxa.py:600-608 | only outside references are reported |
| ExtractRecords.OutsidePolicy | amaxa/amaxa.py:585-608 | a lookup leaves the record iff outside under DROP_FIELD; it is reported iff outside under ERROR; a null lookup is never outside |
| ExtractRecords.UnextractedIsReported | amaxa/amaxa.py:592-607 | under ERROR, a descendent lookup holding an id not extracted for its target yields an outside-reference error for the record and field |
| ExtractRecords.MaxListLength | amaxa/amaxa.py:640 | 4000 less the length of `WHERE <fields> IN ()` |
| ExtractRecords.InList | amaxa/amaxa.py:643-649 | the list of n 18-character ids is 22n-2 characters long |
| ExtractRecords.JoinCovers | amaxa/amaxa.py:140-141 | each field is at most as long as the joined field list |
| ExtractRecords.WhereClauseFits | amaxa/amaxa.py:640-648 | an IN-list within the budget keeps the WHERE clause of a query by any listed field under 4000 characters |
| ExtractRecords.WithIdIn | amaxa/amaxa.py:651-653 | the answer to `field IN (ids)`: exactly the records whose field holds one of the ids |
| ExtractRecords.Selected | amaxa/amaxa.py:628 | the answer to a bulk query with a WHERE clause: exactly the records it selects |
| ExtractRecords.WithIdInNone | amaxa/amaxa.py:636-637 | a query for no ids finds nothing |
| ExtractRecords.WithIdInUnion | amaxa/amaxa.py:642-656 | batches together find what one query for all their ids finds |
| ExtractRecords.WithIdInById | amaxa/amaxa.py:614-616 | querying by `Id` finds exactly the requested ids the org holds |
| Extraction.NextBatch | amaxa/amaxa.py:642-649 | a non-empty batch of distinct ids taken from the set, its IN-list within budget unless single; it stops early only when the set is exhausted |
| Extraction.TakeOneMore | amaxa/amaxa.py:648-649 | taking one more id while the list is short keeps the batch within budget |
| Extraction.ExtractedFor | amaxa/amaxa.py:435-444 | an id is included iff it was extracted for some target of the field |
| Extraction.StoreKeepsLedger | amaxa/amaxa.py:449-462 | storing keeps the ledger: required and extracted stay disjoint, one row per extracted id, and only ids the org holds |
| Extraction.WithDependency | amaxa/amaxa.py:426-430 | the id becomes required unless already extracted; other objects are unchanged; disjointness is kept |
| Extraction.RegisterSelfLookups | amaxa/amaxa.py:551-553 | the loop adds each traced, non-null self lookup's id not yet extracted |
| Extraction.RegisterDependentLookups | amaxa/amaxa.py:558-581 | the loop adds each dependent lookup's id to its target, unless already extracted; disjointness is kept |
| Extraction.Satisfied | amaxa/amaxa.py:461-462 | the id stops being required for the object; nothing else changes |
| Extraction.RegisterLookups | amaxa/amaxa.py:550-581 | both loops together give `Registration`, and the ledger stays disjoint |
| Extraction.ObjectNames | amaxa/amaxa.py:91-92 | the steps' objects, in order |
| Extraction.ExtractOperation.constructor | amaxa/amaxa.py:403-408 | starts with no steps, ledger entries, files or queries; the mappers are the ones given |
| Extraction.ExtractOperation.AddStep | amaxa/amaxa.py:87-89 | the step joins the end of the list |
| Extraction.ExtractOperation.SObjects | amaxa/amaxa.py:91-92 | the steps' objects, in order |
| Extraction.ExtractOperation.Execute | amaxa/amaxa.py:410-421 | returns 0 iff every step ends without errors; -1 when it stops at a step with errors, every earlier step clean and every later step's errors as before |
| Extraction.ExtractOperation.RunStep | amaxa/amaxa.py:412-417 | runs one step and reports whether it has errors; other steps' errors are untouched, and so are the extracted ids and output file of every object but the step's |
| Extraction.ExtractOperation.SetOutputFile | amaxa/amaxa.py:423-424 | opens an empty output file for the object |
| Extraction.ExtractOperation.AddDependency | amaxa/amaxa.py:426-430 | the id becomes required unless extracted; the ledger stays disjoint |
| Extraction.ExtractOperation.StoreResult | amaxa/amaxa.py:449-462 | the id is extracted and no longer required; a row (through the mapper) is written only the first time; the ledger invariants hold |
| Extraction.ExtractOperation.GetSObjectIdsForReference | amaxa/amaxa.py:435-444 | the loop over the targets collects the ids extracted for any of them |
| Extraction.ExtractOperation.Query | amaxa/amaxa.py:628 | logs one bulk query and answers it from the org |
| Extraction.ExtractOperation.QueryAll | amaxa/amaxa.py:651-653 | logs one id query and answers it from the org |
| Extraction.ApplyVerdicts | amaxa/amaxa.py:585-608 | the loop drops the dropped lookups and reports each refused one once |
| Extraction.ApplyOutsidePolicy | amaxa/amaxa.py:585-608 | drops exactly the outside references under DROP_FIELD; reports exactly those under ERROR, each once |
| Extraction.ExamineResult | amaxa/amaxa.py:543-608 | the registration ledger, the record after the policy, and the reports, together |
| Extraction.Unresolved | amaxa/amaxa.py:613-623 | after the pass, the ids still required are those the org does not hold; those it holds are extracted |
| Extraction.Texts | amaxa/amaxa.py:621 | the text of each missing id, and nothing else |
| Extraction.ClosedAtFixedPoint | amaxa/amaxa.py:528-541 | a round that adds nothing leaves the self lookups closed over the extracted ids |
| Extraction.RoundProgress | amaxa/amaxa.py:528-541 | extracted ids grow within what the org holds: an equal count means equal sets, a new count means progress |
| Extraction.RoundOutcome | amaxa/amaxa.py:528-541 | a round either makes progress toward the store's size or reaches closure |
| Extraction.Examined | amaxa/amaxa.py:547-608 | what `ExamineResult` computes for a record the step holds is the step's ledger, kept record and reported errors, appended as outside references |
| Extraction.MissingReported | amaxa/amaxa.py:616-623 | appending the error for the missing ids, when there are any, ends the dependency pass: it comes last and names exactly the required ids the org does not hold; every other error added is an outside reference |
| Extraction.ProgressTrans | amaxa/amaxa.py:493-541 | progress from a first state to a second and from the second to a third is progress from the first to the third |
| Extraction.OutsideReferenceReported | amaxa/amaxa.py:585-607 | after progress, a newly extracted record whose descendent lookup under ERROR holds an id still not extracted for its target has that outside-reference error among the errors added |
| Extraction.StoreProgress | amaxa/amaxa.py:543-611 | storing one record is progress |
| Extraction.StoreAdvances | amaxa/amaxa.py:630-631 | storing the next record of an answer keeps the account of the records stored so far and progress |
| Extraction.ExtractionStep.StoreNext | amaxa/amaxa.py:630-631 | one turn of the loop stores the next record, keeping the account of the records stored so far and progress |
| Extraction.ExtractionStep.ReportUnresolved | amaxa/amaxa.py:616-623 | the missing ids are the required ids the org does not hold, reported in one error appended last exactly when there are any; progress is kept |
| Extraction.ExtractionStep.ReportMissing | amaxa/amaxa.py:617-623 | the error naming the missing ids is appended iff there are any; progress is kept |
| Extraction.ExtractionStep.LookupNext | amaxa/amaxa.py:507-508 | one turn of the loop: the lookup pass by one field, keeping the loop's account of what is extracted and progress |
| Extraction.ExtractionStep.constructor | amaxa/amaxa.py:466-473 | starts with no overrides, lookups or errors |
| Extraction.ExtractionStep.SetLookupBehaviorForField | amaxa/amaxa.py:475-482 | the override answers both questions for the field; other fields are as before |
| Extraction.ExtractionStep.ScanFields | amaxa/amaxa.py:143-183 | the lookups are classified against the operation's objects |
| Extraction.ExtractionStep.RegisterResult | amaxa/amaxa.py:547-608 | the ledger becomes `Registration`; the record loses its dropped lookups; the reports are appended once each |
| Extraction.ExtractionStep.StoreResult | amaxa/amaxa.py:543-611 | one `StoreStep`: the ledger becomes `Registration` less the stored id, so other objects' requirements only grow; the id is extracted, and no other object's; the row written is the record without its dropped lookups, through the mapper, only the first time; the errors added are exactly the outside references reported, once each |
| Extraction.ExtractionStep.StoreResults | amaxa/amaxa.py:630-631 | every record of an answer is stored, so all their ids are extracted; only outside-reference errors are added; and progress: each record newly extracted had its outside-reference errors added, its row written and its registrations kept, while other objects' requirements only grow and their extracted ids and output files stay as they were |
| Extraction.ExtractionStep.FetchBatch | amaxa/amaxa.py:642-656 | one batch within budget is queried, and what it finds is extracted; progress is kept |
| Extraction.ExtractionStep.PerformIdFieldPass | amaxa/amaxa.py:633-656 | no query for an empty set; otherwise batches within budget partition the ids, and every record found is extracted; progress is kept |
| Extraction.ExtractionStep.FetchBatches | amaxa/amaxa.py:642-656 | the batch loop over a non-empty set: batches within budget partition the ids, and every record found is extracted; progress is kept |
| Extraction.ExtractionStep.ResolveRegisteredDependencies | amaxa/amaxa.py:613-623 | the required ids the org holds are extracted; the rest are reported in one error, appended last, when there are any; every other error added is an outside reference; progress is kept |
| Extraction.ExtractionStep.PerformLookupPass | amaxa/amaxa.py:658-662 | an id pass over the ids extracted for the field's targets; progress is kept |
| Extraction.ExtractionStep.PerformBulkApiPass | amaxa/amaxa.py:625-631 | one bulk query, and every record it returns is extracted; progress is kept |
| Extraction.ExtractionStep.LookupPasses | amaxa/amaxa.py:507-508 | for each field, the records pointing at ids extracted at the start end up extracted; progress is kept |
| Extraction.ExtractionStep.SelfLookupRound | amaxa/amaxa.py:528-541 | one round: if it grew, closer to the store's size; if not, the self lookups are closed; progress is kept |
| Extraction.ExtractionStep.TraceSelfLookups | amaxa/amaxa.py:528-541 | the `while True` loop terminates, with the self lookups closed over the extracted ids; progress is kept |
| Extraction.ExtractionStep.TraceWhenAll | amaxa/amaxa.py:517-541 | the self-lookup loop runs when the step traces all self lookups and has some, and closes them; progress is kept |
| Extraction.ExtractionStep.ScopePass | amaxa/amaxa.py:493-508 | a query step extracts what its WHERE clause selects; a descendents step extracts the records pointing at earlier extractions; progress is kept |
| Extraction.ExtractionStep.ResolveAndTrace | amaxa/amaxa.py:514-541 | the ids required on entry that the org holds end up extracted, and the missing ones are reported in an error among those added; then, when tracing all of a step's self lookups, closure; progress is kept |
| Extraction.ExtractionStep.Execute | amaxa/amaxa.py:484-541 | scans; all records: one bulk query extracts the whole store; otherwise the scope's records are extracted, every id required on entry or registered by the scope pass that the org holds is extracted, the missing ones reported, and self lookups closed when traced; over the whole step, progress: every record newly extracted had its outside-reference errors added to the step's errors, its row (through the mapper) written, and the ids it registers on other objects left required or extracted there; other objects' requirements only grow, and their extracted ids and output files stay as they were |

## Left out

- Logging, the describe calls and their caching, and the proxy objects (`get_proxy_object`, `get_bulk_proxy_object`, `get_describe`, `get_filtered_field_map`) are not modelled. Field maps and the key-prefix map are given to the operation as constants.
- The network is not modelled. The extraction org is a finite store of records per object. Load outcomes are given as functions from the records sent to per-record results. Queries are logged as `QueryCall` values, not as SOQL text; only the IN-list text is built.
- CSV readers and writers are not modelled. An input file is a header and rows; output and result files are the sequences of rows written.
- Error message text is not modelled. Each error carries the data its message is built from.
- `StringEnum.all_values`/`values_dict`, and the base `Operation.execute`/`Step.execute` (no-ops), are configuration plumbing and are not modelled.
- `SalesforceId` of a `SalesforceId`, `__hash__`, `__str__` and `__repr__` are the datatype's identity and its `id` field; `__eq__` against a value that is neither a string nor an id is ruled out by typing.
- `set.pop` order is any order: batches are taken by arbitrary choice, so the contracts hold for every order.
- A transform in a `DataMapper` is a total function; a transform that raises is not modelled.
- RecordsOk: the org's records are required to hold, in every non-null reference field of the scope, an 18-character id with a known key prefix, and `Fits` and `DescendentTarget` carry the same requirement for every lookup. The source looks a key prefix up only for a polymorphic lookup (amaxa/amaxa.py:565-566, 587-590) and crashes there with `KeyError` on an unknown one; a single-target lookup holding an unknown prefix, which the source processes, is not covered by the model. A null polymorphic descendent lookup is allowed: its crash is part of the finding below, and the model processes it by the corrected test.
- CrossReferences: computes the corrected outside test of the finding below, so a null single-target descendent lookup is never flagged, where the code as written flags it (and crashes on a null polymorphic one). `CrossReferenceAsWritten` models the code as written.
- ApplyOutsidePolicy: drops or reports by the corrected test, so a null descendent lookup is neither dropped under DROP_FIELD nor reported under ERROR, unlike the code as written.
- ExamineResult: applies the corrected test, and processes a null polymorphic descendent lookup where the code as written crashes.
- RegisterResult (Extraction.ExtractionStep), and through it StoreResult, StoreResults and the passes above them: run the corrected test, as the three lines above say.
- FirstPassFrom: its own contract states the counts and the prefixes only; what the lists contain is stated by `FirstPassContents` and `FirstPassEscape`.
- FirstPassOver: likewise; `FirstPassContents` states its contents.
- SecondPassFrom: its own contract states the counts and the prefixes only; what the lists contain is stated by `SecondPassContents` and `SecondPassEscape`.
- SecondPassOver: likewise; `SecondPassContents` states its contents.
- The load operation is required to be configured (`LoadOperation.Valid`, `LoadOperation.Configured`): every step's object has an input file whose rows each carry an `Id` and only the header's columns, its scope fields are in the object's field map, and no two steps share an object. A configuration that breaks these makes the source raise a `KeyError` or run with the duplicate step; the model does not cover such runs.
- Extraction.ExtractionStep.ResolveRegisteredDependencies: does not restate the batching of its id pass; `PerformIdFieldPass` states it.
- Extraction.ExtractOperation.Execute and RunStep: require the steps' objects to be distinct and each to have its output file open (`Valid`, `FilesOpen`). The source raises `KeyError` at amaxa/amaxa.py:455 when a step has no output file, and runs two steps of one object one after the other; neither run is covered.
- Extraction.ExtractOperation.constructor: the mappers are given to it and fixed for the run. The source starts with an empty dictionary (amaxa/amaxa.py:403-408) that the loader fills before `execute`; the model takes the filled one.
- Extraction.ExtractOperation.Configured and Extraction.ViewOk: the org's store must hold each id at most once per object (`SingleIds`), as a Salesforce org does; a store with duplicate ids is not covered.
- Extraction.ExtractOperation.Execute: after a halt it states only that the later steps' errors are untouched, not their other fields.
- Extraction.ExtractionStep.TraceSelfLookups: its closure covers children, i.e. records whose self lookup points at an extracted record. That the parents of extracted records are extracted or reported missing is stated per pass by `ResolveRegisteredDependencies`, not for the fixed point as a whole.
- Extraction.ExtractionStep.PerformIdFieldPass: the budget bound is stated for batches of 18-character ids, which is every id the engine builds. A single-id batch may exceed it, as the source sends it regardless.
- The copies of the caller's set (`id_set.copy()`, `get_dependencies(...).copy()`) hold by value semantics: sets are values in the model, so the caller's set cannot change.

## Findings

| source | as written | input that shows it | evidently intended | confidence | as-written member | corrected member |
|---|---|---|---|---|---|---|
| amaxa/amaxa.py:585-608 | the cross-hierarchy test is `lookup_value not in get_extracted_ids(target)` and is applied to null values too | a record whose single-target descendent lookup is `None`, under ERROR: reported as an outside reference naming `None` (a null polymorphic lookup crashes on `None[:3]`) | a null lookup references nothing and is never an outside reference | medium, not executed | ExtractRecords.NullAccountIdIsOutsideAsWritten | ExtractRecords.OutsidePolicy |
