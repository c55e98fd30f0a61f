/**
 * Values shared by every part of the migration engine: optional and
 * fallible results, the field values a record carries, records themselves,
 * and the in-band errors a step collects.
 */
module Common {

  datatype Option<T> = None | Some(value: T)

  /** Outcome of an operation that raises in the original program. */
  datatype Result<T, E> = Ok(value: T) | Err(error: E)

  /**
   * A field value as the engine sees it: `Null` stands for Python's `None`
   * (a null lookup in a query result, an absent value after coercion),
   * `Text` for every string value.
   */
  datatype Val = Null | Text(s: string)

  /** A record: field name to value (a Python dict). */
  type Record = map<string, Val>

  /** The two `ValueError`s the engine raises: a malformed id, a malformed Boolean. */
  datatype ValueError = InvalidId(raw: string) | InvalidBoolean(raw: string)

  /**
   * The errors a step collects. Message text is not modelled; each error
   * carries the data the original message is built from.
   */
  datatype Error =
    | OutsideReference(objectName: string, recordId: Val, field: string, value: Val)
    | BadData(recordId: Val, cause: ValueError)
    | LoadFailed(objectName: string, recordId: Val)
    | UpdateFailed(objectName: string, recordId: Val)
    | UnresolvedDependencies(objectName: string, missing: set<string>)

  /** What to do with a reference to a record that is not part of the run. */
  datatype OutsideLookupBehavior = DropField | Include | RaiseError

  /** Whether a self lookup drives further extraction. */
  datatype SelfLookupBehavior = TraceAll | TraceNone

  /**
   * A per-field override. The extraction step keeps overrides of both kinds
   * in one dictionary and reads it for both questions.
   */
  datatype LookupBehavior = Outside(outside: OutsideLookupBehavior) | Self(self: SelfLookupBehavior)

  /** Python truthiness used by the load engine: neither `None` nor `''`. */
  predicate NonEmpty(v: Val) {
    v.Text? && v.s != ""
  }

  /** The keys of `r` whose value is neither `None` nor `''`. */
  function PopulatedKeys(r: Record): (ks: set<string>)
    ensures forall k :: k in ks <==> k in r && NonEmpty(r[k])
  {
    set k | k in r && NonEmpty(r[k])
  }

  /** A dict comprehension keeping only the keys in `keep`. */
  function Restrict(r: Record, keep: set<string>): (out: Record)
    ensures out.Keys == r.Keys * keep
    ensures forall k :: k in out ==> out[k] == r[k]
  {
    map k | k in r && k in keep :: r[k]
  }

  /** A dict comprehension dropping the keys in `drop`. */
  function Remove(r: Record, drop: set<string>): (out: Record)
    ensures out.Keys == r.Keys - drop
    ensures forall k :: k in out ==> out[k] == r[k]
  {
    map k | k in r && k !in drop :: r[k]
  }
}
