/**
 * Field metadata and the classification of lookup fields shared by both
 * engines (`Step.scan_fields`). The describe calls that produce the
 * metadata are not modelled: a field map and a key-prefix map are given.
 */
module Schema {
  import opened Common

  /** The part of a field's describe entry the engine reads. */
  datatype FieldDescriptor = FieldDescriptor(fieldType: string, referenceTo: seq<string>, soapType: string)

  /** `get_field_map`: field name to descriptor, for one object. */
  type FieldMap = map<string, FieldDescriptor>

  /** The four lookup groups of a step. */
  datatype Lookups = Lookups(
    all: set<string>,
    selfLookups: set<string>,
    descendent: set<string>,
    dependent: set<string>)

  const NoLookups: Lookups := Lookups({}, {}, {}, {})

  /** `list.index`: the first position of `x`. */
  function IndexOf(s: seq<string>, x: string): (i: nat)
    requires x in s
    ensures i < |s| && s[i] == x
    ensures forall j :: 0 <= j < i ==> s[j] != x
  {
    if s[0] == x then 0 else 1 + IndexOf(s[1..], x)
  }

  /** Object names listed once each, as the steps of an operation are. */
  predicate Distinct(s: seq<string>) {
    forall i, j :: 0 <= i < j < |s| ==> s[i] != s[j]
  }

  /** `get_sobject_name_for_id`: the object whose key prefix starts the id. */
  function ObjectForId(keyPrefixes: map<string, string>, id: string): string
    requires KeyPrefix(id) in keyPrefixes
  {
    keyPrefixes[KeyPrefix(id)]
  }

  /** `id[:3]`. */
  function KeyPrefix(id: string): string {
    if |id| >= 3 then id[..3] else id
  }

  /** Some target of the field is one of the operation's objects. */
  predicate TargetsInList(fd: FieldDescriptor, sobjects: seq<string>) {
    exists t :: t in fd.referenceTo && t in sobjects
  }

  /**
   * `scan_fields` for the step of object `name` with field scope `scope`:
   * `all` holds the in-scope reference fields with a target among the
   * operation's objects; the other three groups are taken from `all` by
   * where those targets sit relative to `name` in `sobjects`.
   */
  function ScanFields(name: string, scope: set<string>, fieldMap: FieldMap, sobjects: seq<string>): (r: Lookups)
    requires name in sobjects
    requires scope <= fieldMap.Keys
    ensures r.selfLookups <= r.all && r.descendent <= r.all && r.dependent <= r.all
    ensures forall f :: f in r.all ==> f in scope && fieldMap[f].fieldType == "reference" && TargetsInList(fieldMap[f], sobjects)
    ensures forall f :: f in r.selfLookups ==> name in fieldMap[f].referenceTo
  {
    var all := set f | f in scope && fieldMap[f].fieldType == "reference" && TargetsInList(fieldMap[f], sobjects);
    var here := IndexOf(sobjects, name);
    Lookups(
      all,
      set f | f in all && name in fieldMap[f].referenceTo,
      set f | f in all && exists t :: t in fieldMap[f].referenceTo && t in sobjects && IndexOf(sobjects, t) < here,
      set f | f in all && exists t :: t in fieldMap[f].referenceTo && t in sobjects && IndexOf(sobjects, t) > here)
  }

  /** A target sits at position `p` of the object list. */
  predicate TargetAt(fd: FieldDescriptor, sobjects: seq<string>, p: int) {
    0 <= p < |sobjects| && sobjects[p] in fd.referenceTo
  }

  /**
   * The groups by position: with each object listed once, a field is a
   * lookup exactly when some target sits somewhere in the list, a
   * descendent lookup exactly when some target sits before the step's
   * object, a dependent lookup exactly when some target sits after it, and a
   * self lookup exactly when it targets the step's own object.
   */
  lemma ClassificationByPosition(name: string, scope: set<string>, fieldMap: FieldMap, sobjects: seq<string>, f: string)
    requires name in sobjects && scope <= fieldMap.Keys && Distinct(sobjects)
    requires f in scope
    ensures var r := ScanFields(name, scope, fieldMap, sobjects);
            var fd, here := fieldMap[f], IndexOf(sobjects, name);
            && (f in r.all <==> fd.fieldType == "reference" && exists p :: TargetAt(fd, sobjects, p))
            && (f in r.selfLookups <==> f in r.all && TargetAt(fd, sobjects, here))
            && (f in r.descendent <==> f in r.all && exists p :: p < here && TargetAt(fd, sobjects, p))
            && (f in r.dependent <==> f in r.all && exists p :: p > here && TargetAt(fd, sobjects, p))
  {
    var fd := fieldMap[f];
    InListByPosition(fd, sobjects);
    var here := IndexOf(sobjects, name);
    BeforeByPosition(fd, sobjects, here);
    AfterByPosition(fd, sobjects, here);
  }

  lemma InListByPosition(fd: FieldDescriptor, sobjects: seq<string>)
    ensures TargetsInList(fd, sobjects) <==> exists p :: TargetAt(fd, sobjects, p)
  {
    if exists p :: TargetAt(fd, sobjects, p) {
      var p :| TargetAt(fd, sobjects, p);
      assert sobjects[p] in fd.referenceTo && sobjects[p] in sobjects;
    }
    if TargetsInList(fd, sobjects) {
      var t :| t in fd.referenceTo && t in sobjects;
      assert TargetAt(fd, sobjects, IndexOf(sobjects, t));
    }
  }

  lemma BeforeByPosition(fd: FieldDescriptor, sobjects: seq<string>, here: nat)
    ensures (exists t :: t in fd.referenceTo && t in sobjects && IndexOf(sobjects, t) < here)
            <==> exists p :: p < here && TargetAt(fd, sobjects, p)
  {
    if exists p :: p < here && TargetAt(fd, sobjects, p) {
      var p :| p < here && TargetAt(fd, sobjects, p);
      var t := sobjects[p];
      assert IndexOf(sobjects, t) <= p;
    }
    if exists t :: t in fd.referenceTo && t in sobjects && IndexOf(sobjects, t) < here {
      var t :| t in fd.referenceTo && t in sobjects && IndexOf(sobjects, t) < here;
      assert TargetAt(fd, sobjects, IndexOf(sobjects, t));
    }
  }

  lemma AfterByPosition(fd: FieldDescriptor, sobjects: seq<string>, here: nat)
    requires Distinct(sobjects)
    ensures (exists t :: t in fd.referenceTo && t in sobjects && IndexOf(sobjects, t) > here)
            <==> exists p :: p > here && TargetAt(fd, sobjects, p)
  {
    if exists p :: p > here && TargetAt(fd, sobjects, p) {
      var p :| p > here && TargetAt(fd, sobjects, p);
      var t := sobjects[p];
      assert IndexOf(sobjects, t) == p;
    }
    if exists t :: t in fd.referenceTo && t in sobjects && IndexOf(sobjects, t) > here {
      var t :| t in fd.referenceTo && t in sobjects && IndexOf(sobjects, t) > here;
      assert TargetAt(fd, sobjects, IndexOf(sobjects, t));
    }
  }

  /**
   * Every lookup lands in at least one group: its in-list target sits
   * before, at or after the step's object. A field with no in-list target
   * is in no group at all.
   */
  lemma GroupsCoverLookups(name: string, scope: set<string>, fieldMap: FieldMap, sobjects: seq<string>)
    requires name in sobjects && scope <= fieldMap.Keys
    ensures var r := ScanFields(name, scope, fieldMap, sobjects);
            r.all == r.selfLookups + r.descendent + r.dependent
  {
    var r := ScanFields(name, scope, fieldMap, sobjects);
    var here := IndexOf(sobjects, name);
    forall f | f in r.all ensures f in r.selfLookups + r.descendent + r.dependent {
      var t :| t in fieldMap[f].referenceTo && t in sobjects;
      var i := IndexOf(sobjects, t);
      if i == here {
        assert t == name;
      }
    }
  }
}
