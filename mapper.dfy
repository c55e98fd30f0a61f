/**
 * `DataMapper`: renames the keys of a record and passes each value through
 * the transforms configured for its (original) key, left to right.
 */
module Mapping {
  import opened Common

  /** A configured value transform (a Python callable). */
  type Transform = Val -> Val

  datatype DataMapper = DataMapper(
    fieldNameMapping: map<string, string>,
    fieldTransforms: map<string, seq<Transform>>)

  /** The mapper built with no arguments: no renaming, no transforms. */
  const Identity: DataMapper := DataMapper(map[], map[])

  /** `transform_key`: the configured new name, or the key itself. */
  function TransformKey(m: DataMapper, k: string): string {
    if k in m.fieldNameMapping then m.fieldNameMapping[k] else k
  }

  /** `functools.reduce(lambda x, f: f(x), fs, v)`. */
  function ApplyAll(fs: seq<Transform>, v: Val): Val
    decreases |fs|
  {
    if fs == [] then v else ApplyAll(fs[1..], fs[0](v))
  }

  /** `transform_value`: the transforms configured for `k`, none by default. */
  function TransformValue(m: DataMapper, k: string, v: Val): Val {
    ApplyAll(if k in m.fieldTransforms then m.fieldTransforms[k] else [], v)
  }

  /** Transforms run left to right: a list of transforms is their composition in order. */
  lemma {:induction false} ApplyAllAppend(fs: seq<Transform>, gs: seq<Transform>, v: Val)
    ensures ApplyAll(fs + gs, v) == ApplyAll(gs, ApplyAll(fs, v))
    decreases |fs|
  {
    if fs == [] {
      assert fs + gs == gs;
    } else {
      assert (fs + gs)[1..] == fs[1..] + gs;
      ApplyAllAppend(fs[1..], gs, fs[0](v));
    }
  }

  /**
   * The dict comprehension of `transform_record` over the keys in `order`
   * (the record's insertion order). A later key that is renamed onto the
   * same name as an earlier one overwrites its value, as in Python.
   */
  function TransformKeys(m: DataMapper, record: Record, order: seq<string>): (out: Record)
    ensures out.Keys == set k | k in order && k in record :: TransformKey(m, k)
    decreases |order|
  {
    if order == [] then map[]
    else
      var prefix := order[..|order| - 1];
      var k := order[|order| - 1];
      var acc := TransformKeys(m, record, prefix);
      assert forall k' :: k' in order <==> k' in prefix || k' == k;
      if k in record then acc[TransformKey(m, k) := TransformValue(m, k, record[k])] else acc
  }

  /** The value under a new name comes from the last key in `order` renamed onto it. */
  lemma {:induction false} LastWins(m: DataMapper, record: Record, order: seq<string>, j: nat)
    requires j < |order| && order[j] in record && LastWithName(m, record, order, j)
    ensures TransformKey(m, order[j]) in TransformKeys(m, record, order)
    ensures TransformKeys(m, record, order)[TransformKey(m, order[j])] == TransformValue(m, order[j], record[order[j]])
    decreases |order|
  {
    if j < |order| - 1 {
      var prefix := order[..|order| - 1];
      assert prefix[j] == order[j];
      assert LastWithName(m, record, prefix, j) by {
        forall j2 | j < j2 < |prefix| && prefix[j2] in record
          ensures TransformKey(m, prefix[j2]) != TransformKey(m, prefix[j])
        {
          assert prefix[j2] == order[j2];
        }
      }
      LastWins(m, record, prefix, j);
    }
  }

  /** No key after position `j` in `order` is renamed onto the name `order[j]` is renamed to. */
  predicate LastWithName(m: DataMapper, record: Record, order: seq<string>, j: nat)
    requires j < |order|
  {
    forall j2 :: j < j2 < |order| && order[j2] in record ==> TransformKey(m, order[j2]) != TransformKey(m, order[j])
  }

  /** `transform_record`: `order` lists the record's keys in insertion order. */
  function TransformRecord(m: DataMapper, record: Record, order: seq<string>): (out: Record)
    requires forall k :: k in record ==> k in order
    ensures out.Keys == set k | k in record :: TransformKey(m, k)
  {
    TransformKeys(m, record, order)
  }

  /** When no two keys of the record are renamed alike, every key's value is its transformed value. */
  lemma InjectiveRenaming(m: DataMapper, record: Record, order: seq<string>, k: string)
    requires forall k :: k in record ==> k in order
    requires forall k1, k2 :: k1 in record && k2 in record && k1 != k2 ==> TransformKey(m, k1) != TransformKey(m, k2)
    requires k in record
    ensures TransformKey(m, k) in TransformRecord(m, record, order)
    ensures TransformRecord(m, record, order)[TransformKey(m, k)] == TransformValue(m, k, record[k])
  {
    var j := LastIndexOf(order, k);
    assert LastWithName(m, record, order, j);
    LastWins(m, record, order, j);
  }

  /** The position of the last occurrence of `k` in `order`. */
  lemma LastIndexOf(order: seq<string>, k: string) returns (j: nat)
    requires k in order
    ensures j < |order| && order[j] == k
    ensures forall j2 :: j < j2 < |order| ==> order[j2] != k
  {
    j := |order| - 1;
    while order[j] != k
      invariant 0 <= j < |order|
      invariant k in order[..j + 1]
      invariant forall j2 :: j < j2 < |order| ==> order[j2] != k
      decreases j
    {
      assert order[..j + 1] == order[..j] + [order[j]];
      j := j - 1;
    }
  }

  /** A mapper built with no arguments returns the record unchanged. */
  lemma IdentityMapper(record: Record, order: seq<string>)
    requires forall k :: k in record ==> k in order
    ensures TransformRecord(Identity, record, order) == record
  {
    var out := TransformRecord(Identity, record, order);
    forall k | k in record ensures k in out && out[k] == record[k] {
      InjectiveRenaming(Identity, record, order, k);
    }
    assert out.Keys == record.Keys;
  }
}
