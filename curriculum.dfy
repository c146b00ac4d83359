/**
 * The curriculum tree (`AI_TECH_TREE`, the tracks JSON file): an ordered
 * dictionary Track -> {"description", "steps"}, each step an ordered
 * dictionary whose values are subjects (objects holding "Lv1") or option
 * groups (objects of subjects), with any other JSON value allowed.
 */
module Curriculum {
  import opened Wrappers

  /** One key/value pair of a dictionary, kept in insertion order. */
  datatype Entry<V> = Entry(key: string, value: V)

  /** A JSON value: strings, lists and objects (dictionaries). */
  datatype Json = JStr(s: string) | JList(items: seq<Json>) | JObj(fields: seq<Entry<Json>>)

  /** A track's record: its description and its steps, each step a dictionary. */
  datatype TrackData = TrackData(description: string, steps: seq<Entry<seq<Entry<Json>>>>)

  /** The whole curriculum, tracks in dictionary order. */
  type Tree = seq<Entry<TrackData>>

  function Keys<V>(d: seq<Entry<V>>): (ks: seq<string>)
    ensures |ks| == |d|
    ensures forall i :: 0 <= i < |d| ==> ks[i] == d[i].key
  {
    if d == [] then [] else [d[0].key] + Keys(d[1..])
  }

  /** `k in d` for a dictionary. */
  predicate HasKey<V>(d: seq<Entry<V>>, k: string) {
    k in Keys(d)
  }

  /** Python dictionaries never repeat a key. */
  predicate DistinctKeys<V>(d: seq<Entry<V>>) {
    forall i, j :: 0 <= i < j < |d| ==> d[i].key != d[j].key
  }

  /** `d.get(k)`: the value stored under `k`, if any. */
  function Get<V>(d: seq<Entry<V>>, k: string): (r: Option<V>)
    ensures r.Some? <==> HasKey(d, k)
  {
    if d == [] then None else if d[0].key == k then Some(d[0].value) else Get(d[1..], k)
  }

  lemma {:induction false} GetAt<V>(d: seq<Entry<V>>, i: nat)
    requires DistinctKeys(d) && i < |d|
    ensures Get(d, d[i].key) == Some(d[i].value)
  {
    if i > 0 { GetAt(d[1..], i - 1); }
  }

  /** `isinstance(val, dict) and "Lv1" in val`: a subject record. */
  predicate IsSubject(v: Json) {
    v.JObj? && HasKey(v.fields, "Lv1")
  }

  /** Python's error when `.items()` is called on a list or a string instead of a dictionary. */
  const NoItems := "AttributeError: object has no attribute 'items'"
}
