/**
 * Fixed dictionaries written as lists of (key, value) entries, in the order
 * the source lists them: looking a key up, and the map the list stands for.
 */
module Assoc {
  import opened Wrappers

  /** The value of the first entry with key k, if any. */
  function Lookup<V>(entries: seq<(string, V)>, k: string): Option<V>
    decreases |entries|
  {
    if entries == [] then None
    else if entries[0].0 == k then Some(entries[0].1)
    else Lookup(entries[1..], k)
  }

  /** A value found belongs to an entry with key k; nothing is found exactly when no entry has key k. */
  lemma {:induction false} LookupFinds<V>(entries: seq<(string, V)>, k: string)
    ensures var r := Lookup(entries, k);
      && (r.Some? ==> exists i :: 0 <= i < |entries| && entries[i] == (k, r.value))
      && (r.None? <==> forall i :: 0 <= i < |entries| ==> entries[i].0 != k)
    decreases |entries|
  {
    if entries != [] && entries[0].0 != k {
      LookupFinds(entries[1..], k);
      var rest := entries[1..];
      assert forall i :: 0 < i < |entries| ==> entries[i] == rest[i - 1];
    }
  }

  /** The dictionary the entries stand for; an earlier entry wins over a later one with the same key. */
  function ToMap<V>(entries: seq<(string, V)>): (m: map<string, V>)
    ensures m.Keys == set i | 0 <= i < |entries| :: entries[i].0
    decreases |entries|
  {
    if entries == [] then map[]
    else
      var rest := entries[1..];
      assert forall i :: 0 < i < |entries| ==> entries[i] == rest[i - 1];
      ToMap(rest)[entries[0].0 := entries[0].1]
  }

  /** Looking a key up in the list and in the map it stands for agree. */
  lemma {:induction false} LookupToMap<V>(entries: seq<(string, V)>, k: string)
    ensures Lookup(entries, k).Some? <==> k in ToMap(entries)
    ensures k in ToMap(entries) ==> Lookup(entries, k) == Some(ToMap(entries)[k])
    decreases |entries|
  {
    if entries != [] && entries[0].0 != k {
      LookupToMap(entries[1..], k);
    }
  }
}
