/**
 * A Python `dict` from source names to source codes, as the media player keeps
 * it: the entries in insertion order (iteration follows that order), one entry
 * per key, and assignment to a present key replacing its value in place.
 */
module OrderedDict {
  import opened Wrappers

  type Dict = seq<(string, string)>

  /** `list(d)`: the keys in iteration order. */
  function Keys(d: Dict): (ks: seq<string>)
    ensures |ks| == |d|
    ensures forall i :: 0 <= i < |d| ==> ks[i] == d[i].0
  {
    if d == [] then [] else [d[0].0] + Keys(d[1..])
  }

  predicate Distinct(s: seq<string>) {
    forall i, j :: 0 <= i < j < |s| ==> s[i] != s[j]
  }

  /** `d[k] if k in d else None`: the value of the entry for `k`. */
  function Get(d: Dict, k: string): (r: Option<string>)
    ensures r.None? <==> k !in Keys(d)
    ensures r.Some? ==> (k, r.value) in d
  {
    if d == [] then None
    else if d[0].0 == k then Some(d[0].1)
    else Get(d[1..], k)
  }

  /** `d[k] = v`: a present key keeps its position and takes the new value; a new key goes last. */
  function Put(d: Dict, k: string, v: string): (r: Dict)
    ensures |r| == if k in Keys(d) then |d| else |d| + 1
  {
    if d == [] then [(k, v)]
    else if d[0].0 == k then [(k, v)] + d[1..]
    else [d[0]] + Put(d[1..], k, v)
  }

  /** After `d[k] = v`, `d[k]` is `v`. */
  lemma {:induction false} PutGet(d: Dict, k: string, v: string)
    ensures Get(Put(d, k, v), k) == Some(v)
  {
    if d != [] && d[0].0 != k {
      PutGet(d[1..], k, v);
    }
  }

  /** `d[k] = v` leaves every other key's value as it was. */
  lemma {:induction false} PutGetOther(d: Dict, k: string, v: string, other: string)
    requires other != k
    ensures Get(Put(d, k, v), other) == Get(d, other)
  {
    if d != [] && d[0].0 != k {
      PutGetOther(d[1..], k, v, other);
    }
  }

  /** A present key keeps its place in iteration order; a new key is iterated last. */
  lemma {:induction false} PutKeys(d: Dict, k: string, v: string)
    ensures Keys(Put(d, k, v)) == if k in Keys(d) then Keys(d) else Keys(d) + [k]
  {
    if d != [] && d[0].0 != k {
      PutKeys(d[1..], k, v);
      assert Keys(d) == [d[0].0] + Keys(d[1..]);
    }
  }

  /**
   * The dict a loop `for (name, code) in entries: d[name] = code` builds from
   * an empty dict.
   */
  function FromEntries(entries: seq<(string, string)>): Dict
  {
    if entries == [] then []
    else
      var last := entries[|entries| - 1];
      Put(FromEntries(entries[..|entries| - 1]), last.0, last.1)
  }

  /** The value of the last entry named `k`, scanning from the end. */
  function LastValue(entries: seq<(string, string)>, k: string): Option<string>
  {
    if entries == [] then None
    else if entries[|entries| - 1].0 == k then Some(entries[|entries| - 1].1)
    else LastValue(entries[..|entries| - 1], k)
  }

  /** Later entries overwrite earlier ones: a name maps to the code it was given last. */
  lemma {:induction false} FromEntriesLastWins(entries: seq<(string, string)>, k: string)
    ensures Get(FromEntries(entries), k) == LastValue(entries, k)
  {
    if entries != [] {
      var init, last := entries[..|entries| - 1], entries[|entries| - 1];
      FromEntriesLastWins(init, k);
      if last.0 == k {
        PutGet(FromEntries(init), k, last.1);
      } else {
        PutGetOther(FromEntries(init), last.0, last.1, k);
      }
    }
  }

  /** Each name is listed once in the built dict. */
  lemma {:induction false} FromEntriesDistinct(entries: seq<(string, string)>)
    ensures Distinct(Keys(FromEntries(entries)))
  {
    if entries != [] {
      var init, last := entries[..|entries| - 1], entries[|entries| - 1];
      FromEntriesDistinct(init);
      PutKeys(FromEntries(init), last.0, last.1);
      var ks := Keys(FromEntries(init));
      if last.0 !in ks {
        forall i, j | 0 <= i < j < |ks + [last.0]| ensures (ks + [last.0])[i] != (ks + [last.0])[j] {
          if j == |ks| {
            assert (ks + [last.0])[i] == ks[i];
          }
        }
      }
    }
  }

  /** The built dict's keys are exactly the configured names. */
  lemma {:induction false} FromEntriesKeys(entries: seq<(string, string)>, k: string)
    ensures k in Keys(FromEntries(entries)) <==> k in Keys(entries)
  {
    if entries != [] {
      var init, last := entries[..|entries| - 1], entries[|entries| - 1];
      FromEntriesKeys(init, k);
      InKeysPut(FromEntries(init), last.0, last.1, k);
      assert entries == init + [last];
      InKeysAppend(init, last, k);
    }
  }

  /** After `d[key] = v` the keys are the old keys and `key`. */
  lemma InKeysPut(d: Dict, key: string, v: string, k: string)
    ensures k in Keys(Put(d, key, v)) <==> k in Keys(d) || k == key
  {
    PutKeys(d, key, v);
  }

  lemma InKeysAppend(d: Dict, e: (string, string), k: string)
    ensures k in Keys(d + [e]) <==> k in Keys(d) || k == e.0
  {
    KeysAppend(d, e);
  }

  lemma KeysAppend(d: Dict, e: (string, string))
    ensures Keys(d + [e]) == Keys(d) + [e.0]
  {
    var l, r := Keys(d + [e]), Keys(d) + [e.0];
    assert |l| == |r|;
    forall i | 0 <= i < |l| ensures l[i] == r[i] {
      if i < |d| {
        assert (d + [e])[i] == d[i];
      }
    }
  }
}
