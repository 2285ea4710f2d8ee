/** The `-D` definitions of an extension: an insertion-ordered dictionary from
    CMake variable names to values, represented as a sequence of entries.
    Insertion order matters because the configure command emits one flag per
    entry in that order. */
module Defs {
  import opened Wrappers
  import opened Seqs

  type Entry = (string, string)

  function Keys(d: seq<Entry>): set<string> {
    if d == [] then {} else {d[0].0} + Keys(d[1..])
  }

  lemma KeysIndex(d: seq<Entry>, k: string)
    ensures k in Keys(d) <==> exists i :: 0 <= i < |d| && d[i].0 == k
  {
    if d != [] {
      KeysIndex(d[1..], k);
      if k in Keys(d[1..]) {
        var i :| 0 <= i < |d[1..]| && d[1..][i].0 == k;
        assert d[i + 1].0 == k;
      }
      if exists i :: 0 <= i < |d| && d[i].0 == k {
        var i :| 0 <= i < |d| && d[i].0 == k;
        if i > 0 { assert d[1..][i - 1].0 == k; }
      }
    }
  }

  /** A dictionary never holds the same key twice. */
  predicate UniqueKeys(d: seq<Entry>) {
    forall i, j :: 0 <= i < j < |d| ==> d[i].0 != d[j].0
  }

  /** `d.get(k)`: the value of the entry for `k`. */
  function Lookup(d: seq<Entry>, k: string): (r: Option<string>)
    ensures r.Some? <==> k in Keys(d)
  {
    if d == [] then None
    else if d[0].0 == k then Some(d[0].1)
    else Lookup(d[1..], k)
  }

  /** A value found by lookup comes from an entry of the dictionary. */
  lemma LookupIndex(d: seq<Entry>, k: string)
    requires Lookup(d, k).Some?
    ensures exists i :: 0 <= i < |d| && d[i] == (k, Lookup(d, k).value)
  {
    if d[0].0 != k {
      LookupIndex(d[1..], k);
      var i :| 0 <= i < |d[1..]| && d[1..][i] == (k, Lookup(d, k).value);
      assert d[i + 1] == d[1..][i];
    }
  }

  lemma LookupAppend(d: seq<Entry>, e: seq<Entry>, k: string)
    ensures Lookup(d + e, k) == if k in Keys(d) then Lookup(d, k) else Lookup(e, k)
    decreases |d|
  {
    if d == [] {
      assert d + e == e;
    } else {
      assert (d + e)[0] == d[0] && (d + e)[1..] == d[1..] + e;
      LookupAppend(d[1..], e, k);
    }
  }

  lemma KeysAppend(d: seq<Entry>, e: seq<Entry>)
    ensures Keys(d + e) == Keys(d) + Keys(e)
    decreases |d|
  {
    if d == [] {
      assert d + e == e;
    } else {
      assert (d + e)[0] == d[0] && (d + e)[1..] == d[1..] + e;
      KeysAppend(d[1..], e);
    }
  }

  /** In a dictionary, looking up the key of an entry yields that entry's value. */
  lemma LookupEntry(d: seq<Entry>, i: nat)
    requires UniqueKeys(d) && i < |d|
    ensures Lookup(d, d[i].0) == Some(d[i].1)
  {
    if i > 0 {
      assert d[1..][i - 1] == d[i];
      LookupEntry(d[1..], i - 1);
    }
  }

  /** `if k not in d: d[k] = v` on an insertion-ordered dictionary: an absent
      key is appended at the end, a present one is left alone. */
  function SetDefault(d: seq<Entry>, k: string, v: string): (r: seq<Entry>)
    ensures Keys(r) == Keys(d) + {k}
    ensures |d| <= |r| <= |d| + 1 && r[..|d|] == d
    ensures UniqueKeys(d) ==> UniqueKeys(r)
  {
    if k in Keys(d) then d
    else
      var r := d + [(k, v)];
      KeysAppend(d, [(k, v)]);
      assert UniqueKeys(d) ==> UniqueKeys(r) by {
        if UniqueKeys(d) {
          forall i | 0 <= i < |d| ensures d[i].0 != k {
            KeysIndex(d, k);
          }
        }
      }
      r
  }

  /** After `SetDefault(d, k, v)`, a key already present keeps its value,
      `k` maps to `v` when it was absent, and every other key is unaffected. */
  lemma LookupSetDefault(d: seq<Entry>, k: string, v: string, k': string)
    ensures Lookup(SetDefault(d, k, v), k') ==
      if k' in Keys(d) then Lookup(d, k') else if k' == k then Some(v) else None
  {
    if k !in Keys(d) {
      LookupAppend(d, [(k, v)], k');
    }
  }

  /** The constructor's merge of the default definitions into the caller's:
      each default is added, in order, only when its key is still absent.
      The caller's entries keep their values and their order at the front,
      every other default key takes its (first) default value, and no other
      key appears. */
  function MergeDefaults(d: seq<Entry>, defaults: seq<Entry>): (r: seq<Entry>)
    ensures forall k :: k in Keys(d) ==> Lookup(r, k) == Lookup(d, k)
    ensures forall k :: k !in Keys(d) ==> Lookup(r, k) == Lookup(defaults, k)
    ensures Keys(r) == Keys(d) + Keys(defaults)
    ensures |d| <= |r| <= |d| + |defaults| && r[..|d|] == d
    ensures UniqueKeys(d) ==> UniqueKeys(r)
    decreases |defaults|
  {
    if defaults == [] then d
    else
      var d1 := SetDefault(d, defaults[0].0, defaults[0].1);
      var r := MergeDefaults(d1, defaults[1..]);
      MergeStep(d, defaults, d1, r);
      PrefixTransitive(d, d1, r);
      r
  }

  /** One step of the merge: adding the first default and then merging the
      rest keeps the caller's values and gives every other key its first
      default value. */
  lemma MergeStep(d: seq<Entry>, defaults: seq<Entry>, d1: seq<Entry>, r: seq<Entry>)
    requires defaults != []
    requires d1 == SetDefault(d, defaults[0].0, defaults[0].1)
    requires forall k :: k in Keys(d1) ==> Lookup(r, k) == Lookup(d1, k)
    requires forall k :: k !in Keys(d1) ==> Lookup(r, k) == Lookup(defaults[1..], k)
    ensures forall k :: k in Keys(d) ==> Lookup(r, k) == Lookup(d, k)
    ensures forall k :: k !in Keys(d) ==> Lookup(r, k) == Lookup(defaults, k)
  {
    var k0 := defaults[0].0;
    forall k ensures Lookup(r, k) == if k in Keys(d) then Lookup(d, k) else Lookup(defaults, k) {
      LookupSetDefault(d, k0, defaults[0].1, k);
    }
  }

  /** The entries of `defaults` whose key `d` does not define, in the order
      of `defaults`. */
  function Absent(d: seq<Entry>, defaults: seq<Entry>): seq<Entry>
    decreases |defaults|
  {
    if defaults == [] then []
    else (if defaults[0].0 in Keys(d) then [] else [defaults[0]]) + Absent(d, defaults[1..])
  }

  /** An entry is in `Absent(d, defaults)` exactly when it is a default
      whose key `d` does not define. */
  lemma {:induction false} AbsentMembers(d: seq<Entry>, defaults: seq<Entry>)
    ensures forall en :: en in Absent(d, defaults) <==> en in defaults && en.0 !in Keys(d)
    decreases |defaults|
  {
    if defaults != [] {
      AbsentMembers(d, defaults[1..]);
      assert defaults == [defaults[0]] + defaults[1..];
    }
  }

  /** `Absent` depends on `d` only through which keys of `defaults` it defines. */
  lemma {:induction false} AbsentSameKeys(d: seq<Entry>, d': seq<Entry>, defaults: seq<Entry>)
    requires forall i :: 0 <= i < |defaults| ==> (defaults[i].0 in Keys(d) <==> defaults[i].0 in Keys(d'))
    ensures Absent(d, defaults) == Absent(d', defaults)
    decreases |defaults|
  {
    if defaults != [] {
      assert defaults[0].0 in Keys(d) <==> defaults[0].0 in Keys(d');
      forall i | 0 <= i < |defaults[1..]|
        ensures defaults[1..][i].0 in Keys(d) <==> defaults[1..][i].0 in Keys(d')
      {
        assert defaults[1..][i] == defaults[i + 1];
      }
      AbsentSameKeys(d, d', defaults[1..]);
    }
  }

  /** Dropping the first entry of a dictionary leaves a dictionary none of
      whose keys is the dropped one. */
  lemma UniqueKeysTail(d: seq<Entry>)
    requires d != [] && UniqueKeys(d)
    ensures UniqueKeys(d[1..])
    ensures forall i :: 0 <= i < |d[1..]| ==> d[1..][i].0 != d[0].0
  {
    forall i, j | 0 <= i < j < |d[1..]| ensures d[1..][i].0 != d[1..][j].0 {
      assert d[1..][i] == d[i + 1] && d[1..][j] == d[j + 1];
    }
    forall i | 0 <= i < |d[1..]| ensures d[1..][i].0 != d[0].0 {
      assert d[1..][i] == d[i + 1];
    }
  }

  /** Adding the first default does not change what the rest of the
      defaults leave out, as the rest never repeats its key. */
  lemma AbsentAfterAdding(d: seq<Entry>, d1: seq<Entry>, defaults: seq<Entry>)
    requires defaults != [] && UniqueKeys(defaults)
    requires Keys(d1) == Keys(d) + {defaults[0].0}
    ensures Absent(d1, defaults[1..]) == Absent(d, defaults[1..])
  {
    var k0, rest := defaults[0].0, defaults[1..];
    UniqueKeysTail(defaults);
    forall i | 0 <= i < |rest| ensures rest[i].0 in Keys(d1) <==> rest[i].0 in Keys(d) {
      assert rest[i].0 != k0;
    }
    AbsentSameKeys(d1, d, rest);
  }

  /** One merge step in terms of `Absent`: adding the first default when
      absent, then appending what the rest leaves out, appends exactly what
      the whole defaults dictionary leaves out. */
  lemma AbsentStep(d: seq<Entry>, d1: seq<Entry>, defaults: seq<Entry>)
    requires defaults != []
    requires d1 == if defaults[0].0 in Keys(d) then d else d + [defaults[0]]
    requires Absent(d1, defaults[1..]) == Absent(d, defaults[1..])
    ensures d1 + Absent(d1, defaults[1..]) == d + Absent(d, defaults)
  {
    var en, tail := defaults[0], Absent(d, defaults[1..]);
    var head := if en.0 in Keys(d) then [] else [en];
    assert Absent(d, defaults) == head + tail;
    assert d1 == d + head;
    SeqAssoc(d, head, tail);
  }

  /** For a defaults dictionary (no repeated key), the merge keeps the
      caller's entries and appends the defaults the caller left out, in the
      defaults' declaration order: this fixes the order of the definitions. */
  lemma {:induction false} MergeAppendsAbsent(d: seq<Entry>, defaults: seq<Entry>)
    requires UniqueKeys(defaults)
    ensures MergeDefaults(d, defaults) == d + Absent(d, defaults)
    decreases |defaults|
  {
    if defaults == [] {
      assert d + [] == d;
    } else {
      var d1 := SetDefault(d, defaults[0].0, defaults[0].1);
      UniqueKeysTail(defaults);
      MergeAppendsAbsent(d1, defaults[1..]);
      AbsentAfterAdding(d, d1, defaults);
      AbsentStep(d, d1, defaults);
    }
  }
}
