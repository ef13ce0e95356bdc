/** `SortedByStoreName`: the dictionary's keys, copied and sorted with the
    ignore-case comparer, each paired with its value. */
module Sorting {
  import opened IgnoreCase
  import opened Aggregation

  /** Strictly ascending under the ignore-case comparer. */
  predicate Ascending(names: seq<string>) {
    forall i, j :: 0 <= i < j < |names| ==> Before(names[i], names[j])
  }

  /** No two names differ only in case. */
  predicate DistinctIgnoreCase(names: seq<string>) {
    forall i, j :: 0 <= i < j < |names| ==> !EqualsIgnoreCase(names[i], names[j])
  }

  /** Insert `x` into an ascending sequence at its place. */
  function Insert(x: string, s: seq<string>): (r: seq<string>)
    ensures multiset(r) == multiset(s) + multiset{x}
  {
    if |s| == 0 then [x]
    else if Before(x, s[0]) then [x] + s
    else
      assert s == [s[0]] + s[1..];
      [s[0]] + Insert(x, s[1..])
  }

  /** Every name of an ascending sequence after its head comes after it. */
  lemma HeadFirst(s: seq<string>, y: string)
    requires Ascending(s) && |s| > 0 && y in s[1..]
    ensures Before(s[0], y)
  {
    var m :| 0 <= m < |s[1..]| && s[1..][m] == y;
    assert s[m + 1] == y;
  }

  /** Inserting a name that is case-distinct from all others keeps a
      sequence strictly ascending. */
  lemma {:induction false} InsertAscending(x: string, s: seq<string>)
    requires Ascending(s)
    requires forall y :: y in s ==> !EqualsIgnoreCase(x, y)
    ensures Ascending(Insert(x, s))
    decreases |s|
  {
    if |s| == 0 {
    } else if Before(x, s[0]) {
      forall j | 0 < j < |s| ensures Before(x, s[j]) {
        BeforeTransitive(x, s[0], s[j]);
      }
    } else {
      var t := Insert(x, s[1..]);
      assert s[0] in s;
      BeforeConnected(x, s[0]);
      assert Ascending(s[1..]);
      assert forall y :: y in s[1..] ==> y in s;
      InsertAscending(x, s[1..]);
      forall j | 0 <= j < |t| ensures Before(s[0], t[j]) {
        assert t[j] in multiset(t);
        if t[j] != x {
          assert t[j] in multiset(s[1..]);
          HeadFirst(s, t[j]);
        }
      }
      assert Insert(x, s) == [s[0]] + t;
    }
  }

  /** Insertion sort under the ignore-case comparer. */
  function Sort(s: seq<string>): (r: seq<string>)
    ensures multiset(r) == multiset(s)
  {
    if |s| == 0 then []
    else
      assert s == [s[0]] + s[1..];
      Insert(s[0], Sort(s[1..]))
  }

  /** Sorting names of which no two differ only in case gives a strictly
      ascending sequence. */
  lemma {:induction false} SortAscending(s: seq<string>)
    requires DistinctIgnoreCase(s)
    ensures Ascending(Sort(s))
    decreases |s|
  {
    if |s| > 0 {
      var rest := Sort(s[1..]);
      assert DistinctIgnoreCase(s[1..]);
      SortAscending(s[1..]);
      forall y | y in rest ensures !EqualsIgnoreCase(s[0], y) {
        assert y in multiset(rest);
        var m :| 0 <= m < |s[1..]| && s[1..][m] == y;
        assert s[m + 1] == y;
      }
      InsertAscending(s[0], rest);
    }
  }

  /** Two ascending sequences holding the same names start with the same
      name: the least one. */
  lemma AscendingSameHead(a: seq<string>, b: seq<string>)
    requires Ascending(a) && Ascending(b) && multiset(a) == multiset(b) && |a| > 0
    ensures |b| > 0 && a[0] == b[0]
  {
    assert a[0] in multiset(b);
    var i :| 0 <= i < |b| && b[i] == a[0];
    assert b[0] in multiset(a);
    var j :| 0 <= j < |a| && a[j] == b[0];
    if a[0] != b[0] {
      assert Before(b[0], b[i]) && Before(a[0], a[j]);
      BeforeAsymmetric(a[0], b[0]);
      assert false;
    }
  }

  /** Removing the same head from two sequences holding the same names
      leaves two sequences holding the same names. */
  lemma SameTails(a: seq<string>, b: seq<string>)
    requires |a| > 0 && |b| > 0 && a[0] == b[0] && multiset(a) == multiset(b)
    ensures multiset(a[1..]) == multiset(b[1..])
  {
    assert a == [a[0]] + a[1..];
    assert b == [b[0]] + b[1..];
    assert multiset(a[1..]) == multiset(a) - multiset{a[0]};
    assert multiset(b[1..]) == multiset(b) - multiset{b[0]};
  }

  /** Two ascending sequences holding the same names are the same sequence:
      any correct sort of case-distinct keys yields this one order, whatever
      order the keys were enumerated in. */
  lemma {:induction false} AscendingUnique(a: seq<string>, b: seq<string>)
    requires Ascending(a) && Ascending(b) && multiset(a) == multiset(b)
    ensures a == b
    decreases |a|
  {
    if |a| == 0 {
      assert |b| == |multiset(b)| == 0;
    } else {
      AscendingSameHead(a, b);
      SameTails(a, b);
      assert Ascending(a[1..]) && Ascending(b[1..]);
      AscendingUnique(a[1..], b[1..]);
      assert a == [a[0]] + a[1..] && b == [b[0]] + b[1..];
    }
  }

  /** The sum of the values of a sequence of entries. */
  function SumAmounts(kvs: seq<(string, real)>): real {
    if |kvs| == 0 then 0.0 else kvs[0].1 + SumAmounts(kvs[1..])
  }

  /** The stores of a sequence of entries, in order. */
  function StoresOf(kvs: seq<(string, real)>): (r: seq<string>)
    ensures |r| == |kvs|
  {
    seq(|kvs|, i requires 0 <= i < |kvs| => kvs[i].0)
  }

  /** `kvs` lists exactly the dictionary's entries, each once. */
  predicate ListsEntries(d: StoreTotals, kvs: seq<(string, real)>) {
    && (forall i :: 0 <= i < |kvs| ==> Fold(kvs[i].0) in d && d[Fold(kvs[i].0)] == Entry(kvs[i].0, kvs[i].1))
    && (forall k :: k in d ==> exists i :: 0 <= i < |kvs| && Fold(kvs[i].0) == k)
    && (forall i, j :: 0 <= i < j < |kvs| ==> Fold(kvs[i].0) != Fold(kvs[j].0))
  }

  /** Dropping the first listed entry leaves a listing of the rest of the
      dictionary. */
  lemma ListsEntriesTail(d: StoreTotals, kvs: seq<(string, real)>)
    requires ListsEntries(d, kvs) && |kvs| > 0
    ensures ListsEntries(d - {Fold(kvs[0].0)}, kvs[1..])
  {
    var k0 := Fold(kvs[0].0);
    var rest := kvs[1..];
    var d' := d - {k0};
    forall k | k in d' ensures exists i :: 0 <= i < |rest| && Fold(rest[i].0) == k {
      var i :| 0 <= i < |kvs| && Fold(kvs[i].0) == k;
      assert i > 0 && rest[i - 1] == kvs[i];
    }
    forall i | 0 <= i < |rest| ensures Fold(rest[i].0) in d' && d'[Fold(rest[i].0)] == Entry(rest[i].0, rest[i].1) {
      assert rest[i] == kvs[i + 1];
    }
    forall i, j | 0 <= i < j < |rest| ensures Fold(rest[i].0) != Fold(rest[j].0) {
      assert rest[i] == kvs[i + 1] && rest[j] == kvs[j + 1];
    }
  }

  /** Listing every entry once adds up to the sum of the dictionary's
      values, in whatever order the entries are listed. */
  lemma {:induction false} ListedSumIsMapSum(d: StoreTotals, kvs: seq<(string, real)>)
    requires ListsEntries(d, kvs)
    ensures SumAmounts(kvs) == MapSum(d)
    decreases |kvs|
  {
    if |kvs| == 0 {
      assert d.Keys == {};
    } else {
      var k0 := Fold(kvs[0].0);
      ListsEntriesTail(d, kvs);
      ListedSumIsMapSum(d - {k0}, kvs[1..]);
      MapSumRemove(d, k0);
    }
  }

  /** Copy the dictionary's stored keys into a sequence, in unspecified
      order. */
  method CopyKeys(d: StoreTotals) returns (names: seq<string>)
    requires WellKeyed(d)
    ensures |names| == |d|
    ensures forall i :: 0 <= i < |names| ==> Fold(names[i]) in d && d[Fold(names[i])].name == names[i]
    ensures forall k :: k in d ==> d[k].name in names
    ensures DistinctIgnoreCase(names)
  {
    names := [];
    var rest := d.Keys;
    while rest != {}
      invariant rest <= d.Keys
      invariant |names| + |rest| == |d|
      invariant forall i :: 0 <= i < |names| ==> Fold(names[i]) in d && Fold(names[i]) !in rest && d[Fold(names[i])].name == names[i]
      invariant forall k :: k in d && k !in rest ==> d[k].name in names
      invariant DistinctIgnoreCase(names)
      decreases rest
    {
      var k :| k in rest;
      names := names + [d[k].name];
      rest := rest - {k};
    }
  }

  /** Pairing each sorted key with its value lists every entry of the
      dictionary exactly once. */
  lemma PairedKeysListEntries(d: StoreTotals, keys: seq<string>, sorted: seq<string>, kvs: seq<(string, real)>)
    requires WellKeyed(d) && |keys| == |d|
    requires forall i :: 0 <= i < |keys| ==> Fold(keys[i]) in d && d[Fold(keys[i])].name == keys[i]
    requires forall k :: k in d ==> d[k].name in keys
    requires multiset(sorted) == multiset(keys) && Ascending(sorted)
    requires |kvs| == |sorted|
    requires forall j :: 0 <= j < |kvs| ==> Fold(sorted[j]) in d && kvs[j] == (sorted[j], d[Fold(sorted[j])].total)
    ensures |kvs| == |d|
    ensures ListsEntries(d, kvs)
    ensures Ascending(StoresOf(kvs))
  {
    forall i | 0 <= i < |sorted| ensures Fold(sorted[i]) in d && d[Fold(sorted[i])].name == sorted[i] {
      assert sorted[i] in multiset(keys);
    }
    assert StoresOf(kvs) == sorted;
    assert |sorted| == |multiset(sorted)| == |multiset(keys)| == |d|;
    forall k | k in d ensures exists i :: 0 <= i < |kvs| && Fold(kvs[i].0) == k {
      assert d[k].name in multiset(sorted);
      var i :| 0 <= i < |sorted| && sorted[i] == d[k].name;
      assert Fold(kvs[i].0) == k;
    }
    forall i, j | 0 <= i < j < |kvs| ensures Fold(kvs[i].0) != Fold(kvs[j].0) {
      BeforeAsymmetric(sorted[i], sorted[j]);
    }
  }

  /** The dictionary's entries, keys sorted ascending ignoring case, each
      key paired with its value. */
  method SortedByStoreName(d: StoreTotals) returns (kvs: seq<(string, real)>)
    requires WellKeyed(d)
    ensures |kvs| == |d|
    ensures ListsEntries(d, kvs)
    ensures Ascending(StoresOf(kvs))
  {
    var keys := CopyKeys(d);
    var sorted := Sort(keys);
    SortAscending(keys);
    forall i | 0 <= i < |sorted| ensures Fold(sorted[i]) in d {
      assert sorted[i] in multiset(keys);
    }
    kvs := [];
    for i := 0 to |sorted|
      invariant |kvs| == i
      invariant forall j :: 0 <= j < i ==> kvs[j] == (sorted[j], d[Fold(sorted[j])].total)
    {
      kvs := kvs + [(sorted[i], d[Fold(sorted[i])].total)];
    }
    PairedKeysListEntries(d, keys, sorted, kvs);
  }
}
