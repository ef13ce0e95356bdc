/** The per-store fold of `Main`: a case-insensitive dictionary from store
    name to accumulated total, plus a running grand total. */
module Aggregation {
  import opened IgnoreCase

  /** One discovered file, already reduced to its store name and total. */
  datatype FileTotal = FileTotal(store: string, total: real)

  /** A dictionary entry: the key as first inserted, and its running total. */
  datatype Entry = Entry(name: string, total: real)

  /** A dictionary under the ignore-case comparer, indexed by the folded form
      of its keys: every case-variant of a key reaches the same entry. */
  type StoreTotals = map<string, Entry>

  /** What the loop leaves behind: the dictionary and the grand total. */
  datatype Totals = Totals(perStore: StoreTotals, grand: real)

  /** Every entry sits under the folded form of its own stored key. */
  predicate WellKeyed(d: StoreTotals) {
    forall k :: k in d ==> Fold(d[k].name) == k
  }

  /** The dictionary's `ContainsKey` under the ignore-case comparer: on a
      well-keyed dictionary, some stored name equals `name` ignoring case. */
  function ContainsKey(d: StoreTotals, name: string): (b: bool)
    ensures WellKeyed(d) ==> (b <==> exists k :: k in d && EqualsIgnoreCase(d[k].name, name))
  {
    Fold(name) in d
  }

  /** One iteration of the loop body: a seen store has the total added, an
      unseen one is created holding it. */
  function Add(d: StoreTotals, f: FileTotal): (r: StoreTotals)
    ensures WellKeyed(d) ==> WellKeyed(r)
    ensures r.Keys == d.Keys + {Fold(f.store)}
    ensures forall k :: k in d && k != Fold(f.store) ==> r[k] == d[k]
    ensures ContainsKey(d, f.store) ==> r[Fold(f.store)] == Entry(d[Fold(f.store)].name, d[Fold(f.store)].total + f.total)
    ensures !ContainsKey(d, f.store) ==> r[Fold(f.store)] == Entry(f.store, f.total)
  {
    var key := Fold(f.store);
    if key in d then d[key := Entry(d[key].name, d[key].total + f.total)]
    else d[key := Entry(f.store, f.total)]
  }

  /** The fold over the discovered files, in discovery order. */
  function Aggregate(files: seq<FileTotal>): (s: Totals)
    ensures WellKeyed(s.perStore)
    decreases |files|
  {
    if |files| == 0 then Totals(map[], 0.0)
    else
      var prev := Aggregate(files[..|files| - 1]);
      var f := files[|files| - 1];
      Totals(Add(prev.perStore, f), prev.grand + f.total)
  }

  /** No two keys of the dictionary are equal ignoring case. */
  lemma KeysDistinctIgnoringCase(files: seq<FileTotal>)
    ensures forall k1, k2 ::
              (k1 in Aggregate(files).perStore && k2 in Aggregate(files).perStore
               && EqualsIgnoreCase(Aggregate(files).perStore[k1].name, Aggregate(files).perStore[k2].name))
              ==> k1 == k2
  {
  }

  /** Unfolding `Aggregate` one file from the end. */
  lemma AggregateSnoc(files: seq<FileTotal>, f: FileTotal)
    ensures Aggregate(files + [f]) ==
            Totals(Add(Aggregate(files).perStore, f), Aggregate(files).grand + f.total)
  {
    assert (files + [f])[..|files|] == files;
  }

  /** Unfolding `Aggregate` on a prefix one file longer. */
  lemma AggregatePrefixStep(files: seq<FileTotal>, i: nat)
    requires i < |files|
    ensures Aggregate(files[..i + 1]) ==
            Totals(Add(Aggregate(files[..i]).perStore, files[i]), Aggregate(files[..i]).grand + files[i].total)
  {
    assert files[..i + 1][..i] == files[..i];
  }

  // Reference definitions, independent of the fold.

  /** The sum of every file's total. */
  function SumTotals(files: seq<FileTotal>): real {
    if |files| == 0 then 0.0 else files[0].total + SumTotals(files[1..])
  }

  /** The sum of the totals of exactly those files whose store is `key`
      ignoring case. */
  function StoreSum(files: seq<FileTotal>, key: string): real {
    if |files| == 0 then 0.0
    else (if Fold(files[0].store) == key then files[0].total else 0.0) + StoreSum(files[1..], key)
  }

  /** The folded store names that occur in the input. */
  function StoreKeys(files: seq<FileTotal>): set<string> {
    set i | 0 <= i < |files| :: Fold(files[i].store)
  }

  /** The sum of the dictionary's values. */
  ghost function MapSum(d: StoreTotals): real
    decreases |d|
  {
    if d == map[] then 0.0
    else
      var k :| k in d;
      d[k].total + MapSum(d - {k})
  }

  lemma {:induction false} SumTotalsSnoc(files: seq<FileTotal>, f: FileTotal)
    ensures SumTotals(files + [f]) == SumTotals(files) + f.total
    decreases |files|
  {
    if |files| > 0 {
      assert (files + [f])[1..] == files[1..] + [f];
      SumTotalsSnoc(files[1..], f);
    }
  }

  lemma {:induction false} StoreSumSnoc(files: seq<FileTotal>, f: FileTotal, key: string)
    ensures StoreSum(files + [f], key) ==
            StoreSum(files, key) + (if Fold(f.store) == key then f.total else 0.0)
    decreases |files|
  {
    if |files| > 0 {
      assert (files + [f])[1..] == files[1..] + [f];
      StoreSumSnoc(files[1..], f, key);
    }
  }

  lemma {:induction false} SumTotalsConcat(a: seq<FileTotal>, b: seq<FileTotal>)
    ensures SumTotals(a + b) == SumTotals(a) + SumTotals(b)
    decreases |a|
  {
    if |a| > 0 {
      assert (a + b)[1..] == a[1..] + b;
      SumTotalsConcat(a[1..], b);
    } else {
      assert a + b == b;
    }
  }

  lemma {:induction false} StoreSumConcat(a: seq<FileTotal>, b: seq<FileTotal>, key: string)
    ensures StoreSum(a + b, key) == StoreSum(a, key) + StoreSum(b, key)
    decreases |a|
  {
    if |a| > 0 {
      assert (a + b)[1..] == a[1..] + b;
      StoreSumConcat(a[1..], b, key);
    } else {
      assert a + b == b;
    }
  }

  lemma StoreKeysConcat(a: seq<FileTotal>, b: seq<FileTotal>)
    ensures StoreKeys(a + b) == StoreKeys(a) + StoreKeys(b)
  {
    forall k | k in StoreKeys(a + b) ensures k in StoreKeys(a) + StoreKeys(b) {
      var i :| 0 <= i < |a + b| && k == Fold((a + b)[i].store);
      if i >= |a| {
        assert (a + b)[i] == b[i - |a|];
      }
    }
    forall k | k in StoreKeys(a) ensures k in StoreKeys(a + b) {
      var i :| 0 <= i < |a| && k == Fold(a[i].store);
      assert (a + b)[i] == a[i];
    }
    forall k | k in StoreKeys(b) ensures k in StoreKeys(a + b) {
      var i :| 0 <= i < |b| && k == Fold(b[i].store);
      assert (a + b)[|a| + i] == b[i];
    }
  }

  /** Removing any one entry splits off exactly its value, whichever entry
      `MapSum` happened to pick first. */
  lemma {:induction false} MapSumRemove(d: StoreTotals, k: string)
    requires k in d
    ensures MapSum(d) == d[k].total + MapSum(d - {k})
    decreases |d|
  {
    var j :| j in d && MapSum(d) == d[j].total + MapSum(d - {j});
    if j != k {
      MapSumRemove(d - {j}, k);
      MapSumRemove(d - {k}, j);
      assert d - {j} - {k} == d - {k} - {j};
    }
  }

  /** The grand total is the exact sum of every file's total. */
  lemma {:induction false} GrandTotalIsSum(files: seq<FileTotal>)
    ensures Aggregate(files).grand == SumTotals(files)
    decreases |files|
  {
    if |files| > 0 {
      var init := files[..|files| - 1];
      var f := files[|files| - 1];
      assert files == init + [f];
      AggregateSnoc(init, f);
      GrandTotalIsSum(init);
      SumTotalsSnoc(init, f);
    }
  }

  /** The dictionary has an entry for exactly the stores that occur in the
      input, case-insensitively; zero-valued stores included. */
  lemma {:induction false} KeysAreTheStores(files: seq<FileTotal>)
    ensures Aggregate(files).perStore.Keys == StoreKeys(files)
    decreases |files|
  {
    if |files| > 0 {
      var init := files[..|files| - 1];
      var f := files[|files| - 1];
      assert files == init + [f];
      AggregateSnoc(init, f);
      KeysAreTheStores(init);
      StoreKeysConcat(init, [f]);
      assert StoreKeys([f]) == {Fold(f.store)} by {
        assert [f][0] == f;
      }
    }
  }

  /** Each entry's value is the sum of the totals of exactly the files whose
      store equals its key ignoring case. */
  lemma {:induction false} EntryIsStoreSum(files: seq<FileTotal>)
    ensures forall k :: k in Aggregate(files).perStore ==>
              Aggregate(files).perStore[k].total == StoreSum(files, k)
    decreases |files|
  {
    if |files| > 0 {
      var init := files[..|files| - 1];
      var f := files[|files| - 1];
      assert files == init + [f];
      AggregateSnoc(init, f);
      EntryIsStoreSum(init);
      KeysAreTheStores(init);
      forall k | k in Aggregate(files).perStore
        ensures Aggregate(files).perStore[k].total == StoreSum(files, k)
      {
        StoreSumSnoc(init, f, k);
        if k !in Aggregate(init).perStore {
          NoMatchNoSum(init, k);
        }
      }
    }
  }

  /** A key no file carries sums to zero. */
  lemma {:induction false} NoMatchNoSum(files: seq<FileTotal>, key: string)
    requires key !in StoreKeys(files)
    ensures StoreSum(files, key) == 0.0
    decreases |files|
  {
    if |files| > 0 {
      assert Fold(files[0].store) in StoreKeys(files);
      assert StoreKeys(files[1..]) <= StoreKeys(files) by {
        forall k | k in StoreKeys(files[1..]) ensures k in StoreKeys(files) {
          var i :| 0 <= i < |files[1..]| && k == Fold(files[1..][i].store);
          assert files[1..][i] == files[i + 1];
        }
      }
      NoMatchNoSum(files[1..], key);
    }
  }

  /** Adding one file raises the sum of the dictionary's values by exactly
      that file's total. */
  lemma MapSumAdd(d: StoreTotals, f: FileTotal)
    ensures MapSum(Add(d, f)) == MapSum(d) + f.total
  {
    var r := Add(d, f);
    var key := Fold(f.store);
    MapSumRemove(r, key);
    if key in d {
      MapSumRemove(d, key);
      assert r - {key} == d - {key};
    } else {
      assert r - {key} == d;
    }
  }

  /** Partition consistency: the per-store values add up to the grand total,
      since every file is attributed to exactly one store. */
  lemma {:induction false} StoreValuesSumToGrandTotal(files: seq<FileTotal>)
    ensures MapSum(Aggregate(files).perStore) == Aggregate(files).grand
    decreases |files|
  {
    if |files| > 0 {
      var init := files[..|files| - 1];
      var f := files[|files| - 1];
      assert files == init + [f];
      AggregateSnoc(init, f);
      StoreValuesSumToGrandTotal(init);
      MapSumAdd(Aggregate(init).perStore, f);
    }
  }

  /** `name` is the store name of the first file whose store is `key`
      ignoring case. */
  ghost predicate FirstNameOf(files: seq<FileTotal>, key: string, name: string) {
    exists i :: 0 <= i < |files| && files[i].store == name && NoEarlier(files, key, i)
  }

  /** No file before position `i` has store `key` ignoring case. */
  predicate NoEarlier(files: seq<FileTotal>, key: string, i: int)
    requires 0 <= i <= |files|
  {
    forall j :: 0 <= j < i ==> Fold(files[j].store) != key
  }

  lemma FirstNameOfSnoc(files: seq<FileTotal>, f: FileTotal, key: string, name: string)
    requires FirstNameOf(files, key, name)
    ensures FirstNameOf(files + [f], key, name)
  {
    var i :| 0 <= i < |files| && files[i].store == name && NoEarlier(files, key, i);
    assert (files + [f])[i] == files[i];
    assert forall j :: 0 <= j < i ==> (files + [f])[j] == files[j];
    assert NoEarlier(files + [f], key, i);
  }

  lemma FirstNameOfNew(files: seq<FileTotal>, f: FileTotal)
    requires Fold(f.store) !in StoreKeys(files)
    ensures FirstNameOf(files + [f], Fold(f.store), f.store)
  {
    var all := files + [f];
    forall j | 0 <= j < |files| ensures Fold(all[j].store) != Fold(f.store) {
      assert all[j] == files[j];
      assert Fold(files[j].store) in StoreKeys(files);
    }
    assert NoEarlier(all, Fold(f.store), |files|);
    assert all[|files|] == f;
  }

  /** The first-seen casing is the one kept: each entry's stored key is the
      store name of the first file that falls under it. */
  lemma {:induction false} FirstSeenCasingKept(files: seq<FileTotal>)
    ensures forall k :: k in Aggregate(files).perStore ==>
              FirstNameOf(files, k, Aggregate(files).perStore[k].name)
    decreases |files|
  {
    if |files| > 0 {
      var init := files[..|files| - 1];
      var f := files[|files| - 1];
      assert files == init + [f];
      AggregateSnoc(init, f);
      FirstSeenCasingKept(init);
      KeysAreTheStores(init);
      var d := Aggregate(init).perStore;
      forall k | k in Aggregate(files).perStore
        ensures FirstNameOf(files, k, Aggregate(files).perStore[k].name)
      {
        if k in d {
          FirstNameOfSnoc(init, f, k, d[k].name);
        } else {
          FirstNameOfNew(init, f);
        }
      }
    }
  }

  /** Entries are never removed: every key present after a prefix of the
      input is still present after the whole input. */
  lemma {:induction false} KeysNeverRemoved(files: seq<FileTotal>, n: nat)
    requires n <= |files|
    ensures Aggregate(files[..n]).perStore.Keys <= Aggregate(files).perStore.Keys
    decreases |files| - n
  {
    if n < |files| {
      assert files[..n + 1] == files[..n] + [files[n]];
      AggregateSnoc(files[..n], files[n]);
      KeysNeverRemoved(files, n + 1);
    } else {
      assert files[..n] == files;
    }
  }

  /** The imperative loop of `Main`: builds the dictionary and the grand
      total file by file. */
  method Tally(files: seq<FileTotal>) returns (perStore: StoreTotals, grand: real)
    ensures Totals(perStore, grand) == Aggregate(files)
    ensures grand == SumTotals(files)
    ensures perStore.Keys == StoreKeys(files)
    ensures forall k :: k in perStore ==> perStore[k].total == StoreSum(files, k)
  {
    perStore := map[];
    grand := 0.0;
    for i := 0 to |files|
      invariant Totals(perStore, grand) == Aggregate(files[..i])
    {
      var f := files[i];
      ghost var before := perStore;
      grand := grand + f.total;
      var key := Fold(f.store);
      if key in perStore {
        perStore := perStore[key := Entry(perStore[key].name, perStore[key].total + f.total)];
      } else {
        perStore := perStore[key := Entry(f.store, f.total)];
      }
      assert perStore == Add(before, f);
      AggregatePrefixStep(files, i);
    }
    assert files[..|files|] == files;
    GrandTotalIsSum(files);
    KeysAreTheStores(files);
    EntryIsStoreSum(files);
  }
}
