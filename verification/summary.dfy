/** `Main` without its I/O: discovery output in, report lines out. */
module Summary {
  import opened Optional
  import opened IgnoreCase
  import opened Extraction
  import opened Aggregation
  import opened Sorting
  import opened Report

  /** One discovered sales file: the name of its parent directory and what
      reading it produced. */
  datatype SalesFile = SalesFile(store: string, outcome: ReadOutcome)

  /** The stores directory: absent, or present with the files found under it
      in enumeration order. */
  datatype StoresDir = Missing | Present(files: seq<SalesFile>)

  /** `FindFiles`: a missing root yields no files at all; a present one
      yields every file found under it, in enumeration order. */
  function FindFiles(root: StoresDir): (r: seq<SalesFile>)
    ensures root.Missing? ==> r == []
    ensures root.Present? ==> r == root.files
  {
    match root
    case Missing => []
    case Present(files) => files
  }

  /** Each file reduced to its store name and best-effort total. */
  function FileTotals(files: seq<SalesFile>): (r: seq<FileTotal>)
    ensures |r| == |files|
    ensures forall i :: 0 <= i < |files| ==> r[i].store == files[i].store
    ensures forall i :: 0 <= i < |files| ==> r[i].total == ReadSalesJsonTotal(files[i].outcome)
  {
    seq(|files|, i requires 0 <= i < |files| => FileTotal(files[i].store, ReadSalesJsonTotal(files[i].outcome)))
  }

  lemma FileTotalsConcat(a: seq<SalesFile>, b: seq<SalesFile>)
    ensures FileTotals(a + b) == FileTotals(a) + FileTotals(b)
  {
  }

  /** `entries` lists the input's stores: one entry per store, each holding
      that store's sum under its first-seen casing, all adding up to the
      grand total. */
  ghost predicate ListsStores(files: seq<FileTotal>, entries: seq<(string, real)>) {
    && |entries| == |StoreKeys(files)|
    && (forall k :: k in StoreKeys(files) ==> exists i :: 0 <= i < |entries| && Fold(entries[i].0) == k)
    && (forall i :: 0 <= i < |entries| ==> entries[i].1 == StoreSum(files, Fold(entries[i].0)))
    && (forall i :: 0 <= i < |entries| ==> FirstNameOf(files, Fold(entries[i].0), entries[i].0))
    && SumAmounts(entries) == SumTotals(files)
  }

  /** A listing of the fold's dictionary describes the input. */
  lemma ListingDescribesInput(files: seq<FileTotal>, entries: seq<(string, real)>)
    requires ListsEntries(Aggregate(files).perStore, entries)
    requires |entries| == |Aggregate(files).perStore|
    ensures ListsStores(files, entries)
  {
    var d := Aggregate(files).perStore;
    KeysAreTheStores(files);
    EntryIsStoreSum(files);
    FirstSeenCasingKept(files);
    GrandTotalIsSum(files);
    StoreValuesSumToGrandTotal(files);
    ListedSumIsMapSum(d, entries);
    assert |d.Keys| == |d|;
  }

  /** The report `Main` writes for a stores directory, and the sorted
      entries its detail lines come from. */
  method Summarize(root: StoresDir) returns (lines: seq<Line>, entries: seq<(string, real)>)
    ensures root.Missing? ==> lines == Header(0.0)
    ensures lines == GenerateSalesSummary(SumTotals(FileTotals(FindFiles(root))), entries)
    ensures Ascending(StoresOf(entries))
    ensures ListsStores(FileTotals(FindFiles(root)), entries)
  {
    var files := FileTotals(FindFiles(root));
    var perStore, grand := Tally(files);
    entries := SortedByStoreName(perStore);
    lines := GenerateSalesSummary(grand, entries);
    ListingDescribesInput(files, entries);
    if root.Missing? {
      assert entries == [];
      assert lines == Header(0.0) + [];
    }
  }

  /** A zero-total file adds nothing to the grand total. */
  lemma ZeroFileGrand(a: seq<FileTotal>, z: FileTotal, b: seq<FileTotal>)
    requires z.total == 0.0
    ensures SumTotals(a + [z] + b) == SumTotals(a + b)
  {
    SumTotalsConcat(a + [z], b);
    SumTotalsConcat(a, [z]);
    SumTotalsConcat(a, b);
    assert [z][1..] == [];
  }

  /** A zero-total file adds only its own store to the keys. */
  lemma ZeroFileKeys(a: seq<FileTotal>, z: FileTotal, b: seq<FileTotal>)
    ensures StoreKeys(a + [z] + b) == StoreKeys(a + b) + {Fold(z.store)}
  {
    StoreKeysConcat(a + [z], b);
    StoreKeysConcat(a, [z]);
    StoreKeysConcat(a, b);
    assert StoreKeys([z]) == {Fold(z.store)} by {
      assert [z][0] == z;
    }
  }

  /** A zero-total file adds nothing to any store's sum. */
  lemma ZeroFileStoreSum(a: seq<FileTotal>, z: FileTotal, b: seq<FileTotal>, k: string)
    requires z.total == 0.0
    ensures StoreSum(a + [z] + b, k) == StoreSum(a + b, k)
  {
    StoreSumConcat(a + [z], b, k);
    StoreSumConcat(a, [z], k);
    StoreSumConcat(a, b, k);
    assert [z][1..] == [];
  }

  /** The input without and with one unusable file inserted between `pre`
      and `post`. */
  function Without(pre: seq<SalesFile>, post: seq<SalesFile>): Totals {
    Aggregate(FileTotals(pre + post))
  }

  function With(pre: seq<SalesFile>, bad: SalesFile, post: seq<SalesFile>): Totals {
    Aggregate(FileTotals(pre + [bad] + post))
  }

  /** Extraction turns an unusable file into a zero total, and the file
      keeps its place in the input. */
  lemma UnusableFileTotals(pre: seq<SalesFile>, bad: SalesFile, post: seq<SalesFile>)
    requires Unusable(bad.outcome)
    ensures FileTotals(pre + [bad] + post) == FileTotals(pre) + [FileTotal(bad.store, 0.0)] + FileTotals(post)
    ensures FileTotals(pre + post) == FileTotals(pre) + FileTotals(post)
  {
    assert FileTotals([bad]) == [FileTotal(bad.store, 0.0)];
    FileTotalsConcat(pre + [bad], post);
    FileTotalsConcat(pre, [bad]);
    FileTotalsConcat(pre, post);
  }

  /** An unusable file anywhere in the input leaves the grand total as it
      would be without it. */
  lemma UnusableFileKeepsGrandTotal(pre: seq<SalesFile>, bad: SalesFile, post: seq<SalesFile>)
    requires Unusable(bad.outcome)
    ensures With(pre, bad, post).grand == Without(pre, post).grand
  {
    UnusableFileTotals(pre, bad, post);
    var a, z, b := FileTotals(pre), FileTotal(bad.store, 0.0), FileTotals(post);
    GrandTotalIsSum(a + [z] + b);
    GrandTotalIsSum(a + b);
    ZeroFileGrand(a, z, b);
  }

  /** An unusable file still lists its store and adds no other; it leaves
      every store's total as it would be without it, and a store it alone
      names is listed with 0. */
  lemma UnusableFileKeepsStoreTotals(pre: seq<SalesFile>, bad: SalesFile, post: seq<SalesFile>)
    requires Unusable(bad.outcome)
    ensures With(pre, bad, post).perStore.Keys == Without(pre, post).perStore.Keys + {Fold(bad.store)}
    ensures forall k :: k in Without(pre, post).perStore ==>
              With(pre, bad, post).perStore[k].total == Without(pre, post).perStore[k].total
    ensures Fold(bad.store) !in Without(pre, post).perStore ==>
              With(pre, bad, post).perStore[Fold(bad.store)].total == 0.0
  {
    UnusableFileTotals(pre, bad, post);
    var a, z, b := FileTotals(pre), FileTotal(bad.store, 0.0), FileTotals(post);
    var with, without := a + [z] + b, a + b;
    KeysAreTheStores(with);
    KeysAreTheStores(without);
    ZeroFileKeys(a, z, b);
    EntryIsStoreSum(with);
    EntryIsStoreSum(without);
    forall k | k in StoreKeys(with) {
      ZeroFileStoreSum(a, z, b, k);
    }
    if Fold(bad.store) !in StoreKeys(without) {
      NoMatchNoSum(without, Fold(bad.store));
    }
  }

  lemma ExampleFolds()
    ensures Fold("201") == "201" && Fold("202") == "202"
  {
    assert Upper('2') == '2' && Upper('0') == '0' && Upper('1') == '1';
    assert Fold("201") == ['2', '0', '1'];
    assert Fold("202") == ['2', '0', '2'];
  }

  lemma ExampleOrder()
    ensures Before("201", "202") && Sort(["202", "201"]) == ["201", "202"]
  {
    ExampleFolds();
    var a: seq<char> := "201";
    var b: seq<char> := "202";
    assert a[1..] == ['0', '1'] && b[1..] == ['0', '2'];
    assert a[1..][1..] == ['1'] && b[1..][1..] == ['2'];
    assert CompareOrdinal(['1'], ['2']) == -1;
    assert CompareOrdinal(a[1..], b[1..]) == -1;
    assert CompareOrdinal(a, b) == -1;
    BeforeAsymmetric("201", "202");
    assert Sort(["201"]) == ["201"] by {
      assert ["201"][1..] == [];
    }
    assert ["202", "201"][1..] == ["201"];
    assert Insert("202", []) == ["202"];
    assert ["201"][1..] == [];
  }

  lemma ExampleStore201()
    ensures Aggregate([FileTotal("201", 100.5), FileTotal("201", 49.5)]) ==
            Totals(map["201" := Entry("201", 150.0)], 150.0)
  {
    var f0, f1 := FileTotal("201", 100.5), FileTotal("201", 49.5);
    ExampleFolds();
    AggregateSnoc([], f0);
    assert [] + [f0] == [f0];
    var d1 := Aggregate([f0]).perStore;
    assert d1 == Add(map[], f0);
    assert d1 == map["201" := Entry("201", 100.5)];
    AggregateSnoc([f0], f1);
    assert [f0] + [f1] == [f0, f1];
  }

  /** Two files under store 201 and one under 202: the dictionary holds one
      entry per store, the two 201 totals summed, and the grand total is
      350. */
  lemma TwoStoresDictionary()
    ensures var files := [FileTotal("201", 100.5), FileTotal("201", 49.5), FileTotal("202", 200.0)];
            && Aggregate(files).grand == 350.0
            && Aggregate(files).perStore == map["201" := Entry("201", 150.0), "202" := Entry("202", 200.0)]
            && Sort(["202", "201"]) == ["201", "202"]
  {
    var f0, f1, f2 := FileTotal("201", 100.5), FileTotal("201", 49.5), FileTotal("202", 200.0);
    ExampleFolds();
    ExampleOrder();
    ExampleStore201();
    AggregateSnoc([f0, f1], f2);
    assert [f0, f1] + [f2] == [f0, f1, f2];
    var d := Aggregate([f0, f1]).perStore;
    assert d == map["201" := Entry("201", 150.0)];
    assert Add(d, f2) == d["202" := Entry("202", 200.0)];
  }

  /** The stores directory of the example: two readable files under 201 and
      one under 202. */
  function ExampleRoot(): StoresDir {
    Present([SalesFile("201", Deserialized(Some(SalesData(100.5)))),
             SalesFile("201", Deserialized(Some(SalesData(49.5)))),
             SalesFile("202", Deserialized(Some(SalesData(200.0))))])
  }

  /** The example's input as the loop sees it. */
  function ExampleFiles(): seq<FileTotal> {
    [FileTotal("201", 100.5), FileTotal("201", 49.5), FileTotal("202", 200.0)]
  }

  /** The reference definitions on the example's input. */
  lemma ExampleReference()
    ensures FileTotals(FindFiles(ExampleRoot())) == ExampleFiles()
    ensures StoreKeys(ExampleFiles()) == {"201", "202"}
    ensures StoreSum(ExampleFiles(), "201") == 150.0
    ensures StoreSum(ExampleFiles(), "202") == 200.0
    ensures SumTotals(ExampleFiles()) == 350.0
  {
    var files := ExampleFiles();
    ExampleFolds();
    assert FileTotals(FindFiles(ExampleRoot())) == files;
    assert files[1..][1..][1..] == [];
    assert files[0] == FileTotal("201", 100.5) && files[2] == FileTotal("202", 200.0);
  }

  /** Every listed name is the store name of some input file. */
  lemma ListedNamesOccur(files: seq<FileTotal>, entries: seq<(string, real)>, i: nat)
    requires ListsStores(files, entries) && i < |entries|
    ensures exists j :: 0 <= j < |files| && files[j].store == entries[i].0
  {
    assert FirstNameOf(files, Fold(entries[i].0), entries[i].0);
  }

  /** The example's store names are 201 and 202. */
  lemma ExampleNames(name: string)
    requires exists j :: 0 <= j < |ExampleFiles()| && ExampleFiles()[j].store == name
    ensures name == "201" || name == "202"
  {
  }

  /** A listing of the example's stores has two entries, each named 201
      or 202 and holding that store's sum. */
  lemma ExampleListing(entries: seq<(string, real)>)
    requires ListsStores(ExampleFiles(), entries)
    ensures |entries| == 2
    ensures forall i :: 0 <= i < 2 ==> entries[i].0 == "201" || entries[i].0 == "202"
    ensures forall i :: 0 <= i < 2 ==> entries[i].1 == StoreSum(ExampleFiles(), Fold(entries[i].0))
  {
    ExampleReference();
    assert |entries| == 2 by {
      assert |{"201", "202"}| == 2;
    }
    forall i | 0 <= i < 2 ensures entries[i].0 == "201" || entries[i].0 == "202" {
      ListedNamesOccur(ExampleFiles(), entries, i);
      ExampleNames(entries[i].0);
    }
  }

  /** Two ascending names, each 201 or 202, are 201 then 202. */
  lemma ExampleAscending(a: string, b: string)
    requires a == "201" || a == "202"
    requires b == "201" || b == "202"
    requires Before(a, b)
    ensures a == "201" && b == "202"
  {
    BeforeAsymmetric(a, b);
    ExampleOrder();
  }

  /** On the example, the only ascending listing of the stores is 201: 150
      then 202: 200. */
  lemma ExampleEntries(entries: seq<(string, real)>)
    requires Ascending(StoresOf(entries))
    requires ListsStores(ExampleFiles(), entries)
    ensures entries == [("201", 150.0), ("202", 200.0)]
  {
    ExampleListing(entries);
    assert StoresOf(entries)[0] == entries[0].0 && StoresOf(entries)[1] == entries[1].0;
    ExampleAscending(entries[0].0, entries[1].0);
    ExampleReference();
    ExampleFolds();
  }

  /** `Main` on the example directory lists 201: 150 then 202: 200, and
      its report is the header with 350 followed by those two detail
      lines. */
  method TwoStoresExample() returns (lines: seq<Line>, entries: seq<(string, real)>)
    ensures entries == [("201", 150.0), ("202", 200.0)]
    ensures lines == Header(350.0) + [Detail("201", 150.0), Detail("202", 200.0)]
  {
    lines, entries := Summarize(ExampleRoot());
    ExampleReference();
    ExampleEntries(entries);
    assert DetailLines(entries) == [Detail("201", 150.0), Detail("202", 200.0)];
  }
}
