# Sales summary: a Dafny model of the per-store aggregation

This project models the in-memory core of a small sales-summary tool
(`Program.cs`). The tool finds sales files under a `stores` directory. It
reads one `Total` from each file and adds it to the total of that file's
store, under a case-insensitive dictionary. It also keeps a running grand
total. Finally it writes a report with a fixed header and one line per store,
sorted by store name ignoring case.

Modules:

- `IgnoreCase` (`ignore_case.dfy`): the single comparison policy used for
  both grouping and sorting. It compares the names ordinally after
  upper-casing each character, and it is proved to be a strict total order on
  names that differ other than in case.
- `Extraction` (`extraction.dfy`): the best-effort policy of
  `ReadSalesJsonTotal`, applied to the outcome of reading and deserialising a
  file.
- `Aggregation` (`aggregation.dfy`): the `foreach` of `Main`. `Aggregate` is
  the fold as a function and `Tally` is the loop as a method. Both are checked
  against reference definitions: the sum of all totals, the sum per store, and
  the set of stores.
- `Sorting` (`sorting.dfy`): `SortedByStoreName`, which copies the keys,
  sorts them and pairs each key with its value.
- `Report` (`report.dfy`): the line layout of `GenerateSalesSummary`. Reading
  the report back gives the grand total and the sorted entries again.
- `Summary` (`summary.dfy`): `Main` without its I/O. It goes from the
  discovered files to the report lines and proves the end-to-end properties.
- `Optional` (`optional.dfy`): an `Option` type.

Abstractions:

- Money is `real`, so every sum is exact.
- The case-insensitive dictionary is a `map` keyed by the folded (upper-cased)
  name. Each entry keeps the name as it was first inserted, just as a
  comparer-based dictionary never replaces a stored key.
- The stores directory is either `Missing` or `Present` with its files in
  enumeration order. Each file is already reduced to its parent directory's
  name and the outcome of reading it.
- A report line keeps its amount as a number. Currency text is produced only
  by `Render`, through a formatter passed in as a parameter.

When two store names differ only in case, the dictionary keeps the
first-seen casing, because the indexer at `Program.cs:38` overwrites the value
and never the stored key. `FirstSeenCasingKept` states this.

`RenderLine` and `Render` carry no contract of their own. The lemmas
`RenderConcat`, `HeaderText`, `RenderedHeader` and `RenderedDetail` state
what their text is.

## Model

| member | source | states |
|---|---|---|
| IgnoreCase.CompareZeroIffEqualsIgnoreCase | Program.cs:26 | The comparer says "equal" exactly when the two names are the same after upper-casing. So the dictionary and the sort agree on which names are one store. |
| IgnoreCase.BeforeConnected | Program.cs:100 | Any two names that differ other than in case are ordered, one before the other. |
| IgnoreCase.BeforeAsymmetric | Program.cs:100 | The sort order is asymmetric, and it never orders two names that differ only in case. |
| IgnoreCase.BeforeTransitive | Program.cs:100 | The sort order is transitive. Together with the two lemmas above, this makes the comparer a valid total order for the sort. |
| Extraction.ReadSalesJsonTotal | Program.cs:60-73 | Extraction never fails. A thrown read or parse exception gives 0, a null deserialisation result gives 0, and otherwise the parsed `Total` is returned. |
| Aggregation.ContainsKey | Program.cs:37 | On a dictionary keyed by folded names, the lookup succeeds exactly when some stored name equals the looked-up name ignoring case. |
| Aggregation.Add | Program.cs:37-40 | One loop step. A seen store (ignoring case) gets the file's total added and keeps its stored casing. An unseen store is created with that total. No entry is removed, no other entry changes, and the dictionary stays keyed by folded names. |
| Aggregation.Aggregate | Program.cs:26-41 | After any input, every entry sits under the folded form of its own stored name. This is the invariant of a dictionary built with an ignore-case comparer. |
| Aggregation.KeysDistinctIgnoringCase | Program.cs:26 | No two keys of the dictionary are equal ignoring case. |
| Aggregation.GrandTotalIsSum | Program.cs:27-35 | The grand total is the exact sum of the totals of all the input files. |
| Aggregation.KeysAreTheStores | Program.cs:32-40 | The dictionary has an entry for a store exactly when some input file belongs to that store (ignoring case). A store whose files all gave 0 is still present. |
| Aggregation.EntryIsStoreSum | Program.cs:32-40 | Each store's value is the sum of the totals of exactly the files whose store name equals that key ignoring case. |
| Aggregation.StoreValuesSumToGrandTotal | Program.cs:35-40 | The per-store values add up to the grand total, because each file is counted in exactly one store. |
| Aggregation.FirstSeenCasingKept | Program.cs:37-40 | The name stored for each key is the name on the first input file of that store (ignoring case). |
| Aggregation.KeysNeverRemoved | Program.cs:29-41 | Every key present after any prefix of the input is still present after the whole input. |
| Aggregation.MapSumRemove | Program.cs:26 | The sum of the dictionary's values does not depend on the order in which its entries are taken. |
| Aggregation.Tally | Program.cs:26-41 | The imperative loop gives the same dictionary and grand total as the fold. The grand total is the sum of all totals, the keys are exactly the stores, and each value is its store's sum. |
| Sorting.Insert | Program.cs:100 | Inserting a name adds exactly that name: the result holds the old names plus the new one. |
| Sorting.InsertAscending | Program.cs:100 | Inserting a name that is case-distinct from all the others keeps a strictly ascending sequence strictly ascending. |
| Sorting.Sort | Program.cs:100 | The sorted keys are a permutation of the copied keys: the same names, each as often as before. |
| Sorting.SortAscending | Program.cs:100 | When no two keys differ only in case, the sorted keys are strictly ascending ignoring case. |
| Sorting.AscendingUnique | Program.cs:100 | Two strictly ascending sequences with the same names are equal. So any correct sort gives the same order, whatever order the keys were enumerated in. |
| Sorting.CopyKeys | Program.cs:99 | Copying the keys gives every stored name exactly once: one per entry, with no two equal ignoring case. |
| Sorting.PairedKeysListEntries | Program.cs:101 | Pairing each sorted key with the dictionary's value for it lists every entry exactly once, in the sorted order. |
| Sorting.SortedByStoreName | Program.cs:97-102 | Each entry is listed exactly once, paired with its value from the dictionary, in strictly ascending order ignoring case. |
| Sorting.ListedSumIsMapSum | Program.cs:89-92 | Listing each dictionary entry once, in any order, gives amounts that add up to the sum of the dictionary's values. |
| Report.GenerateSalesSummary | Program.cs:81-92 | The report has five fixed header lines, with the grand total on the third. They are followed by exactly one detail line per entry, in the given order. |
| Report.ReadHeader | Program.cs:82-86 | The header carries the grand total and contains no detail line. |
| Report.ReportRoundTrip | Program.cs:81-92 | Reading the report back gives exactly the grand total and the entries it was built from. |
| Report.RenderConcat | Program.cs:81-94 | The text of two runs of lines is the text of the first followed by the text of the second. Each line is closed by its own terminator, as `AppendLine` does. |
| Report.HeaderText | Program.cs:82-86 | The header's text is the title, the rule, " Total Sales: " with the formatted grand total, an empty line and " Details:", each followed by the terminator. |
| Report.RenderedHeader | Program.cs:81-94 | The report's text is the header's text followed by the text of the detail lines. |
| Report.RenderedDetail | Program.cs:89-92 | Entry `i` appears, after the entries before it, as two spaces, the store name, ": " and the formatted amount, then the terminator. |
| Summary.FindFiles | Program.cs:50-57 | A missing stores directory yields no files. A present one yields every file found under it, in enumeration order. |
| Summary.FileTotals | Program.cs:32-34 | Each discovered file becomes one input pair, keeping the discovery order. The pair has the file's store name, and its total is what `ReadSalesJsonTotal` gives for that file. |
| Summary.Summarize | Program.cs:23-44 | A missing stores directory gives only the header, with a total of 0. Otherwise the report is the header with the exact grand total, followed by one detail line per sorted entry. The entries are in ascending ignore-case order, one per store that occurs in the input. Each shows its store's sum under the first-seen casing, and together they add up to the grand total. |
| Summary.UnusableFileKeepsGrandTotal | Program.cs:60-73 | A file whose read throws or whose result is null, anywhere in the input, leaves the grand total as it would be without that file. |
| Summary.UnusableFileKeepsStoreTotals | Program.cs:60-73 | Such a file still gets its store listed and adds no other store. Every store's value stays as it would be without the file, and a store named only by that file is listed with 0. |
| Summary.ListedNamesOccur | Program.cs:32-40 | Every name the listing shows is the store name of some input file. |
| Summary.TwoStoresDictionary | Program.cs:26-41 | Files of 100.5 and 49.5 under store 201 and 200 under store 202 leave the dictionary {201: 150, 202: 200} and a grand total of 350. |
| Summary.TwoStoresExample | Program.cs:23-92 | Summarizing that stores directory, with all three files readable, lists 201: 150 then 202: 200. The report is the header with 350, followed by the detail lines for 201 and 202 in that order. |

## Left out

- Directory handling is not modelled: `Directory.GetCurrentDirectory`, `Directory.CreateDirectory`, `Directory.Exists` and `Directory.EnumerateFiles`. These are file-system I/O. Their effect is the `StoresDir` input, whose files can come in any order.
- Deriving the store name from a path (`Path.GetDirectoryName` and `DirectoryInfo.Name`) is not modelled. These are platform path APIs, so each discovered file carries its store name instead.
- Reading a file and JSON deserialisation are not modelled. They belong to the runtime and to a foreign library, so only their outcome is an input: an exception, a null result, or a parsed record.
- Currency formatting (`ToString("C")` with the US culture) is not modelled. It is culture-dependent rendering, so `Render` takes the formatter as a parameter.
- Writing the report file and the completion message on the console are output I/O and are not modelled. The same goes for write failures, which are not caught and end the run.
- Aggregation.GrandTotalIsSum: the source adds `double` values, and IEEE rounding is not modelled. The sums here are exact `real` sums, so they hold for the source only when no rounding occurs.
- Aggregation.EntryIsStoreSum: exact arithmetic only, as above.
- Aggregation.StoreValuesSumToGrandTotal: exact arithmetic only, as above. With `double` sums, the per-store values and the grand total can differ in the last bits.
- IgnoreCase.CompareZeroIffEqualsIgnoreCase: upper-casing covers only ASCII letters. `OrdinalIgnoreCase` also folds non-ASCII letters by the invariant culture's tables, which are not modelled.
- IgnoreCase.BeforeTransitive: the model compares names character by character, and a Dafny `char` is a Unicode scalar value. .NET `OrdinalIgnoreCase` compares UTF-16 code units. The two orders differ between supplementary-plane characters and U+E000 to U+FFFF. For example, the model puts "Ａ" (U+FF21) before "\U{1F600}", but in .NET the emoji's surrogate pair (0xD83D) sorts first.
- Extraction.ReadSalesJsonTotal: non-finite `double` values are not representable as `real`. This covers a `NaN` or `Infinity` that the JSON library accepts as `Total`, and a sum that overflows to infinity.
- Sorting.Sort: `List.Sort` is an unstable introsort, and the model uses an insertion sort. `AscendingUnique` shows that both give the same order, because the keys are pairwise case-distinct.
