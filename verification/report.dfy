/** The line layout of `GenerateSalesSummary`: five fixed header lines, then
    one detail line per store in the order given. Currency rendering is a
    parameter of the text form. */
module Report {
  import opened Optional

  /** One report line. Amounts stay numbers; only `Render` turns them into
      text, through the supplied currency formatter. */
  datatype Line =
    | Text(text: string)
    | TotalSales(amount: real)
    | Detail(store: string, amount: real)

  /** The fixed opening of the report, carrying the grand total. */
  function Header(grand: real): seq<Line> {
    [Text("Sales Summary"), Text("----------------------------"), TotalSales(grand), Text(""), Text(" Details:")]
  }

  /** The report: the header, then one detail line per entry, in order. */
  function GenerateSalesSummary(grand: real, entries: seq<(string, real)>): (lines: seq<Line>)
    ensures |lines| == 5 + |entries|
    ensures lines[..5] == Header(grand)
    ensures forall i :: 0 <= i < |entries| ==> lines[5 + i] == Detail(entries[i].0, entries[i].1)
  {
    Header(grand) + DetailLines(entries)
  }

  /** One detail line per entry, in order. */
  function DetailLines(entries: seq<(string, real)>): seq<Line> {
    seq(|entries|, i requires 0 <= i < |entries| => Detail(entries[i].0, entries[i].1))
  }

  /** Reading a report back: its detail lines as entries, in order. */
  function DetailsOf(lines: seq<Line>): seq<(string, real)> {
    if |lines| == 0 then []
    else (if lines[0].Detail? then [(lines[0].store, lines[0].amount)] else []) + DetailsOf(lines[1..])
  }

  /** Reading a report back: the amount on its first total line. */
  function TotalOf(lines: seq<Line>): Option<real> {
    if |lines| == 0 then None
    else if lines[0].TotalSales? then Some(lines[0].amount)
    else TotalOf(lines[1..])
  }

  lemma {:induction false} DetailsOfConcat(a: seq<Line>, b: seq<Line>)
    ensures DetailsOf(a + b) == DetailsOf(a) + DetailsOf(b)
    decreases |a|
  {
    if |a| > 0 {
      assert (a + b)[1..] == a[1..] + b;
      DetailsOfConcat(a[1..], b);
    } else {
      assert a + b == b;
    }
  }

  lemma {:induction false} DetailsOfDetailLines(entries: seq<(string, real)>)
    ensures DetailsOf(DetailLines(entries)) == entries
    decreases |entries|
  {
    if |entries| > 0 {
      assert DetailLines(entries)[1..] == DetailLines(entries[1..]);
      DetailsOfDetailLines(entries[1..]);
      assert entries == [entries[0]] + entries[1..];
    }
  }

  /** The header holds the grand total and no detail line. */
  lemma ReadHeader(grand: real)
    ensures DetailsOf(Header(grand)) == []
    ensures TotalOf(Header(grand)) == Some(grand)
  {
    var h := Header(grand);
    assert h[1..] == h[1..2] + h[2..];
    assert h[2..][1..] == h[3..] && h[3..][1..] == h[4..] && h[4..][1..] == [];
    assert DetailsOf(h[4..]) == [];
    assert DetailsOf(h[3..]) == [];
    assert DetailsOf(h[2..]) == [];
    assert h[1..][1..] == h[2..];
    assert TotalOf(h[2..]) == Some(grand);
    assert TotalOf(h[1..]) == Some(grand);
  }

  /** The report reads back as exactly the grand total and the entries it was
      generated from: no entry is dropped, duplicated or reordered, and the
      header contributes no detail. */
  lemma ReportRoundTrip(grand: real, entries: seq<(string, real)>)
    ensures DetailsOf(GenerateSalesSummary(grand, entries)) == entries
    ensures TotalOf(GenerateSalesSummary(grand, entries)) == Some(grand)
  {
    var h := Header(grand);
    var lines := GenerateSalesSummary(grand, entries);
    DetailsOfConcat(h, DetailLines(entries));
    DetailsOfDetailLines(entries);
    ReadHeader(grand);
    assert lines[1..][1..] == lines[2..];
    assert lines[2] == TotalSales(grand);
    assert TotalOf(lines[2..]) == Some(grand);
    assert TotalOf(lines[1..]) == Some(grand);
  }

  /** The text of one line; `currency` renders an amount. */
  function RenderLine(l: Line, currency: real -> string): string {
    match l
    case Text(t) => t
    case TotalSales(a) => " Total Sales: " + currency(a)
    case Detail(s, a) => "  " + s + ": " + currency(a)
  }

  /** The document: every line followed by the line terminator. */
  function Render(lines: seq<Line>, currency: real -> string, newline: string): string {
    if |lines| == 0 then "" else RenderLine(lines[0], currency) + newline + Render(lines[1..], currency, newline)
  }

  /** Rendering is line by line: the text of two runs of lines is the text
      of the first followed by the text of the second, each line closed by
      its own terminator. */
  lemma {:induction false} RenderConcat(a: seq<Line>, b: seq<Line>, currency: real -> string, newline: string)
    ensures Render(a + b, currency, newline) == Render(a, currency, newline) + Render(b, currency, newline)
    decreases |a|
  {
    if |a| > 0 {
      assert (a + b)[0] == a[0];
      assert (a + b)[1..] == a[1..] + b;
      RenderConcat(a[1..], b, currency, newline);
    } else {
      assert a + b == b;
    }
  }

  /** A single line renders as its text and one terminator. */
  lemma RenderOne(l: Line, currency: real -> string, newline: string)
    ensures Render([l], currency, newline) == RenderLine(l, currency) + newline
  {
    assert [l][1..] == [];
  }

  /** Appending a line appends its text and one terminator. */
  lemma RenderSnoc(lines: seq<Line>, l: Line, currency: real -> string, newline: string)
    ensures Render(lines + [l], currency, newline) == Render(lines, currency, newline) + RenderLine(l, currency) + newline
  {
    RenderConcat(lines, [l], currency, newline);
    RenderOne(l, currency, newline);
  }

  /** Five lines render as their texts, each followed by a terminator. */
  lemma RenderFive(l0: Line, l1: Line, l2: Line, l3: Line, l4: Line, currency: real -> string, newline: string)
    ensures Render([l0, l1, l2, l3, l4], currency, newline) ==
            RenderLine(l0, currency) + newline + RenderLine(l1, currency) + newline
            + RenderLine(l2, currency) + newline + RenderLine(l3, currency) + newline
            + RenderLine(l4, currency) + newline
  {
    RenderOne(l0, currency, newline);
    RenderSnoc([l0], l1, currency, newline);
    RenderSnoc([l0, l1], l2, currency, newline);
    RenderSnoc([l0, l1, l2], l3, currency, newline);
    RenderSnoc([l0, l1, l2, l3], l4, currency, newline);
    assert [l0] + [l1] == [l0, l1];
    assert [l0, l1] + [l2] == [l0, l1, l2];
    assert [l0, l1, l2] + [l3] == [l0, l1, l2, l3];
    assert [l0, l1, l2, l3] + [l4] == [l0, l1, l2, l3, l4];
  }

  /** The text of the five header lines. */
  lemma HeaderText(grand: real, currency: real -> string, newline: string)
    ensures Render(Header(grand), currency, newline) ==
            "Sales Summary" + newline + "----------------------------" + newline
            + " Total Sales: " + currency(grand) + newline + newline
            + " Details:" + newline
  {
    RenderFive(Text("Sales Summary"), Text("----------------------------"), TotalSales(grand), Text(""), Text(" Details:"), currency, newline);
  }

  /** The rendered report opens with the title, the rule, the grand total,
      an empty line and the details heading, each on its own line, and the
      detail lines follow. */
  lemma RenderedHeader(grand: real, entries: seq<(string, real)>, currency: real -> string, newline: string)
    ensures Render(GenerateSalesSummary(grand, entries), currency, newline) ==
            "Sales Summary" + newline + "----------------------------" + newline
            + " Total Sales: " + currency(grand) + newline + newline
            + " Details:" + newline + Render(DetailLines(entries), currency, newline)
  {
    RenderConcat(Header(grand), DetailLines(entries), currency, newline);
    HeaderText(grand, currency, newline);
  }

  /** The detail line of entry `i` renders as two spaces, the store name, a
      colon and a space, and the formatted amount, right after the details
      of the entries before it. */
  lemma RenderedDetail(entries: seq<(string, real)>, i: nat, currency: real -> string, newline: string)
    requires i < |entries|
    ensures Render(DetailLines(entries), currency, newline) ==
            Render(DetailLines(entries[..i]), currency, newline)
            + "  " + entries[i].0 + ": " + currency(entries[i].1) + newline
            + Render(DetailLines(entries[i + 1..]), currency, newline)
  {
    var d := Detail(entries[i].0, entries[i].1);
    var pre, post := DetailLines(entries[..i]), DetailLines(entries[i + 1..]);
    assert DetailLines(entries) == pre + ([d] + post);
    RenderConcat(pre, [d] + post, currency, newline);
    RenderConcat([d], post, currency, newline);
    RenderOne(d, currency, newline);
  }
}
