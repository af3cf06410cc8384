/** The CSV export of the financial and stock report page (`downloadCSV` in
    ReportPage.jsx): a data-URI prefix, a header line and one line per item of
    `current_stock_levels`, every line ended by CR LF. */
module StockReportCsv {
  import opened Js

  /** An item of `current_stock_levels` as the page receives it. */
  datatype StockLevel = StockLevel(id: Value, name: Value, quantity: Value, unitPrice: Value)

  /** The report response; `current_stock_levels` may be missing. */
  datatype ReportData = ReportData(currentStockLevels: Option<seq<StockLevel>>)

  /** What `downloadCSV` ends with: the error it sets, or the file it offers. */
  datatype Outcome = NoData(error: string) | File(filename: string, content: string)

  const DataUriPrefix: string := "data:text/csv;charset=utf-8,"
  const Headers: seq<string> := ["ID", "Spare Part Name", "Quantity", "Unit Price"]
  const NoDataError: string := "No data available to download."

  /** The row array built for an item: a falsy `unit_price` becomes `"0.00"`. */
  function RowCells(item: StockLevel): (r: seq<Value>)
    ensures |r| == 4
  {
    [item.id, item.name, item.quantity, if Truthy(item.unitPrice) then item.unitPrice else Str("0.00")]
  }

  function RowText(item: StockLevel): string {
    Join(Texts(RowCells(item)), ',')
  }

  /** The row writes id, name and quantity as they are, and the unit price
      only when it is truthy: `undefined`, `null`, `0` and `""` all print as `0.00`. */
  lemma RowCellTexts(item: StockLevel)
    ensures Texts(RowCells(item))[..3] == [ToText(item.id), ToText(item.name), ToText(item.quantity)]
    ensures !Truthy(item.unitPrice) ==> Texts(RowCells(item))[3] == "0.00"
    ensures Truthy(item.unitPrice) ==> Texts(RowCells(item))[3] == ToText(item.unitPrice)
    ensures item.unitPrice == Number(0) ==> Texts(RowCells(item))[3] == "0.00"
  {
  }

  /** The header line followed by one line per item, in input order. */
  function Lines(items: seq<StockLevel>): (r: seq<string>)
    ensures |r| == |items| + 1
  {
    [Join(Headers, ',')] + seq(|items|, k requires 0 <= k < |items| => RowText(items[k]))
  }

  /** Each line followed by CR LF. */
  function Crlf(lines: seq<string>): string {
    if lines == [] then "" else lines[0] + "\r\n" + Crlf(lines[1..])
  }

  lemma {:induction false} CrlfSnoc(lines: seq<string>, line: string)
    ensures Crlf(lines + [line]) == Crlf(lines) + line + "\r\n"
  {
    if lines != [] {
      assert (lines + [line])[1..] == lines[1..] + [line];
      CrlfSnoc(lines[1..], line);
    }
  }

  lemma LinesSnoc(items: seq<StockLevel>, i: nat)
    requires i < |items|
    ensures Lines(items[..i + 1]) == Lines(items[..i]) + [RowText(items[i])]
  {
    var a, b := Lines(items[..i + 1]), Lines(items[..i]) + [RowText(items[i])];
    assert |a| == |b|;
    forall k | 0 <= k < |a| ensures a[k] == b[k] {
      if 0 < k < i + 1 {
        assert items[..i + 1][k - 1] == items[..i][k - 1] || k - 1 == i;
      }
    }
  }

  /** The content before the loop: the prefix and the header line. */
  lemma ContentStart(items: seq<StockLevel>)
    ensures DataUriPrefix + Join(Headers, ',') + "\r\n" == DataUriPrefix + Crlf(Lines(items[..0]))
  {
    var header := Join(Headers, ',');
    assert Lines(items[..0]) == [header];
    assert Crlf([header]) == header + "\r\n" + Crlf([]);
  }

  /** One turn of the loop: the item's line and its CR LF are appended. */
  lemma ContentSnoc(items: seq<StockLevel>, i: nat)
    requires i < |items|
    ensures DataUriPrefix + Crlf(Lines(items[..i])) + RowText(items[i]) + "\r\n" == DataUriPrefix + Crlf(Lines(items[..i + 1]))
  {
    LinesSnoc(items, i);
    CrlfSnoc(Lines(items[..i]), RowText(items[i]));
  }

  /** The content the page builds: prefix, then every line with its CR LF. */
  function Content(items: seq<StockLevel>): string {
    DataUriPrefix + Crlf(Lines(items))
  }

  /** `downloadCSV` up to the download itself. `rows` is the mapped array;
      `csvContent` grows by one line per row. */
  method DownloadCsv(reportData: Option<ReportData>, selectedDate: string) returns (r: Outcome)
    ensures r.NoData? <==> reportData.None? || reportData.value.currentStockLevels.None?
    ensures r.NoData? ==> r.error == NoDataError
    ensures r.File? ==> r.filename == "daily_stock_report_" + selectedDate + ".csv"
    ensures r.File? ==> r.content == Content(reportData.value.currentStockLevels.value)
  {
    if reportData.None? || reportData.value.currentStockLevels.None? {
      return NoData(NoDataError);
    }
    var items := reportData.value.currentStockLevels.value;
    var rows := seq(|items|, k requires 0 <= k < |items| => RowCells(items[k]));
    var csvContent := DataUriPrefix;
    csvContent := csvContent + Join(Headers, ',') + "\r\n";
    ContentStart(items);
    for i := 0 to |rows|
      invariant csvContent == DataUriPrefix + Crlf(Lines(items[..i]))
    {
      var row := Join(Texts(rows[i]), ',');
      assert row == RowText(items[i]);
      ContentSnoc(items, i);
      csvContent := csvContent + row + "\r\n";
    }
    assert items[..|rows|] == items;
    r := File("daily_stock_report_" + selectedDate + ".csv", csvContent);
  }

  /** Every field text of the item is free of commas and LFs. */
  predicate Plain(item: StockLevel) {
    CellsFreeOf(RowCells(item), CsvBreaking)
  }

  /** Every field text of the item is free of LFs; commas are allowed. */
  predicate LfFree(item: StockLevel) {
    CellsFreeOf(RowCells(item), {'\n'})
  }

  lemma HeaderLineText()
    ensures Join(Headers, ',') == "ID,Spare Part Name,Quantity,Unit Price"
  {
    JoinFour("ID", "Spare Part Name", "Quantity", "Unit Price", ',');
    assert "ID" + [','] + "Spare Part Name" == "ID,Spare Part Name";
    assert "ID,Spare Part Name" + [','] + "Quantity" == "ID,Spare Part Name,Quantity";
    assert "ID,Spare Part Name,Quantity" + [','] + "Unit Price" == "ID,Spare Part Name,Quantity,Unit Price";
  }

  lemma HeaderHasNoLineFeed()
    ensures '\n' !in Join(Headers, ',')
  {
    forall k | 0 <= k < |Headers| ensures '\n' !in Headers[k] {
    }
    JoinFreeOf(Headers, ',', '\n');
  }

  lemma RowTextHasNoLineFeed(item: StockLevel)
    requires LfFree(item)
    ensures '\n' !in RowText(item)
  {
    JoinTextsFreeOf(RowCells(item), ',', '\n');
  }

  /** Cells are not quoted: any item whose name holds a comma yields a row
      with more than four fields. */
  lemma CommaInNameShiftsColumns(item: StockLevel)
    requires ',' in ToText(item.name)
    ensures |Split(RowText(item), ',')| > |RowCells(item)|
  {
    SeparatorInCellAddsPieces(Texts(RowCells(item)), ',', 1);
  }

  /** A plain row splits at commas into its four fields. */
  lemma RowTextReadsBack(item: StockLevel)
    requires Plain(item)
    ensures Split(RowText(item), ',') == Texts(RowCells(item))
  {
    CellsFreeOfFewer(RowCells(item), CsvBreaking, {','});
    SplitJoinTexts(RowCells(item), ',');
  }

  lemma LinesHaveNoLineFeed(items: seq<StockLevel>)
    requires forall k :: 0 <= k < |items| ==> LfFree(items[k])
    ensures forall k :: 0 <= k < |Lines(items)| ==> '\n' !in Lines(items)[k]
  {
    var lines := Lines(items);
    HeaderHasNoLineFeed();
    forall k | 1 <= k < |lines| ensures '\n' !in lines[k] {
      assert lines[k] == RowText(items[k - 1]);
      RowTextHasNoLineFeed(items[k - 1]);
    }
  }

  /** Lines free of line breaks, each with a CR appended, and an empty tail:
      what splitting their CR LF concatenation at LF gives. */
  function WithCr(lines: seq<string>): (r: seq<string>)
    ensures |r| == |lines|
  {
    seq(|lines|, k requires 0 <= k < |lines| => lines[k] + "\r")
  }

  lemma {:induction false} CrlfReadsBack(lines: seq<string>)
    requires forall k :: 0 <= k < |lines| ==> '\n' !in lines[k]
    ensures Split(Crlf(lines), '\n') == WithCr(lines) + [""]
  {
    if lines != [] {
      CrlfReadsBack(lines[1..]);
      assert lines[0] + "\r\n" + Crlf(lines[1..]) == (lines[0] + "\r") + ['\n'] + Crlf(lines[1..]);
      SplitAtFirst(lines[0] + "\r", Crlf(lines[1..]), '\n');
      assert WithCr(lines) == [lines[0] + "\r"] + WithCr(lines[1..]);
    }
  }

  /** Every LF of `s` directly follows a CR. */
  predicate CrBeforeEveryLf(s: string) {
    forall i :: 0 <= i < |s| && s[i] == '\n' ==> i > 0 && s[i - 1] == '\r'
  }

  /** Every LF of a CR LF concatenation of break-free lines directly follows a CR,
      and there is one LF per line. */
  lemma {:induction false} CrlfTerminators(lines: seq<string>)
    requires forall k :: 0 <= k < |lines| ==> '\n' !in lines[k]
    ensures multiset(Crlf(lines))['\n'] == |lines|
    ensures CrBeforeEveryLf(Crlf(lines))
  {
    if lines != [] {
      CrlfTerminators(lines[1..]);
      var head := lines[0] + "\r\n";
      var tail := Crlf(lines[1..]);
      assert Crlf(lines) == head + tail;
      assert multiset(head)['\n'] == 1 by {
        assert multiset(head) == multiset(lines[0]) + multiset("\r\n");
        assert '\n' !in multiset(lines[0]);
      }
      forall i | 0 <= i < |head + tail| && (head + tail)[i] == '\n'
        ensures i > 0 && (head + tail)[i - 1] == '\r'
      {
        if i < |head| {
          assert i == |head| - 1;
        } else {
          assert tail[i - |head|] == '\n';
        }
      }
    }
  }

  /** When no field holds an LF, the content after the prefix splits at LF into
      the header line, then one line per item in input order, each still
      carrying its CR, then nothing; the line of each item whose fields also
      hold no comma splits at commas into its four fields. */
  lemma ContentReadsBack(items: seq<StockLevel>)
    requires forall k :: 0 <= k < |items| ==> LfFree(items[k])
    ensures Content(items)[..|DataUriPrefix|] == DataUriPrefix
    ensures Split(Content(items)[|DataUriPrefix|..], '\n') == WithCr(Lines(items)) + [""]
    ensures Lines(items)[0] == "ID,Spare Part Name,Quantity,Unit Price"
    ensures forall k :: 0 <= k < |items| && Plain(items[k]) ==> Split(Lines(items)[k + 1], ',') == Texts(RowCells(items[k]))
  {
    LinesHaveNoLineFeed(items);
    assert Content(items)[|DataUriPrefix|..] == Crlf(Lines(items));
    CrlfReadsBack(Lines(items));
    HeaderLineText();
    forall k | 0 <= k < |items| && Plain(items[k]) ensures Split(Lines(items)[k + 1], ',') == Texts(RowCells(items[k])) {
      RowTextReadsBack(items[k]);
    }
  }

  lemma {:induction false} PrefixKeepsTerminators(prefix: string, body: string)
    requires '\n' !in prefix
    requires CrBeforeEveryLf(body)
    ensures multiset(prefix + body)['\n'] == multiset(body)['\n']
    ensures CrBeforeEveryLf(prefix + body)
  {
    assert multiset(prefix + body) == multiset(prefix) + multiset(body);
    assert '\n' !in multiset(prefix);
    forall i | 0 <= i < |prefix + body| && (prefix + body)[i] == '\n'
      ensures i > 0 && (prefix + body)[i - 1] == '\r'
    {
      assert i >= |prefix|;
      assert body[i - |prefix|] == '\n';
    }
  }

  lemma PrefixHasNoLineFeed()
    ensures '\n' !in DataUriPrefix
  {
  }

  /** Every line, the header included, ends in CR LF: the content holds one LF
      per item plus one, each right after a CR. */
  lemma ContentCrlfCount(items: seq<StockLevel>)
    requires forall k :: 0 <= k < |items| ==> LfFree(items[k])
    ensures multiset(Content(items))['\n'] == |items| + 1
    ensures CrBeforeEveryLf(Content(items))
  {
    LinesHaveNoLineFeed(items);
    CrlfTerminators(Lines(items));
    PrefixHasNoLineFeed();
    PrefixKeepsTerminators(DataUriPrefix, Crlf(Lines(items)));
  }
}
