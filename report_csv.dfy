/** The CSV export of the daily report page (`downloadCSV` in Report.jsx): a
    header line and one line per remaining-stock row, joined by line feeds. */
module ReportCsv {
  import opened Js

  /** A row of `remainingStock` as the page receives it. */
  datatype StockRow = StockRow(name: Value, category: Value, quantity: Value, unitPrice: Value)

  /** The report response; `remainingStock` may be missing. */
  datatype ReportData = ReportData(remainingStock: Option<seq<StockRow>>)

  datatype Download = Download(filename: string, csv: string)

  const Headers: seq<string> := ["Spare Part", "Category", "Quantity", "Unit Price"]

  function Cells(item: StockRow): seq<Value> {
    [item.name, item.category, item.quantity, item.unitPrice]
  }

  function RowLine(item: StockRow): string {
    Join(Texts(Cells(item)), ',')
  }

  function Lines(items: seq<StockRow>): (r: seq<string>)
    ensures |r| == |items| + 1
  {
    [Join(Headers, ',')] + seq(|items|, k requires 0 <= k < |items| => RowLine(items[k]))
  }

  /** The whole file: `[headers.join(','), ...rows.map(r => r.join(','))].join('\n')`. */
  function Csv(items: seq<StockRow>): string {
    Join(Lines(items), '\n')
  }

  /** `downloadCSV` up to the download itself: nothing without report data or
      without `remainingStock` (an empty array is truthy and still yields a file). */
  function DownloadCsv(reportData: Option<ReportData>, selectedDate: string): (r: Option<Download>)
    ensures r.None? <==> reportData.None? || reportData.value.remainingStock.None?
    ensures r.Some? ==> r.value.filename == "daily_report_" + selectedDate + ".csv"
    ensures r.Some? ==> r.value.csv == Csv(reportData.value.remainingStock.value)
  {
    if reportData.None? || reportData.value.remainingStock.None? then None
    else Some(Download("daily_report_" + selectedDate + ".csv", Csv(reportData.value.remainingStock.value)))
  }

  /** Every field text of the row is free of commas and line feeds. */
  predicate Plain(item: StockRow) {
    CellsFreeOf(Cells(item), CsvBreaking)
  }

  /** Every field text of the row is free of line feeds; commas are allowed. */
  predicate LfFree(item: StockRow) {
    CellsFreeOf(Cells(item), {'\n'})
  }

  lemma RowLineHasNoLineFeed(item: StockRow)
    requires LfFree(item)
    ensures '\n' !in RowLine(item)
  {
    JoinTextsFreeOf(Cells(item), ',', '\n');
  }

  lemma HeaderLineText()
    ensures Join(Headers, ',') == "Spare Part,Category,Quantity,Unit Price"
  {
    JoinFour("Spare Part", "Category", "Quantity", "Unit Price", ',');
    assert "Spare Part" + [','] + "Category" == "Spare Part,Category";
    assert "Spare Part,Category" + [','] + "Quantity" == "Spare Part,Category,Quantity";
    assert "Spare Part,Category,Quantity" + [','] + "Unit Price" == "Spare Part,Category,Quantity,Unit Price";
  }

  lemma HeaderHasNoLineFeed()
    ensures '\n' !in Join(Headers, ',')
  {
    forall k | 0 <= k < |Headers| ensures '\n' !in Headers[k] {
    }
    JoinFreeOf(Headers, ',', '\n');
  }

  /** A plain row splits at commas into its four fields. */
  lemma RowLineReadsBack(item: StockRow)
    requires Plain(item)
    ensures Split(RowLine(item), ',') == Texts(Cells(item))
  {
    CellsFreeOfFewer(Cells(item), CsvBreaking, {','});
    SplitJoinTexts(Cells(item), ',');
  }

  lemma LinesHaveNoLineFeed(items: seq<StockRow>)
    requires forall k :: 0 <= k < |items| ==> LfFree(items[k])
    ensures forall k :: 0 <= k < |Lines(items)| ==> '\n' !in Lines(items)[k]
  {
    var lines := Lines(items);
    forall k | 0 <= k < |lines| ensures '\n' !in lines[k] {
      if k > 0 {
        RowLineHasNoLineFeed(items[k - 1]);
      } else {
        HeaderHasNoLineFeed();
      }
    }
  }

  /** When no field holds a line feed, splitting the file at line feeds gives
      the header line, then one line per item in input order; the line of each
      item whose fields also hold no comma splits at commas into its four fields. */
  lemma CsvReadsBack(items: seq<StockRow>)
    requires forall k :: 0 <= k < |items| ==> LfFree(items[k])
    ensures Split(Csv(items), '\n') == Lines(items)
    ensures Split(Csv(items), '\n')[0] == "Spare Part,Category,Quantity,Unit Price"
    ensures forall k :: 0 <= k < |items| && Plain(items[k]) ==> Split(Split(Csv(items), '\n')[k + 1], ',') == Texts(Cells(items[k]))
  {
    LinesHaveNoLineFeed(items);
    SplitJoin(Lines(items), '\n');
    HeaderLineText();
    forall k | 0 <= k < |items| && Plain(items[k]) ensures Split(Lines(items)[k + 1], ',') == Texts(Cells(items[k])) {
      RowLineReadsBack(items[k]);
    }
  }

  /** Lines are separated, not terminated: the file holds one line feed per
      item, whatever commas the fields hold. */
  lemma CsvLineFeedCount(items: seq<StockRow>)
    requires forall k :: 0 <= k < |items| ==> LfFree(items[k])
    ensures multiset(Csv(items))['\n'] == |items|
  {
    LinesHaveNoLineFeed(items);
    JoinSeparatorCount(Lines(items), '\n');
  }

  /** Cells are not quoted: any row whose name holds a comma yields a line
      with more than four fields. */
  lemma CommaInNameShiftsColumns(item: StockRow)
    requires ',' in ToText(item.name)
    ensures |Split(RowLine(item), ',')| > |Cells(item)|
  {
    SeparatorInCellAddsPieces(Texts(Cells(item)), ',', 0);
  }
}
