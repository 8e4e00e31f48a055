/**
 * The CSV text of a history export, built the same way by `exportToCsv` in
 * lib/bassin-history.ts and by `exportFilteredData` in
 * components/history-sidebar.tsx: an unquoted header line, then one line per
 * entry of 21 double-quoted cells, lines joined by newlines.
 */
module HistoryCsv {
  import opened Wrappers
  import opened Text
  import opened BassinHistory

  const Headers: seq<string> := [
    "Timestamp", "Date", "Time", "Temp (°C)", "Turbidity (cm)", "DO (mg/L)", "BOD (mg/L)",
    "CO2 (mg/L)", "pH", "Alkalinity (mg L-1)", "Hardness (mg L-1)", "Calcium (mg L-1)",
    "Ammonia (mg L-1)", "Nitrite (mg L-1)", "Phosphorus (mg L-1)", "H2S (mg L-1)",
    "Plankton (No. L-1)", "Water Quality", "Status", "Active Alerts", "Notes"]

  /**
   * The formatting the cells rely on, left abstract: the stored ISO text of
   * an instant, its locale date and time, and `toFixed(digits)`.
   */
  datatype Formats = Formats(
    iso: int -> string, localeDate: int -> string, localeTime: int -> string, fixed: (real, nat) -> string)

  /** The 21 cells of one entry, in header order. */
  function Cells(fmt: Formats, e: Entry): (cells: seq<string>)
    ensures |cells| == |Headers|
    ensures cells[0] == fmt.iso(e.timestamp) && cells[3] == fmt.fixed(e.data.m.temperature, 2)
    ensures cells[12] == fmt.fixed(e.data.m.ammonia, 3) && cells[16] == fmt.fixed(e.data.m.plankton, 0)
    ensures cells[17] == e.data.waterQuality && cells[18] == e.data.status
    ensures cells[19] == IntToString(e.data.activeAlerts)
    ensures cells[20] == (if e.data.notes.Some? then e.data.notes.value else "")
  {
    var m := e.data.m;
    [ fmt.iso(e.timestamp), fmt.localeDate(e.timestamp), fmt.localeTime(e.timestamp),
      fmt.fixed(m.temperature, 2), fmt.fixed(m.turbidity, 2), fmt.fixed(m.dissolvedOxygen, 2),
      fmt.fixed(m.bod, 2), fmt.fixed(m.co2, 2), fmt.fixed(m.ph, 2), fmt.fixed(m.alkalinity, 2),
      fmt.fixed(m.hardness, 2), fmt.fixed(m.calcium, 2), fmt.fixed(m.ammonia, 3),
      fmt.fixed(m.nitrite, 3), fmt.fixed(m.phosphorus, 2), fmt.fixed(m.h2s, 3),
      fmt.fixed(m.plankton, 0), e.data.waterQuality, e.data.status,
      IntToString(e.data.activeAlerts),
      if e.data.notes.Some? then e.data.notes.value else "" ]
  }

  /** `"${cell}"`: no escaping of quotes inside the cell. */
  function Quote(cell: string): (q: string)
    ensures |q| == |cell| + 2 && q[0] == '"' && q[|q| - 1] == '"' && q[1..|q| - 1] == cell
  {
    "\"" + cell + "\""
  }

  function QuoteAll(cells: seq<string>): (qs: seq<string>)
    ensures |qs| == |cells| && forall i :: 0 <= i < |cells| ==> qs[i] == Quote(cells[i])
  {
    seq(|cells|, i requires 0 <= i < |cells| => Quote(cells[i]))
  }

  /** The header line: the header texts joined by commas, not quoted. */
  function HeaderLine(): string {
    Join(',', Headers)
  }

  /** One data line: the quoted cells joined by commas. */
  function DataLine(cells: seq<string>): string {
    Join(',', QuoteAll(cells))
  }

  function DataLines(fmt: Formats, rows: seq<Entry>): (lines: seq<string>)
    ensures |lines| == |rows| && forall i :: 0 <= i < |rows| ==> lines[i] == DataLine(Cells(fmt, rows[i]))
  {
    seq(|rows|, i requires 0 <= i < |rows| => DataLine(Cells(fmt, rows[i])))
  }

  /** `csvContent`: the header line and one line per row, joined by newlines. */
  function CsvContent(fmt: Formats, rows: seq<Entry>): string {
    Join('\n', [HeaderLine()] + DataLines(fmt, rows))
  }

  /** No cell of any row holds the character `c`. */
  predicate CellsFreeOf(c: char, fmt: Formats, rows: seq<Entry>) {
    forall i :: 0 <= i < |rows| ==> FreeOf(c, Cells(fmt, rows[i]))
  }

  lemma {:induction false} JoinFreeOf(sep: char, c: char, parts: seq<string>)
    requires c != sep && FreeOf(c, parts)
    ensures c !in Join(sep, parts)
  {
    if |parts| > 1 {
      assert c !in parts[0];
      assert FreeOf(c, parts[1..]) by {
        forall i | 0 <= i < |parts[1..]| ensures c !in parts[1..][i] {
          assert parts[1..][i] == parts[i + 1];
        }
      }
      JoinFreeOf(sep, c, parts[1..]);
    } else if |parts| == 1 {
      assert c !in parts[0];
    }
  }

  lemma QuoteAllFreeOf(c: char, cells: seq<string>)
    requires c != '"' && FreeOf(c, cells)
    ensures FreeOf(c, QuoteAll(cells))
  {
    forall i | 0 <= i < |cells| ensures c !in QuoteAll(cells)[i] {
      assert c !in cells[i];
      assert QuoteAll(cells)[i] == "\"" + cells[i] + "\"";
    }
  }

  lemma HeadersFreeOfNewline()
    ensures FreeOf('\n', Headers)
  {
    forall i | 0 <= i < |Headers| ensures '\n' !in Headers[i] {
      if i < 7 {
        FirstHeadersFree(i);
      } else if i < 14 {
        MiddleHeadersFree(i);
      } else {
        LastHeadersFree(i);
      }
    }
  }

  lemma FirstHeadersFree(i: nat)
    requires i < 7
    ensures '\n' !in Headers[i]
  {
  }

  lemma MiddleHeadersFree(i: nat)
    requires 7 <= i < 14
    ensures '\n' !in Headers[i]
  {
  }

  lemma LastHeadersFree(i: nat)
    requires 14 <= i < |Headers|
    ensures '\n' !in Headers[i]
  {
  }

  /**
   * An export with no newline inside any cell reads back, line by line, as
   * the header line followed by one data line per row, in row order.
   */
  lemma CsvLines(fmt: Formats, rows: seq<Entry>)
    requires CellsFreeOf('\n', fmt, rows)
    ensures Split('\n', CsvContent(fmt, rows)) == [HeaderLine()] + DataLines(fmt, rows)
  {
    var lines := [HeaderLine()] + DataLines(fmt, rows);
    HeadersFreeOfNewline();
    JoinFreeOf(',', '\n', Headers);
    forall i | 0 <= i < |lines| ensures '\n' !in lines[i] {
      if i > 0 {
        var cells := Cells(fmt, rows[i - 1]);
        QuoteAllFreeOf('\n', cells);
        JoinFreeOf(',', '\n', QuoteAll(cells));
      }
    }
    SplitJoin('\n', lines);
  }

  /**
   * A data line with no comma inside any cell reads back, cell by cell, as
   * the 21 cells each wrapped in a pair of double quotes.
   */
  lemma DataLineCells(fmt: Formats, e: Entry)
    requires FreeOf(',', Cells(fmt, e))
    ensures var parts := Split(',', DataLine(Cells(fmt, e)));
            |parts| == |Headers|
            && forall i :: 0 <= i < |parts| ==> parts[i] == Quote(Cells(fmt, e)[i])
  {
    var cells := Cells(fmt, e);
    QuoteAllFreeOf(',', cells);
    SplitJoin(',', QuoteAll(cells));
  }

  /**
   * Without escaping, a cell that holds `","` is indistinguishable from two
   * cells: the quoted form does not determine the row.
   */
  lemma UnescapedQuotesAreAmbiguous()
    ensures DataLine(["a\",\"b"]) == DataLine(["a", "b"])
  {
    var one, two := QuoteAll(["a\",\"b"]), QuoteAll(["a", "b"]);
    assert |one| == 1 && one[0] == Quote("a\",\"b");
    assert |two| == 2 && two[0] == Quote("a") && two[1] == Quote("b");
    assert two[1..] == [Quote("b")];
    assert Join(',', two) == Quote("a") + [','] + Quote("b");
  }

  /**
   * `exportToCsv(bassinId, bassinName)`: nothing for a pool without readable
   * history, otherwise the CSV text of its whole history.
   */
  method ExportToCsv(store: HistoryStore, bassinId: string, fmt: Formats) returns (csv: Option<string>)
    ensures csv.None? <==> store.History(bassinId) == []
    ensures csv.Some? ==> csv.value == CsvContent(fmt, store.History(bassinId))
  {
    var history := store.GetHistory(bassinId, None);
    if |history| == 0 {
      return None;
    }
    csv := Some(CsvContent(fmt, history));
  }
}
