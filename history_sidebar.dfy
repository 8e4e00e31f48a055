/**
 * components/history-sidebar.tsx: the non-visual logic of the history panel,
 * namely the date-range filter over the selected pool's history, the summary
 * statistics, the two badge colour tables, the 50-row display cap and the
 * CSV text of an export.
 */
module HistorySidebar {
  import opened Wrappers
  import opened Text
  import opened BassinHistory
  import opened HistoryCsv

  // ------------------------------------------------------- date-range filter

  /**
   * A date field as the filter reads it: the empty string, text that
   * `new Date` cannot parse, or a day whose first instant is `midnight` (in
   * milliseconds, under the parse the source applies to that field).
   */
  datatype DateInput = Blank | Unparsable | Day(midnight: int)

  /** `"T23:59:59"`: the last whole second of a day, counted from its midnight. */
  const EndOfDayMs := 86399000

  /** `7 * 24 * 60 * 60 * 1000` is seven of these. */
  const DayMs := 86400000

  /**
   * The first instant of the UTC day holding `ms`: the day
   * `toISOString().split("T")[0]` names. Dafny's `%` is never negative, so
   * this is the floor for instants before 1970 too.
   */
  function UtcMidnight(ms: int): (m: int)
    ensures m <= ms < m + DayMs && m % DayMs == 0
  {
    ms - ms % DayMs
  }

  /**
   * The fields the mount effect sets from one clock reading `nowMs`. The
   * from-date is the UTC day seven days earlier; `new Date("YYYY-MM-DD")`
   * reads it as UTC midnight. The to-date is today's UTC day, which
   * `new Date(toDate + "T23:59:59")` reads in local time, `localOffsetMs`
   * ahead of UTC; its `Day` value is that local midnight as an instant.
   */
  function DefaultFromDate(nowMs: int): DateInput {
    Day(UtcMidnight(nowMs - 7 * DayMs))
  }

  function DefaultToDate(nowMs: int, localOffsetMs: int): DateInput {
    Day(UtcMidnight(nowMs) - localOffsetMs)
  }

  /**
   * The default range starts exactly seven UTC days before today's UTC day.
   * Under UTC (no offset) it reaches seven days back from `nowMs` and forward
   * to the last whole second of today, so `nowMs` itself lies within a
   * second of its end.
   */
  lemma DefaultRangeIsLastWeek(nowMs: int, localOffsetMs: int)
    ensures DefaultFromDate(nowMs).midnight == UtcMidnight(nowMs) - 7 * DayMs
    ensures DefaultToDate(nowMs, localOffsetMs).midnight + EndOfDayMs == UtcMidnight(nowMs) + EndOfDayMs - localOffsetMs
    ensures localOffsetMs == 0 ==>
              DefaultFromDate(nowMs).midnight <= nowMs - 7 * DayMs
              && nowMs < DefaultToDate(nowMs, localOffsetMs).midnight + EndOfDayMs + 1000
  {
    var m := UtcMidnight(nowMs);
    MidnightUnique(nowMs - 7 * DayMs, UtcMidnight(nowMs - 7 * DayMs), m - 7 * DayMs);
  }

  /** Only one multiple of a day lies in the day up to an instant. */
  lemma MidnightUnique(ms: int, a: int, b: int)
    requires a <= ms < a + DayMs && a % DayMs == 0
    requires b <= ms < b + DayMs
    requires (b + 7 * DayMs) % DayMs == 0
    ensures a == b
  {
    var qa, qb := a / DayMs, (b + 7 * DayMs) / DayMs - 7;
    assert a == qa * DayMs;
    assert b == qb * DayMs;
  }

  /** `a` occurs in `b` in order, possibly with gaps. */
  predicate IsSubsequence(a: seq<Entry>, b: seq<Entry>)
    decreases |b|
  {
    if a == [] then true
    else if b == [] then false
    else if a[0] == b[0] then IsSubsequence(a[1..], b[1..])
    else IsSubsequence(a, b[1..])
  }

  predicate InRange(e: Entry, fromMs: int, toMs: int) {
    fromMs <= e.timestamp <= toMs
  }

  /**
   * `history.filter(entry => entryTime >= from && entryTime <= to)`: every
   * occurrence of an entry inside the closed range is kept, every other is
   * dropped, and the kept ones stay in their order.
   */
  function KeepInRange(h: seq<Entry>, fromMs: int, toMs: int): (r: seq<Entry>)
    ensures forall e :: multiset(r)[e] == if InRange(e, fromMs, toMs) then multiset(h)[e] else 0
    ensures IsSubsequence(r, h)
  {
    if h == [] then []
    else
      var rest := KeepInRange(h[1..], fromMs, toMs);
      assert h == [h[0]] + h[1..];
      if InRange(h[0], fromMs, toMs) then
        assert ([h[0]] + rest)[1..] == rest;
        [h[0]] + rest
      else
        assert rest != [] ==> rest[0] in multiset(rest);
        rest
  }

  /**
   * The filter effect: the history unchanged while either date is empty or
   * there is no history; otherwise the entries from the first instant of the
   * from-day to 23:59:59 of the to-day, both inclusive. A date that does not
   * parse makes every comparison false and so keeps nothing.
   */
  function FilterByDate(history: seq<Entry>, fromDate: DateInput, toDate: DateInput): (r: seq<Entry>)
    ensures fromDate.Blank? || toDate.Blank? || history == [] ==> r == history
    ensures !fromDate.Blank? && !toDate.Blank? && history != [] && (fromDate.Unparsable? || toDate.Unparsable?) ==> r == []
    ensures fromDate.Day? && toDate.Day? && history != [] ==>
              IsSubsequence(r, history)
              && forall e :: multiset(r)[e] == if fromDate.midnight <= e.timestamp <= toDate.midnight + EndOfDayMs
                                                then multiset(history)[e] else 0
    ensures fromDate.Day? && toDate.Day? ==>
              forall e :: e in r <==> e in history && fromDate.midnight <= e.timestamp <= toDate.midnight + EndOfDayMs
  {
    if fromDate.Blank? || toDate.Blank? || history == [] then history
    else if fromDate.Unparsable? || toDate.Unparsable? then []
    else
      var r := KeepInRange(history, fromDate.midnight, toDate.midnight + EndOfDayMs);
      assert forall e :: e in r <==> e in multiset(r);
      assert forall e :: e in history <==> e in multiset(history);
      r
  }

  // ------------------------------------------------------------- statistics

  /** The figures of the statistics card. */
  datatype ViewStats = ViewStats(avgTemp: real, avgPh: real, avgDO: real, totalAlerts: int)

  function AlertTotal(h: seq<Entry>): int {
    if h == [] then 0 else h[0].data.activeAlerts + AlertTotal(h[1..])
  }

  /** `calculateStats` of the filtered rows: no card for no rows. */
  function CalculateStats(rows: seq<Entry>): (s: Option<ViewStats>)
    ensures s.None? <==> rows == []
  {
    if rows == [] then None
    else Some(ViewStats(Mean(rows, Temperature), Mean(rows, Ph), Mean(rows, DissolvedOxygen), AlertTotal(rows)))
  }

  /**
   * The card's averages are the service's `getHistoryStats` averages of the
   * same rows, and each lies within the range of its readings.
   */
  lemma CalculateStatsAgrees(rows: seq<Entry>, lo: real, hi: real)
    requires rows != []
    requires forall e :: e in rows ==> lo <= e.data.m.temperature <= hi
    ensures var s := CalculateStats(rows).value; var hs := HistoryStats(rows);
            s.avgTemp == hs.averages[Temperature] && s.avgPh == hs.averages[Ph]
            && s.avgDO == hs.averages[DissolvedOxygen]
            && lo <= s.avgTemp <= hi
  {
    MeanBetween(rows, Temperature, lo, hi);
  }

  /** A total over rows whose counts stay in [0, k] lies in [0, k * |rows|]. */
  lemma {:induction false} AlertTotalBounds(rows: seq<Entry>, k: int)
    requires forall e :: e in rows ==> 0 <= e.data.activeAlerts <= k
    ensures 0 <= AlertTotal(rows) <= k * |rows|
  {
    if rows != [] {
      assert rows[0] in rows;
      forall e | e in rows[1..] ensures 0 <= e.data.activeAlerts <= k {
        assert e in rows;
      }
      AlertTotalBounds(rows[1..], k);
    }
  }

  /** Generated history shows at most four alerts per row in the card's total. */
  lemma DummyAlertTotal(bassinId: string, count: int, now: int, draws: seq<Draw>)
    requires count <= |draws| && forall i :: 0 <= i < |draws| ==> ValidDraw(draws[i])
    ensures 0 <= AlertTotal(DummyHistory(bassinId, count, now, draws)) <= 4 * Max(count, 0)
  {
    var h := DummyHistory(bassinId, count, now, draws);
    forall e | e in h ensures 0 <= e.data.activeAlerts <= 4 {
      var i :| 0 <= i < |h| && h[i] == e;
      assert AlertsInBand(Classify(h[i].data.m), h[i].data.activeAlerts);
    }
    AlertTotalBounds(h, 4);
  }

  // ------------------------------------------------------------ badge colours

  /** `getStatusColor`: the badge of a pool status. */
  function StatusColor(status: string): (c: string)
    ensures c == "bg-gray-500" <==> status !in {"excellent", "good", "warning", "poor"}
  {
    if status == "excellent" then "bg-green-500"
    else if status == "good" then "bg-blue-500"
    else if status == "warning" then "bg-yellow-500"
    else if status == "poor" then "bg-red-500"
    else "bg-gray-500"
  }

  /** `getWaterQualityColor`: the badge of an entry's water quality. */
  function WaterQualityColor(quality: string): (c: string)
    ensures c == "bg-gray-500" <==> quality !in {"Excellent", "Good", "Fair", "Poor"}
  {
    if quality == "Excellent" then "bg-green-500"
    else if quality == "Good" then "bg-blue-500"
    else if quality == "Fair" then "bg-yellow-500"
    else if quality == "Poor" then "bg-red-500"
    else "bg-gray-500"
  }

  /**
   * Every grade has its own quality colour. The status table agrees with it
   * on the generated statuses except "fair", which it does not list (it
   * lists "warning" instead) and so paints gray.
   */
  lemma ColourTables(g: Grade)
    ensures WaterQualityColor(GradeName(g)) != "bg-gray-500"
    ensures g != Fair ==> StatusColor(StatusOf(g)) == WaterQualityColor(GradeName(g))
    ensures StatusColor(StatusOf(Fair)) == "bg-gray-500" && WaterQualityColor(GradeName(Fair)) == "bg-yellow-500"
  {
    StatusNames(g);
    StatusNames(Fair);
  }

  // ------------------------------------------------------------ display cap

  const DisplayCap := 50

  /** `filteredData.slice(0, 50)`: the rows the panel draws. */
  function DisplayedRows(rows: seq<Entry>): (shown: seq<Entry>)
    ensures shown <= rows && |shown| == Min(DisplayCap, |rows|)
  {
    rows[..Min(DisplayCap, |rows|)]
  }

  /** The "Showing latest 50 entries" note is drawn for `filteredData.length > 50`. */
  predicate ShowsOverflowNote(rows: seq<Entry>) {
    |rows| > DisplayCap
  }

  /** The note appears exactly when some filtered rows are not drawn. */
  lemma OverflowNoteIffHidden(rows: seq<Entry>)
    ensures ShowsOverflowNote(rows) <==> |DisplayedRows(rows)| < |rows|
    ensures !ShowsOverflowNote(rows) ==> DisplayedRows(rows) == rows
  {
  }

  // ------------------------------------------------------------ panel state

  /** The panel's React state; each method is a setter followed by the effects it triggers. */
  class HistoryView {
    var selectedBassin: string
    var fromDate: DateInput
    var toDate: DateInput
    var historyData: seq<Entry>
    var filteredData: seq<Entry>

    /** The filter effect has caught up with its inputs. */
    ghost predicate Valid()
      reads this
    {
      filteredData == FilterByDate(historyData, fromDate, toDate)
    }

    constructor ()
      ensures Valid()
      ensures selectedBassin == "" && fromDate == Blank && toDate == Blank
      ensures historyData == [] && filteredData == []
    {
      selectedBassin, fromDate, toDate := "", Blank, Blank;
      historyData, filteredData := [], [];
    }

    /**
     * The mount effect: the last seven days, from one clock reading `nowMs`;
     * `localOffsetMs` is how far local time is ahead of UTC.
     */
    method SetDefaultDates(nowMs: int, localOffsetMs: int)
      modifies this
      ensures Valid()
      ensures fromDate == DefaultFromDate(nowMs) && toDate == DefaultToDate(nowMs, localOffsetMs)
      ensures selectedBassin == old(selectedBassin) && historyData == old(historyData)
    {
      toDate := DefaultToDate(nowMs, localOffsetMs);
      fromDate := DefaultFromDate(nowMs);
      filteredData := FilterByDate(historyData, fromDate, toDate);
    }

    method SetFromDate(d: DateInput)
      modifies this
      ensures Valid()
      ensures fromDate == d && toDate == old(toDate)
      ensures selectedBassin == old(selectedBassin) && historyData == old(historyData)
    {
      fromDate := d;
      filteredData := FilterByDate(historyData, fromDate, toDate);
    }

    method SetToDate(d: DateInput)
      modifies this
      ensures Valid()
      ensures toDate == d && fromDate == old(fromDate)
      ensures selectedBassin == old(selectedBassin) && historyData == old(historyData)
    {
      toDate := d;
      filteredData := FilterByDate(historyData, fromDate, toDate);
    }

    /**
     * Choosing a pool: its whole history is loaded; a pool with no readable
     * history first gets 100 generated entries, and those are shown. The empty
     * choice clears the list. `now` and `draws` stand for the clock and
     * `Math.random()`.
     */
    method SelectBassin(store: HistoryStore, bassinId: string, now: int, draws: seq<Draw>)
      requires 100 <= |draws| && forall i :: 0 <= i < |draws| ==> ValidDraw(draws[i])
      modifies this, store
      ensures Valid()
      ensures selectedBassin == bassinId && fromDate == old(fromDate) && toDate == old(toDate)
      ensures bassinId == "" ==> historyData == [] && store.slots == old(store.slots)
      ensures bassinId != "" && old(store.History(bassinId)) != [] ==>
                historyData == old(store.History(bassinId)) && store.slots == old(store.slots)
      ensures bassinId != "" && old(store.History(bassinId)) == [] ==>
                historyData == DummyHistory(bassinId, 100, now, draws)
                && store.slots == old(store.slots)[StorageKey(bassinId) := Stored(historyData)]
    {
      selectedBassin := bassinId;
      if bassinId != "" {
        var history := store.GetHistory(bassinId, None);
        if |history| == 0 {
          store.GenerateDummyData(bassinId, 100, now, draws);
          history := store.GetHistory(bassinId, None);
        }
        historyData := history;
      } else {
        historyData := [];
      }
      filteredData := FilterByDate(historyData, fromDate, toDate);
    }

    /**
     * `exportFilteredData`: nothing without a selected pool or without rows;
     * otherwise the CSV text of the filtered rows.
     */
    method ExportFilteredData(fmt: Formats) returns (csv: Option<string>)
      requires Valid()
      ensures csv.None? <==> selectedBassin == "" || filteredData == []
      ensures csv.Some? ==> csv.value == CsvContent(fmt, FilterByDate(historyData, fromDate, toDate))
    {
      if selectedBassin == "" || |filteredData| == 0 {
        return None;
      }
      csv := Some(CsvContent(fmt, filteredData));
    }
  }
}
