/**
 * lib/bassin-history.ts: the per-pool history ledger kept in browser storage,
 * the water-quality grade of the demo data and the history statistics.
 */
module BassinHistory {
  import opened Wrappers
  import opened Text
  import Seqs

  // ---------------------------------------------------------------- entries

  /** The fourteen numeric readings of a history entry. */
  datatype Measurements = Measurements(
    temperature: real, turbidity: real, dissolvedOxygen: real, bod: real, co2: real,
    ph: real, alkalinity: real, hardness: real, calcium: real, ammonia: real,
    nitrite: real, phosphorus: real, h2s: real, plankton: real)

  /** What a caller of `addEntry` supplies: everything but the id, the pool and the timestamp. */
  datatype EntryData = EntryData(
    m: Measurements, waterQuality: string, status: string, activeAlerts: int, notes: Option<string>)

  /** `BassinHistoryEntry`; the timestamp is the instant in milliseconds that its ISO text denotes. */
  datatype Entry = Entry(id: string, bassinId: string, timestamp: int, data: EntryData)

  /** The numeric fields, each of which `getHistoryStats` averages. */
  datatype Field =
    | Temperature | Turbidity | DissolvedOxygen | Bod | Co2 | Ph | Alkalinity
    | Hardness | Calcium | Ammonia | Nitrite | Phosphorus | H2s | Plankton

  function Value(m: Measurements, f: Field): real {
    match f
    case Temperature => m.temperature
    case Turbidity => m.turbidity
    case DissolvedOxygen => m.dissolvedOxygen
    case Bod => m.bod
    case Co2 => m.co2
    case Ph => m.ph
    case Alkalinity => m.alkalinity
    case Hardness => m.hardness
    case Calcium => m.calcium
    case Ammonia => m.ammonia
    case Nitrite => m.nitrite
    case Phosphorus => m.phosphorus
    case H2s => m.h2s
    case Plankton => m.plankton
  }

  // ------------------------------------------------------ water-quality grade

  datatype Grade = Excellent | Good | Fair | Poor

  /** The `waterQuality` text of a grade. */
  function GradeName(g: Grade): string {
    match g
    case Excellent => "Excellent"
    case Good => "Good"
    case Fair => "Fair"
    case Poor => "Poor"
  }

  /** Worse grades have higher ranks. */
  function Rank(g: Grade): nat {
    match g
    case Excellent => 0
    case Good => 1
    case Fair => 2
    case Poor => 3
  }

  /**
   * The limits a reading must keep to earn at least grade `g`, one band per
   * grade above Poor. A grade's band is the conjunction of the negated tests
   * of every worse grade in the classifier's if-chain.
   */
  predicate WithinBand(m: Measurements, g: Grade) {
    match g
    case Excellent =>
      m.temperature <= 21.0 && 7.0 <= m.ph <= 8.0 && m.dissolvedOxygen >= 8.0 && m.ammonia <= 0.5
    case Good =>
      m.temperature <= 23.0 && 7.0 <= m.ph <= 8.0 && m.dissolvedOxygen >= 7.0 && m.ammonia <= 1.0
    case Fair =>
      m.temperature <= 25.0 && 6.8 <= m.ph <= 8.2 && m.dissolvedOxygen >= 6.0 && m.ammonia <= 1.5
    case Poor => true
  }

  /**
   * The four-level if-chain of `generateDummyData`. A reading gets grade `g`
   * or better exactly when it lies within `g`'s band: the grade is the best
   * band the reading fits.
   */
  function Classify(m: Measurements): (g: Grade)
    ensures forall h: Grade :: Rank(g) <= Rank(h) <==> WithinBand(m, h)
  {
    if m.temperature > 25.0 || m.ph < 6.8 || m.ph > 8.2 || m.dissolvedOxygen < 6.0 || m.ammonia > 1.5 then Poor
    else if m.temperature > 23.0 || m.ph < 7.0 || m.ph > 8.0 || m.dissolvedOxygen < 7.0 || m.ammonia > 1.0 then Fair
    else if m.temperature > 21.0 || m.dissolvedOxygen < 8.0 || m.ammonia > 0.5 then Good
    else Excellent
  }

  /** A warmer, more ammonia-laden or less oxygenated reading with the same pH never grades better. */
  lemma ClassifyMonotone(m1: Measurements, m2: Measurements)
    requires m2.ph == m1.ph
    requires m2.temperature >= m1.temperature && m2.ammonia >= m1.ammonia
    requires m2.dissolvedOxygen <= m1.dissolvedOxygen
    ensures Rank(Classify(m2)) >= Rank(Classify(m1))
  {
    var g1, g2 := Classify(m1), Classify(m2);
    assert WithinBand(m2, g2);
    assert WithinBand(m1, g2);
  }

  /** `waterQuality.toLowerCase()`, the `status` of a generated entry. */
  function StatusOf(g: Grade): string {
    ToLower(GradeName(g))
  }

  /** The status texts are the lower-case grade names. */
  lemma StatusNames(g: Grade)
    ensures StatusOf(g) == match g case Excellent => "excellent" case Good => "good" case Fair => "fair" case Poor => "poor"
  {
  }

  /** The `activeAlerts` a generated entry may carry for its grade. */
  predicate AlertsInBand(g: Grade, n: int) {
    match g
    case Poor => 1 <= n <= 4
    case Fair => 0 <= n <= 1
    case Good => n == 0
    case Excellent => n == 0
  }

  /** `activeAlerts` of a generated entry from the grade and one `Math.random()` draw `r`. */
  function DummyAlerts(g: Grade, r: real): (n: int)
    requires 0.0 <= r < 1.0
    ensures AlertsInBand(g, n)
  {
    if g == Poor then (r * 4.0).Floor + 1
    else if g == Fair then (r * 2.0).Floor
    else 0
  }

  // ------------------------------------------------------------- demo data

  predicate Unit(r: real) {
    0.0 <= r < 1.0
  }

  /** The `Math.random()` draws one generated entry consumes: one per measurement and one for its alerts. */
  datatype Draw = Draw(u: Measurements, alert: real)

  predicate ValidDraw(d: Draw) {
    && Unit(d.u.temperature) && Unit(d.u.turbidity) && Unit(d.u.dissolvedOxygen) && Unit(d.u.bod)
    && Unit(d.u.co2) && Unit(d.u.ph) && Unit(d.u.alkalinity) && Unit(d.u.hardness)
    && Unit(d.u.calcium) && Unit(d.u.ammonia) && Unit(d.u.nitrite) && Unit(d.u.phosphorus)
    && Unit(d.u.h2s) && Unit(d.u.plankton) && Unit(d.alert)
  }

  /** The demo readings: each draw in [0, 1) scaled into its parameter's realistic range. */
  function Scale(u: Measurements): (m: Measurements)
    requires Unit(u.temperature) && Unit(u.dissolvedOxygen) && Unit(u.ph) && Unit(u.ammonia)
    ensures 18.0 <= m.temperature < 26.0 && 5.0 <= m.dissolvedOxygen < 9.0
    ensures 6.5 <= m.ph < 8.5 && 0.1 <= m.ammonia < 2.1
  {
    Measurements(
      18.0 + u.temperature * 8.0, 2.0 + u.turbidity * 15.0, 5.0 + u.dissolvedOxygen * 4.0,
      1.0 + u.bod * 8.0, 5.0 + u.co2 * 15.0, 6.5 + u.ph * 2.0, 80.0 + u.alkalinity * 120.0,
      100.0 + u.hardness * 200.0, 20.0 + u.calcium * 80.0, 0.1 + u.ammonia * 2.0,
      0.05 + u.nitrite * 1.0, 0.5 + u.phosphorus * 3.0, 0.01 + u.h2s * 0.5, 1000.0 + u.plankton * 50000.0)
  }

  const HourMs := 3600000

  /** Entry `i` of `generateDummyData(bassinId, count)`, with `now` the clock in milliseconds. */
  function DummyEntry(bassinId: string, i: nat, now: int, d: Draw): (e: Entry)
    requires ValidDraw(d)
    ensures e.id == bassinId + "-dummy-" + NatToString(i) && e.bassinId == bassinId
    ensures e.timestamp == now - i * HourMs
    ensures e.data.waterQuality == GradeName(Classify(e.data.m))
    ensures e.data.status == StatusOf(Classify(e.data.m))
    ensures AlertsInBand(Classify(e.data.m), e.data.activeAlerts)
  {
    var m := Scale(d.u);
    var g := Classify(m);
    Entry(bassinId + "-dummy-" + NatToString(i), bassinId, now - i * HourMs,
      EntryData(m, GradeName(g), StatusOf(g), DummyAlerts(g, d.alert),
        Some("Automated monitoring - " + GradeName(g) + " conditions detected")))
  }

  /** The history that `generateDummyData` stores: `count` entries, none for a negative count. */
  function DummyHistory(bassinId: string, count: int, now: int, draws: seq<Draw>): (h: seq<Entry>)
    requires count <= |draws| && forall i :: 0 <= i < |draws| ==> ValidDraw(draws[i])
    ensures |h| == Max(count, 0)
    ensures forall i :: 0 <= i < |h| ==> h[i].id == bassinId + "-dummy-" + NatToString(i)
    ensures forall i, j :: 0 <= i < j < |h| ==> h[i].timestamp > h[j].timestamp
    ensures forall i :: 0 <= i < |h| ==> AlertsInBand(Classify(h[i].data.m), h[i].data.activeAlerts)
  {
    seq(Max(count, 0), i requires 0 <= i < Max(count, 0) => DummyEntry(bassinId, i, now, draws[i]))
  }

  // ------------------------------------------------------ storage and slots

  /** The retention cap of `addEntry`. */
  const Cap := 1000

  const KeyPrefix := "bassin-history-"

  /** `getStorageKey`: one storage slot per pool. */
  function StorageKey(bassinId: string): (k: string)
    ensures |k| == |KeyPrefix| + |bassinId|
    ensures k[..|KeyPrefix|] == KeyPrefix && k[|KeyPrefix|..] == bassinId
  {
    KeyPrefix + bassinId
  }

  /** Different pools never share a slot. */
  lemma StorageKeyInjective(a: string, b: string)
    requires a != b
    ensures StorageKey(a) != StorageKey(b)
  {
    assert StorageKey(a)[|KeyPrefix|..] == a;
    assert StorageKey(b)[|KeyPrefix|..] == b;
  }

  /** A storage slot: the parsed JSON of a history, or text that does not parse. */
  datatype Slot = Stored(entries: seq<Entry>) | Corrupt

  /** The whole history a slot yields: missing and unparsable slots yield `[]`. */
  function Load(slots: map<string, Slot>, key: string): (h: seq<Entry>)
    ensures key !in slots ==> h == []
    ensures key in slots && slots[key].Stored? ==> h == slots[key].entries
    ensures key in slots && slots[key].Corrupt? ==> h == []
  {
    if key in slots && slots[key].Stored? then slots[key].entries else []
  }

  /**
   * `history.slice(0, limit)` when `limit` is truthy, the whole history
   * otherwise. A negative limit counts from the back, as `slice` does.
   */
  function Take(h: seq<Entry>, limit: Option<int>): (r: seq<Entry>)
    ensures r <= h
    ensures limit == None || limit == Some(0) ==> r == h
    ensures limit.Some? && limit.value > 0 ==> |r| == Min(limit.value, |h|)
    ensures limit.Some? && limit.value < 0 ==> |r| == Max(|h| + limit.value, 0)
  {
    match limit
    case None => h
    case Some(l) =>
      if l == 0 then h
      else if l > 0 then h[..Min(l, |h|)]
      else h[..Max(|h| + l, 0)]
  }

  /**
   * `[entry, ...existing].slice(0, 1000)`: the new entry first, then the old
   * ones in their order, dropping the oldest so that at most `Cap` remain.
   */
  function Prepend(e: Entry, h: seq<Entry>): (r: seq<Entry>)
    ensures |r| == Min(|h| + 1, Cap)
    ensures r[0] == e && r[1..] == h[..|r| - 1]
  {
    ([e] + h)[..Min(|h| + 1, Cap)]
  }

  /** A full ledger loses exactly its oldest (last) entry on insertion. */
  lemma PrependEvictsOldest(e: Entry, h: seq<Entry>)
    requires |h| == Cap
    ensures |Prepend(e, h)| == Cap
    ensures Prepend(e, h) == [e] + h[..Cap - 1]
  {
  }

  /** The ledger after inserting `es[0]`, then `es[1]`, and so on, into `h`. */
  function AddAll(h: seq<Entry>, es: seq<Entry>): seq<Entry>
    decreases |es|
  {
    if es == [] then h else AddAll(Prepend(es[0], h), es[1..])
  }

  function Reversed(s: seq<Entry>): (r: seq<Entry>)
    ensures |r| == |s|
  {
    if s == [] then [] else Reversed(s[1..]) + [s[0]]
  }

  /**
   * Any run of insertions leaves the newest `Cap` of all entries ever
   * inserted, newest first: the cap evicts by age and keeps order.
   */
  lemma {:induction false} AddAllKeepsNewest(h: seq<Entry>, es: seq<Entry>)
    requires |h| <= Cap || es != []
    ensures AddAll(h, es) == (Reversed(es) + h)[..Min(|es| + |h|, Cap)]
    decreases |es|
  {
    if es != [] {
      var front := [es[0]] + h;
      var p := Min(|h| + 1, Cap);
      var h1 := Prepend(es[0], h);
      assert h1 == front[..p];
      AddAllKeepsNewest(h1, es[1..]);
      var rest := Reversed(es[1..]);
      assert Reversed(es) + h == rest + front;
      Seqs.PrefixOfConcat(rest, front, p, Min(|es| + |h|, Cap));
    }
  }

  /**
   * After at least one insertion no ledger is over the cap, even one that
   * `generateDummyData` filled past it; a ledger within the cap stays within it.
   */
  lemma {:induction false} AddAllBounded(h: seq<Entry>, es: seq<Entry>)
    requires |h| <= Cap || es != []
    ensures |AddAll(h, es)| <= Cap
  {
    AddAllKeepsNewest(h, es);
  }

  // --------------------------------------------------------------- statistics

  function Sum(h: seq<Entry>, f: Field): real {
    if h == [] then 0.0 else Value(h[0].data.m, f) + Sum(h[1..], f)
  }

  /** The arithmetic mean of one field over the whole history. */
  function Mean(h: seq<Entry>, f: Field): real
    requires |h| > 0
  {
    Sum(h, f) / (|h| as real)
  }

  /** `x` added `n` times. */
  function Times(n: nat, x: real): real {
    if n == 0 then 0.0 else Times(n - 1, x) + x
  }

  lemma {:induction false} TimesIsProduct(n: nat, x: real)
    ensures Times(n, x) == (n as real) * x
  {
    if n > 0 {
      TimesIsProduct(n - 1, x);
      var m := (n - 1) as real;
      assert (m + 1.0) * x == m * x + x;
    }
  }

  /** A sum of `n` values that lie in `[lo, hi]` lies between `n` copies of `lo` and `n` copies of `hi`. */
  lemma {:induction false} SumBounds(h: seq<Entry>, f: Field, lo: real, hi: real)
    requires forall i :: 0 <= i < |h| ==> lo <= Value(h[i].data.m, f) <= hi
    ensures Times(|h|, lo) <= Sum(h, f) <= Times(|h|, hi)
  {
    if h != [] {
      var t := h[1..];
      forall i | 0 <= i < |t| ensures lo <= Value(t[i].data.m, f) <= hi {
        assert t[i] == h[i + 1];
      }
      SumBounds(t, f, lo, hi);
    }
  }

  lemma QuotientBetween(n: real, s: real, lo: real, hi: real)
    requires n > 0.0 && n * lo <= s <= n * hi
    ensures lo <= s / n <= hi
  {
    assert s / n * n == s;
  }

  /** An average of a history lies between the least and the greatest reading of its field. */
  lemma MeanBetween(h: seq<Entry>, f: Field, lo: real, hi: real)
    requires |h| > 0
    requires forall e :: e in h ==> lo <= Value(e.data.m, f) <= hi
    ensures lo <= Mean(h, f) <= hi
  {
    forall i | 0 <= i < |h| ensures lo <= Value(h[i].data.m, f) <= hi {
      assert h[i] in h;
    }
    SumBounds(h, f, lo, hi);
    TimesIsProduct(|h|, lo);
    TimesIsProduct(|h|, hi);
    QuotientBetween(|h| as real, Sum(h, f), lo, hi);
  }

  lemma {:induction false} SumRemove(h: seq<Entry>, k: nat, f: Field)
    requires k < |h|
    ensures Sum(h, f) == Value(h[k].data.m, f) + Sum(h[..k] + h[k + 1..], f)
  {
    if k > 0 {
      SumRemove(h[1..], k - 1, f);
      assert h[1..][..k - 1] + h[1..][k..] == (h[..k] + h[k + 1..])[1..];
    } else {
      assert h[..k] + h[k + 1..] == h[1..];
    }
  }

  /** Sums, and hence averages, do not depend on the order the history is stored in. */
  lemma {:induction false} SumPermutation(h1: seq<Entry>, h2: seq<Entry>, f: Field)
    requires multiset(h1) == multiset(h2)
    ensures Sum(h1, f) == Sum(h2, f)
    decreases |h1|
  {
    if h1 != [] {
      assert h1[0] in multiset(h2);
      var k :| 0 <= k < |h2| && h2[k] == h1[0];
      Seqs.PermutationRest(h1, h2, k);
      SumPermutation(h1[1..], h2[..k] + h2[k + 1..], f);
      SumRemove(h2, k, f);
    } else {
      assert |h2| == |multiset(h2)| == 0;
    }
  }

  predicate SortedByTime(s: seq<Entry>) {
    forall i, j :: 0 <= i < j < |s| ==> s[i].timestamp <= s[j].timestamp
  }

  /** No entry of `s` is earlier than `t`. */
  predicate NotBefore(t: int, s: seq<Entry>) {
    forall i :: 0 <= i < |s| ==> t <= s[i].timestamp
  }

  /** Insertion into a time-sorted list, after every entry that is not later. */
  function Insert(e: Entry, s: seq<Entry>): seq<Entry> {
    if s == [] then [e]
    else if s[0].timestamp <= e.timestamp then [s[0]] + Insert(e, s[1..])
    else [e] + s
  }

  lemma {:induction false} InsertPermutes(e: Entry, s: seq<Entry>)
    ensures multiset(Insert(e, s)) == multiset(s) + multiset{e}
  {
    if s != [] && s[0].timestamp <= e.timestamp {
      InsertPermutes(e, s[1..]);
      assert multiset([s[0]] + Insert(e, s[1..])) == multiset{s[0]} + multiset(Insert(e, s[1..]));
      assert s == [s[0]] + s[1..];
      assert multiset(s) == multiset{s[0]} + multiset(s[1..]);
    }
  }

  lemma SortedSplits(s: seq<Entry>)
    requires SortedByTime(s) && s != []
    ensures SortedByTime(s[1..]) && NotBefore(s[0].timestamp, s)
  {
    var t := s[1..];
    forall i, j | 0 <= i < j < |t| ensures t[i].timestamp <= t[j].timestamp {
      assert t[i] == s[i + 1] && t[j] == s[j + 1];
    }
  }

  lemma ConsSorted(x: Entry, s: seq<Entry>)
    requires SortedByTime(s) && NotBefore(x.timestamp, s)
    ensures SortedByTime([x] + s)
  {
    var r := [x] + s;
    forall i, j | 0 <= i < j < |r| ensures r[i].timestamp <= r[j].timestamp {
      assert r[j] == s[j - 1];
      if i > 0 {
        assert r[i] == s[i - 1];
      }
    }
  }

  /** Insertion keeps a lower bound that both the list and the new entry respect. */
  lemma {:induction false} InsertNotBefore(e: Entry, s: seq<Entry>, t: int)
    requires NotBefore(t, s) && t <= e.timestamp
    ensures NotBefore(t, Insert(e, s))
  {
    if s != [] && s[0].timestamp <= e.timestamp {
      var tail := s[1..];
      assert NotBefore(t, tail) by {
        forall i | 0 <= i < |tail| ensures t <= tail[i].timestamp {
          assert tail[i] == s[i + 1];
        }
      }
      InsertNotBefore(e, tail, t);
      var r := [s[0]] + Insert(e, tail);
      forall i | 0 <= i < |r| ensures t <= r[i].timestamp {
        if i > 0 {
          assert r[i] == Insert(e, tail)[i - 1];
        }
      }
    } else if s != [] {
      var r := [e] + s;
      forall i | 0 <= i < |r| ensures t <= r[i].timestamp {
        if i > 0 {
          assert r[i] == s[i - 1];
        }
      }
    }
  }

  lemma {:induction false} InsertSorted(e: Entry, s: seq<Entry>)
    requires SortedByTime(s)
    ensures SortedByTime(Insert(e, s))
  {
    if s == [] {
    } else {
      SortedSplits(s);
      if s[0].timestamp <= e.timestamp {
        var tail := s[1..];
        assert NotBefore(s[0].timestamp, tail) by {
          forall i | 0 <= i < |tail| ensures s[0].timestamp <= tail[i].timestamp {
            assert tail[i] == s[i + 1];
          }
        }
        InsertSorted(e, tail);
        InsertNotBefore(e, tail, s[0].timestamp);
        ConsSorted(s[0], Insert(e, tail));
      } else {
        assert NotBefore(e.timestamp, s);
        ConsSorted(e, s);
      }
    }
  }

  /**
   * The ascending sort by timestamp of `getHistoryStats` (a stable sort, as
   * `Array.prototype.sort` is).
   */
  function SortByTime(h: seq<Entry>): seq<Entry> {
    if h == [] then [] else Insert(h[0], SortByTime(h[1..]))
  }

  /** The sort gives a time-ordered permutation of the history. */
  lemma {:induction false} SortByTimeSorted(h: seq<Entry>)
    ensures SortedByTime(SortByTime(h)) && multiset(SortByTime(h)) == multiset(h)
  {
    if h != [] {
      SortByTimeSorted(h[1..]);
      InsertSorted(h[0], SortByTime(h[1..]));
      InsertPermutes(h[0], SortByTime(h[1..]));
      assert h == [h[0]] + h[1..];
    }
  }

  datatype DateRange = NoRange | Range(start: int, end: int)

  /** The result of `getHistoryStats`; the `{start: "", end: ""}` of an empty history is `NoRange`. */
  datatype Stats = Stats(totalEntries: nat, dateRange: DateRange, averages: map<Field, real>)

  const AllFields: set<Field> := {
    Temperature, Turbidity, DissolvedOxygen, Bod, Co2, Ph, Alkalinity,
    Hardness, Calcium, Ammonia, Nitrite, Phosphorus, H2s, Plankton
  }

  function Timestamps(h: seq<Entry>): set<int> {
    set e | e in h :: e.timestamp
  }

  /** The first and the last entry of the sorted history carry its earliest and its latest timestamp. */
  lemma SortedEnds(h: seq<Entry>)
    requires |h| > 0
    ensures var s := SortByTime(h);
            |s| == |h|
            && s[0].timestamp in Timestamps(h) && s[|s| - 1].timestamp in Timestamps(h)
            && forall e :: e in h ==> s[0].timestamp <= e.timestamp <= s[|s| - 1].timestamp
  {
    var s := SortByTime(h);
    SortByTimeSorted(h);
    assert |s| == |multiset(s)| == |multiset(h)| == |h|;
    assert s[0] in multiset(h) && s[|s| - 1] in multiset(h);
    assert s[0] in h && s[|s| - 1] in h;
    forall e | e in h ensures s[0].timestamp <= e.timestamp <= s[|s| - 1].timestamp {
      assert e in multiset(s);
      var k :| 0 <= k < |s| && s[k] == e;
    }
  }

  /**
   * `getHistoryStats` of a history: its size, the earliest and the latest
   * timestamp whatever order it is stored in, and the mean of every field
   * over all of it; zero, `NoRange` and no averages for an empty history.
   */
  function HistoryStats(h: seq<Entry>): (s: Stats)
    ensures s.totalEntries == |h|
    ensures |h| == 0 <==> s == Stats(0, NoRange, map[])
    ensures |h| > 0 ==> s.dateRange.Range?
                        && s.dateRange.start in Timestamps(h) && s.dateRange.end in Timestamps(h)
                        && forall e :: e in h ==> s.dateRange.start <= e.timestamp <= s.dateRange.end
    ensures |h| > 0 ==> s.averages.Keys == AllFields
                        && forall f :: f in AllFields ==> s.averages[f] == Sum(h, f) / (|h| as real)
  {
    if |h| == 0 then Stats(0, NoRange, map[])
    else
      var sorted := SortByTime(h);
      SortedEnds(h);
      Stats(|h|, Range(sorted[0].timestamp, sorted[|sorted| - 1].timestamp),
        map f | f in AllFields :: Mean(h, f))
  }

  /** Storing the same entries in another order gives the same statistics. */
  lemma StatsOrderIndependent(h1: seq<Entry>, h2: seq<Entry>)
    requires multiset(h1) == multiset(h2)
    ensures HistoryStats(h1) == HistoryStats(h2)
  {
    assert |h1| == |multiset(h1)| == |h2|;
    assert forall e :: e in h1 <==> e in h2 by {
      forall e ensures e in h1 <==> e in h2 {
        assert e in h1 <==> e in multiset(h1);
        assert e in h2 <==> e in multiset(h2);
      }
    }
    if |h1| > 0 {
      var s1, s2 := HistoryStats(h1), HistoryStats(h2);
      assert s1.dateRange.start in Timestamps(h2) && s2.dateRange.start in Timestamps(h1);
      assert s1.dateRange.end in Timestamps(h2) && s2.dateRange.end in Timestamps(h1);
      forall f | f in AllFields ensures s1.averages[f] == s2.averages[f] {
        SumPermutation(h1, h2, f);
      }
    }
  }

  // ------------------------------------------------------------ the service

  /**
   * The entry `addEntry` builds. The clock is read twice: `idMs` is the
   * `Date.now()` of the id and `nowMs` the `new Date()` of the timestamp.
   */
  function NewEntry(bassinId: string, data: EntryData, idMs: int, nowMs: int): (e: Entry)
    ensures e.bassinId == bassinId && e.timestamp == nowMs && e.data == data
    ensures e.id == bassinId + "-" + IntToString(idMs)
  {
    Entry(bassinId + "-" + IntToString(idMs), bassinId, nowMs, data)
  }

  /** The loop of `generateDummyData` that pushes the generated entries one by one. */
  method BuildDummyEntries(bassinId: string, count: int, now: int, draws: seq<Draw>) returns (dummyEntries: seq<Entry>)
    requires count <= |draws| && forall i :: 0 <= i < |draws| ==> ValidDraw(draws[i])
    ensures dummyEntries == DummyHistory(bassinId, count, now, draws)
  {
    dummyEntries := [];
    var i := 0;
    while i < count
      invariant 0 <= i <= Max(count, 0)
      invariant |dummyEntries| == i
      invariant forall j :: 0 <= j < i ==> dummyEntries[j] == DummyEntry(bassinId, j, now, draws[j])
    {
      dummyEntries := dummyEntries + [DummyEntry(bassinId, i, now, draws[i])];
      i := i + 1;
    }
  }

  /** `BassinHistoryService` over the browser's key-value storage (`localStorage`). */
  class HistoryStore {
    var slots: map<string, Slot>

    /** The service over the storage as it stands: it keeps whatever earlier sessions stored. */
    constructor (initial: map<string, Slot>)
      ensures slots == initial
      ensures forall bassinId :: History(bassinId) == Load(initial, StorageKey(bassinId))
    {
      slots := initial;
    }

    /** The pool's whole history as `getHistory(bassinId)` reads it. */
    function History(bassinId: string): seq<Entry>
      reads this
    {
      Load(slots, StorageKey(bassinId))
    }

    /** `getHistory(bassinId, limit)`: a prefix of the stored history, `[]` when nothing readable is stored. */
    function GetHistory(bassinId: string, limit: Option<int>): (r: seq<Entry>)
      reads this
      ensures r <= History(bassinId)
      ensures StorageKey(bassinId) !in slots ==> r == []
      ensures limit == None || limit == Some(0) ==> r == History(bassinId)
      ensures limit.Some? && limit.value > 0 ==> |r| == Min(limit.value, |History(bassinId)|)
    {
      Take(History(bassinId), limit)
    }

    /** `getHistoryStats(bassinId)`: the statistics of the whole stored history. */
    function GetHistoryStats(bassinId: string): (s: Stats)
      reads this
      ensures s.totalEntries == |History(bassinId)|
      ensures History(bassinId) == [] ==> s == Stats(0, NoRange, map[])
    {
      HistoryStats(History(bassinId))
    }

    /** `addEntry(bassinId, data)`, with the clock reading `idMs` for the id and `nowMs` for the timestamp. */
    method AddEntry(bassinId: string, data: EntryData, idMs: int, nowMs: int)
      modifies this
      ensures slots == old(slots)[StorageKey(bassinId) := Stored(Prepend(NewEntry(bassinId, data, idMs, nowMs), old(History(bassinId))))]
      ensures History(bassinId) == Prepend(NewEntry(bassinId, data, idMs, nowMs), old(History(bassinId)))
      ensures |History(bassinId)| <= Cap
      ensures forall other :: other != bassinId ==> History(other) == old(History(other))
    {
      var existing := GetHistory(bassinId, None);
      var updated := Prepend(NewEntry(bassinId, data, idMs, nowMs), existing);
      slots := slots[StorageKey(bassinId) := Stored(updated)];
      forall other | other != bassinId ensures History(other) == old(History(other)) {
        StorageKeyInjective(bassinId, other);
      }
    }

    /** `clearHistory(bassinId)`: the pool's slot is removed and nothing else. */
    method ClearHistory(bassinId: string)
      modifies this
      ensures slots == old(slots) - {StorageKey(bassinId)}
      ensures History(bassinId) == [] && GetHistoryStats(bassinId) == Stats(0, NoRange, map[])
      ensures forall other :: other != bassinId ==> History(other) == old(History(other))
    {
      slots := slots - {StorageKey(bassinId)};
      forall other | other != bassinId ensures History(other) == old(History(other)) {
        StorageKeyInjective(bassinId, other);
      }
    }

    /**
     * `generateDummyData(bassinId, count)`: the pool's slot is overwritten by
     * `count` generated entries, newest first, one hour apart. `draws` stands
     * for the `Math.random()` values and `now` for the clock.
     */
    method GenerateDummyData(bassinId: string, count: int, now: int, draws: seq<Draw>)
      requires count <= |draws| && forall i :: 0 <= i < |draws| ==> ValidDraw(draws[i])
      modifies this
      ensures slots == old(slots)[StorageKey(bassinId) := Stored(DummyHistory(bassinId, count, now, draws))]
      ensures History(bassinId) == DummyHistory(bassinId, count, now, draws)
      ensures forall other :: other != bassinId ==> History(other) == old(History(other))
    {
      var dummyEntries := BuildDummyEntries(bassinId, count, now, draws);
      slots := slots[StorageKey(bassinId) := Stored(dummyEntries)];
      forall other | other != bassinId ensures History(other) == old(History(other)) {
        StorageKeyInjective(bassinId, other);
      }
    }
  }
}
