/**
 * lib/i18n.ts: the translation lookup with its fallback chain and the
 * "time ago" text of a minute difference.
 */
module I18n {
  import opened Text

  datatype Language = En | Fr | Ar

  /** One language's strings by key; a key it lacks reads as `undefined`. */
  type Table = map<string, string>

  datatype Translations = Translations(en: Table, fr: Table, ar: Table) {
    function For(lang: Language): Table {
      match lang
      case En => en
      case Fr => fr
      case Ar => ar
    }
  }

  /** `table[key]`, with the empty string standing for both `""` and `undefined` (falsy either way). */
  function Lookup(table: Table, key: string): string {
    if key in table then table[key] else ""
  }

  /**
   * `translations[language][key] || translations.en[key] || key`.
   */
  function GetTranslation(tr: Translations, lang: Language, key: string): (r: string)
    ensures Lookup(tr.For(lang), key) != "" ==> r == Lookup(tr.For(lang), key)
    ensures Lookup(tr.For(lang), key) == "" && Lookup(tr.en, key) != "" ==> r == Lookup(tr.en, key)
    ensures Lookup(tr.For(lang), key) == "" && Lookup(tr.en, key) == "" ==> r == key
  {
    var own := Lookup(tr.For(lang), key);
    if own != "" then own
    else
      var english := Lookup(tr.en, key);
      if english != "" then english else key
  }

  /** The only empty answer is an empty key: the fallback chain always ends in something to show. */
  lemma TranslationNeverBlank(tr: Translations, lang: Language, key: string)
    ensures GetTranslation(tr, lang, key) == "" ==> key == ""
    ensures GetTranslation(tr, lang, key) in {Lookup(tr.For(lang), key), Lookup(tr.en, key), key}
  {
  }

  /** A language that lacks a key shows what English shows for it. */
  lemma MissingFallsBackToEnglish(tr: Translations, lang: Language, key: string)
    requires Lookup(tr.For(lang), key) == ""
    ensures GetTranslation(tr, lang, key) == GetTranslation(tr, En, key)
  {
  }

  /** The entries of the shipped tables that the relative-time text reads. */
  const Shipped: Translations := Translations(
    map["justNow" := "Just now", "minutesAgo" := "m ago", "hoursAgo" := "h ago", "daysAgo" := "d ago"],
    map["justNow" := "À l'instant", "minutesAgo" := "min", "hoursAgo" := "h", "daysAgo" := "j"],
    map["justNow" := "الآن", "minutesAgo" := "د", "hoursAgo" := "س", "daysAgo" := "ي"])

  const MinuteMs := 60000

  /**
   * `Math.floor((now - time) / (1000 * 60))` on millisecond instants: the
   * whole minutes elapsed, rounded down, so negative for a future instant.
   */
  function DiffInMinutes(nowMs: int, timeMs: int): (d: int)
    ensures d * MinuteMs <= nowMs - timeMs < d * MinuteMs + MinuteMs
  {
    (nowMs - timeMs) / MinuteMs
  }

  /** The four answers of `formatTimeAgo`, with the count each one prints. */
  datatype Ago = JustNow | MinutesAgo(n: nat) | HoursAgo(n: nat) | DaysAgo(n: nat)

  /**
   * The case split of `formatTimeAgo` on a minute difference `d`: exactly one
   * case holds for every integer, and the printed count is the floor of `d`
   * in the unit of the case.
   */
  function Bucket(d: int): (b: Ago)
    ensures b.JustNow? <==> d < 1
    ensures b.MinutesAgo? <==> 1 <= d < 60
    ensures b.HoursAgo? <==> 60 <= d < 1440
    ensures b.DaysAgo? <==> 1440 <= d
    ensures b.MinutesAgo? ==> b.n == d
    ensures b.HoursAgo? ==> 1 <= b.n <= 23 && b.n * 60 <= d < b.n * 60 + 60
    ensures b.DaysAgo? ==> 1 <= b.n && b.n * 1440 <= d < b.n * 1440 + 1440
  {
    if d < 1 then JustNow
    else if d < 60 then MinutesAgo(d)
    else if d < 1440 then HoursAgo(d / 60)
    else DaysAgo(d / 1440)
  }

  /** The translation key each case appends after its count. */
  function SuffixKey(b: Ago): string {
    match b
    case JustNow => "justNow"
    case MinutesAgo(_) => "minutesAgo"
    case HoursAgo(_) => "hoursAgo"
    case DaysAgo(_) => "daysAgo"
  }

  /** `formatTimeAgo` given the minute difference. */
  function FormatTimeAgo(tr: Translations, lang: Language, d: int): string {
    var b := Bucket(d);
    if b.JustNow? then GetTranslation(tr, lang, "justNow")
    else NatToString(b.n) + GetTranslation(tr, lang, SuffixKey(b))
  }

  /** `formatTimeAgo(timestamp, language)` with the clock's instant and the timestamp's instant in milliseconds. */
  function FormatTimeAgoAt(tr: Translations, lang: Language, nowMs: int, timeMs: int): string {
    FormatTimeAgo(tr, lang, DiffInMinutes(nowMs, timeMs))
  }

  /** Less than a minute ago, or any instant in the future, reads as "just now". */
  lemma FutureIsJustNow(tr: Translations, lang: Language, nowMs: int, timeMs: int)
    requires timeMs > nowMs - MinuteMs
    ensures FormatTimeAgoAt(tr, lang, nowMs, timeMs) == GetTranslation(tr, lang, "justNow")
  {
  }

  /**
   * With the shipped tables, every answer other than "just now" is the decimal
   * count of its case followed by that case's suffix, and the count can be
   * read back from the front of the text: no suffix starts with a digit.
   */
  lemma {:induction false} FormatTimeAgoReadsBack(lang: Language, d: int)
    requires d >= 1
    ensures var r := FormatTimeAgo(Shipped, lang, d);
            var digits := LeadingDigits(r);
            AllDigits(digits) && digits != "" && DigitsValue(digits) == Bucket(d).n
            && r[|digits|..] == Lookup(Shipped.For(lang), SuffixKey(Bucket(d)))
  {
    var b := Bucket(d);
    var suffix := GetTranslation(Shipped, lang, SuffixKey(b));
    assert suffix == Lookup(Shipped.For(lang), SuffixKey(b));
    assert suffix != [] && !IsDigit(suffix[0]);
    var r := FormatTimeAgo(Shipped, lang, d);
    assert r == NatToString(b.n) + suffix;
    LeadingDigitsOfConcat(NatToString(b.n), suffix);
    NatToStringRoundTrip(b.n);
    assert r[|NatToString(b.n)|..] == suffix;
  }

  lemma Examples()
    ensures FormatTimeAgo(Shipped, En, 0) == "Just now"
    ensures FormatTimeAgo(Shipped, En, -5) == "Just now"
    ensures FormatTimeAgo(Shipped, En, 59) == "59m ago"
    ensures FormatTimeAgo(Shipped, Fr, 125) == "2h"
    ensures FormatTimeAgo(Shipped, En, 2880) == "2d ago"
  {
    assert NatToString(59) == "59";
    assert NatToString(2) == "2";
  }
}
