/**
 * Calendar dates as the expense tracker stores them (the `YYYY-MM-DD` text
 * written by `strftime("%Y-%m-%d")`), their order, and the date parser's
 * ordered trial of formats.
 */
module Dates {
  import opened Wrappers
  import opened Text

  /** A date with its three `YYYY-MM-DD` components. */
  datatype Date = Date(year: int, month: int, day: int)

  /**
   * `a` is strictly earlier than `b`: the order of the components year,
   * month, day, which is also the order of their `YYYY-MM-DD` texts.
   */
  predicate Less(a: Date, b: Date)
    ensures Less(a, b) ==> a != b && a.year <= b.year
  {
    || a.year < b.year
    || (a.year == b.year && a.month < b.month)
    || (a.year == b.year && a.month == b.month && a.day < b.day)
  }

  /**
   * `Less` is a strict total order: never both ways, transitive, and any
   * two different dates are ordered one way or the other.
   */
  lemma LessIsStrictTotalOrder(a: Date, b: Date, c: Date)
    ensures !(Less(a, b) && Less(b, a))
    ensures Less(a, b) && Less(b, c) ==> Less(a, c)
    ensures a != b ==> Less(a, b) || Less(b, a)
  {
  }

  /** The layouts `parse_date` tries, in its order of trial. */
  datatype Format = YearMonthDay | DayMonthYearDash | DayMonthYearSlash | IsoFallback

  /** `%Y-%m-%d`, `%d-%m-%Y`, `%d/%m/%Y`, then `datetime.fromisoformat`. */
  const FORMATS: seq<Format> := [YearMonthDay, DayMonthYearDash, DayMonthYearSlash, IsoFallback]

  /**
   * The first format in `formats` under which `parse` accepts `text`, in
   * order of trial; `None` exactly when every format rejects it.
   */
  function FirstParse(formats: seq<Format>, parse: (Format, string) -> Option<Date>, text: string): (r: Option<Date>)
    ensures r.None? <==> forall i :: 0 <= i < |formats| ==> parse(formats[i], text).None?
    ensures r.Some? ==> exists i :: 0 <= i < |formats| && parse(formats[i], text) == r
                                 && forall j :: 0 <= j < i ==> parse(formats[j], text).None?
  {
    if formats == [] then None
    else if parse(formats[0], text).Some? then parse(formats[0], text)
    else
      var r := FirstParse(formats[1..], parse, text);
      assert forall i :: 1 <= i < |formats| ==> formats[i] == formats[1..][i - 1];
      r
  }

  /**
   * `parse_date`: surrounding white space is ignored; an empty text, `today`
   * or `t` (in any ASCII case) is `today`; anything else is the first format
   * of FORMATS that accepts it, or `None` (the `ValueError`) when none does.
   */
  function ParseDate(text: string, today: Date, parse: (Format, string) -> Option<Date>): (r: Option<Date>)
    ensures Lower(Strip(text)) in {"", "today", "t"} ==> r == Some(today)
    ensures Lower(Strip(text)) !in {"", "today", "t"} ==>
              (r.None? <==> forall i :: 0 <= i < |FORMATS| ==> parse(FORMATS[i], Strip(text)).None?)
    ensures Lower(Strip(text)) !in {"", "today", "t"} && r.Some? ==>
              exists i :: 0 <= i < |FORMATS| && parse(FORMATS[i], Strip(text)) == r
                        && forall j :: 0 <= j < i ==> parse(FORMATS[j], Strip(text)).None?
  {
    var t := Strip(text);
    if t == [] || Lower(t) in {"today", "t"} then Some(today)
    else FirstParse(FORMATS, parse, t)
  }

  /**
   * The menu strips the date it reads before calling `parse_date`, which
   * strips it again; the second strip changes nothing.
   */
  lemma ParseDateOfStripped(text: string, today: Date, parse: (Format, string) -> Option<Date>)
    ensures ParseDate(Strip(text), today, parse) == ParseDate(text, today, parse)
  {
    StripIdempotent(text);
  }
}
