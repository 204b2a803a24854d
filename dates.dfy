/** The calendar-day test both log pages use on an entry's `createdAt`. */
module Dates {
  import opened Wrappers

  /** `s.split('T')[0]`: the text before the first 'T' of `s`, or all of `s` when it has none. */
  function DatePart(s: string): (d: string)
    ensures |d| <= |s| && d == s[..|d|]
    ensures 'T' !in d
    ensures |d| == |s| || s[|d|] == 'T'
  {
    if s == [] then []
    else if s[0] == 'T' then []
    else [s[0]] + DatePart(s[1..])
  }

  /** The three properties in DatePart's contract single out its result: any
      'T'-free prefix of `s` that ends at the end of `s` or at a 'T' is DatePart(s). */
  lemma DatePartUnique(s: string, p: string)
    requires |p| <= |s| && p == s[..|p|]
    requires 'T' !in p
    requires |p| == |s| || s[|p|] == 'T'
    ensures DatePart(s) == p
  {
  }

  /** An RFC 3339 (section 5.6) `date-time` is a `full-date`, the letter 'T' and
      a `full-time`. */
  function DateTime(date: string, time: string): string {
    date + "T" + time
  }

  /** Taking the date part of a formatted date-time gives back its date, as
      long as the date itself holds no 'T' (an RFC 3339 `full-date` never does). */
  lemma DatePartOfDateTime(date: string, time: string)
    requires 'T' !in date
    ensures DatePart(DateTime(date, time)) == date
  {
    var s := DateTime(date, time);
    assert s[..|date|] == date;
    assert s[|date|] == 'T';
    DatePartUnique(s, date);
  }

  /** `createdAt?.split('T')[0] === today`: a missing timestamp is never today. */
  predicate CreatedOn(createdAt: Option<string>, today: string) {
    createdAt.Some? && DatePart(createdAt.value) == today
  }
}
