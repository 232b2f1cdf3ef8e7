/**
  Calendar dates as the application derives them: an ISO 8601 timestamp in
  extended format (`YYYY-MM-DDTHH:MM:SS.sssZ`) is cut at its first 'T', which
  is what `toISOString().split('T')[0]` does. The clock itself is not modelled:
  the current instant is passed in as such a string.
*/
module CalendarDate {

  /** The part of `t` before its first 'T' (all of `t` when it has none). */
  function DatePart(t: string): (r: string)
    ensures r <= t
    ensures 'T' !in r
    ensures |r| < |t| ==> t[|r|] == 'T'
  {
    if t == [] || t[0] == 'T' then [] else [t[0]] + DatePart(t[1..])
  }

  /** The calendar day of "now", as every page and the server compute it:
      a 'T'-free prefix of the timestamp, on whose day "now" falls. */
  function Today(now: string): (r: string)
    ensures r <= now && 'T' !in r
    ensures IsSameDay(now, r)
  {
    DatePart(now)
  }

  /** `isSameDay(timestamp, dayStr)`: the date part of the timestamp is the day. */
  predicate IsSameDay(timestamp: string, day: string) {
    DatePart(timestamp) == day
  }

  /** An independent description of the date part: the one prefix without 'T'
      that is followed by a 'T' or by the end of the string. */
  lemma {:induction false} IsSameDayIff(timestamp: string, day: string)
    ensures IsSameDay(timestamp, day) <==>
      (day <= timestamp && 'T' !in day && (|day| < |timestamp| ==> timestamp[|day|] == 'T'))
  {
    if day <= timestamp && 'T' !in day && (|day| < |timestamp| ==> timestamp[|day|] == 'T') {
      PrefixWithoutT(timestamp, day);
    }
  }

  lemma {:induction false} PrefixWithoutT(t: string, d: string)
    requires d <= t && 'T' !in d && (|d| < |t| ==> t[|d|] == 'T')
    ensures DatePart(t) == d
  {
    if d != [] {
      assert t[0] == d[0];
      assert d[1..] <= t[1..];
      assert 'T' !in d[1..] by {
        forall i | 0 <= i < |d| - 1 ensures d[1..][i] != 'T' {
          assert d[1..][i] == d[i + 1];
        }
      }
      PrefixWithoutT(t[1..], d[1..]);
      assert d == [d[0]] + d[1..];
    }
  }

  /** A date without a time part (`YYYY-MM-DD` from a date input) is its own day. */
  lemma DateOnlyIsItsOwnDay(d: string)
    requires 'T' !in d
    ensures IsSameDay(d, d)
    ensures forall e :: IsSameDay(d, e) <==> e == d
  {
    IsSameDayIff(d, d);
  }
}
