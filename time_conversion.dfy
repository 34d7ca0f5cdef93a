/** Conversion of "HH:MM" wall-clock labels into seconds (covid_data_handler.py). */
module TimeConversion {
  import opened Outcomes

  /** Number of occurrences of `c` in `s`. */
  function Count(s: string, c: char): nat
  {
    if s == [] then 0 else (if s[0] == c then 1 else 0) + Count(s[1..], c)
  }

  /** Python's `s.split(sep)` with an explicit one-character separator:
      the pieces between separators, empty pieces kept. */
  function Split(s: string, sep: char): (parts: seq<string>)
    ensures |parts| == Count(s, sep) + 1
    ensures forall i :: 0 <= i < |parts| ==> sep !in parts[i]
  {
    if s == [] then [""]
    else
      var rest := Split(s[1..], sep);
      if s[0] == sep then [""] + rest
      else [[s[0]] + rest[0]] + rest[1..]
  }

  /** Python's `sep.join(parts)`. */
  function Join(parts: seq<string>, sep: char): string
    requires |parts| > 0
  {
    if |parts| == 1 then parts[0] else parts[0] + [sep] + Join(parts[1..], sep)
  }

  /** Splitting loses nothing: joining the pieces gives the string back. */
  lemma {:induction false} JoinSplit(s: string, sep: char)
    ensures Join(Split(s, sep), sep) == s
  {
    if s != [] {
      var rest := Split(s[1..], sep);
      JoinSplit(s[1..], sep);
      if s[0] != sep {
        if |rest| == 1 {
        } else {
          calc {
            Join([[s[0]] + rest[0]] + rest[1..], sep);
            ([s[0]] + rest[0]) + [sep] + Join(rest[1..], sep);
            [s[0]] + (rest[0] + [sep] + Join(rest[1..], sep));
            [s[0]] + Join(rest, sep);
          }
        }
        assert [s[0]] + s[1..] == s;
      } else {
        assert ([""] + rest)[1..] == rest;
        assert [s[0]] + s[1..] == s;
      }
    }
  }

  /** Pieces free of the separator are recovered by splitting their join. */
  lemma {:induction false} SplitJoin(parts: seq<string>, sep: char)
    requires |parts| > 0
    requires forall i :: 0 <= i < |parts| ==> sep !in parts[i]
    ensures Split(Join(parts, sep), sep) == parts
  {
    if |parts| == 1 {
      SplitNoSeparator(parts[0], sep);
    } else {
      SplitJoin(parts[1..], sep);
      SplitPrefix(parts[0], Join(parts[1..], sep), sep);
      assert [parts[0]] + parts[1..] == parts;
    }
  }

  /** A string without the separator splits into itself. */
  lemma {:induction false} SplitNoSeparator(s: string, sep: char)
    requires sep !in s
    ensures Split(s, sep) == [s]
  {
    if s != [] {
      assert forall c :: c in s[1..] ==> c in s;
      SplitNoSeparator(s[1..], sep);
      assert [s[0]] + s[1..] == s;
    }
  }

  /** A separator-free head followed by the separator becomes the first piece. */
  lemma {:induction false} SplitPrefix(head: string, tail: string, sep: char)
    requires sep !in head
    ensures Split(head + [sep] + tail, sep) == [head] + Split(tail, sep)
  {
    if head == [] {
      assert head + [sep] + tail == [sep] + tail;
      assert ([sep] + tail)[1..] == tail;
    } else {
      var s := head + [sep] + tail;
      assert s[0] == head[0];
      assert s[1..] == head[1..] + [sep] + tail;
      assert forall c :: c in head[1..] ==> c in head;
      SplitPrefix(head[1..], tail, sep);
      assert [head[0]] + head[1..] == head;
    }
  }

  predicate IsDigit(c: char) { '0' <= c <= '9' }

  predicate AllDigits(d: string) { forall i :: 0 <= i < |d| ==> IsDigit(d[i]) }

  /** Value of a string of decimal digits, leading zeros allowed. */
  function DigitsValue(d: string): nat
    requires AllDigits(d)
  {
    if d == [] then 0 else DigitsValue(d[..|d| - 1]) * 10 + (d[|d| - 1] as int - '0' as int)
  }

  /** Python's `int(text)` on a field: an optional sign followed by at least one decimal digit;
      anything else raises ValueError, modelled as None. */
  function ParseInt(text: string): Option<int>
  {
    if |text| > 1 && (text[0] == '-' || text[0] == '+') && AllDigits(text[1..]) then
      Some(if text[0] == '-' then -(DigitsValue(text[1..]) as int) else DigitsValue(text[1..]))
    else if |text| > 0 && AllDigits(text) then Some(DigitsValue(text))
    else None
  }

  /** `minutes_to_seconds`: the result is a whole number of minutes, and dividing by 60 gives them back. */
  function MinutesToSeconds(minutes: int): (seconds: int)
    ensures seconds % 60 == 0 && seconds / 60 == minutes
  {
    minutes * 60
  }

  /** `hours_to_minutes`: the result is a whole number of hours, and dividing by 60 gives them back. */
  function HoursToMinutes(hours: int): (minutes: int)
    ensures minutes % 60 == 0 && minutes / 60 == hours
  {
    hours * 60
  }

  /** What `hhmm_to_seconds` gives back: a number of seconds, `None` for a label that does not
      split into two fields, or the ValueError that `int()` raises on a non-numeric field. */
  datatype Conversion = Seconds(value: int) | NoneReturned | NotNumeric

  /** `hhmm_to_seconds`: no range check on either field, so "99:99" is converted arithmetically. */
  function HhmmToSeconds(hhmm: string): (r: Conversion)
    ensures r.NoneReturned? <==> Count(hhmm, ':') != 1
  {
    var parts := Split(hhmm, ':');
    if |parts| != 2 then NoneReturned
    else
      match ParseInt(parts[0])
      case None => NotNumeric
      case Some(h) =>
        match ParseInt(parts[1])
        case None => NotNumeric
        case Some(m) => Seconds(MinutesToSeconds(HoursToMinutes(h)) + MinutesToSeconds(m))
  }

  /** Two numeric fields around one colon give (H*60)*60 + M*60 seconds, whatever their range. */
  lemma HhmmFields(hh: string, mm: string, h: int, m: int)
    requires ':' !in hh && ':' !in mm
    requires ParseInt(hh) == Some(h) && ParseInt(mm) == Some(m)
    ensures HhmmToSeconds(hh + ":" + mm) == Seconds((h * 60) * 60 + m * 60)
  {
    SplitJoin([hh, mm], ':');
    assert Join([hh, mm], ':') == hh + ":" + mm;
  }

  /** A well-formed label carries exactly the two fields it was built from. */
  lemma HhmmSecondsHasTwoFields(hhmm: string)
    requires HhmmToSeconds(hhmm).Seconds?
    ensures exists hh, mm, h, m :: hhmm == hh + ":" + mm && ParseInt(hh) == Some(h) && ParseInt(mm) == Some(m)
              && HhmmToSeconds(hhmm) == Seconds((h * 60) * 60 + m * 60)
  {
    var parts := Split(hhmm, ':');
    JoinSplit(hhmm, ':');
    assert Join(parts, ':') == parts[0] + ":" + parts[1];
    var h := ParseInt(parts[0]).value;
    var m := ParseInt(parts[1]).value;
    assert hhmm == parts[0] + ":" + parts[1];
  }

  /** A two-digit field, as written in "HH:MM" labels. */
  lemma TwoDigits(a: char, b: char)
    requires IsDigit(a) && IsDigit(b)
    ensures ParseInt([a, b]) == Some((a as int - '0' as int) * 10 + (b as int - '0' as int))
  {
    var d := [a, b];
    assert AllDigits(d);
    assert d[..1] == [a] && [a][..0] == [];
    assert DigitsValue([a]) == a as int - '0' as int;
    assert DigitsValue(d) == (a as int - '0' as int) * 10 + (b as int - '0' as int);
  }

  lemma OneThirtyIs5400()
    ensures HhmmToSeconds("01:30") == Seconds(5400)
  {
    TwoDigits('0', '1');
    TwoDigits('3', '0');
    assert "01" + ":" + "30" == "01:30";
    HhmmFields("01", "30", 1, 30);
  }

  lemma MidnightIsZero()
    ensures HhmmToSeconds("00:00") == Seconds(0)
  {
    TwoDigits('0', '0');
    HhmmFields("00", "00", 0, 0);
  }

  /** No range check: "99:99" is 99 hours and 99 minutes. */
  lemma OutOfRangeAccepted()
    ensures HhmmToSeconds("99:99") == Seconds(99 * 3600 + 99 * 60)
  {
    TwoDigits('9', '9');
    HhmmFields("99", "99", 99, 99);
  }

  lemma NoColonIsNone()
    ensures HhmmToSeconds("1230") == NoneReturned
  {
  }
}
