/** The covid figures of covid_data_handler.py: 7-day case totals over a lagged window and the
    last reported hospital and death figures, computed from date-stamped records. */
module CovidFigures {
  import opened Outcomes

  /** One element of a "data" list. The date is a day number (days since 1970-01-01), standing for
      the "YYYY-MM-DD" string the source compares. Local records carry only a date and a case
      count; their other two fields are never read. */
  datatype DayRecord = DayRecord(date: int, newCases: int, hospitalCases: int, cumDeaths: int)

  /** What `process_covid_data` returns. */
  datatype Snapshot = Snapshot(localCases: int, nationalCases: int, hospitalCases: int, totalDeaths: int)

  /** What `process_covid_csv_data` returns. */
  datatype CsvSnapshot = CsvSnapshot(cases: int, hospitalCases: int, totalDeaths: int)

  /** The fixed date `process_covid_csv_data` works from: 2021-10-28, as a day number. */
  const CsvDate := 18928

  /** Sum of the case counts of every record dated `day`, duplicates included. */
  function CasesOn(recs: seq<DayRecord>, day: int): int
  {
    if recs == [] then 0
    else CasesOn(recs[..|recs| - 1], day) + (if recs[|recs| - 1].date == day then recs[|recs| - 1].newCases else 0)
  }

  /** The source's loop order: day by day, `n` days starting `firstLag` days before `today`. */
  function Lagged(recs: seq<DayRecord>, today: int, firstLag: int, n: nat): int
  {
    if n == 0 then 0 else Lagged(recs, today, firstLag, n - 1) + CasesOn(recs, today - (n - 1 + firstLag))
  }

  /** Reference definition: each record counted once when its date lies in `lo .. hi`. */
  function InRange(recs: seq<DayRecord>, lo: int, hi: int): int
  {
    if recs == [] then 0
    else InRange(recs[..|recs| - 1], lo, hi)
         + (if lo <= recs[|recs| - 1].date <= hi then recs[|recs| - 1].newCases else 0)
  }

  /** The last record dated `day`, the one whose figure survives the overwriting scan. */
  function LastOn(recs: seq<DayRecord>, day: int): Option<DayRecord>
  {
    if recs == [] then None
    else if recs[|recs| - 1].date == day then Some(recs[|recs| - 1])
    else LastOn(recs[..|recs| - 1], day)
  }

  /** There is no record for a day exactly when none is dated that day; otherwise it is the
      record at the highest index dated that day. */
  lemma {:induction false} LastOnSpec(recs: seq<DayRecord>, day: int)
    ensures LastOn(recs, day).None? <==> forall k :: 0 <= k < |recs| ==> recs[k].date != day
    ensures LastOn(recs, day).Some? ==>
              exists k :: 0 <= k < |recs| && recs[k] == LastOn(recs, day).value && recs[k].date == day
                          && forall j :: k < j < |recs| ==> recs[j].date != day
  {
    if recs != [] && recs[|recs| - 1].date != day {
      var init := recs[..|recs| - 1];
      LastOnSpec(init, day);
      if LastOn(init, day).Some? {
        var k :| 0 <= k < |init| && init[k] == LastOn(init, day).value && init[k].date == day
                 && forall j :: k < j < |init| ==> init[j].date != day;
        assert recs[k] == init[k];
      } else {
        assert forall k :: 0 <= k < |init| ==> recs[k] == init[k];
      }
    }
  }

  lemma {:induction false} InRangeEmpty(recs: seq<DayRecord>, lo: int, hi: int)
    requires hi < lo
    ensures InRange(recs, lo, hi) == 0
  {
    if recs != [] {
      InRangeEmpty(recs[..|recs| - 1], lo, hi);
    }
  }

  /** Widening the window by one day adds exactly that day's cases. */
  lemma {:induction false} InRangeExtend(recs: seq<DayRecord>, lo: int, hi: int)
    requires lo <= hi + 1
    ensures InRange(recs, lo - 1, hi) == InRange(recs, lo, hi) + CasesOn(recs, lo - 1)
  {
    if recs != [] {
      InRangeExtend(recs[..|recs| - 1], lo, hi);
    }
  }

  /** Summing day by day over `n` lagged days is the same as counting each record dated in
      the window once. */
  lemma {:induction false} LaggedIsRange(recs: seq<DayRecord>, today: int, firstLag: int, n: nat)
    ensures Lagged(recs, today, firstLag, n) == InRange(recs, today - firstLag - n + 1, today - firstLag)
  {
    if n == 0 {
      InRangeEmpty(recs, today - firstLag + 1, today - firstLag);
    } else {
      LaggedIsRange(recs, today, firstLag, n - 1);
      InRangeExtend(recs, today - firstLag - n + 2, today - firstLag);
    }
  }

  /** The windowed sum splits over concatenation, so the order of the records does not matter. */
  lemma {:induction false} InRangeAppend(a: seq<DayRecord>, b: seq<DayRecord>, lo: int, hi: int)
    ensures InRange(a + b, lo, hi) == InRange(a, lo, hi) + InRange(b, lo, hi)
  {
    if b == [] {
      assert a + b == a;
    } else {
      InRangeAppend(a, b[..|b| - 1], lo, hi);
      assert (a + b)[..|a + b| - 1] == a + b[..|b| - 1];
    }
  }

  lemma InRangeOrderFree(a: seq<DayRecord>, b: seq<DayRecord>, lo: int, hi: int)
    ensures InRange(a + b, lo, hi) == InRange(b + a, lo, hi)
  {
    InRangeAppend(a, b, lo, hi);
    InRangeAppend(b, a, lo, hi);
  }

  /** Specification of `process_covid_data` with "today" as a day number. Hospital cases come
      from the last record dated today-2 and deaths from the last dated today-14; a missing one
      is the UnboundLocalError raised when the result tuple is built, hospital cases first. */
  function CovidSnapshot(local: seq<DayRecord>, national: seq<DayRecord>, today: int): Result<Snapshot>
  {
    var hospital := LastOn(national, today - 2);
    var deaths := LastOn(national, today - 14);
    if hospital.None? then Raised(UnboundLocalError("current_hospital_cases"))
    else if deaths.None? then Raised(UnboundLocalError("total_deaths"))
    else Ok(Snapshot(InRange(local, today - 10, today - 4), InRange(national, today - 10, today - 4),
                     hospital.value.hospitalCases, deaths.value.cumDeaths))
  }

  /** Specification of `process_covid_csv_data`: the same shape over one list, from the fixed
      date, with the window two to eight days back, hospital cases on the date itself and deaths
      thirteen days back. */
  function CsvFigures(rows: seq<DayRecord>): Result<CsvSnapshot>
  {
    var hospital := LastOn(rows, CsvDate);
    var deaths := LastOn(rows, CsvDate - 13);
    if hospital.None? then Raised(UnboundLocalError("current_hospital_cases"))
    else if deaths.None? then Raised(UnboundLocalError("total_deaths"))
    else Ok(CsvSnapshot(InRange(rows, CsvDate - 8, CsvDate - 2), hospital.value.hospitalCases, deaths.value.cumDeaths))
  }

  /** A local record adds its cases to the local total exactly when it is dated today-10 .. today-4,
      a duplicate as much as any other; it never changes anything else. */
  lemma LocalRecordCounts(local: seq<DayRecord>, national: seq<DayRecord>, today: int, extra: DayRecord)
    ensures var before := CovidSnapshot(local, national, today);
            var after := CovidSnapshot(local + [extra], national, today);
            && after.Ok? == before.Ok?
            && (after.Raised? ==> after == before)
            && (after.Ok? ==> after.value == before.value.(localCases := before.value.localCases
                 + if today - 10 <= extra.date <= today - 4 then extra.newCases else 0))
  {
  }

  /** The figures exist exactly when the national data has records dated today-2 and today-14. */
  lemma SnapshotDefinedIff(local: seq<DayRecord>, national: seq<DayRecord>, today: int)
    ensures CovidSnapshot(local, national, today).Ok? <==>
              (exists k :: 0 <= k < |national| && national[k].date == today - 2)
              && (exists k :: 0 <= k < |national| && national[k].date == today - 14)
  {
    LastOnSpec(national, today - 2);
    LastOnSpec(national, today - 14);
  }

  lemma InRangeSnoc(recs: seq<DayRecord>, x: DayRecord, lo: int, hi: int)
    ensures InRange(recs + [x], lo, hi) == InRange(recs, lo, hi) + if lo <= x.date <= hi then x.newCases else 0
  {
  }

  /** The last match wins: a match in the later part hides every match in the earlier part. */
  lemma {:induction false} LastOnAppend(a: seq<DayRecord>, b: seq<DayRecord>, day: int)
    ensures LastOn(a + b, day) == if LastOn(b, day).Some? then LastOn(b, day) else LastOn(a, day)
  {
    if b == [] {
      assert a + b == a;
    } else {
      assert (a + b)[..|a + b| - 1] == a + b[..|b| - 1];
      LastOnAppend(a, b[..|b| - 1], day);
    }
  }

  /** Counts on the first and last days of the window, days 90 and 96, one inside it, and a record
      of 100 cases just outside the window on each side. */
  const Week: seq<DayRecord> :=
    [DayRecord(97, 100, 0, 0), DayRecord(96, 1, 0, 0), DayRecord(93, 2, 0, 0), DayRecord(90, 4, 0, 0),
     DayRecord(89, 100, 0, 0)]

  lemma WeekTotal()
    ensures InRange(Week, 90, 96) == 7
  {
    var a, b, c, d, e := Week[0], Week[1], Week[2], Week[3], Week[4];
    InRangeSnoc([], a, 90, 96);
    assert [] + [a] == [a];
    InRangeSnoc([a], b, 90, 96);
    InRangeSnoc([a, b], c, 90, 96);
    assert [a] + [b] == [a, b] && [a, b] + [c] == [a, b, c];
    InRangeSnoc([a, b, c], d, 90, 96);
    InRangeSnoc([a, b, c, d], e, 90, 96);
    assert [a, b, c] + [d] == [a, b, c, d] && [a, b, c, d] + [e] == Week;
  }

  /** With today = 100 the totals are the week's sum, and hospital cases and deaths come from the
      national records dated 98 and 86. */
  lemma KnownWeek()
    ensures CovidSnapshot(Week, Week + [DayRecord(98, 0, 5, 0), DayRecord(86, 0, 0, 9)], 100)
            == Ok(Snapshot(7, 7, 5, 9))
  {
    var r98, r86 := DayRecord(98, 0, 5, 0), DayRecord(86, 0, 0, 9);
    WeekTotal();
    InRangeSnoc([], r98, 90, 96);
    assert [] + [r98] == [r98] && [r98] + [r86] == [r98, r86];
    InRangeSnoc([r98], r86, 90, 96);
    InRangeAppend(Week, [r98, r86], 90, 96);
    LastOnAppend(Week, [r98, r86], 98);
    LastOnAppend(Week, [r98, r86], 86);
    assert [r98, r86][..1] == [r98];
    assert [r98][..0] == [];
  }

  /** Without a national record dated today-2 there is no hospital figure: the call raises. */
  lemma MissingHospitalDayRaises(local: seq<DayRecord>, today: int)
    ensures CovidSnapshot(local, [DayRecord(today - 14, 0, 0, 9)], today)
            == Raised(UnboundLocalError("current_hospital_cases"))
  {
    var only := [DayRecord(today - 14, 0, 0, 9)];
    assert only[..|only| - 1] == [];
    assert LastOn(only, today - 2) == None;
  }

  /** `process_covid_data`, with the two "data" lists of the API response and today's day number
      passed in. The loops follow the source: seven passes, one per lagged day, each scanning both
      lists, then one scan of the national list for the two single-day figures. */
  method ProcessCovidData(local: seq<DayRecord>, national: seq<DayRecord>, today: int)
    returns (r: Result<Snapshot>)
    ensures r == CovidSnapshot(local, national, today)
  {
    var localCases, nationalCases := 0, 0;
    for i := 0 to 7
      invariant localCases == Lagged(local, today, 4, i)
      invariant nationalCases == Lagged(national, today, 4, i)
    {
      var day := today - (i + 4);
      for j := 0 to |local|
        invariant localCases == Lagged(local, today, 4, i) + CasesOn(local[..j], day)
      {
        assert local[..j + 1][..j] == local[..j];
        if local[j].date == day {
          localCases := localCases + local[j].newCases;
        }
      }
      assert local[..|local|] == local;
      for j := 0 to |national|
        invariant nationalCases == Lagged(national, today, 4, i) + CasesOn(national[..j], day)
      {
        assert national[..j + 1][..j] == national[..j];
        if national[j].date == day {
          nationalCases := nationalCases + national[j].newCases;
        }
      }
      assert national[..|national|] == national;
    }
    var hospital: Option<int> := None;
    var deaths: Option<int> := None;
    for j := 0 to |national|
      invariant hospital == FigureOf(LastOn(national[..j], today - 2), true)
      invariant deaths == FigureOf(LastOn(national[..j], today - 14), false)
    {
      assert national[..j + 1][..j] == national[..j];
      if national[j].date == today - 2 {
        hospital := Some(national[j].hospitalCases);
      }
      if national[j].date == today - 14 {
        deaths := Some(national[j].cumDeaths);
      }
    }
    assert national[..|national|] == national;
    LaggedIsRange(local, today, 4, 7);
    LaggedIsRange(national, today, 4, 7);
    if hospital.None? {
      return Raised(UnboundLocalError("current_hospital_cases"));
    }
    if deaths.None? {
      return Raised(UnboundLocalError("total_deaths"));
    }
    r := Ok(Snapshot(localCases, nationalCases, hospital.value, deaths.value));
  }

  /** The figure a found record gives: hospital cases, or cumulative deaths. */
  function FigureOf(rec: Option<DayRecord>, hospital: bool): Option<int>
  {
    match rec
    case None => None
    case Some(d) => Some(if hospital then d.hospitalCases else d.cumDeaths)
  }

  /** `process_covid_csv_data`, with the parsed CSV rows passed in. */
  method ProcessCovidCsvData(rows: seq<DayRecord>) returns (r: Result<CsvSnapshot>)
    ensures r == CsvFigures(rows)
  {
    var cases := 0;
    for i := 0 to 7
      invariant cases == Lagged(rows, CsvDate, 2, i)
    {
      var day := CsvDate - (i + 2);
      for j := 0 to |rows|
        invariant cases == Lagged(rows, CsvDate, 2, i) + CasesOn(rows[..j], day)
      {
        assert rows[..j + 1][..j] == rows[..j];
        if rows[j].date == day {
          cases := cases + rows[j].newCases;
        }
      }
      assert rows[..|rows|] == rows;
    }
    var hospital: Option<int> := None;
    var deaths: Option<int> := None;
    for j := 0 to |rows|
      invariant hospital == FigureOf(LastOn(rows[..j], CsvDate), true)
      invariant deaths == FigureOf(LastOn(rows[..j], CsvDate - 13), false)
    {
      assert rows[..j + 1][..j] == rows[..j];
      if rows[j].date == CsvDate {
        hospital := Some(rows[j].hospitalCases);
      }
      if rows[j].date == CsvDate - 13 {
        deaths := Some(rows[j].cumDeaths);
      }
    }
    assert rows[..|rows|] == rows;
    LaggedIsRange(rows, CsvDate, 2, 7);
    if hospital.None? {
      return Raised(UnboundLocalError("current_hospital_cases"));
    }
    if deaths.None? {
      return Raised(UnboundLocalError("total_deaths"));
    }
    r := Ok(CsvSnapshot(cases, hospital.value, deaths.value));
  }
}
