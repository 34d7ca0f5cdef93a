/** The scheduled-update registry of covid_data_handler.py: the `update` display list, the
    `update_reference` map from composed names to queued events, the queue itself, and the
    action that runs when an event fires. */
module Updates {
  import opened Outcomes
  import opened Records
  import opened TimeConversion
  import opened News
  import opened CovidFigures
  import opened Scheduling

  /** The query-parameter values that switch the three options on. */
  const RepeatFlag := "repeat"
  const CovidFlag := "covid-data"
  const NewsFlag := "news"

  const RepeatingSuffix := " | Repeating"
  const CovidSuffix := " | Updating Covid Data"
  const NewsSuffix := " | Updating News"

  /** A repeating update is queued again one day after it fires. */
  const RepeatDelay := 86400
  /** Every event is queued with priority 1. */
  const Priority := 1

  /** The suffixes `schedule_covid_updates` appends, each only if its flag is set, always in this order. */
  function Suffixes(repeat: string, updatingCovid: string, updatingNews: string): string
  {
    (if repeat == RepeatFlag then RepeatingSuffix else "")
    + (if updatingCovid == CovidFlag then CovidSuffix else "")
    + (if updatingNews == NewsFlag then NewsSuffix else "")
  }

  /** The display name and registry key of a scheduled update, grown one suffix at a time. */
  function ComposeName(base: string, repeat: string, updatingCovid: string, updatingNews: string): string
  {
    var withRepeat := if repeat == RepeatFlag then base + RepeatingSuffix else base;
    var withCovid := if updatingCovid == CovidFlag then withRepeat + CovidSuffix else withRepeat;
    if updatingNews == NewsFlag then withCovid + NewsSuffix else withCovid
  }

  /** Appending optional pieces one at a time is appending their concatenation once. */
  lemma OptionalPieces(base: string, x: string, y: string, z: string, p: bool, q: bool, r: bool)
    ensures (var w1 := if p then base + x else base;
             var w2 := if q then w1 + y else w1;
             if r then w2 + z else w2)
            == base + ((if p then x else "") + (if q then y else "") + (if r then z else ""))
  {
  }

  /** The composed name is the base followed by the suffixes of the flags that are set. */
  lemma ComposeNameSuffixes(base: string, repeat: string, updatingCovid: string, updatingNews: string)
    ensures ComposeName(base, repeat, updatingCovid, updatingNews) == base + Suffixes(repeat, updatingCovid, updatingNews)
  {
    OptionalPieces(base, RepeatingSuffix, CovidSuffix, NewsSuffix,
                   repeat == RepeatFlag, updatingCovid == CovidFlag, updatingNews == NewsFlag);
  }

  /** The suffix part tells which flags were set: its length alone does (0, 12, 22, 16 and their sums
      are all different). */
  lemma SuffixesDetermineFlags(r1: string, c1: string, n1: string, r2: string, c2: string, n2: string)
    requires Suffixes(r1, c1, n1) == Suffixes(r2, c2, n2)
    ensures (r1 == RepeatFlag <==> r2 == RepeatFlag)
    ensures (c1 == CovidFlag <==> c2 == CovidFlag)
    ensures (n1 == NewsFlag <==> n2 == NewsFlag)
  {
  }

  /** The same base name with the same flags always gives the same key; the key starts with the base. */
  lemma ComposeNameShape(base: string, repeat: string, updatingCovid: string, updatingNews: string)
    ensures var name := ComposeName(base, repeat, updatingCovid, updatingNews);
            |name| >= |base| && name[..|base|] == base
            && (updatingNews == NewsFlag ==> name[|name| - |NewsSuffix|..] == NewsSuffix)
  {
  }

  /** Two different requests can compose the same key, so the second overwrites the first's handle. */
  lemma DifferentRequestsCanCollide()
    ensures ComposeName("a | Repeating", "", CovidFlag, "") == ComposeName("a", RepeatFlag, CovidFlag, "")
  {
  }

  /** `hhmm_to_seconds(update_interval) - hhmm_to_seconds(now)`: the left label is converted first,
      so its ValueError wins; a `None` on either side makes the subtraction raise TypeError. */
  function DelayFor(interval: string, now: string): (r: Result<int>)
    ensures r.Ok? <==> HhmmToSeconds(interval).Seconds? && HhmmToSeconds(now).Seconds?
    ensures r.Ok? ==> r.value == HhmmToSeconds(interval).value - HhmmToSeconds(now).value
    ensures r == Raised(ValueError) <==> HhmmToSeconds(interval).NotNumeric? || HhmmToSeconds(now).NotNumeric?
    ensures r == Raised(TypeError) <==>
              && !HhmmToSeconds(interval).NotNumeric? && !HhmmToSeconds(now).NotNumeric?
              && (HhmmToSeconds(interval).NoneReturned? || HhmmToSeconds(now).NoneReturned?)
  {
    var target := HhmmToSeconds(interval);
    if target.NotNumeric? then Raised(ValueError)
    else
      var current := HhmmToSeconds(now);
      if current.NotNumeric? then Raised(ValueError)
      else if target.NoneReturned? || current.NoneReturned? then Raised(TypeError)
      else Ok(target.value - current.value)
  }

  lemma TenAtNine()
    ensures DelayFor("10:00", "09:00") == Ok(3600)
  {
    TwoDigits('1', '0');
    TwoDigits('0', '0');
    TwoDigits('0', '9');
    assert "10" + ":" + "00" == "10:00" && "09" + ":" + "00" == "09:00";
    HhmmFields("10", "00", 10, 0);
    HhmmFields("09", "00", 9, 0);
  }

  /** A time already past today gives a negative delay; nothing rejects it. */
  lemma PastTimeGivesNegativeDelay()
    ensures DelayFor("09:00", "10:00") == Ok(-3600)
  {
    TwoDigits('1', '0');
    TwoDigits('0', '0');
    TwoDigits('0', '9');
    assert "10" + ":" + "00" == "10:00" && "09" + ":" + "00" == "09:00";
    HhmmFields("10", "00", 10, 0);
    HhmmFields("09", "00", 9, 0);
  }

  /** The page `update_data` renders, reduced to the values it passes to the template;
      `NoPage` is the None returned when neither flag is set. */
  datatype Page =
    | NewsPage(articles: seq<Entry>)
    | CovidPage(figures: Snapshot)
    | FullPage(articles: seq<Entry>, figures: Snapshot)
    | NoPage

  /** What one firing of `update_data` does, once its name is known: what it returns, whether the
      news was refreshed, and whether its display record is dropped. */
  datatype Firing = Firing(result: Result<Page>, refreshesNews: bool, dropsRecord: bool)

  /** The three-way branch of `update_data`. The covid figures are computed before the news is
      refreshed, so a failure there leaves the news and the display record alone. */
  function Dispatch(repeat: string, updatingCovid: string, updatingNews: string,
                    figures: Result<Snapshot>, refreshed: seq<Entry>): (f: Firing)
    ensures f.result.Raised? <==> updatingCovid == CovidFlag && figures.Raised?
    ensures f.refreshesNews <==> updatingNews == NewsFlag && f.result.Ok?
    ensures f.dropsRecord <==>
              (updatingCovid != CovidFlag && updatingNews != NewsFlag) || (repeat != RepeatFlag && f.result.Ok?)
    ensures f.result.Ok? && updatingCovid == CovidFlag ==>
              (f.result.value.CovidPage? || f.result.value.FullPage?) && f.result.value.figures == figures.value
    ensures f.result.Ok? && updatingNews == NewsFlag ==>
              (f.result.value.NewsPage? || f.result.value.FullPage?) && f.result.value.articles == refreshed
  {
    if updatingNews == NewsFlag && updatingCovid != CovidFlag then
      Firing(Ok(NewsPage(refreshed)), true, repeat != RepeatFlag)
    else if updatingNews != NewsFlag && updatingCovid == CovidFlag then
      if figures.Raised? then Firing(Raised(figures.error), false, false)
      else Firing(Ok(CovidPage(figures.value)), false, repeat != RepeatFlag)
    else if updatingNews == NewsFlag && updatingCovid == CovidFlag then
      if figures.Raised? then Firing(Raised(figures.error), false, false)
      else Firing(Ok(FullPage(refreshed, figures.value)), true, repeat != RepeatFlag)
    else Firing(Ok(NoPage), false, true)
  }

  /** The module-level state: the `update` list, the `update_reference` map, the queue `s`, and the
      news lists of covid_news_handling.py that `update_data` refreshes. */
  class Dashboard {
    var update: seq<Entry>
    var updateReference: map<string, Event>
    const s: EventQueue
    const feed: NewsFeed

    ghost predicate Valid()
      reads this, s
    {
      s.Valid()
    }

    constructor (feed: NewsFeed)
      ensures Valid() && fresh(s) && this.feed == feed
      ensures update == [] && updateReference == map[] && s.pending == {}
    {
      update := [];
      updateReference := map[];
      s := new EventQueue();
      this.feed := feed;
    }

    /** `add_scheduled_event`: append the display record `{title: name, content: "Update at <interval>"}`. */
    method AddScheduledEvent(updateInterval: string, updateName: string)
      modifies this
      ensures update == old(update) + [Entry(updateName, "Update at " + updateInterval)]
      ensures updateReference == old(updateReference)
    {
      update := update + [Entry(updateName, "Update at " + updateInterval)];
    }

    /** `schedule_covid_updates`, with the clock's "HH:MM" reading passed in as `now`. */
    method ScheduleCovidUpdates(updateInterval: string, updateName: string, repeat: string,
                                updatingCovid: string, updatingNews: string, now: string)
      returns (r: Result<()>)
      requires Valid()
      modifies this, s
      ensures Valid()
      ensures updatingCovid != CovidFlag && updatingNews != NewsFlag ==>
                r == Ok(()) && unchanged(this) && unchanged(s)
      ensures (updatingCovid == CovidFlag || updatingNews == NewsFlag) && DelayFor(updateInterval, now).Raised? ==>
                r == Raised(DelayFor(updateInterval, now).error) && unchanged(this) && unchanged(s)
      ensures (updatingCovid == CovidFlag || updatingNews == NewsFlag) && DelayFor(updateInterval, now).Ok? ==>
                var name := ComposeName(updateName, repeat, updatingCovid, updatingNews);
                var e := Event(old(s.counter), DelayFor(updateInterval, now).value, Priority,
                               TaskArgs(Some(name), repeat, updatingCovid, updatingNews));
                && r == Ok(())
                && e !in old(s.pending) && s.pending == old(s.pending) + {e}
                && updateReference == old(updateReference)[name := e]
                && update == old(update) + [Entry(name, "Update at " + updateInterval)]
    {
      if updatingCovid != CovidFlag && updatingNews != NewsFlag {
        return Ok(());
      }
      var delay := DelayFor(updateInterval, now);
      if delay.Raised? {
        return Raised(delay.error);
      }
      var name := ComposeName(updateName, repeat, updatingCovid, updatingNews);
      var e := s.Enter(delay.value, Priority, TaskArgs(Some(name), repeat, updatingCovid, updatingNews));
      updateReference := updateReference[name := e];
      AddScheduledEvent(updateInterval, name);
      r := Ok(());
    }

    /** `delete_update`: drop the first display record with the title; when `deleteS` is set, cancel
        the event the registry holds under that title. The record is gone before the cancellation
        is attempted, and the key is never removed from `update_reference`. */
    method DeleteUpdate(updateToDelete: string, deleteS: bool) returns (r: Result<()>)
      requires Valid()
      modifies this, s
      ensures Valid()
      ensures update == RemoveFirstTitled(old(update), updateToDelete)
      ensures updateReference == old(updateReference) && s.counter == old(s.counter)
      ensures !deleteS || FirstTitled(old(update), updateToDelete).None? ==>
                r == Ok(()) && s.pending == old(s.pending)
      ensures deleteS && FirstTitled(old(update), updateToDelete).Some? && updateToDelete !in old(updateReference) ==>
                r == Raised(KeyError(updateToDelete)) && s.pending == old(s.pending)
      ensures deleteS && FirstTitled(old(update), updateToDelete).Some? && updateToDelete in old(updateReference) ==>
                var e := old(updateReference)[updateToDelete];
                && s.pending == old(s.pending) - {e}
                && r == if e in old(s.pending) then Ok(()) else Raised(ValueError)
    {
      RemoveFirstTitledAt(update, updateToDelete);
      FirstTitledSpec(update, updateToDelete);
      var i := 0;
      while i < |update|
        invariant 0 <= i <= |update|
        invariant update == old(update) && unchanged(s)
        invariant forall j :: 0 <= j < i ==> update[j].title != updateToDelete
      {
        if update[i].title == updateToDelete {
          update := update[..i] + update[i + 1..];
          if deleteS {
            if updateToDelete !in updateReference {
              return Raised(KeyError(updateToDelete));
            }
            r := s.Cancel(updateReference[updateToDelete]);
            return;
          }
          return Ok(());
        }
        i := i + 1;
      }
      r := Ok(());
    }

    /** `update_data`, called with the keyword arguments stored in the event, the articles and
        covid records the APIs return passed in, and today's day number. A call without a name
        raises TypeError before anything happens. A repeating update is queued again under the
        same key, with keyword arguments that carry no name; then the branch chosen by the two
        flags runs, and a one-shot update (or one with neither flag) drops its display record. */
    method UpdateData(args: TaskArgs, articles: seq<Headline>, local: seq<DayRecord>,
                      national: seq<DayRecord>, today: int) returns (r: Result<Page>)
      requires Valid()
      modifies this, s, feed
      ensures Valid()
      ensures args.updateName.None? ==>
                r == Raised(TypeError) && unchanged(this) && unchanged(s) && unchanged(feed)
      ensures args.updateName.Some? ==>
                var name := args.updateName.value;
                var rearmed := Event(old(s.counter), RepeatDelay, Priority,
                                     TaskArgs(None, args.repeat, args.updatingCovid, args.updatingNews));
                var fired := Dispatch(args.repeat, args.updatingCovid, args.updatingNews,
                                      CovidSnapshot(local, national, today), Absorb(old(feed.State()), articles).news);
                && r == fired.result
                && s.pending == (if args.repeat == RepeatFlag then old(s.pending) + {rearmed} else old(s.pending))
                && updateReference == (if args.repeat == RepeatFlag then old(updateReference)[name := rearmed]
                                       else old(updateReference))
                && feed.State() == (if fired.refreshesNews then Absorb(old(feed.State()), articles) else old(feed.State()))
                && update == (if fired.dropsRecord then RemoveFirstTitled(old(update), name) else old(update))
    {
      if args.updateName.None? {
        return Raised(TypeError);
      }
      var name := args.updateName.value;
      var repeat, updatingCovid, updatingNews := args.repeat, args.updatingCovid, args.updatingNews;
      if repeat == RepeatFlag {
        var e := s.Enter(RepeatDelay, Priority, TaskArgs(None, repeat, updatingCovid, updatingNews));
        updateReference := updateReference[name := e];
      }
      if updatingNews == NewsFlag && updatingCovid != CovidFlag {
        var news := feed.UpdateNews(articles);
        if repeat != RepeatFlag {
          var _ := DeleteUpdate(name, false);
        }
        return Ok(NewsPage(news));
      } else if updatingNews != NewsFlag && updatingCovid == CovidFlag {
        var figures := ProcessCovidData(local, national, today);
        if figures.Raised? {
          return Raised(figures.error);
        }
        if repeat != RepeatFlag {
          var _ := DeleteUpdate(name, false);
        }
        return Ok(CovidPage(figures.value));
      } else if updatingNews == NewsFlag && updatingCovid == CovidFlag {
        var figures := ProcessCovidData(local, national, today);
        if figures.Raised? {
          return Raised(figures.error);
        }
        var news := feed.UpdateNews(articles);
        if repeat != RepeatFlag {
          var _ := DeleteUpdate(name, false);
        }
        return Ok(FullPage(news, figures.value));
      }
      var _ := DeleteUpdate(name, false);
      r := Ok(NoPage);
    }
  }
}
