/** Whole lifecycles of a scheduled update, run on a fresh dashboard: what the registry, the map of
    handles and the queue hold after scheduling, firing, cancelling, and a name collision. */
module Scenarios {
  import opened Outcomes
  import opened Records
  import opened News
  import opened Scheduling
  import opened Updates

  /** A one-shot news update, scheduled for 10:00 at 09:00 and then fired: its display record goes,
      its event is no longer queued, but its key stays in `update_reference`. */
  method OneShotUpdate(base: string, articles: seq<Headline>)
    returns (queued: bool, recordsBefore: nat, recordsAfter: nat, queuedAfterFiring: bool, keyKept: bool)
    ensures queued && recordsBefore == 1
    ensures recordsAfter == 0 && !queuedAfterFiring && keyKept
  {
    var feed := new NewsFeed();
    var d := new Dashboard(feed);
    TenAtNine();
    var scheduled := d.ScheduleCovidUpdates("10:00", base, "", "", NewsFlag, "09:00");
    var name := ComposeName(base, "", "", NewsFlag);
    var e := d.updateReference[name];
    queued := e in d.s.pending;
    recordsBefore := |d.update|;
    d.s.Pop(e);
    var page := d.UpdateData(e.kwargs, articles, [], [], 0);
    recordsAfter := |d.update|;
    queuedAfterFiring := e in d.s.pending;
    keyKept := name in d.updateReference;
  }

  /** A repeating news update fired once keeps its one display record and is queued again a day
      later under the same key; that second event carries no name, so firing it raises TypeError. */
  method RepeatingUpdate(base: string, articles: seq<Headline>)
    returns (first: Result<Page>, recordsKept: nat, rearmDelay: int, second: Result<Page>)
    ensures first.Ok? && recordsKept == 1 && rearmDelay == RepeatDelay
    ensures second == Raised(TypeError)
  {
    var feed := new NewsFeed();
    var d := new Dashboard(feed);
    TenAtNine();
    var scheduled := d.ScheduleCovidUpdates("10:00", base, RepeatFlag, "", NewsFlag, "09:00");
    var name := ComposeName(base, RepeatFlag, "", NewsFlag);
    var e := d.updateReference[name];
    d.s.Pop(e);
    first := d.UpdateData(e.kwargs, articles, [], [], 0);
    recordsKept := |d.update|;
    var rearmed := d.updateReference[name];
    rearmDelay := rearmed.delay;
    d.s.Pop(rearmed);
    second := d.UpdateData(rearmed.kwargs, articles, [], [], 0);
  }

  /** Cancelling a scheduled update before it fires removes its display record and its queued
      event; its key stays in `update_reference`. */
  method CancelledUpdate(base: string)
    returns (cancelled: Result<()>, recordsLeft: nat, nothingQueued: bool, keyKept: bool)
    ensures cancelled == Ok(()) && recordsLeft == 0 && nothingQueued && keyKept
  {
    var feed := new NewsFeed();
    var d := new Dashboard(feed);
    TenAtNine();
    var scheduled := d.ScheduleCovidUpdates("10:00", base, "", CovidFlag, "", "09:00");
    var name := ComposeName(base, "", CovidFlag, "");
    cancelled := d.DeleteUpdate(name, true);
    recordsLeft := |d.update|;
    nothingQueued := d.s.pending == {};
    keyKept := name in d.updateReference;
  }

  /** Two requests with the same composed name: both display records stay, the map keeps only the
      second event. Deleting the first record cancels the second event; deleting the second record
      then raises ValueError, and the first event stays queued with no record or key to reach it. */
  method CollidingUpdates(base: string)
    returns (records: nat, firstDelete: Result<()>, secondDelete: Result<()>, orphanQueued: bool)
    ensures records == 2
    ensures firstDelete == Ok(()) && secondDelete == Raised(ValueError) && orphanQueued
  {
    var feed := new NewsFeed();
    var d := new Dashboard(feed);
    TenAtNine();
    var name := ComposeName(base, "", CovidFlag, "");
    var r1 := d.ScheduleCovidUpdates("10:00", base, "", CovidFlag, "", "09:00");
    var orphan := d.updateReference[name];
    var r2 := d.ScheduleCovidUpdates("10:00", base, "", CovidFlag, "", "09:00");
    records := |d.update|;
    firstDelete := d.DeleteUpdate(name, true);
    secondDelete := d.DeleteUpdate(name, true);
    orphanQueued := orphan in d.s.pending;
  }
}
