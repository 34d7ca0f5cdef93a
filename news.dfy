/** covid_news_handling.py: the displayed news list, the list of titles already seen,
    and the de-duplicating refresh that feeds both. */
module News {
  import opened Records

  /** One element of the news API's "articles" list, reduced to the two fields the module reads. */
  datatype Headline = Headline(title: string, description: string)

  /** The display record built from a headline: its description becomes the content. */
  function ToEntry(h: Headline): Entry { Entry(h.title, h.description) }

  function Entries(hs: seq<Headline>): (es: seq<Entry>)
    ensures |es| == |hs| && forall i :: 0 <= i < |hs| ==> es[i] == ToEntry(hs[i])
  {
    seq(|hs|, i requires 0 <= i < |hs| => ToEntry(hs[i]))
  }

  function HeadlineTitles(hs: seq<Headline>): (ts: seq<string>)
    ensures |ts| == |hs| && forall i :: 0 <= i < |hs| ==> ts[i] == hs[i].title
  {
    seq(|hs|, i requires 0 <= i < |hs| => hs[i].title)
  }

  /** The module's two lists: `news` (displayed) and `list_of_news` (titles seen, kept as titles). */
  datatype FeedState = FeedState(news: seq<Entry>, seen: seq<string>)

  /** One pass of the outer loop of `update_news`: a headline whose title was never seen is
      recorded as seen and appended to the display list; any other headline is skipped. */
  function Step(st: FeedState, h: Headline): FeedState
  {
    if h.title in st.seen then st
    else FeedState(st.news + [ToEntry(h)], st.seen + [h.title])
  }

  /** The state after `update_news` has gone through `batch` in the order the API returned it. */
  function Absorb(st: FeedState, batch: seq<Headline>): FeedState
  {
    if batch == [] then st
    else Step(Absorb(st, batch[..|batch| - 1]), batch[|batch| - 1])
  }

  /** Headline `i` is the first of the batch with its title, and that title was not seen before. */
  predicate FirstNew(seen: seq<string>, batch: seq<Headline>, i: int)
    requires 0 <= i < |batch|
  {
    batch[i].title !in seen && forall j :: 0 <= j < i ==> batch[j].title != batch[i].title
  }

  /** Reference definition of what a refresh adds: the batch filtered down to the headlines that
      are the first of the batch with a title never seen, in batch order. */
  function Fresh(seen: seq<string>, batch: seq<Headline>): seq<Headline>
  {
    if batch == [] then []
    else
      Fresh(seen, batch[..|batch| - 1])
      + (if FirstNew(seen, batch, |batch| - 1) then [batch[|batch| - 1]] else [])
  }

  /** A title is among those added exactly when it occurs in the batch and was not seen. */
  lemma {:induction false} FreshTitles(seen: seq<string>, batch: seq<Headline>)
    ensures forall t :: t in HeadlineTitles(Fresh(seen, batch)) <==> t !in seen && t in HeadlineTitles(batch)
  {
    if batch != [] {
      var init, h := batch[..|batch| - 1], batch[|batch| - 1];
      FreshTitles(seen, init);
      var added := if FirstNew(seen, batch, |batch| - 1) then [h] else [];
      var before, all := HeadlineTitles(Fresh(seen, init)), HeadlineTitles(init);
      assert HeadlineTitles(Fresh(seen, batch)) == before + HeadlineTitles(added);
      assert HeadlineTitles(batch) == all + [h.title];
      if FirstNew(seen, batch, |batch| - 1) {
        assert HeadlineTitles(added) == [h.title];
      } else {
        assert h.title in seen || h.title in all by {
          if h.title !in seen {
            var j :| 0 <= j < |init| && batch[j].title == h.title;
            assert all[j] == h.title;
          }
        }
        assert HeadlineTitles(added) == [];
      }
    }
  }

  /** No two headlines share a title. */
  predicate DistinctTitles(hs: seq<Headline>)
  {
    forall i, j :: 0 <= i < j < |hs| ==> hs[i].title != hs[j].title
  }

  /** No title is added twice, even when the batch repeats it. */
  lemma {:induction false} FreshDistinct(seen: seq<string>, batch: seq<Headline>)
    ensures DistinctTitles(Fresh(seen, batch))
  {
    if batch != [] {
      var init, h := batch[..|batch| - 1], batch[|batch| - 1];
      FreshDistinct(seen, init);
      FreshTitles(seen, init);
      var f0 := Fresh(seen, init);
      var f := Fresh(seen, batch);
      if FirstNew(seen, batch, |batch| - 1) {
        forall i | 0 <= i < |f0| ensures f0[i].title != h.title {
          assert HeadlineTitles(f0)[i] == f0[i].title;
        }
        assert f == f0 + [h];
        forall i, j | 0 <= i < j < |f| ensures f[i].title != f[j].title {
          if j == |f0| {
            assert f[i] == f0[i] && f[j] == h;
          } else {
            assert f[i] == f0[i] && f[j] == f0[j];
          }
        }
      } else {
        assert f == f0 + [] == f0;
      }
    }
  }

  /** `update_news` is the reference filter at work: the display list gains exactly the fresh
      headlines and the seen list exactly their titles, both appended in batch order. */
  lemma {:induction false} AbsorbIsFresh(st: FeedState, batch: seq<Headline>)
    ensures var f := Fresh(st.seen, batch);
            Absorb(st, batch) == FeedState(st.news + Entries(f), st.seen + HeadlineTitles(f))
  {
    if batch != [] {
      var init, h := batch[..|batch| - 1], batch[|batch| - 1];
      AbsorbIsFresh(st, init);
      FreshTitles(st.seen, init);
      var f0 := Fresh(st.seen, init);
      var mid := Absorb(st, init);
      assert h.title in mid.seen <==> !FirstNew(st.seen, batch, |batch| - 1) by {
        if h.title in HeadlineTitles(init) {
          var j :| 0 <= j < |init| && HeadlineTitles(init)[j] == h.title;
          assert batch[j].title == h.title;
        }
        if !FirstNew(st.seen, batch, |batch| - 1) && h.title !in st.seen {
          var j :| 0 <= j < |batch| - 1 && batch[j].title == h.title;
          assert HeadlineTitles(init)[j] == h.title;
        }
      }
      if FirstNew(st.seen, batch, |batch| - 1) {
        assert Entries(f0 + [h]) == Entries(f0) + [ToEntry(h)];
        assert HeadlineTitles(f0 + [h]) == HeadlineTitles(f0) + [h.title];
      } else {
        assert f0 + [] == f0;
      }
    }
  }

  /** After a refresh every title of the batch has been seen. */
  lemma {:induction false} AbsorbSeesBatch(st: FeedState, batch: seq<Headline>)
    ensures forall i :: 0 <= i < |batch| ==> batch[i].title in Absorb(st, batch).seen
  {
    AbsorbIsFresh(st, batch);
    FreshTitles(st.seen, batch);
    forall i | 0 <= i < |batch| ensures batch[i].title in Absorb(st, batch).seen {
      assert HeadlineTitles(batch)[i] == batch[i].title;
    }
  }

  /** A refresh with headlines that have all been seen changes nothing. */
  lemma {:induction false} AbsorbSeenBatch(st: FeedState, batch: seq<Headline>)
    requires forall i :: 0 <= i < |batch| ==> batch[i].title in st.seen
    ensures Absorb(st, batch) == st
  {
    AbsorbIsFresh(st, batch);
    FreshOfSeen(st.seen, batch);
    assert st.news + [] == st.news && st.seen + [] == st.seen;
  }

  /** Nothing is fresh in a batch whose titles have all been seen. */
  lemma {:induction false} FreshOfSeen(seen: seq<string>, batch: seq<Headline>)
    requires forall i :: 0 <= i < |batch| ==> batch[i].title in seen
    ensures Fresh(seen, batch) == []
  {
    if batch != [] {
      FreshOfSeen(seen, batch[..|batch| - 1]);
    }
  }

  /** Refreshing twice with the same articles adds nothing the second time. */
  lemma AbsorbIdempotent(st: FeedState, batch: seq<Headline>)
    ensures Absorb(Absorb(st, batch), batch) == Absorb(st, batch)
  {
    AbsorbSeesBatch(st, batch);
    AbsorbSeenBatch(Absorb(st, batch), batch);
  }

  /** Once a title is in the seen list no refresh displays it again: the number of displayed
      entries with that title does not change. */
  lemma NeverReadded(st: FeedState, batch: seq<Headline>, title: string)
    requires title in st.seen
    ensures CountTitled(Absorb(st, batch).news, title) == CountTitled(st.news, title)
  {
    AbsorbIsFresh(st, batch);
    FreshTitles(st.seen, batch);
    var f := Fresh(st.seen, batch);
    CountTitledAppend(st.news, Entries(f), title);
    NoneTitled(Entries(f), title) by {
      forall i | 0 <= i < |Entries(f)| ensures Entries(f)[i].title != title {
        assert HeadlineTitles(f)[i] == Entries(f)[i].title;
      }
    }
  }

  lemma {:induction false} NoneTitled(s: seq<Entry>, title: string)
    requires forall i :: 0 <= i < |s| ==> s[i].title != title
    ensures CountTitled(s, title) == 0
  {
    if s != [] {
      NoneTitled(s[..|s| - 1], title);
    }
  }

  /** A headline deleted after a refresh stays deleted when the same articles arrive again:
      the second refresh leaves the whole state as the deletion left it. */
  lemma DeletedHeadlineStaysGone(st: FeedState, batch: seq<Headline>, title: string)
    ensures var refreshed := Absorb(st, batch);
            var deleted := FeedState(RemoveFirstTitled(refreshed.news, title), refreshed.seen);
            Absorb(deleted, batch) == deleted
  {
    var refreshed := Absorb(st, batch);
    AbsorbSeesBatch(st, batch);
    AbsorbSeenBatch(FeedState(RemoveFirstTitled(refreshed.news, title), refreshed.seen), batch);
  }

  /** Every displayed title is in the seen list. */
  ghost predicate Consistent(st: FeedState)
  {
    forall i :: 0 <= i < |st.news| ==> st.news[i].title in st.seen
  }

  lemma {:induction false} AbsorbKeepsConsistent(st: FeedState, batch: seq<Headline>)
    requires Consistent(st)
    ensures Consistent(Absorb(st, batch))
  {
    AbsorbIsFresh(st, batch);
    var f := Fresh(st.seen, batch);
    var after := Absorb(st, batch);
    forall i | 0 <= i < |after.news| ensures after.news[i].title in after.seen {
      if i >= |st.news| {
        assert after.news[i] == Entries(f)[i - |st.news|];
        assert after.seen[|st.seen| + i - |st.news|] == HeadlineTitles(f)[i - |st.news|];
      }
    }
  }

  /** Deleting a displayed entry leaves the seen list alone, so the invariant survives it. */
  lemma DeleteKeepsConsistent(st: FeedState, title: string)
    requires Consistent(st)
    ensures Consistent(FeedState(RemoveFirstTitled(st.news, title), st.seen))
  {
    RemoveFirstTitledAt(st.news, title);
  }

  /** The module-level lists `news` and `list_of_news`. */
  class NewsFeed {
    var news: seq<Entry>
    var listOfNews: seq<string>

    function State(): FeedState
      reads this
    {
      FeedState(news, listOfNews)
    }

    constructor ()
      ensures news == [] && listOfNews == []
    {
      news := [];
      listOfNews := [];
    }

    /** `add_news_to_list`: record the title as seen. */
    method AddNewsToList(headline: Headline)
      modifies this
      ensures listOfNews == old(listOfNews) + [headline.title]
      ensures news == old(news)
    {
      listOfNews := listOfNews + [headline.title];
    }

    /** `add_news_article`: display the headline, its description as content. */
    method AddNewsArticle(headline: Headline)
      modifies this
      ensures news == old(news) + [Entry(headline.title, headline.description)]
      ensures listOfNews == old(listOfNews)
    {
      news := news + [ToEntry(headline)];
    }

    /** `delete_news`: remove the first displayed entry with the title; the seen list is untouched. */
    method DeleteNews(newsToDelete: string)
      modifies this
      ensures news == RemoveFirstTitled(old(news), newsToDelete)
      ensures listOfNews == old(listOfNews)
    {
      RemoveFirstTitledAt(news, newsToDelete);
      FirstTitledSpec(news, newsToDelete);
      var i := 0;
      while i < |news|
        invariant 0 <= i <= |news|
        invariant news == old(news) && listOfNews == old(listOfNews)
        invariant forall j :: 0 <= j < i ==> news[j].title != newsToDelete
      {
        if news[i].title == newsToDelete {
          news := news[..i] + news[i + 1..];
          return;
        }
        i := i + 1;
      }
    }

    /** `update_news`, with the articles the API returned passed in: every article whose title is
        not yet in `list_of_news` is recorded there and displayed; the display list is returned. */
    method UpdateNews(articles: seq<Headline>) returns (displayed: seq<Entry>)
      modifies this
      ensures State() == Absorb(old(State()), articles)
      ensures displayed == news
    {
      var i := 0;
      while i < |articles|
        invariant 0 <= i <= |articles|
        invariant State() == Absorb(old(State()), articles[..i])
      {
        var headline := articles[i];
        var inList := false;
        var j := 0;
        while j < |listOfNews|
          invariant 0 <= j <= |listOfNews|
          invariant inList <==> headline.title in listOfNews[..j]
        {
          if listOfNews[j] == headline.title {
            inList := true;
          }
          assert listOfNews[..j + 1] == listOfNews[..j] + [listOfNews[j]];
          j := j + 1;
        }
        assert listOfNews[..j] == listOfNews;
        if !inList {
          AddNewsToList(headline);
          AddNewsArticle(headline);
        }
        assert articles[..i + 1][..i] == articles[..i];
        i := i + 1;
      }
      assert articles[..i] == articles;
      displayed := news;
    }
  }
}
