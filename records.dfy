/** The `{title, content}` dictionaries that both display lists hold: the scheduled-update
    list of covid_data_handler.py and the news list of covid_news_handling.py. */
module Records {
  import opened Outcomes

  datatype Entry = Entry(title: string, content: string)

  /** Index of the first entry carrying `title`, if any. */
  function FirstTitled(s: seq<Entry>, title: string): (r: Option<nat>)
    ensures r.Some? ==> r.value < |s| && s[r.value].title == title
  {
    if s == [] then None
    else if s[0].title == title then Some(0)
    else match FirstTitled(s[1..], title)
      case None => None
      case Some(k) => Some(k + 1)
  }

  /** The index found is the first with the title, and none is found exactly when no entry has it. */
  lemma {:induction false} FirstTitledSpec(s: seq<Entry>, title: string)
    ensures FirstTitled(s, title).Some? ==> forall j :: 0 <= j < FirstTitled(s, title).value ==> s[j].title != title
    ensures FirstTitled(s, title).None? <==> forall j :: 0 <= j < |s| ==> s[j].title != title
  {
    if s != [] && s[0].title != title {
      FirstTitledSpec(s[1..], title);
      assert forall j :: 1 <= j < |s| ==> s[j] == s[1..][j - 1];
    }
  }

  /** The scan-and-`list.remove` both modules use: drop the first entry whose title matches. */
  function RemoveFirstTitled(s: seq<Entry>, title: string): seq<Entry>
  {
    if s == [] then []
    else if s[0].title == title then s[1..]
    else [s[0]] + RemoveFirstTitled(s[1..], title)
  }

  /** Removing takes out exactly the first match, keeps every other entry in order,
      and changes nothing when no title matches. */
  lemma {:induction false} RemoveFirstTitledAt(s: seq<Entry>, title: string)
    ensures FirstTitled(s, title).None? ==> RemoveFirstTitled(s, title) == s
    ensures FirstTitled(s, title).Some? ==>
              var k := FirstTitled(s, title).value;
              RemoveFirstTitled(s, title) == s[..k] + s[k + 1..]
  {
    if s == [] {
    } else if s[0].title == title {
      assert FirstTitled(s, title) == Some(0);
      assert s[..0] + s[1..] == s[1..];
    } else {
      var t := s[1..];
      RemoveFirstTitledAt(t, title);
      assert RemoveFirstTitled(s, title) == [s[0]] + RemoveFirstTitled(t, title);
      match FirstTitled(t, title)
      case None =>
        assert FirstTitled(s, title) == None;
        assert [s[0]] + t == s;
      case Some(k) =>
        assert FirstTitled(s, title) == Some(k + 1);
        assert [s[0]] + t == s;
        ConsSplice(s[0], t, k);
    }
  }

  /** Splicing out index `k` of the tail is splicing out index `k + 1` of the whole. */
  lemma ConsSplice(x: Entry, t: seq<Entry>, k: nat)
    requires k < |t|
    ensures [x] + (t[..k] + t[k + 1..]) == ([x] + t)[..k + 1] + ([x] + t)[k + 2..]
  {
  }

  /** Number of entries carrying `title`. */
  function CountTitled(s: seq<Entry>, title: string): nat
  {
    if s == [] then 0 else CountTitled(s[..|s| - 1], title) + (if s[|s| - 1].title == title then 1 else 0)
  }

  lemma {:induction false} CountTitledAppend(a: seq<Entry>, b: seq<Entry>, title: string)
    ensures CountTitled(a + b, title) == CountTitled(a, title) + CountTitled(b, title)
  {
    if b != [] {
      CountTitledAppend(a, b[..|b| - 1], title);
      assert (a + b)[..|a + b| - 1] == a + b[..|b| - 1];
    } else {
      assert a + b == a;
    }
  }

  /** Removing the first match lowers the count of that title by one, and by nothing if absent. */
  lemma RemoveFirstTitledCount(s: seq<Entry>, title: string)
    ensures CountTitled(RemoveFirstTitled(s, title), title)
            == if FirstTitled(s, title).Some? then CountTitled(s, title) - 1 else CountTitled(s, title)
  {
    RemoveFirstTitledAt(s, title);
    if FirstTitled(s, title).Some? {
      var k := FirstTitled(s, title).value;
      assert s == s[..k] + [s[k]] + s[k + 1..];
      CountTitledAppend(s[..k] + [s[k]], s[k + 1..], title);
      CountTitledAppend(s[..k], [s[k]], title);
      CountTitledAppend(s[..k], s[k + 1..], title);
      assert [s[k]][..0] == [];
    }
  }
}
