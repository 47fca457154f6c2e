/**
 What a run of `add_page` calls leaves in a fresh payload: one page per call,
 in call order, each built from its own call's arguments alone.
 */
module PageOrder {
  import opened Wrappers
  import opened Gilfoyle

  /** The pages of a payload made by `GetPayload` after `AddPage` was called
      once for each element of `calls`, in order. */
  function Build(calls: seq<PageArgs>): (pages: seq<Page>)
    ensures |pages| == |calls|
  {
    if calls == [] then [] else Build(calls[..|calls| - 1]) + [MakePage(calls[|calls| - 1])]
  }

  /** The page at index `i` is the one the `i`-th call built. */
  lemma {:induction false} BuildAt(calls: seq<PageArgs>, i: nat)
    requires i < |calls|
    ensures Build(calls)[i] == MakePage(calls[i])
  {
    var n := |calls| - 1;
    if i < n {
      BuildAt(calls[..n], i);
    }
  }

  /** Later calls leave the pages of earlier calls where they were. */
  lemma {:induction false} BuildAppend(earlier: seq<PageArgs>, later: seq<PageArgs>)
    ensures Build(earlier + later) == Build(earlier) + Build(later)
  {
    var all := earlier + later;
    forall i | 0 <= i < |all|
      ensures Build(all)[i] == (Build(earlier) + Build(later))[i]
    {
      BuildAt(all, i);
      if i < |earlier| {
        BuildAt(earlier, i);
      } else {
        BuildAt(later, i - |earlier|);
      }
    }
  }

  /** A fresh payload from `GetPayload` followed by one `AddPage` call per
      element of `calls`, in order: the pages it ends with are `Build(calls)`
      and its report map is still empty. */
  method RunCalls(report: Report, calls: seq<PageArgs>) returns (payload: Payload)
    ensures fresh(payload)
    ensures payload.pages == Build(calls) && payload.report == map[]
  {
    payload := Report.GetPayload();
    var i := 0;
    while i < |calls|
      invariant 0 <= i <= |calls| && fresh(payload)
      invariant payload.pages == Build(calls[..i]) && payload.report == map[]
    {
      var c := calls[i];
      payload := report.AddPage(payload, c.pageType, c.pageTitle, c.pageLayout, c.pageSubheading,
                                c.pageCommentary, c.pageMessage, c.pageNotification, c.pageMetrics,
                                c.pageDataframe, c.pageVisualisation);
      assert calls[..i + 1][..i] == calls[..i];
      i := i + 1;
    }
    assert calls[..|calls|] == calls;
  }

  /** Three pages titled A, B and C land at indices 0, 1 and 2, whatever
      their page types and in whatever order those types come, and every
      optional field left out is `None`. */
  method ThreePagesInOrder() returns (pages: seq<Page>)
    ensures |pages| == 3
    ensures pages[0].pageTitle == "A" && pages[1].pageTitle == "B" && pages[2].pageTitle == "C"
    ensures pages[0].pageType == "report" && pages[1].pageType == "cover" && pages[2].pageType == "chapter"
    ensures forall i :: 0 <= i < 3 ==> pages[i].pageLayout == None && pages[i].pageDataframe == None
  {
    var report := new Report("example.pdf");
    var calls := [PageArgs("report", "A"), PageArgs("cover", "B"), PageArgs("chapter", "C")];
    var payload := RunCalls(report, calls);
    pages := payload.pages;
    forall i | 0 <= i < 3 ensures pages[i] == MakePage(calls[i]) {
      BuildAt(calls, i);
    }
  }
}
