/** The subscription page (`apps/web/src/pages/feeds/index.tsx`): the pure
    decisions it takes (query parameters, the folder of a new feed, the
    history start/stop request, the pasted-link split) and the page object
    whose handlers move its component state. Remote calls are recorded as
    `Call` values; their answers are inputs. */
module Feeds {
  import opened Common

  /** The reserved pseudo-folder of feeds that belong to no folder. */
  const Uncategorized := "uncategorized"

  /** The only accepted start of pasted share links. */
  const ShareLinkPrefix := "https://mp.weixin.qq.com/s/"

  /** One subscription as the feed list returns it. */
  datatype Feed = Feed(id: string, mpName: string, mpCover: string, mpIntro: string,
                       syncTime: int, status: int, hasHistory: int)

  /** The input of the feed list query: `{}` or `{ folderId }`. */
  datatype FeedQuery = AllFeeds | FolderFilter(folderId: string)

  /** `feedQueryParams`: the folder filter for the current folder selection.
      `'uncategorized'` is passed through as a folder id like any other; a
      missing or empty selection asks for every feed. */
  function FeedQueryParams(selected: Option<string>): (q: FeedQuery)
    ensures q == AllFeeds <==> !Truthy(selected)
    ensures q.FolderFilter? ==> Some(q.folderId) == selected
  {
    if selected == Some(Uncategorized) then FolderFilter(Uncategorized)
    else if Truthy(selected) then FolderFilter(selected.value)
    else AllFeeds
  }

  /** The folder given to a feed added from the page: the selected folder,
      unless nothing (or the uncategorized pseudo-folder) is selected. */
  function AssignedFolder(selected: Option<string>): (folder: Option<string>)
    ensures folder.Some? <==> Truthy(selected) && selected != Some(Uncategorized)
    ensures folder.Some? ==> folder == selected
  {
    if Truthy(selected) && selected.value != Uncategorized then selected else None
  }

  /** Whether a feed in `folder` is listed by query `q`, reading the
      uncategorized filter as "feeds without a folder". */
  predicate ListedBy(q: FeedQuery, folder: Option<string>) {
    match q
    case AllFeeds => true
    case FolderFilter(f) => if f == Uncategorized then folder.None? else folder == Some(f)
  }

  /** A feed added while a folder is shown is filed so that the list being
      shown includes it. */
  lemma NewFeedListed(selected: Option<string>)
    ensures ListedBy(FeedQueryParams(selected), AssignedFolder(selected))
  {
  }

  // ---------------------------------------------------------------------
  // Pasted share links

  /** The segments whose trim is not empty, in order and untrimmed. */
  function NonBlank(parts: seq<string>): (r: seq<string>)
    ensures |r| <= |parts|
    ensures forall k :: 0 <= k < |r| ==> Trim(r[k]) != "" && r[k] in parts
  {
    if parts == [] then []
    else (if Trim(parts[0]) != "" then [parts[0]] else []) + NonBlank(parts[1..])
  }

  /** Filtering a concatenation filters each part: the kept segments keep
      their relative order. */
  lemma {:induction false} NonBlankAppend(a: seq<string>, b: seq<string>)
    ensures NonBlank(a + b) == NonBlank(a) + NonBlank(b)
  {
    if a == [] {
      assert a + b == b;
    } else {
      assert (a + b)[1..] == a[1..] + b;
      NonBlankAppend(a[1..], b);
    }
  }

  /** A segment is kept exactly when it is not all whitespace. */
  lemma NonBlankSingle(x: string)
    ensures NonBlank([x]) == if AllWhitespace(x) then [] else [x]
  {
    TrimEmptyIff(x);
    assert [x][1..] == [];
  }

  /** `wxsLink.split('\n').filter((link) => link.trim() !== '')`. */
  function ProcessedLinks(text: string): (links: seq<string>)
    ensures forall k :: 0 <= k < |links| ==> '\n' !in links[k] && Trim(links[k]) != ""
  {
    NonBlank(Split(text, '\n'))
  }

  /** The confirm button is enabled only for text that starts with a share link. */
  predicate CanSubmitLinks(text: string) {
    StartsWith(text, ShareLinkPrefix)
  }

  /** When the confirm button is enabled there is at least one link to add,
      and the first one is a share link (the lines after it are not checked). */
  lemma {:induction false} SubmittableHasShareLink(text: string)
    requires CanSubmitLinks(text)
    ensures |ProcessedLinks(text)| >= 1 && StartsWith(ProcessedLinks(text)[0], ShareLinkPrefix)
  {
    var i := IndexOf(text, '\n');
    assert forall j :: 0 <= j < |ShareLinkPrefix| ==> ShareLinkPrefix[j] != '\n';
    assert i >= |ShareLinkPrefix|;
    var parts := Split(text, '\n');
    var first := text[..i];
    assert parts[0] == first;
    assert first[..|ShareLinkPrefix|] == ShareLinkPrefix;
    assert !IsJsWhitespace(first[0]);
    TrimEmptyIff(first);
    assert parts == [parts[0]] + parts[1..];
    NonBlankAppend([parts[0]], parts[1..]);
    NonBlankSingle(first);
  }

  // ---------------------------------------------------------------------
  // Adding feeds (handleConfirm)

  /** One public account as `getMpInfo` describes it. */
  datatype MpInfo = MpInfo(id: string, name: string, cover: string, intro: string, updateTime: int)

  /** The argument of `feed.add`. */
  datatype NewFeed = NewFeed(id: string, mpName: string, mpCover: string, mpIntro: string,
                             updateTime: int, status: int, folderId: Option<string>)

  /** A remote call issued by the add dialog, with its argument. */
  datatype Call =
    | GetMpInfo(wxsLink: string)
    | AddFeed(feed: NewFeed)
    | RefreshArticles(mpId: string)

  /** The feed added for account `item`: enabled, in the assigned folder. */
  function NewFeedFor(item: MpInfo, selected: Option<string>): NewFeed {
    NewFeed(item.id, item.name, item.cover, item.intro, item.updateTime, 1, AssignedFolder(selected))
  }

  /** The calls of one loop iteration: look the link up, and if the lookup
      found an account, add its first hit and refresh its articles. */
  function LinkCalls(link: string, hits: seq<MpInfo>, selected: Option<string>): seq<Call> {
    [GetMpInfo(link)]
      + if hits != [] then [AddFeed(NewFeedFor(hits[0], selected)), RefreshArticles(hits[0].id)] else []
  }

  /** The calls of the whole loop over `links`, `hits[k]` being what the
      lookup of `links[k]` answered. */
  function ConfirmCalls(links: seq<string>, hits: seq<seq<MpInfo>>, selected: Option<string>): seq<Call>
    requires |links| == |hits|
  {
    if links == [] then []
    else ConfirmCalls(links[..|links| - 1], hits[..|hits| - 1], selected)
           + LinkCalls(links[|links| - 1], hits[|hits| - 1], selected)
  }

  function LookupOf(c: Call): seq<string> {
    if c.GetMpInfo? then [c.wxsLink] else []
  }

  function AddOf(c: Call): seq<NewFeed> {
    if c.AddFeed? then [c.feed] else []
  }

  /** How many lookups found an account. */
  function CountFound(hits: seq<seq<MpInfo>>): nat {
    if hits == [] then 0 else CountFound(hits[..|hits| - 1]) + (if hits[|hits| - 1] != [] then 1 else 0)
  }

  /** What one iteration looks up and adds. */
  lemma LinkCallsProjections(link: string, hits: seq<MpInfo>, selected: Option<string>)
    ensures FlatMap(LinkCalls(link, hits, selected), LookupOf) == [link]
    ensures FlatMap(LinkCalls(link, hits, selected), AddOf)
            == if hits != [] then [NewFeedFor(hits[0], selected)] else []
  {
    var lc := LinkCalls(link, hits, selected);
    assert FlatMap(lc, LookupOf) == LookupOf(lc[0]) + FlatMap(lc[1..], LookupOf);
    assert FlatMap(lc, AddOf) == AddOf(lc[0]) + FlatMap(lc[1..], AddOf);
    if hits != [] {
      var t := lc[1..];
      assert FlatMap(t, LookupOf) == LookupOf(t[0]) + FlatMap(t[1..], LookupOf);
      assert FlatMap(t, AddOf) == AddOf(t[0]) + FlatMap(t[1..], AddOf);
      var u := t[1..];
      assert FlatMap(u, LookupOf) == LookupOf(u[0]) + FlatMap(u[1..], LookupOf);
      assert FlatMap(u, AddOf) == AddOf(u[0]) + FlatMap(u[1..], AddOf);
      assert u[1..] == [];
    } else {
      assert lc[1..] == [];
    }
  }

  /** `ConfirmCalls` of one more link appends that link's calls. */
  lemma ConfirmCallsStep(links: seq<string>, hits: seq<seq<MpInfo>>, i: nat, selected: Option<string>)
    requires |links| == |hits| && i < |links|
    ensures ConfirmCalls(links[..i + 1], hits[..i + 1], selected)
            == ConfirmCalls(links[..i], hits[..i], selected) + LinkCalls(links[i], hits[i], selected)
  {
    assert links[..i + 1][..i] == links[..i] && hits[..i + 1][..i] == hits[..i];
  }

  /** Every processed link is looked up exactly once, in input order. */
  lemma {:induction false} ConfirmLooksUpEveryLink(links: seq<string>, hits: seq<seq<MpInfo>>, selected: Option<string>)
    requires |links| == |hits|
    ensures FlatMap(ConfirmCalls(links, hits, selected), LookupOf) == links
  {
    if links != [] {
      var n := |links| - 1;
      ConfirmLooksUpEveryLink(links[..n], hits[..n], selected);
      FlatMapAppend(ConfirmCalls(links[..n], hits[..n], selected), LinkCalls(links[n], hits[n], selected), LookupOf);
      LinkCallsProjections(links[n], hits[n], selected);
      assert links == links[..n] + [links[n]];
    }
  }

  /** Reference definition of what the loop adds: for each lookup in turn
      that found an account, the feed built from its first hit. */
  function FoundFeeds(hits: seq<seq<MpInfo>>, selected: Option<string>): seq<NewFeed> {
    if hits == [] then []
    else FoundFeeds(hits[..|hits| - 1], selected)
         + if hits[|hits| - 1] != [] then [NewFeedFor(hits[|hits| - 1][0], selected)] else []
  }

  /** The loop adds exactly the first hit of every lookup that found an
      account, in input order: one feed per such lookup, each with status 1
      and the assigned folder. */
  lemma {:induction false} ConfirmAddsFoundFeeds(links: seq<string>, hits: seq<seq<MpInfo>>, selected: Option<string>)
    requires |links| == |hits|
    ensures var adds := FlatMap(ConfirmCalls(links, hits, selected), AddOf);
            && adds == FoundFeeds(hits, selected)
            && |adds| == CountFound(hits)
            && forall k :: 0 <= k < |adds| ==> adds[k].status == 1 && adds[k].folderId == AssignedFolder(selected)
  {
    if links != [] {
      var n := |links| - 1;
      ConfirmAddsFoundFeeds(links[..n], hits[..n], selected);
      var before := ConfirmCalls(links[..n], hits[..n], selected);
      var lc := LinkCalls(links[n], hits[n], selected);
      FlatMapAppend(before, lc, AddOf);
      LinkCallsProjections(links[n], hits[n], selected);
    }
  }

  /** Every add in `calls` is directly followed by the refresh of the same account. */
  predicate RefreshFollowsAdd(calls: seq<Call>) {
    forall k :: 0 <= k < |calls| && calls[k].AddFeed? ==>
      k + 1 < |calls| && calls[k + 1] == RefreshArticles(calls[k].feed.id)
  }

  /** Each add of the loop is directly followed by the refresh of the same account. */
  lemma {:induction false} ConfirmRefreshesAfterAdd(links: seq<string>, hits: seq<seq<MpInfo>>, selected: Option<string>)
    requires |links| == |hits|
    ensures RefreshFollowsAdd(ConfirmCalls(links, hits, selected))
  {
    if links != [] {
      var n := |links| - 1;
      ConfirmRefreshesAfterAdd(links[..n], hits[..n], selected);
      var before := ConfirmCalls(links[..n], hits[..n], selected);
      var lc := LinkCalls(links[n], hits[n], selected);
      var calls := before + lc;
      assert ConfirmCalls(links, hits, selected) == calls;
      forall k | 0 <= k < |calls| && calls[k].AddFeed?
        ensures k + 1 < |calls| && calls[k + 1] == RefreshArticles(calls[k].feed.id)
      {
        if k < |before| {
          assert calls[k] == before[k];
          assert calls[k + 1] == before[k + 1];
        } else {
          LinkCallsRefreshAfterAdd(links[n], hits[n], selected, k - |before|);
          assert calls[k] == lc[k - |before|];
          assert calls[k + 1] == lc[k + 1 - |before|];
        }
      }
    }
  }

  /** Within one iteration, the add is followed by the refresh. */
  lemma LinkCallsRefreshAfterAdd(link: string, hits: seq<MpInfo>, selected: Option<string>, k: nat)
    requires k < |LinkCalls(link, hits, selected)| && LinkCalls(link, hits, selected)[k].AddFeed?
    ensures k + 1 < |LinkCalls(link, hits, selected)|
    ensures LinkCalls(link, hits, selected)[k + 1] == RefreshArticles(LinkCalls(link, hits, selected)[k].feed.id)
  {
  }

  /** The `for (const link of wxsLinks)` loop of `handleConfirm`, issuing
      the calls of each link in turn; `hits[k]` is the lookup answer for
      `links[k]`. */
  method AddLinks(links: seq<string>, hits: seq<seq<MpInfo>>, selected: Option<string>)
    returns (calls: seq<Call>)
    requires |hits| == |links|
    ensures calls == ConfirmCalls(links, hits, selected)
  {
    calls := [];
    var i := 0;
    while i < |links|
      invariant 0 <= i <= |links|
      invariant calls == ConfirmCalls(links[..i], hits[..i], selected)
    {
      ConfirmCallsStep(links, hits, i, selected);
      calls := calls + LinkCalls(links[i], hits[i], selected);
      i := i + 1;
    }
    assert links[..i] == links && hits[..i] == hits;
  }

  // ---------------------------------------------------------------------
  // The current feed and its history fetch

  /** `currentMpInfo`: the first listed feed whose id is `id`, if the list
      is loaded and has one. */
  function FindFeed(items: Option<seq<Feed>>, id: string): (r: Option<Feed>)
    ensures r.None? <==> items.None? || forall k :: 0 <= k < |items.value| ==> items.value[k].id != id
    ensures r.Some? ==> r.value in items.value && r.value.id == id
    ensures r.Some? ==> exists k :: 0 <= k < |items.value| && items.value[k] == r.value
                                    && forall j :: 0 <= j < k ==> items.value[j].id != id
  {
    if items.None? then None else FirstWithId(items.value, id)
  }

  function FirstWithId(feeds: seq<Feed>, id: string): (r: Option<Feed>)
    ensures r.None? <==> forall k :: 0 <= k < |feeds| ==> feeds[k].id != id
    ensures r.Some? ==> r.value in feeds && r.value.id == id
    ensures r.Some? && feeds != [] && feeds[0].id == id ==> r.value == feeds[0]
    ensures r.Some? ==> exists k :: 0 <= k < |feeds| && feeds[k] == r.value
                                    && forall j :: 0 <= j < k ==> feeds[j].id != id
  {
    if feeds == [] then None
    else if feeds[0].id == id then Some(feeds[0])
    else FirstWithId(feeds[1..], id)
  }

  /** The history fetch the server reports as running, with its page. */
  datatype HistoryProgress = HistoryProgress(id: string, page: int)

  predicate FetchingHistoryOf(inProgress: Option<HistoryProgress>, current: Feed) {
    inProgress.Some? && inProgress.value.id == current.id
  }

  /** The `mpId` a click on the history link sends: `''` (stop) while the
      current feed's fetch runs, the current feed otherwise (start). */
  function HistoryRequest(inProgress: Option<HistoryProgress>, current: Feed): (mpId: string)
    ensures current.id != "" ==> (mpId == "" <==> FetchingHistoryOf(inProgress, current))
    ensures mpId != "" ==> mpId == current.id
  {
    if FetchingHistoryOf(inProgress, current) then "" else current.id
  }

  /** The history link is disabled while another feed's fetch runs or while
      either the history or the article refresh call is loading. */
  predicate HistoryDisabled(inProgress: Option<HistoryProgress>, current: Feed,
                            historyLoading: bool, articlesLoading: bool)
  {
    (if inProgress.Some? && inProgress.value.id != "" then inProgress.value.id != current.id else false)
    || historyLoading || articlesLoading
  }

  /** A click on the enabled history link never starts a second fetch: it
      starts one only when none is running, and otherwise stops the current
      feed's own fetch. */
  lemma EnabledHistoryClick(inProgress: Option<HistoryProgress>, current: Feed,
                            historyLoading: bool, articlesLoading: bool)
    requires !HistoryDisabled(inProgress, current, historyLoading, articlesLoading)
    ensures !historyLoading && !articlesLoading
    ensures HistoryRequest(inProgress, current) != "" ==>
              inProgress.None? || inProgress.value.id == ""
    ensures HistoryRequest(inProgress, current) == "" && current.id != "" ==>
              inProgress.value.id == current.id
  {
  }

  // ---------------------------------------------------------------------
  // Selection of feeds

  /** `prev.filter(id => id !== feedId)`. */
  function RemoveAll(s: seq<string>, x: string): (r: seq<string>)
    ensures x !in r
    ensures forall y :: y != x ==> multiset(r)[y] == multiset(s)[y]
  {
    if s == [] then []
    else (assert s == [s[0]] + s[1..];
          if s[0] == x then RemoveAll(s[1..], x) else [s[0]] + RemoveAll(s[1..], x))
  }

  /** Removal works element by element: the ids kept stay in their order. */
  lemma {:induction false} RemoveAllAppend(a: seq<string>, b: seq<string>, x: string)
    ensures RemoveAll(a + b, x) == RemoveAll(a, x) + RemoveAll(b, x)
  {
    if a == [] {
      assert a + b == b;
    } else {
      assert (a + b)[1..] == a[1..] + b;
      RemoveAllAppend(a[1..], b, x);
    }
  }

  predicate Distinct(s: seq<string>) {
    forall i, j :: 0 <= i < j < |s| ==> s[i] != s[j]
  }

  lemma {:induction false} RemoveAllKeepsDistinct(s: seq<string>, x: string)
    requires Distinct(s)
    ensures Distinct(RemoveAll(s, x))
  {
    if s != [] {
      RemoveAllKeepsDistinct(s[1..], x);
      if s[0] != x {
        assert s[0] !in s[1..];
        assert multiset(RemoveAll(s[1..], x))[s[0]] == 0;
      }
    }
  }

  /** The selection after a click on feed `x` in selection mode. */
  function Toggled(s: seq<string>, x: string): seq<string> {
    if x in s then RemoveAll(s, x) else s + [x]
  }

  /** Clicking in selection mode flips whether the feed is selected and never
      introduces a duplicate. */
  lemma ToggledKeepsDistinct(s: seq<string>, x: string)
    requires Distinct(s)
    ensures Distinct(Toggled(s, x))
    ensures x in Toggled(s, x) <==> x !in s
  {
    if x in s { RemoveAllKeepsDistinct(s, x); }
  }

  /** `items.map(item => item.id)`. */
  function Ids(feeds: seq<Feed>): (ids: seq<string>)
    ensures |ids| == |feeds| && forall k :: 0 <= k < |feeds| ==> ids[k] == feeds[k].id
  {
    seq(|feeds|, k requires 0 <= k < |feeds| => feeds[k].id)
  }

  /** The selection after `handleSelectAll`: cleared when as many ids are
      selected as there are feeds, else every listed id in list order. */
  function SelectAllResult(selected: seq<string>, items: Option<seq<Feed>>): (r: seq<string>)
    ensures |selected| == (if items.Some? then |items.value| else 0) ==> r == []
    ensures |selected| != (if items.Some? then |items.value| else 0) ==>
              r == if items.Some? then Ids(items.value) else []
  {
    var count := if items.Some? then |items.value| else 0;
    if |selected| == count then [] else if items.Some? then Ids(items.value) else []
  }

  lemma {:induction false} DistinctCard(s: seq<string>)
    requires Distinct(s)
    ensures |set x | x in s| == |s|
  {
    if s != [] {
      var t := s[1..];
      assert Distinct(t);
      DistinctCard(t);
      assert s[0] !in t;
      assert (set x | x in s) == (set x | x in t) + {s[0]};
    }
  }

  /** A subset is no larger than its superset, and equal to it when as large. */
  lemma SubsetCard(a: set<string>, b: set<string>)
    requires a <= b
    ensures |a| <= |b| && (|a| == |b| ==> a == b)
  {
    assert b == a + (b - a);
    if a != b {
      var x :| x in b && x !in a;
      assert x in b - a;
    }
  }

  /** The length test of `handleSelectAll` is an "all selected" test as long
      as both id lists are duplicate-free and only listed ids are selected. */
  lemma SelectAllLengthTest(selected: seq<string>, ids: seq<string>)
    requires Distinct(selected) && Distinct(ids)
    requires forall k :: 0 <= k < |selected| ==> selected[k] in ids
    ensures |selected| == |ids| <==> forall k :: 0 <= k < |ids| ==> ids[k] in selected
  {
    var sel := set x | x in selected;
    var all := set x | x in ids;
    DistinctCard(selected);
    DistinctCard(ids);
    assert sel <= all;
    SubsetCard(sel, all);
    if |selected| == |ids| {
      forall k | 0 <= k < |ids| ensures ids[k] in selected {
        assert ids[k] in all;
      }
    } else {
      assert sel != all;
      var x :| x in all && x !in sel;
      var k :| 0 <= k < |ids| && ids[k] == x;
      assert ids[k] !in selected;
    }
  }

  // ---------------------------------------------------------------------
  // The page's component state

  class FeedsPage {
    var selectedFolderId: Option<string>
    var selectedFeedIds: seq<string>
    var isSelectionMode: bool
    var currentMpId: string
    /** The text of the add dialog. */
    var wxsLink: string
    /** Whether the add dialog is open. */
    var isAddOpen: bool
    /** Whether the move dialog is open. */
    var isMoverOpen: bool

    /** The initial state; `routeId` is the `:id` route parameter. */
    constructor(routeId: Option<string>)
      ensures selectedFolderId == None && selectedFeedIds == [] && !isSelectionMode
      ensures currentMpId == (if routeId.Some? then routeId.value else "")
      ensures wxsLink == "" && !isAddOpen && !isMoverOpen
    {
      selectedFolderId := None;
      selectedFeedIds := [];
      isSelectionMode := false;
      currentMpId := if routeId.Some? then routeId.value else "";
      wxsLink := "";
      isAddOpen := false;
      isMoverOpen := false;
    }

    /** `handleFolderSelect`. */
    method FolderSelect(folderId: Option<string>)
      modifies this
      ensures selectedFolderId == folderId && currentMpId == ""
      ensures !isSelectionMode && selectedFeedIds == []
      ensures wxsLink == old(wxsLink) && isAddOpen == old(isAddOpen) && isMoverOpen == old(isMoverOpen)
    {
      selectedFolderId := folderId;
      currentMpId := "";
      isSelectionMode := false;
      selectedFeedIds := [];
    }

    /** `handleToggleSelectionMode`. */
    method ToggleSelectionMode()
      modifies this
      ensures isSelectionMode == !old(isSelectionMode) && selectedFeedIds == []
      ensures selectedFolderId == old(selectedFolderId) && currentMpId == old(currentMpId)
      ensures wxsLink == old(wxsLink) && isAddOpen == old(isAddOpen) && isMoverOpen == old(isMoverOpen)
    {
      isSelectionMode := !isSelectionMode;
      selectedFeedIds := [];
    }

    /** `handleFeedSelection`: append on select (no duplicate check), remove
        every occurrence on deselect. */
    method FeedSelection(feedId: string, isSelected: bool)
      modifies this`selectedFeedIds
      ensures isSelected ==> selectedFeedIds == old(selectedFeedIds) + [feedId]
      ensures !isSelected ==> selectedFeedIds == RemoveAll(old(selectedFeedIds), feedId)
    {
      if isSelected {
        selectedFeedIds := selectedFeedIds + [feedId];
      } else {
        selectedFeedIds := RemoveAll(selectedFeedIds, feedId);
      }
    }

    /** A click on a listed feed: in selection mode it flips the feed's
        check box, otherwise it makes the feed the current one. */
    method ClickFeed(feedId: string)
      modifies this`selectedFeedIds, this`currentMpId
      ensures isSelectionMode ==> selectedFeedIds == Toggled(old(selectedFeedIds), feedId)
                                  && currentMpId == old(currentMpId)
      ensures !isSelectionMode ==> currentMpId == feedId && selectedFeedIds == old(selectedFeedIds)
    {
      if isSelectionMode {
        FeedSelection(feedId, feedId !in selectedFeedIds);
      } else {
        currentMpId := feedId;
      }
    }

    /** `handleSelectAll` over the loaded feed list (`None` before it loads). */
    method SelectAll(items: Option<seq<Feed>>)
      modifies this`selectedFeedIds
      ensures selectedFeedIds == SelectAllResult(old(selectedFeedIds), items)
    {
      var count := if items.Some? then |items.value| else 0;
      if |selectedFeedIds| == count {
        selectedFeedIds := [];
      } else {
        selectedFeedIds := if items.Some? then Ids(items.value) else [];
      }
    }

    /** `handleMoveSuccess` (the list refetch is not modelled). */
    method MoveSuccess()
      modifies this
      ensures selectedFeedIds == [] && !isSelectionMode
      ensures selectedFolderId == old(selectedFolderId) && currentMpId == old(currentMpId)
      ensures wxsLink == old(wxsLink) && isAddOpen == old(isAddOpen) && isMoverOpen == old(isMoverOpen)
    {
      selectedFeedIds := [];
      isSelectionMode := false;
    }

    /** The move button: opens the move dialog for the selected feeds. */
    method OpenMover()
      modifies this`isMoverOpen
      ensures isMoverOpen
    {
      isMoverOpen := true;
    }

    /** The move dialog's `onClose`. */
    method CloseMover()
      modifies this`isMoverOpen
      ensures !isMoverOpen
    {
      isMoverOpen := false;
    }

    /** The add button: opens the add dialog. */
    method OpenAdd()
      modifies this`isAddOpen
      ensures isAddOpen
    {
      isAddOpen := true;
    }

    /** Typing in the add dialog. */
    method EditLinks(text: string)
      modifies this`wxsLink
      ensures wxsLink == text
    {
      wxsLink := text;
    }

    /** `handleConfirm`: looks up every processed link in order, adds and
        refreshes each account found, then clears the text and closes the
        dialog. `hits[k]` is the answer of the k-th lookup. */
    method Confirm(hits: seq<seq<MpInfo>>) returns (calls: seq<Call>)
      requires |hits| == |ProcessedLinks(wxsLink)|
      modifies this`wxsLink, this`isAddOpen
      ensures calls == ConfirmCalls(ProcessedLinks(old(wxsLink)), hits, selectedFolderId)
      ensures wxsLink == "" && !isAddOpen
    {
      var links := ProcessedLinks(wxsLink);
      calls := AddLinks(links, hits, selectedFolderId);
      wxsLink := "";
      isAddOpen := false;
    }
  }
}
