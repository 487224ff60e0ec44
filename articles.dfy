/** The article list of one subscription (`apps/web/src/pages/feeds/list.tsx`):
    the paged query it issues, the flattening of the loaded pages into the
    table's rows, the "load more" rule, and the link each title points at.
    Fetching pages is the query library's work; its pages are inputs. */
module Articles {
  import opened Common
  import opened Feeds

  datatype Article = Article(id: string, title: string, publishTime: int)

  /** One loaded page and the cursor of the page after it, if any. */
  datatype ArticlePage = ArticlePage(items: seq<Article>, nextCursor: Option<string>)

  /** The pages loaded so far, oldest first. */
  datatype InfiniteData = InfiniteData(pages: seq<ArticlePage>)

  /** The input of the article list query. */
  datatype ArticleQuery = ArticleQuery(limit: nat, mpId: string)

  /** Twenty articles per page. */
  const PageSize: nat := 20

  /** The query for the route's feed id; without one it asks for every feed's
      articles (the empty id). */
  function QueryFor(routeId: Option<string>): (q: ArticleQuery)
    ensures q.limit == PageSize
    ensures Truthy(routeId) ==> q.mpId == routeId.value
    ensures !Truthy(routeId) ==> q.mpId == ""
  {
    ArticleQuery(PageSize, if routeId.Some? then routeId.value else "")
  }

  /** The reducer: `acc` followed by the items of each page in turn. */
  function Reduce(acc: seq<Article>, pages: seq<ArticlePage>): seq<Article>
    decreases |pages|
  {
    if pages == [] then acc else Reduce(acc + pages[0].items, pages[1..])
  }

  /** The table's rows: nothing before the first page arrives, then the
      items of every loaded page in page order. */
  function Items(data: Option<InfiniteData>): (items: seq<Article>)
    ensures data.None? ==> items == []
    ensures data.Some? ==> items == AllItems(data.value.pages)
  {
    if data.None? then []
    else (ReduceIsConcat([], data.value.pages); Reduce([], data.value.pages))
  }

  /** Reference definition: the items of every page, concatenated. */
  function AllItems(pages: seq<ArticlePage>): seq<Article> {
    if pages == [] then [] else pages[0].items + AllItems(pages[1..])
  }

  /** The number of items over all pages. */
  function TotalCount(pages: seq<ArticlePage>): nat {
    if pages == [] then 0 else |pages[0].items| + TotalCount(pages[1..])
  }

  /** The left fold is the concatenation. */
  lemma {:induction false} ReduceIsConcat(acc: seq<Article>, pages: seq<ArticlePage>)
    ensures Reduce(acc, pages) == acc + AllItems(pages)
    decreases |pages|
  {
    if pages != [] {
      ReduceIsConcat(acc + pages[0].items, pages[1..]);
      AppendAssoc(acc, pages[0].items, AllItems(pages[1..]));
    }
  }

  lemma {:induction false} AllItemsAppend(a: seq<ArticlePage>, b: seq<ArticlePage>)
    ensures AllItems(a + b) == AllItems(a) + AllItems(b)
  {
    if a == [] {
      assert a + b == b;
    } else {
      assert (a + b)[1..] == a[1..] + b;
      AllItemsAppend(a[1..], b);
      AppendAssoc(a[0].items, AllItems(a[1..]), AllItems(b));
    }
  }

  lemma {:induction false} AllItemsLength(pages: seq<ArticlePage>)
    ensures |AllItems(pages)| == TotalCount(pages)
  {
    if pages != [] {
      AllItemsLength(pages[1..]);
    }
  }

  /** There is one row per loaded item. */
  lemma ItemsLength(data: InfiniteData)
    ensures |Items(Some(data))| == TotalCount(data.pages)
  {
    AllItemsLength(data.pages);
  }

  /** Fetching the next page appends its items and leaves the earlier rows
      where they were. */
  lemma ItemsAfterFetch(data: InfiniteData, page: ArticlePage)
    ensures Items(Some(InfiniteData(data.pages + [page]))) == Items(Some(data)) + page.items
  {
    AllItemsAppend(data.pages, [page]);
    assert AllItems([page]) == page.items + AllItems([]);
  }

  /** Item `i` of page `j` is row `i` after the rows of the earlier pages. */
  lemma ItemPosition(data: InfiniteData, j: nat, i: nat)
    requires j < |data.pages| && i < |data.pages[j].items|
    ensures TotalCount(data.pages[..j]) + i < |Items(Some(data))|
    ensures Items(Some(data))[TotalCount(data.pages[..j]) + i] == data.pages[j].items[i]
  {
    var pages := data.pages;
    assert pages == pages[..j] + pages[j..];
    AllItemsAppend(pages[..j], pages[j..]);
    AllItemsLength(pages[..j]);
  }

  /** `getNextPageParam`: the last page's cursor; nothing before any page
      has arrived. */
  function NextCursor(data: InfiniteData): (cursor: Option<string>)
    ensures data.pages == [] ==> cursor.None?
    ensures data.pages != [] ==> cursor == data.pages[|data.pages| - 1].nextCursor
  {
    if data.pages == [] then None else data.pages[|data.pages| - 1].nextCursor
  }

  /** Whether there is a page after the loaded ones. */
  predicate HasNextPage(data: InfiniteData) {
    NextCursor(data).Some?
  }

  /** After a fetch, whether there is more depends only on the page fetched. */
  lemma HasNextAfterFetch(data: InfiniteData, page: ArticlePage)
    ensures HasNextPage(InfiniteData(data.pages + [page])) <==> page.nextCursor.Some?
  {
  }

  /** The "load more" button is shown when there is a next page and nothing
      is loading. */
  predicate LoadMoreVisible(hasNextPage: bool, isLoading: bool) {
    hasNextPage && !isLoading
  }

  /** Once a page without a cursor has been fetched, "load more" is gone. */
  lemma NoMoreAfterLastPage(data: InfiniteData, page: ArticlePage, isLoading: bool)
    requires page.nextCursor.None?
    ensures !LoadMoreVisible(HasNextPage(InfiniteData(data.pages + [page])), isLoading)
  {
  }

  /** The share link a title opens. */
  function TitleLink(id: string): (link: string)
    ensures StartsWith(link, ShareLinkPrefix)
    ensures link[|ShareLinkPrefix|..] == id
  {
    ShareLinkPrefix + id
  }

  /** Different articles open different links. */
  lemma TitleLinkInjective(a: string, b: string)
    requires TitleLink(a) == TitleLink(b)
    ensures a == b
  {
  }

  /** A title's link, pasted into the add-feed dialog, enables the confirm
      button and is submitted as exactly one link. */
  lemma TitleLinkAddsOne(id: string)
    requires '\n' !in id
    ensures CanSubmitLinks(TitleLink(id))
    ensures ProcessedLinks(TitleLink(id)) == [TitleLink(id)]
  {
    var link := TitleLink(id);
    assert forall j :: 0 <= j < |ShareLinkPrefix| ==> ShareLinkPrefix[j] != '\n';
    assert '\n' !in link;
    assert IndexOf(link, '\n') == |link|;
    assert Split(link, '\n') == [link];
    assert !IsJsWhitespace(link[0]);
    NonBlankSingle(link);
  }
}
