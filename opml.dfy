/** The OPML export of the subscription page (`handleExportOpml` in
    `apps/web/src/pages/feeds/index.tsx`): an OPML 2.0 subscription list
    with one `<outline type="rss">` per feed, whose `xmlUrl` and `htmlUrl`
    both point at the feed's Atom endpoint. Feed names are inserted as they
    are, without XML escaping, so nothing here claims the document is
    well-formed XML; the properties are about its layout. */
module Opml {
  import opened Common
  import opened Feeds

  /** The text before the first outline, as the template literal has it. */
  const Header := "<?xml version=\"1.0\" encoding=\"UTF-8\"?>\n    <opml version=\"2.0\">\n      <head>\n        <title>WeWeRSS 所有订阅源</title>\n      </head>\n      <body>\n    "

  /** The text after the last outline. */
  const Footer := "    </body>\n    </opml>"

  /** The Atom endpoint of feed `id` on the server at `origin`. */
  function AtomUrl(origin: string, id: string): string {
    origin + "/feeds/" + id + ".atom"
  }

  /** Different feeds get different endpoints. */
  lemma AtomUrlInjective(origin: string, a: string, b: string)
    requires AtomUrl(origin, a) == AtomUrl(origin, b)
    ensures a == b
  {
    var u := AtomUrl(origin, a);
    var n := |origin| + |"/feeds/"|;
    assert |a| == |b|;
    assert a == u[n..n + |a|];
    assert b == AtomUrl(origin, b)[n..n + |b|];
  }

  /** One subscription-list outline line, newline included. */
  function Outline(text: string, xmlUrl: string, htmlUrl: string): string {
    "    <outline text=\"" + text + "\" type=\"rss\" xmlUrl=\"" + xmlUrl + "\" htmlUrl=\"" + htmlUrl + "\"/>\n"
  }

  /** The outline of one feed: its name as text, its Atom endpoint as both URLs. */
  function FeedOutline(origin: string, f: Feed): string {
    Outline(f.mpName, AtomUrl(origin, f.id), AtomUrl(origin, f.id))
  }

  /** The outlines of `feeds`, in order. */
  function Outlines(origin: string, feeds: seq<Feed>): string {
    if feeds == [] then ""
    else Outlines(origin, feeds[..|feeds| - 1]) + FeedOutline(origin, feeds[|feeds| - 1])
  }

  lemma OutlinesSnoc(origin: string, feeds: seq<Feed>, i: nat)
    requires i < |feeds|
    ensures Outlines(origin, feeds[..i + 1]) == Outlines(origin, feeds[..i]) + FeedOutline(origin, feeds[i])
  {
    assert feeds[..i + 1][..i] == feeds[..i];
  }

  /** The exported document: nothing when the list is not loaded or empty. */
  function OpmlDocument(items: Option<seq<Feed>>, origin: string): Option<string> {
    if items.None? || items.value == [] then None
    else Some(Header + Outlines(origin, items.value) + Footer)
  }

  /** `handleExportOpml`: appends one outline per feed to the header, in a
      loop, then the footer. */
  method ExportOpml(items: Option<seq<Feed>>, origin: string) returns (doc: Option<string>)
    ensures doc == OpmlDocument(items, origin)
  {
    if items.None? || |items.value| == 0 {
      return None;
    }
    var feeds := items.value;
    var content := Header;
    var i := 0;
    while i < |feeds|
      invariant 0 <= i <= |feeds|
      invariant content == Header + Outlines(origin, feeds[..i])
    {
      OutlinesSnoc(origin, feeds, i);
      ghost var done := Outlines(origin, feeds[..i]);
      var line := FeedOutline(origin, feeds[i]);
      AppendAssoc(Header, done, line);
      content := content + line;
      i := i + 1;
    }
    assert feeds[..i] == feeds;
    ghost var body := Outlines(origin, feeds);
    assert content == Header + body;
    doc := Some(content + Footer);
    assert doc == Some(Header + body + Footer);
  }

  /** The outlines of a concatenation are the concatenated outlines. */
  lemma {:induction false} OutlinesAppend(origin: string, a: seq<Feed>, b: seq<Feed>)
    ensures Outlines(origin, a + b) == Outlines(origin, a) + Outlines(origin, b)
    decreases |b|
  {
    if b == [] {
      assert a + b == a;
    } else {
      var n := |b| - 1;
      assert (a + b)[..|a + b| - 1] == a + b[..n];
      assert (a + b)[|a + b| - 1] == b[n];
      OutlinesAppend(origin, a, b[..n]);
      var line := FeedOutline(origin, b[n]);
      assert Outlines(origin, a + b) == Outlines(origin, a + b[..n]) + line;
      assert Outlines(origin, b) == Outlines(origin, b[..n]) + line;
      AppendAssoc(Outlines(origin, a), Outlines(origin, b[..n]), line);
    }
  }

  /** Feed `k`'s outline sits between the outlines of the feeds before it
      and those after it: one outline per feed, in feed order. */
  lemma OutlineAt(origin: string, feeds: seq<Feed>, k: nat)
    requires k < |feeds|
    ensures Outlines(origin, feeds)
            == Outlines(origin, feeds[..k]) + FeedOutline(origin, feeds[k]) + Outlines(origin, feeds[k + 1..])
  {
    assert feeds == feeds[..k] + [feeds[k]] + feeds[k + 1..];
    OutlinesAppend(origin, feeds[..k] + [feeds[k]], feeds[k + 1..]);
    OutlinesAppend(origin, feeds[..k], [feeds[k]]);
    assert [feeds[k]][..0] == [];
  }

  /** The exported document sits between the fixed header and footer, and
      feed `k`'s outline starts right after the outlines of the feeds
      before it. */
  lemma ExportLayout(feeds: seq<Feed>, origin: string, k: nat)
    requires k < |feeds|
    ensures OpmlDocument(Some(feeds), origin) == Some(Header + Outlines(origin, feeds) + Footer)
    ensures Layout(Header, Outlines(origin, feeds), Footer, Outlines(origin, feeds[..k]), FeedOutline(origin, feeds[k]))
  {
    var b := Outlines(origin, feeds[..k]);
    var x := FeedOutline(origin, feeds[k]);
    var a := Outlines(origin, feeds[k + 1..]);
    OutlineAt(origin, feeds, k);
    LayoutHolds(Header, Outlines(origin, feeds), Footer, b, x, a);
  }

  /** `h + body + f` starts with `h`, ends with `f`, and has `line` right
      after `h + before`. */
  predicate Layout(h: string, body: string, f: string, before: string, line: string) {
    var doc := h + body + f;
    var start := |h| + |before|;
    && doc[..|h|] == h
    && doc[|doc| - |f|..] == f
    && start + |line| <= |doc|
    && doc[start..start + |line|] == line
  }

  lemma LayoutHolds(h: string, body: string, f: string, before: string, line: string, after: string)
    requires body == before + line + after
    ensures Layout(h, body, f, before, line)
  {
    var doc := h + body + f;
    assert doc == h + (before + line + after) + f;
  }

  /** The number of occurrences of `c` in `s`. */
  function CountChar(s: string, c: char): nat {
    if s == "" then 0 else (if s[0] == c then 1 else 0) + CountChar(s[1..], c)
  }

  lemma {:induction false} CountCharAppend(a: string, b: string, c: char)
    ensures CountChar(a + b, c) == CountChar(a, c) + CountChar(b, c)
  {
    if a == "" {
      assert a + b == b;
    } else {
      assert (a + b)[1..] == a[1..] + b;
      CountCharAppend(a[1..], b, c);
    }
  }

  lemma {:induction false} CountCharAbsent(s: string, c: char)
    requires c !in s
    ensures CountChar(s, c) == 0
  {
    if s != "" {
      assert s[0] != c;
      CountCharAbsent(s[1..], c);
    }
  }

  /** A feed outline is exactly one line when neither the origin nor the
      feed's name or id contains a line break (names are not escaped). */
  lemma FeedOutlineOneLine(origin: string, f: Feed)
    requires '\n' !in origin && '\n' !in f.mpName && '\n' !in f.id
    ensures CountChar(FeedOutline(origin, f), '\n') == 1
  {
    var url := AtomUrl(origin, f.id);
    assert '\n' !in url;
    var p1 := "    <outline text=\"";
    var p2 := "\" type=\"rss\" xmlUrl=\"";
    var p3 := "\" htmlUrl=\"";
    var p4 := "\"/>";
    assert FeedOutline(origin, f) == p1 + f.mpName + p2 + url + p3 + url + p4 + "\n";
    CountCharAbsent(p1 + f.mpName + p2 + url + p3 + url + p4, '\n');
    CountCharAppend(p1 + f.mpName + p2 + url + p3 + url + p4, "\n", '\n');
  }

  /** Under the same condition on every feed, the outline section has
      exactly one line per feed. */
  lemma {:induction false} OutlinesLineCount(origin: string, feeds: seq<Feed>)
    requires '\n' !in origin
    requires forall k :: 0 <= k < |feeds| ==> '\n' !in feeds[k].mpName && '\n' !in feeds[k].id
    ensures CountChar(Outlines(origin, feeds), '\n') == |feeds|
  {
    if feeds != [] {
      var n := |feeds| - 1;
      OutlinesLineCount(origin, feeds[..n]);
      FeedOutlineOneLine(origin, feeds[n]);
      CountCharAppend(Outlines(origin, feeds[..n]), FeedOutline(origin, feeds[n]), '\n');
    }
  }
}
