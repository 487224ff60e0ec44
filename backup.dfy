/** The pure part of the backup script (`apps/server/src/scripts/backup-feeds.ts`):
    the three ordered table reads, the account projection without the
    token, the backup envelope with its summary, and the file name built
    from the ISO time. The tables and both readings of the clock are
    inputs; the database schema is not part of this model, so rows carry
    the fields the script and the web pages name. */
module Backup {
  import opened Common

  datatype FeedRow = FeedRow(id: string, mpName: string, mpCover: string, mpIntro: string,
                             status: int, syncTime: int, hasHistory: int,
                             folderId: Option<string>, createdAt: int, updatedAt: int)

  datatype ArticleRow = ArticleRow(id: string, mpId: string, title: string, picUrl: string,
                                   publishTime: int, createdAt: int, updatedAt: int)

  /** An account as stored, credentials included. */
  datatype AccountRow = AccountRow(id: string, token: string, name: string, status: int,
                                   createdAt: int, updatedAt: int)

  /** An account as exported: the selected columns only, so there is no
      place for the token. */
  datatype ExportedAccount = ExportedAccount(id: string, name: string, status: int,
                                             createdAt: int, updatedAt: int)

  datatype Database = Database(feeds: seq<FeedRow>, articles: seq<ArticleRow>, accounts: seq<AccountRow>)

  datatype BackupData = BackupData(feeds: seq<FeedRow>, articles: seq<ArticleRow>,
                                   accounts: seq<ExportedAccount>)

  datatype Summary = Summary(feedsCount: nat, articlesCount: nat, accountsCount: nat)

  datatype BackupEnvelope = BackupEnvelope(version: string, exportTime: string,
                                           data: BackupData, summary: Summary)

  const Version := "1.0"

  // Ordering of query results, as an insertion sort on an integer key.

  predicate SortedBy<T>(s: seq<T>, key: T -> int) {
    forall i, j :: 0 <= i < j < |s| ==> key(s[i]) <= key(s[j])
  }

  function Insert<T>(x: T, s: seq<T>, key: T -> int): seq<T> {
    if s == [] || key(x) <= key(s[0]) then [x] + s else [s[0]] + Insert(x, s[1..], key)
  }

  function SortBy<T>(s: seq<T>, key: T -> int): seq<T> {
    if s == [] then [] else Insert(s[0], SortBy(s[1..], key), key)
  }

  /** Inserting keeps a lower bound every key already meets. */
  lemma {:induction false} InsertBound<T>(x: T, s: seq<T>, key: T -> int, b: int)
    requires b <= key(x) && forall k :: 0 <= k < |s| ==> b <= key(s[k])
    ensures forall k :: 0 <= k < |Insert(x, s, key)| ==> b <= key(Insert(x, s, key)[k])
  {
    if s != [] && key(s[0]) < key(x) {
      InsertBound(x, s[1..], key, b);
    }
  }

  /** Inserting into a sorted sequence keeps it sorted. */
  lemma {:induction false} InsertSorted<T>(x: T, s: seq<T>, key: T -> int)
    requires SortedBy(s, key)
    ensures SortedBy(Insert(x, s, key), key)
  {
    if s == [] || key(x) <= key(s[0]) {
      ConsSorted(x, s, key);
    } else {
      InsertSorted(x, s[1..], key);
      InsertBound(x, s[1..], key, key(s[0]));
      ConsSorted(s[0], Insert(x, s[1..], key), key);
    }
  }

  /** Inserting adds exactly `x`. */
  lemma {:induction false} InsertMultiset<T>(x: T, s: seq<T>, key: T -> int)
    ensures multiset(Insert(x, s, key)) == multiset(s) + multiset{x}
  {
    if s == [] || key(x) <= key(s[0]) {
      assert multiset([x] + s) == multiset{x} + multiset(s);
    } else {
      var rest := s[1..];
      InsertMultiset(x, rest, key);
      var r := Insert(x, rest, key);
      assert s == [s[0]] + rest;
      assert multiset([s[0]] + r) == multiset{s[0]} + multiset(r);
    }
  }

  lemma ConsSorted<T>(h: T, r: seq<T>, key: T -> int)
    requires SortedBy(r, key) && forall k :: 0 <= k < |r| ==> key(h) <= key(r[k])
    ensures SortedBy([h] + r, key)
  {
    var s := [h] + r;
    forall i, j | 0 <= i < j < |s| ensures key(s[i]) <= key(s[j]) {
      assert s[j] == r[j - 1];
      if i > 0 {
        assert s[i] == r[i - 1];
      }
    }
  }

  /** The sort orders by `key` and neither loses nor invents a row. */
  lemma {:induction false} SortBySpec<T>(s: seq<T>, key: T -> int)
    ensures SortedBy(SortBy(s, key), key)
    ensures multiset(SortBy(s, key)) == multiset(s)
  {
    if s != [] {
      SortBySpec(s[1..], key);
      InsertSorted(s[0], SortBy(s[1..], key), key);
      InsertMultiset(s[0], SortBy(s[1..], key), key);
      assert s == [s[0]] + s[1..];
    }
  }

  function FeedCreated(f: FeedRow): int { f.createdAt }

  function ArticleRecency(a: ArticleRow): int { -a.publishTime }

  function AccountCreated(a: ExportedAccount): int { a.createdAt }

  /** The feed read: every feed, oldest first. */
  function ReadFeeds(table: seq<FeedRow>): (r: seq<FeedRow>)
    ensures multiset(r) == multiset(table)
    ensures forall i, j :: 0 <= i < j < |r| ==> r[i].createdAt <= r[j].createdAt
  {
    SortBySpec(table, FeedCreated);
    SortBy(table, FeedCreated)
  }

  /** The article read: every article, newest first. */
  function ReadArticles(table: seq<ArticleRow>): (r: seq<ArticleRow>)
    ensures multiset(r) == multiset(table)
    ensures forall i, j :: 0 <= i < j < |r| ==> r[i].publishTime >= r[j].publishTime
  {
    SortBySpec(table, ArticleRecency);
    SortBy(table, ArticleRecency)
  }

  /** The selected columns of one account. */
  function Project(a: AccountRow): (e: ExportedAccount)
    ensures e.id == a.id && e.name == a.name && e.status == a.status
    ensures e.createdAt == a.createdAt && e.updatedAt == a.updatedAt
  {
    ExportedAccount(a.id, a.name, a.status, a.createdAt, a.updatedAt)
  }

  function ProjectAll(table: seq<AccountRow>): (r: seq<ExportedAccount>)
    ensures |r| == |table|
    ensures forall k :: 0 <= k < |r| ==> r[k] == Project(table[k])
  {
    seq(|table|, k requires 0 <= k < |table| => Project(table[k]))
  }

  /** The account read: the selected columns of every account, oldest first. */
  function ReadAccounts(table: seq<AccountRow>): (r: seq<ExportedAccount>)
    ensures multiset(r) == multiset(ProjectAll(table))
    ensures forall i, j :: 0 <= i < j < |r| ==> r[i].createdAt <= r[j].createdAt
  {
    SortBySpec(ProjectAll(table), AccountCreated);
    SortBy(ProjectAll(table), AccountCreated)
  }

  /** The envelope written to the backup file; `exportTime` is the ISO time
      read when it is built. */
  function CreateBackup(db: Database, exportTime: string): (b: BackupEnvelope)
    ensures b.version == "1.0" && b.exportTime == exportTime
    ensures b.summary == Summary(|b.data.feeds|, |b.data.articles|, |b.data.accounts|)
    ensures b.summary == Summary(|db.feeds|, |db.articles|, |db.accounts|)
    ensures multiset(b.data.feeds) == multiset(db.feeds)
    ensures multiset(b.data.articles) == multiset(db.articles)
  {
    var feeds := ReadFeeds(db.feeds);
    var articles := ReadArticles(db.articles);
    var accounts := ReadAccounts(db.accounts);
    assert |feeds| == |multiset(feeds)| == |multiset(db.feeds)| == |db.feeds|;
    assert |articles| == |multiset(articles)| == |multiset(db.articles)| == |db.articles|;
    assert |accounts| == |multiset(accounts)| == |multiset(ProjectAll(db.accounts))| == |db.accounts|;
    BackupEnvelope(Version, exportTime, BackupData(feeds, articles, accounts),
                   Summary(|feeds|, |articles|, |accounts|))
  }

  /** Every exported account is the projection of a stored account, so no
      token reaches the backup, and each one is in it. */
  lemma BackupAccountsAreProjections(db: Database, exportTime: string)
    ensures forall e :: e in CreateBackup(db, exportTime).data.accounts ==>
              exists k :: 0 <= k < |db.accounts| && e == Project(db.accounts[k])
    ensures forall k :: 0 <= k < |db.accounts| ==>
              Project(db.accounts[k]) in CreateBackup(db, exportTime).data.accounts
  {
    var accounts := CreateBackup(db, exportTime).data.accounts;
    var projected := ProjectAll(db.accounts);
    assert multiset(accounts) == multiset(projected);
    forall e | e in accounts
      ensures exists k :: 0 <= k < |db.accounts| && e == Project(db.accounts[k])
    {
      assert e in multiset(projected);
      var k :| 0 <= k < |projected| && projected[k] == e;
    }
    forall k | 0 <= k < |db.accounts|
      ensures Project(db.accounts[k]) in accounts
    {
      assert projected[k] in multiset(accounts);
    }
  }

  /** The ISO time with every `:` and `.` replaced by `-`. */
  function SanitizeTimestamp(iso: string): (r: string)
    ensures |r| == |iso|
    ensures forall i :: 0 <= i < |r| ==>
              r[i] == (if iso[i] == ':' || iso[i] == '.' then '-' else iso[i])
    ensures ':' !in r && '.' !in r
  {
    if iso == "" then ""
    else [if iso[0] == ':' || iso[0] == '.' then '-' else iso[0]] + SanitizeTimestamp(iso[1..])
  }

  /** A sanitised time is left alone by a second sanitisation. */
  lemma SanitizeIdempotent(iso: string)
    ensures SanitizeTimestamp(SanitizeTimestamp(iso)) == SanitizeTimestamp(iso)
  {
    var s := SanitizeTimestamp(iso);
    assert forall i :: 0 <= i < |s| ==> s[i] != ':' && s[i] != '.';
  }

  const FilePrefix := "wewe-rss-backup-"
  const FileSuffix := ".json"

  /** The backup file's name for the ISO time read when it is named. */
  function BackupFileName(iso: string): (name: string)
    ensures |name| == |FilePrefix| + |iso| + |FileSuffix|
    ensures StartsWith(name, FilePrefix)
    ensures name[|FilePrefix|..|name| - |FileSuffix|] == SanitizeTimestamp(iso)
    ensures name[|name| - |FileSuffix|..] == FileSuffix
    ensures ':' !in name
  {
    FilePrefix + SanitizeTimestamp(iso) + FileSuffix
  }
}
