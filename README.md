# WeWeRSS subscription pages and backup script, modelled in Dafny

WeWeRSS collects the articles of public accounts and serves them as feeds.
Its web front end has a subscriptions page where you can organise feeds
into folders, paste share links to subscribe, start or stop fetching an
account's history, and export the subscription list as OPML. A server
script writes a JSON backup of the database. These Dafny modules model
the deterministic logic under that glue:

- `Common` covers the JavaScript string behaviour the pages rely on: truthiness of possibly-missing strings, `startsWith`, one-character `split` (with `Join` to state its round trip), and `trim` over the ECMAScript whitespace set.
- `Feeds` models the subscriptions page (`pages/feeds/index.tsx`):
  - the folder filter of the feed query;
  - the folder a new feed is filed under;
  - the processing of pasted share links;
  - the confirm loop's sequence of server calls;
  - the current feed;
  - the history link's start/stop request and its disabled rule;
  - the selection helpers;
  - the page's component state as the class `FeedsPage`.
- `Opml` models the OPML export: a loop that builds the subscription list, proved against a specification function.
- `Folders` models the folder panel (`components/FolderManager.tsx`): the save call, the dialog state as the class `FolderManager`, folder deletion acting on the page, and the count chips.
- `Mover` models the move dialog (`components/FeedMover.tsx`): the target folder mapping, the select's key round trip, and the class `FeedMover`, whose move acts on the page.
- `Articles` models the article list (`pages/feeds/list.tsx`): the query, the flattening of loaded pages, the next cursor, the "load more" rule and title links.
- `Backup` models the pure part of `scripts/backup-feeds.ts`: the ordered table reads, the account projection without the token, the envelope with its summary, and the file name.

Remote calls are not executed. They are recorded as values whose
arguments are checked: `Call`, `FolderCall` and `MoveCall`. What the server answers is a parameter:

- the `getMpInfo` results, one per link;
- whether a save, delete or move succeeds;
- whether the user confirms;
- the loaded pages;
- the database tables;
- the ISO time strings.

Callbacks passed between components are wired to the page object they
reach: `onFolderSelect` is `FeedsPage.FolderSelect`, and `onSuccess`/`onClose` are
`FeedsPage.MoveSuccess`/`FeedsPage.CloseMover`.

## Model

| member | source | states |
|---|---|---|
| Common.TrimEmptyIff | apps/web/src/pages/feeds/index.tsx:135 | a string trims to `''` exactly when every character is ECMAScript whitespace |
| Common.TrimIsSlice | apps/web/src/components/FolderManager.tsx:47 | the trim is a slice of the input with only whitespace cut on either side, and a non-empty trim starts and ends with non-whitespace |
| Common.Split | apps/web/src/pages/feeds/index.tsx:135 | `split('\n')` yields at least one segment and no segment contains the separator |
| Common.JoinSplit | apps/web/src/pages/feeds/index.tsx:135 | joining the segments with the separator gives back the text, so splitting loses and invents nothing |
| Feeds.FeedQueryParams | apps/web/src/pages/feeds/index.tsx:42-49 | the query has no folder filter exactly when the selection is null or `''`; otherwise it filters on the selected id, `'uncategorized'` included |
| Feeds.AssignedFolder | apps/web/src/pages/feeds/index.tsx:149 | a new feed gets the selected folder exactly when one is selected and it is not `'uncategorized'`; otherwise no folder |
| Feeds.NewFeedListed | apps/web/src/pages/feeds/index.tsx:149 | a feed filed by that rule is listed by the page's current folder filter, reading the server's `'uncategorized'` filter as "feeds without a folder" (`ListedBy`) |
| Feeds.NonBlank | apps/web/src/pages/feeds/index.tsx:135 | the kept segments have a non-empty trim and are segments of the input, with none invented |
| Feeds.NonBlankAppend | apps/web/src/pages/feeds/index.tsx:135 | the filter works segment by segment, keeping input order |
| Feeds.NonBlankSingle | apps/web/src/pages/feeds/index.tsx:135 | one segment is kept, untrimmed, exactly when it is not all whitespace |
| Feeds.ProcessedLinks | apps/web/src/pages/feeds/index.tsx:135 | every processed link contains no `\n` (other line terminators such as CR stay in it) and has a non-empty trim |
| Feeds.SubmittableHasShareLink | apps/web/src/pages/feeds/index.tsx:545-547 | when the confirm button is enabled there is at least one link, and the first one starts with the share-link prefix |
| Feeds.ConfirmLooksUpEveryLink | apps/web/src/pages/feeds/index.tsx:136-138 | the confirm loop looks up every processed link exactly once, in order |
| Feeds.ConfirmAddsFoundFeeds | apps/web/src/pages/feeds/index.tsx:139-150 | the adds are exactly `FoundFeeds`: for each lookup in input order that found an account, the feed `NewFeedFor` builds from its first hit; so one per such lookup, each with status 1 and the assigned folder |
| Feeds.ConfirmRefreshesAfterAdd | apps/web/src/pages/feeds/index.tsx:141-151 | every add is immediately followed by the article refresh of the same account |
| Feeds.LinkCallsRefreshAfterAdd | apps/web/src/pages/feeds/index.tsx:141-151 | within one iteration, the add is followed by the refresh of the same id |
| Feeds.AddLinks | apps/web/src/pages/feeds/index.tsx:136-159 | the `for` loop over the links issues exactly the call sequence `ConfirmCalls` specifies |
| Feeds.FindFeed | apps/web/src/pages/feeds/index.tsx:169-171 | the current feed is absent exactly when the list is not loaded or has no feed with that id; otherwise it is the first listed feed with that id |
| Feeds.FirstWithId | apps/web/src/pages/feeds/index.tsx:170 | `find` returns nothing exactly when no element matches, otherwise the element at some position whose every predecessor has another id, i.e. the first match |
| Feeds.HistoryRequest | apps/web/src/pages/feeds/index.tsx:389-397 | the click sends `''` (stop) exactly while the current feed's history fetch is running, and the current feed's id otherwise |
| Feeds.EnabledHistoryClick | apps/web/src/pages/feeds/index.tsx:378-397 | when the link is enabled, no call is loading, and a click either starts a fetch while none runs or stops the current feed's own fetch |
| Feeds.RemoveAll | apps/web/src/pages/feeds/index.tsx:112 | deselecting removes every occurrence of the id and keeps the count of every other id |
| Feeds.RemoveAllAppend | apps/web/src/pages/feeds/index.tsx:112 | removal is element by element, so the other ids keep their order |
| Feeds.RemoveAllKeepsDistinct | apps/web/src/pages/feeds/index.tsx:112 | removing from a duplicate-free selection leaves it duplicate-free |
| Feeds.ToggledKeepsDistinct | apps/web/src/pages/feeds/index.tsx:304-307 | a click in selection mode flips whether the feed is selected and introduces no duplicate |
| Feeds.Ids | apps/web/src/pages/feeds/index.tsx:121 | the id list has one entry per feed, in list order |
| Feeds.SelectAllResult | apps/web/src/pages/feeds/index.tsx:117-123 | select-all clears the selection when its length equals the item count (0 when unloaded), and otherwise selects exactly the listed ids in order |
| Feeds.SelectAllLengthTest | apps/web/src/pages/feeds/index.tsx:118 | for duplicate-free selections of listed ids, the length test holds exactly when every listed feed is selected |
| Feeds.FeedsPage.constructor | apps/web/src/pages/feeds/index.tsx:34-91 | initial state: no folder, empty selection, selection mode off, current feed = route id or `''`, empty link text, both dialogs closed |
| Feeds.FeedsPage.FolderSelect | apps/web/src/pages/feeds/index.tsx:94-99 | selecting a folder sets it, clears the current feed and the selection, and turns selection mode off; the dialogs are untouched |
| Feeds.FeedsPage.ToggleSelectionMode | apps/web/src/pages/feeds/index.tsx:102-105 | selection mode flips and the selection empties; folder and current feed stay |
| Feeds.FeedsPage.FeedSelection | apps/web/src/pages/feeds/index.tsx:108-114 | selecting appends the id at the end with no duplicate check; deselecting removes every occurrence |
| Feeds.FeedsPage.ClickFeed | apps/web/src/pages/feeds/index.tsx:304-311 | in selection mode a click toggles the feed; otherwise it makes it the current feed and keeps the selection |
| Feeds.FeedsPage.SelectAll | apps/web/src/pages/feeds/index.tsx:117-123 | the new selection is `SelectAllResult` of the old selection and the list |
| Feeds.FeedsPage.MoveSuccess | apps/web/src/pages/feeds/index.tsx:126-130 | after a move the selection empties and selection mode turns off; the rest is unchanged |
| Feeds.FeedsPage.OpenMover | apps/web/src/pages/feeds/index.tsx:253 | the move button opens the move dialog |
| Feeds.FeedsPage.CloseMover | apps/web/src/pages/feeds/index.tsx:566 | the mover's `onClose` closes the move dialog |
| Feeds.FeedsPage.OpenAdd | apps/web/src/pages/feeds/index.tsx:219 | the add button opens the add dialog |
| Feeds.FeedsPage.EditLinks | apps/web/src/pages/feeds/index.tsx:532 | typing replaces the link text |
| Feeds.FeedsPage.Confirm | apps/web/src/pages/feeds/index.tsx:132-163 | confirming issues the calls of the loop over the processed links of the text as it was, then clears the text and closes the dialog |
| Opml.AtomUrlInjective | apps/web/src/pages/feeds/index.tsx:190 | different feed ids give different Atom URLs |
| Opml.ExportOpml | apps/web/src/pages/feeds/index.tsx:176-194 | the `forEach` loop's result is nothing for an unloaded or empty list, and otherwise header, one outline per feed in order, then footer |
| Opml.ExportLayout | apps/web/src/pages/feeds/index.tsx:181-194 | the document starts with the fixed header and ends with the footer, and feed k's outline lies right after the outlines of the feeds before it |
| Opml.OutlinesAppend | apps/web/src/pages/feeds/index.tsx:189-191 | the outlines of a concatenation of feed lists are the concatenated outlines |
| Opml.OutlineAt | apps/web/src/pages/feeds/index.tsx:189-191 | feed k's outline sits between the outlines of the feeds before and after it |
| Opml.FeedOutlineOneLine | apps/web/src/pages/feeds/index.tsx:190 | when the origin, name and id contain no line break, a feed's outline holds exactly one newline |
| Opml.OutlinesLineCount | apps/web/src/pages/feeds/index.tsx:189-191 | under that condition, the outline section has exactly one line per feed |
| Folders.SaveCall | apps/web/src/components/FolderManager.tsx:37-56 | no call for a blank name; an edit of the edited folder's id, or an add with order 0, carrying the trimmed non-empty name with no surrounding whitespace |
| Folders.SaveDisabledIff | apps/web/src/components/FolderManager.tsx:216 | the save button is disabled exactly for the names the handler refuses |
| Folders.UncategorizedChip | apps/web/src/components/FolderManager.tsx:137 | the uncategorized chip shows the length of the loaded list, and 0 before it loads |
| Folders.UncategorizedChipMatchesList | apps/web/src/components/FolderManager.tsx:32 | the chip's query is the page's query when the uncategorized folder is selected |
| Folders.FolderChip | apps/web/src/components/FolderManager.tsx:154 | a folder's chip shows its feed count, and 0 when the count is absent |
| Folders.FolderManager.constructor | apps/web/src/components/FolderManager.tsx:27-29 | the dialog starts closed, with an empty name and no folder being edited |
| Folders.FolderManager.SetName | apps/web/src/components/FolderManager.tsx:204 | typing replaces the name |
| Folders.FolderManager.CreateFolder | apps/web/src/components/FolderManager.tsx:37-66 | the call is `SaveCall` of the typed name and edited folder; after success the name is `''`, nothing is being edited and the dialog is closed; after a blank name or a failure nothing changes |
| Folders.FolderManager.CloseDialog | apps/web/src/components/FolderManager.tsx:209 | cancel closes the dialog |
| Folders.FolderManager.EditFolderDialog | apps/web/src/components/FolderManager.tsx:68-73 | editing opens the dialog on that folder, with its name filled in |
| Folders.FolderManager.OpenCreateModal | apps/web/src/components/FolderManager.tsx:94-98 | create opens the dialog with an empty name and no folder being edited |
| Folders.FolderManager.DeleteFolderOf | apps/web/src/components/FolderManager.tsx:75-92 | a declined prompt issues nothing; a successful delete of the selected folder selects "all" on the page; in every other case the page is unchanged |
| Mover.TargetFolder | apps/web/src/components/FeedMover.tsx:33 | the target is null exactly for `''` and `'uncategorized'`, and otherwise the selected id unchanged |
| Mover.SelectedKeys | apps/web/src/components/FeedMover.tsx:66 | the select shows no key exactly when the selection is `''`, and otherwise the selection alone |
| Mover.AdoptedKey | apps/web/src/components/FeedMover.tsx:67-70 | a selection change adopts the first key, and `''` for an empty key set |
| Mover.AdoptShownKeys | apps/web/src/components/FeedMover.tsx:66-70 | adopting the keys the select shows gives back the selection |
| Mover.ShowAdoptedKey | apps/web/src/components/FeedMover.tsx:66-70 | a one-key selection with a non-empty key is shown back as itself |
| Mover.EnabledMoveTarget | apps/web/src/components/FeedMover.tsx:91 | once the move button is enabled, the target is null only for `'uncategorized'` and is otherwise the chosen folder |
| Mover.MovedFeedsListedUnderTarget | apps/web/src/components/FeedMover.tsx:33 | moved feeds are listed by the page's filter for the chosen target, reading the server's `'uncategorized'` filter as "feeds without a folder" (`ListedBy`) |
| Mover.FeedMover.constructor | apps/web/src/components/FeedMover.tsx:23 | the dialog starts with no target |
| Mover.FeedMover.SelectionChange | apps/web/src/components/FeedMover.tsx:67-70 | the target becomes the adopted key |
| Mover.FeedMover.Close | apps/web/src/components/FeedMover.tsx:44-47 | closing resets the target to `''` and closes the move dialog |
| Mover.FeedMover.Move | apps/web/src/components/FeedMover.tsx:29-42 | the request carries the page's selected ids and the target folder; on success it reports their count, runs the success callback and then the close callback (the selection empties, selection mode turns off, the dialog closes); on failure the page is unchanged |
| Articles.QueryFor | apps/web/src/pages/feeds/list.tsx:28-35 | the query asks for 20 articles of the route's feed, or of `''` without one |
| Articles.Items | apps/web/src/pages/feeds/list.tsx:41-46 | no rows without data; otherwise the left fold equals the items of every page concatenated in page order |
| Articles.ReduceIsConcat | apps/web/src/pages/feeds/list.tsx:43-45 | the reducer from any accumulator appends the concatenated page items to it |
| Articles.AllItemsAppend | apps/web/src/pages/feeds/list.tsx:43-45 | the items of two page runs are the items of the first followed by those of the second |
| Articles.ItemsLength | apps/web/src/pages/feeds/list.tsx:41-46 | the number of rows is the sum of the page lengths |
| Articles.ItemsAfterFetch | apps/web/src/pages/feeds/list.tsx:43-45 | fetching a page appends its items and keeps the earlier rows in place |
| Articles.ItemPosition | apps/web/src/pages/feeds/list.tsx:43-45 | item i of page j is the row at the total length of the earlier pages plus i |
| Articles.NextCursor | apps/web/src/pages/feeds/list.tsx:37 | the next page parameter is the last page's cursor, and there is none before the first page |
| Articles.HasNextAfterFetch | apps/web/src/pages/feeds/list.tsx:37 | after a fetch, more pages exist exactly when the fetched page has a cursor |
| Articles.NoMoreAfterLastPage | apps/web/src/pages/feeds/list.tsx:57 | once a page without a cursor is fetched, "load more" is hidden |
| Articles.TitleLink | apps/web/src/pages/feeds/list.tsx:104 | a title links to the share-link prefix followed by exactly the article id |
| Articles.TitleLinkInjective | apps/web/src/pages/feeds/list.tsx:104 | different articles link to different addresses |
| Articles.TitleLinkAddsOne | apps/web/src/pages/feeds/list.tsx:104 | for an article id without `\n`, the title link pasted into the add dialog enables confirm and is processed as exactly one link, itself |
| Backup.SortBySpec | apps/server/src/scripts/backup-feeds.ts:14-18 | the ordering of a read sorts by its key and is a permutation of the table |
| Backup.ReadFeeds | apps/server/src/scripts/backup-feeds.ts:14-18 | the feed read is every feed, oldest `createdAt` first |
| Backup.ReadArticles | apps/server/src/scripts/backup-feeds.ts:21-25 | the article read is every article, newest `publishTime` first |
| Backup.Project | apps/server/src/scripts/backup-feeds.ts:28-36 | an exported account copies id, name, status, createdAt and updatedAt, and its type has no token |
| Backup.ProjectAll | apps/server/src/scripts/backup-feeds.ts:28-36 | one projected account per stored account, in order |
| Backup.ReadAccounts | apps/server/src/scripts/backup-feeds.ts:28-40 | the account read is a permutation of the projected accounts, oldest `createdAt` first |
| Backup.CreateBackup | apps/server/src/scripts/backup-feeds.ts:42-55 | version `'1.0'`; the given export time; each summary count equals both the length of its data list and the size of its table; feeds and articles are permutations of their tables |
| Backup.BackupAccountsAreProjections | apps/server/src/scripts/backup-feeds.ts:28-36 | every exported account is the projection of a stored account, and every stored account's projection is exported |
| Backup.SanitizeTimestamp | apps/server/src/scripts/backup-feeds.ts:64 | the length is kept, each `:` and `.` becomes `-`, every other character is unchanged, and no `:` or `.` remains |
| Backup.SanitizeIdempotent | apps/server/src/scripts/backup-feeds.ts:64 | sanitising a sanitised time changes nothing |
| Backup.BackupFileName | apps/server/src/scripts/backup-feeds.ts:65-68 | the name is `wewe-rss-backup-`, then the sanitised time, then `.json`, and it contains no `:` |

## Left out

- Rendering, JSX, styling and the header title text are not modelled. Neither is React's state-update scheduling: each handler's state changes are applied at once, in order.
- Toasts, `console` logging and `navigate` are not modelled. `window.confirm` becomes a boolean input. The Blob and anchor download of the OPML export are omitted; only the document string is modelled.
- Query refetches, polling intervals and cache resets are not modelled, including `refetchFeedList`, `refetchFolders`, `refetchInProgressHistoryMp` and `article.list.reset`. These are library behaviour with no effect on the modelled state.
- The server side of every remote call is not modelled: feed add/edit/delete, article refresh, history fetch, folder CRUD and the move. Only the request arguments are recorded.
- ListedBy: the server's handling of the `'uncategorized'` folder filter is not part of this model. `ListedBy` assumes it lists exactly the feeds without a folder, so `Feeds.NewFeedListed` and `Mover.MovedFeedsListedUnderTarget` hold only under that reading.
- The feed page's "refresh now", "refresh all", status switch and delete-feed links are not modelled. None of them is part of the modelled core, and each is a single remote call.
- The history tooltip (`page || 1`) and the date formatting with `dayjs` are not modelled.
- The paste-and-confirm loop is modelled as sequential. It awaits each call in turn, so nothing interleaves; a call that fails part way is not modelled.
- Feeds.FeedsPage.Confirm: it leaves out the `console.log` calls and the per-link toast. It also does not model a remote call that throws, which would stop the loop.
- Folders.FolderManager.CreateFolder: the wording of the failure toast, which depends on whether a folder is being edited, is not modelled.
- Mover.FeedMover.Move: the `isLoading` state of the button is not modelled.
- Backup: these parts are I/O and are not modelled: Prisma reads, the backup directory (`path.join(__dirname, …)`), `existsSync`/`mkdirSync`, `JSON.stringify` layout, file writing, `$disconnect` and the rethrow. The database schema is not part of this model; rows carry the fields the script and the pages name.
- Backup.SortBySpec: the database's order among rows with equal keys is unspecified in the source, so the model picks the order of its insertion sort, and only sortedness and permutation are stated.
- `new Date().toISOString()` is read twice by the script, so the export time and the file-name time are separate inputs; their ISO format is not checked.
- Opml: the feed names are inserted without XML escaping, as in the source. No claim is made that the document is well-formed XML; only its layout and line count are stated.
- The empty key set of the move dialog's select makes the source hold `undefined`. The model holds `''`, which every use treats the same way: the button is disabled, the select shows no key, and the target is null.
