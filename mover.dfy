/** The move dialog (`apps/web/src/components/FeedMover.tsx`): a target
    chosen in a select, and a move of the page's selected feeds to it. The
    dialog's `feedIds`, `onSuccess` and `onClose` props are the page's
    `selectedFeedIds`, `handleMoveSuccess` and the mover's close, so the
    methods act on the page object. The dialog's own state is the selected
    key, a string where `''` means none (an empty selection sets it to
    `undefined`, which the component treats exactly like `''`). */
module Mover {
  import opened Common
  import opened Feeds

  /** The move request: which feeds, and to which folder (`None` moves them
      out of every folder). */
  datatype MoveCall = MoveFeedsToFolder(feedIds: seq<string>, folderId: Option<string>)

  /** The callbacks `handleMove` invokes, in order. */
  datatype Callback = OnSuccess | OnClose

  /** The folder a move sends feeds to: the uncategorized pseudo-folder and
      the empty selection both mean "no folder". */
  function TargetFolder(selected: string): (folder: Option<string>)
    ensures folder.None? <==> selected == "" || selected == Uncategorized
    ensures folder.Some? ==> folder.value == selected
  {
    if selected == Uncategorized then None
    else if selected != "" then Some(selected)
    else None
  }

  /** The keys the select shows as chosen. */
  function SelectedKeys(selected: string): (keys: seq<string>)
    ensures keys == [] <==> selected == ""
    ensures |keys| <= 1 && (keys != [] ==> keys[0] == selected)
  {
    if selected != "" then [selected] else []
  }

  /** The key adopted from a selection change: its first key, none for an
      empty selection. */
  function AdoptedKey(keys: seq<string>): (selected: string)
    ensures keys == [] ==> selected == ""
    ensures keys != [] ==> selected == keys[0]
  {
    if keys == [] then "" else keys[0]
  }

  /** The move button is disabled until a target is chosen. */
  predicate MoveDisabled(selected: string) {
    selected == ""
  }

  /** What the select shows is what the dialog holds. */
  lemma AdoptShownKeys(selected: string)
    ensures AdoptedKey(SelectedKeys(selected)) == selected
  {
  }

  /** A one-key selection is shown back as itself. */
  lemma ShowAdoptedKey(keys: seq<string>)
    requires |keys| == 1 && keys[0] != ""
    ensures SelectedKeys(AdoptedKey(keys)) == keys
  {
  }

  /** Once the button is enabled, the move goes to the chosen folder, except
      for the uncategorized choice, which clears the folder. */
  lemma EnabledMoveTarget(selected: string)
    requires !MoveDisabled(selected)
    ensures TargetFolder(selected).None? <==> selected == Uncategorized
    ensures selected != Uncategorized ==> TargetFolder(selected) == Some(selected)
  {
  }

  /** Moved feeds are listed once their target is the page's selected
      folder: the target's filter on the feed list matches the folder the
      move gave them. */
  lemma MovedFeedsListedUnderTarget(selected: string)
    requires !MoveDisabled(selected)
    ensures ListedBy(FeedQueryParams(Some(selected)), TargetFolder(selected))
  {
  }

  class FeedMover {
    var selectedFolderId: string

    constructor()
      ensures selectedFolderId == ""
    {
      selectedFolderId := "";
    }

    /** `onSelectionChange`. */
    method SelectionChange(keys: seq<string>)
      modifies this
      ensures selectedFolderId == AdoptedKey(keys)
    {
      selectedFolderId := AdoptedKey(keys);
    }

    /** `handleClose`: forgets the choice and closes the dialog. */
    method Close(page: FeedsPage)
      modifies this, page`isMoverOpen
      ensures selectedFolderId == "" && !page.isMoverOpen
    {
      selectedFolderId := "";
      page.CloseMover();
    }

    /** `handleMove`; `moveSucceeds` is whether the request resolves. On
        success it reports how many feeds moved, clears the page's selection
        and selection mode, and closes the dialog, which keeps its choice;
        on failure nothing changes. */
    method Move(page: FeedsPage, moveSucceeds: bool)
      returns (call: MoveCall, moved: Option<nat>, callbacks: seq<Callback>)
      modifies page
      ensures call == MoveFeedsToFolder(old(page.selectedFeedIds), TargetFolder(selectedFolderId))
      ensures moveSucceeds ==>
                && moved == Some(|old(page.selectedFeedIds)|) && callbacks == [OnSuccess, OnClose]
                && page.selectedFeedIds == [] && !page.isSelectionMode && !page.isMoverOpen
                && page.selectedFolderId == old(page.selectedFolderId)
                && page.currentMpId == old(page.currentMpId)
                && page.wxsLink == old(page.wxsLink) && page.isAddOpen == old(page.isAddOpen)
      ensures !moveSucceeds ==> moved == None && callbacks == [] && unchanged(page)
    {
      call := MoveFeedsToFolder(page.selectedFeedIds, TargetFolder(selectedFolderId));
      if !moveSucceeds {
        return call, None, [];
      }
      moved := Some(|page.selectedFeedIds|);
      page.MoveSuccess();
      page.CloseMover();
      callbacks := [OnSuccess, OnClose];
    }
  }
}
