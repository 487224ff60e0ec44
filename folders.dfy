/** The folder panel (`apps/web/src/components/FolderManager.tsx`): the
    create/edit dialog over `folderName` and `editingFolder`, folder
    deletion, and the count chips. Server calls are recorded as
    `FolderCall` values and their success is an input; the confirmation
    prompt is a boolean input. The panel's `onFolderSelect` callback is the
    page's `handleFolderSelect`, so deletion acts on the page object. */
module Folders {
  import opened Common
  import opened Feeds

  /** The `_count` relation the folder list carries. */
  datatype FolderCount = FolderCount(feeds: nat)

  /** One folder as the folder list returns it. */
  datatype Folder = Folder(id: string, name: string, order: int, count: Option<FolderCount>)

  /** A folder mutation, with its argument. */
  datatype FolderCall =
    | AddFolder(name: string, order: int)
    | EditFolder(id: string, name: string)
    | DeleteFolder(id: string)

  /** The call `handleCreateFolder` issues for the typed name and the folder
      being edited: none for a blank name; otherwise an edit of that folder,
      or an add with order 0, carrying the trimmed name. */
  function SaveCall(name: string, editing: Option<Folder>): (r: Option<FolderCall>)
    ensures r.None? <==> AllWhitespace(name)
    ensures r.Some? ==> (r.value.EditFolder? <==> editing.Some?) && !r.value.DeleteFolder?
    ensures r.Some? && editing.Some? ==> r.value.id == editing.value.id
    ensures r.Some? && editing.None? ==> r.value.order == 0
    ensures r.Some? ==> var sent := r.value.name;
                        && sent == Trim(name) && sent != ""
                        && !IsJsWhitespace(sent[0]) && !IsJsWhitespace(sent[|sent| - 1])
  {
    TrimEmptyIff(name);
    TrimIsSlice(name);
    if Trim(name) == "" then None
    else if editing.Some? then Some(EditFolder(editing.value.id, Trim(name)))
    else Some(AddFolder(Trim(name), 0))
  }

  /** The create/update button is disabled for a blank name. */
  predicate SaveDisabled(name: string) {
    Trim(name) == ""
  }

  /** A name for which the button is disabled is also one the handler
      refuses, and the other way round. */
  lemma SaveDisabledIff(name: string, editing: Option<Folder>)
    ensures SaveDisabled(name) <==> SaveCall(name, editing).None?
  {
    TrimEmptyIff(name);
  }

  /** The chip of the uncategorized pseudo-folder: the number of feeds its
      query returned, 0 until it has loaded. */
  function UncategorizedChip(list: Option<seq<Feed>>): (n: nat)
    ensures list.None? ==> n == 0
    ensures list.Some? ==> n == |list.value|
  {
    if list.Some? then |list.value| else 0
  }

  /** The query behind the uncategorized chip, `{ folderId: 'uncategorized' }`. */
  const UncategorizedQuery := FolderFilter(Uncategorized)

  /** The chip counts what the feed list shows once the uncategorized
      pseudo-folder is selected: both use the same query. */
  lemma UncategorizedChipMatchesList()
    ensures FeedQueryParams(Some(Uncategorized)) == UncategorizedQuery
  {
  }

  /** The chip of a folder: its feed count, 0 when the count is absent. */
  function FolderChip(f: Folder): (n: nat)
    ensures f.count.None? ==> n == 0
    ensures f.count.Some? ==> n == f.count.value.feeds
  {
    if f.count.Some? then f.count.value.feeds else 0
  }

  class FolderManager {
    var folderName: string
    var editingFolder: Option<Folder>
    /** Whether the create/edit dialog is open. */
    var isOpen: bool

    constructor()
      ensures folderName == "" && editingFolder == None && !isOpen
    {
      folderName := "";
      editingFolder := None;
      isOpen := false;
    }

    /** Typing in the name field. */
    method SetName(text: string)
      modifies this`folderName
      ensures folderName == text
    {
      folderName := text;
    }

    /** `handleCreateFolder`; `saveSucceeds` is whether the call resolves.
        After a successful save the dialog is reset and closed; after a
        blank name or a failed call nothing changes. */
    method CreateFolder(saveSucceeds: bool) returns (call: Option<FolderCall>)
      modifies this
      ensures call == SaveCall(old(folderName), old(editingFolder))
      ensures call.Some? && saveSucceeds ==> folderName == "" && editingFolder == None && !isOpen
      ensures !(call.Some? && saveSucceeds) ==>
                folderName == old(folderName) && editingFolder == old(editingFolder) && isOpen == old(isOpen)
    {
      if Trim(folderName) == "" {
        TrimEmptyIff(folderName);
        return None;
      }
      call := SaveCall(folderName, editingFolder);
      if saveSucceeds {
        folderName := "";
        editingFolder := None;
        isOpen := false;
      }
    }

    /** The dialog's cancel button: closes it and keeps what was typed. */
    method CloseDialog()
      modifies this`isOpen
      ensures !isOpen
    {
      isOpen := false;
    }

    /** `handleEditFolder`: opens the dialog on `folder`, its name pre-filled. */
    method EditFolderDialog(folder: Folder)
      modifies this
      ensures editingFolder == Some(folder) && folderName == folder.name && isOpen
    {
      editingFolder := Some(folder);
      folderName := folder.name;
      isOpen := true;
    }

    /** `openCreateModal`: opens the dialog empty, not editing anything. */
    method OpenCreateModal()
      modifies this
      ensures editingFolder == None && folderName == "" && isOpen
    {
      editingFolder := None;
      folderName := "";
      isOpen := true;
    }

    /** `handleDeleteFolder`; `confirmed` is the answer to the prompt and
        `deleteSucceeds` whether the call resolves. Deleting the selected
        folder selects "all" on the page; anything else leaves it alone. */
    method DeleteFolderOf(folderId: string, confirmed: bool, deleteSucceeds: bool, page: FeedsPage)
      returns (call: Option<FolderCall>)
      modifies page
      ensures call == if confirmed then Some(DeleteFolder(folderId)) else None
      ensures confirmed && deleteSucceeds && old(page.selectedFolderId) == Some(folderId) ==>
                && page.selectedFolderId == None && page.currentMpId == ""
                && !page.isSelectionMode && page.selectedFeedIds == []
                && page.wxsLink == old(page.wxsLink) && page.isAddOpen == old(page.isAddOpen)
                && page.isMoverOpen == old(page.isMoverOpen)
      ensures !(confirmed && deleteSucceeds && old(page.selectedFolderId) == Some(folderId)) ==>
                unchanged(page)
    {
      if !confirmed {
        return None;
      }
      call := Some(DeleteFolder(folderId));
      if deleteSucceeds && page.selectedFolderId == Some(folderId) {
        page.FolderSelect(None);
      }
    }
  }
}
