/**
 * The print library's edit bar: which item-operation buttons are enabled
 * for the current selection, and the switch into and out of edit mode.
 */
module PrintLibrary {

  /** What kinds of selection a button accepts. */
  datatype ButtonEnableData = ButtonEnableData(
    multipleItems: bool,
    protectedItems: bool,
    collectionItems: bool,
    shareItems: bool)

  /** A selected library row: a part or a collection, possibly protected. */
  datatype RowItem = RowItem(isProtected: bool, isCollection: bool)

  datatype EditButton = EditButton(caption: string, enable: ButtonEnableData)

  /** The item-operation buttons, in the order the edit bar is built. */
  function EditBarTable(): (table: seq<EditButton>)
    ensures |table| == 6
  {
    [ EditButton("Export", ButtonEnableData(false, false, false, false)),
      EditButton("Edit", ButtonEnableData(false, false, false, false)),
      EditButton("Remove", ButtonEnableData(true, false, true, false)),
      EditButton("Share", ButtonEnableData(false, false, false, true)),
      EditButton("Rename", ButtonEnableData(false, false, true, false)),
      EditButton("Add to Queue", ButtonEnableData(true, true, false, false)) ]
  }

  function TableData(table: seq<EditButton>): (data: seq<ButtonEnableData>)
    ensures |data| == |table| && forall i :: 0 <= i < |table| ==> data[i] == table[i].enable
  {
    seq(|table|, i requires 0 <= i < |table| => table[i].enable)
  }

  /**
   * The enable rule: something is selected; a selection of several needs a
   * button for several; a protected item or a collection in the selection
   * needs a button that accepts it; a share button needs a provider that
   * can share.
   */
  predicate ButtonEnabled(data: ButtonEnableData, selected: seq<RowItem>, canShare: bool)
  {
    && |selected| > 0
    && (|selected| > 1 ==> data.multipleItems)
    && (!data.protectedItems ==> forall i :: 0 <= i < |selected| ==> !selected[i].isProtected)
    && (!data.collectionItems ==> forall i :: 0 <= i < |selected| ==> !selected[i].isCollection)
    && (data.shareItems ==> canShare)
  }

  /**
   * In the built table only "Add to Queue" accepts protected items, only
   * "Remove" and "Add to Queue" accept several items, and only "Share"
   * depends on the provider.
   */
  lemma TableAcceptance()
    ensures forall i :: 0 <= i < |EditBarTable()| ==>
      (EditBarTable()[i].enable.protectedItems <==> EditBarTable()[i].caption == "Add to Queue")
    ensures forall i :: 0 <= i < |EditBarTable()| ==>
      (EditBarTable()[i].enable.multipleItems <==> EditBarTable()[i].caption in {"Remove", "Add to Queue"})
    ensures forall i :: 0 <= i < |EditBarTable()| ==>
      (EditBarTable()[i].enable.shareItems <==> EditBarTable()[i].caption == "Share")
  {
    var t := EditBarTable();
    assert t[0].caption == "Export" && t[1].caption == "Edit" && t[2].caption == "Remove";
    assert t[3].caption == "Share" && t[4].caption == "Rename" && t[5].caption == "Add to Queue";
  }

  /**
   * With a protected item selected, no button of the table but "Add to
   * Queue" is enabled, and with several items selected only "Remove" and
   * "Add to Queue" can be.
   */
  lemma TableOnSelection(selected: seq<RowItem>, canShare: bool, b: int)
    requires 0 <= b < |EditBarTable()|
    requires ButtonEnabled(EditBarTable()[b].enable, selected, canShare)
    ensures (exists i :: 0 <= i < |selected| && selected[i].isProtected) ==> EditBarTable()[b].caption == "Add to Queue"
    ensures |selected| > 1 ==> EditBarTable()[b].caption in {"Remove", "Add to Queue"}
  {
    TableAcceptance();
  }

  /** Each button's state, as the rule decides it. */
  function ButtonStates(data: seq<ButtonEnableData>, selected: seq<RowItem>, canShare: bool): (states: seq<bool>)
    ensures |states| == |data|
  {
    seq(|data|, i requires 0 <= i < |data| => ButtonEnabled(data[i], selected, canShare))
  }

  /** The edit-mode part of the widget: the mode and what is shown. */
  datatype EditBar = EditBar(
    editMode: bool,
    breadCrumbVisible: bool,
    operationsVisible: bool,
    enterVisible: bool,
    leaveVisible: bool)

  /** In edit mode the operations and Done show; otherwise the bread crumbs and Edit. */
  predicate Consistent(b: EditBar)
  {
    && b.operationsVisible == b.editMode
    && b.leaveVisible == b.editMode
    && b.enterVisible == !b.editMode
    && b.breadCrumbVisible == !b.editMode
  }

  /** enterEditModeButtonClick. */
  function Entered(b: EditBar): EditBar
  {
    EditBar(true, false, true, false, true)
  }

  /** DoLeaveEditMode. */
  function Left(b: EditBar): EditBar
  {
    EditBar(false, true, false, true, false)
  }

  /**
   * Entering and leaving keep the bar consistent and set the mode; leaving
   * after entering restores a bar that was consistent and out of edit
   * mode, and leaving twice is leaving once.
   */
  lemma EditModeToggles(b: EditBar)
    ensures Consistent(Entered(b)) && Entered(b).editMode
    ensures Consistent(Left(b)) && !Left(b).editMode
    ensures Consistent(b) && !b.editMode ==> Left(Entered(b)) == b
    ensures Consistent(b) && b.editMode ==> Entered(Left(b)) == b
    ensures Left(Left(b)) == Left(b) && Entered(Entered(b)) == Entered(b)
  {
  }

  /** The widget's edit bar and provider-dependent controls. */
  class PrintLibraryWidget {
    var enableData: seq<ButtonEnableData>
    var buttonsEnabled: seq<bool>
    var editMode: bool
    var breadCrumbVisible: bool
    var operationsVisible: bool
    var enterVisible: bool
    var leaveVisible: bool
    var addToLibraryEnabled: bool
    var createFolderEnabled: bool
    var searchPanelVisible: bool

    ghost predicate Valid()
      reads this
    {
      |buttonsEnabled| == |enableData| && Consistent(Bar())
    }

    ghost function Bar(): EditBar
      reads this
    {
      EditBar(editMode, breadCrumbVisible, operationsVisible, enterVisible, leaveVisible)
    }

    /**
     * The edit bar as built: out of edit mode, with the table's buttons (a
     * new button is enabled). Adding and folder creation start disabled
     * and the search panel hidden until a provider change sets them.
     */
    constructor()
      ensures Valid() && !editMode
      ensures enableData == TableData(EditBarTable())
      ensures !searchPanelVisible && !addToLibraryEnabled && !createFolderEnabled
    {
      enableData := TableData(EditBarTable());
      buttonsEnabled := [true, true, true, true, true, true];
      editMode := false;
      breadCrumbVisible := true;
      operationsVisible := false;
      enterVisible := true;
      leaveVisible := false;
      addToLibraryEnabled := false;
      createFolderEnabled := false;
      searchPanelVisible := false;
    }

    /**
     * SetEditButtonsStates: each button starts from "something is
     * selected" and is lowered by each check that fails.
     */
    method SetEditButtonsStates(selected: seq<RowItem>, canShare: bool)
      requires Valid()
      modifies this
      ensures Valid()
      ensures buttonsEnabled == ButtonStates(enableData, selected, canShare)
      ensures enableData == old(enableData) && Bar() == old(Bar())
      ensures addToLibraryEnabled == old(addToLibraryEnabled) && createFolderEnabled == old(createFolderEnabled)
      ensures searchPanelVisible == old(searchPanelVisible)
    {
      var buttonIndex := 0;
      while buttonIndex < |enableData|
        invariant 0 <= buttonIndex <= |enableData| && |buttonsEnabled| == |enableData|
        invariant forall b :: 0 <= b < buttonIndex ==> buttonsEnabled[b] == ButtonEnabled(enableData[b], selected, canShare)
        invariant enableData == old(enableData) && Bar() == old(Bar())
        invariant addToLibraryEnabled == old(addToLibraryEnabled) && createFolderEnabled == old(createFolderEnabled)
        invariant searchPanelVisible == old(searchPanelVisible)
      {
        var enabledStateToSet := EnabledStateFor(enableData[buttonIndex], selected, canShare);
        buttonsEnabled := buttonsEnabled[buttonIndex := enabledStateToSet];
        buttonIndex := buttonIndex + 1;
      }
    }

    /** enterEditModeButtonClick. */
    method EnterEditMode()
      requires Valid()
      modifies this
      ensures Valid() && Bar() == Entered(old(Bar()))
      ensures enableData == old(enableData) && buttonsEnabled == old(buttonsEnabled)
      ensures addToLibraryEnabled == old(addToLibraryEnabled) && createFolderEnabled == old(createFolderEnabled)
      ensures searchPanelVisible == old(searchPanelVisible)
    {
      breadCrumbVisible := false;
      operationsVisible := true;
      enterVisible := false;
      leaveVisible := true;
      editMode := true;
    }

    /** DoLeaveEditMode, also run by leaveEditModeButtonClick. */
    method DoLeaveEditMode()
      requires Valid()
      modifies this
      ensures Valid() && Bar() == Left(old(Bar()))
      ensures enableData == old(enableData) && buttonsEnabled == old(buttonsEnabled)
      ensures addToLibraryEnabled == old(addToLibraryEnabled) && createFolderEnabled == old(createFolderEnabled)
      ensures searchPanelVisible == old(searchPanelVisible)
    {
      breadCrumbVisible := true;
      operationsVisible := false;
      enterVisible := true;
      leaveVisible := false;
      editMode := false;
    }

    /**
     * LibraryProviderChanged: a protected provider disables adding and
     * folder creation, hides the search panel and leaves edit mode; any
     * other provider enables and shows them and keeps the mode.
     */
    method LibraryProviderChanged(isProtected: bool)
      requires Valid()
      modifies this
      ensures Valid()
      ensures Bar() == if isProtected then Left(old(Bar())) else old(Bar())
      ensures addToLibraryEnabled == !isProtected && createFolderEnabled == !isProtected
      ensures searchPanelVisible == !isProtected
      ensures enableData == old(enableData) && buttonsEnabled == old(buttonsEnabled)
    {
      if isProtected {
        addToLibraryEnabled := false;
        createFolderEnabled := false;
        searchPanelVisible := false;
        DoLeaveEditMode();
      } else {
        addToLibraryEnabled := true;
        createFolderEnabled := true;
        searchPanelVisible := true;
      }
    }
  }

  /** One button's pass of SetEditButtonsStates. */
  method EnabledStateFor(data: ButtonEnableData, selected: seq<RowItem>, canShare: bool) returns (enabledStateToSet: bool)
    ensures enabledStateToSet == ButtonEnabled(data, selected, canShare)
  {
    var selectedCount := |selected|;
    enabledStateToSet := selectedCount > 0;
    if selectedCount > 1 && !data.multipleItems {
      enabledStateToSet := false;
    } else {
      if !data.protectedItems {
        enabledStateToSet := LowerForProtected(selected, enabledStateToSet);
      }
      if !data.collectionItems {
        enabledStateToSet := LowerForCollections(selected, enabledStateToSet);
      }
    }
    if data.shareItems && !canShare {
      enabledStateToSet := false;
    }
  }

  /** The protected-items scan: the state is lowered when any selected item is protected. */
  method LowerForProtected(selected: seq<RowItem>, state: bool) returns (lowered: bool)
    ensures lowered == (state && forall i :: 0 <= i < |selected| ==> !selected[i].isProtected)
  {
    lowered := state;
    var itemIndex := 0;
    while itemIndex < |selected|
      invariant 0 <= itemIndex <= |selected|
      invariant lowered == (state && forall i :: 0 <= i < itemIndex ==> !selected[i].isProtected)
    {
      if selected[itemIndex].isProtected {
        lowered := false;
      }
      itemIndex := itemIndex + 1;
    }
  }

  /** The collection scan: the state is lowered when any selected item is a collection. */
  method LowerForCollections(selected: seq<RowItem>, state: bool) returns (lowered: bool)
    ensures lowered == (state && forall i :: 0 <= i < |selected| ==> !selected[i].isCollection)
  {
    lowered := state;
    var itemIndex := 0;
    while itemIndex < |selected|
      invariant 0 <= itemIndex <= |selected|
      invariant lowered == (state && forall i :: 0 <= i < itemIndex ==> !selected[i].isCollection)
    {
      if selected[itemIndex].isCollection {
        lowered := false;
      }
      itemIndex := itemIndex + 1;
    }
  }
}
