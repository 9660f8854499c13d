/** The side panel that lists the stored history and can clear it. */
module HistoryPanel {
  import opened Wrappers
  import opened LocalStorage
  import opened History

  class Panel {
    var history: seq<HistoryItem>
    /** Set once mounted in the browser; rendering waits for it. */
    var isClient: bool

    constructor ()
      ensures history == [] && !isClient
    {
      history := [];
      isClient := false;
    }

    /** The mount effect: mark the client side and adopt the stored list if it parses. */
    method Mount(storage: Storage, parse: Parser)
      modifies this
      ensures isClient
      ensures history == Loaded(Lookup(storage.entries, HistoryKey), parse, old(history))
    {
      isClient := true;
      var saved := storage.GetItem(HistoryKey);
      history := Loaded(saved, parse, history);
    }

    /** The trash button is disabled while the list is empty. */
    function ClearTriggerEnabled(): (r: bool)
      reads this
      ensures r ==> history != []
      ensures history != [] ==> r
    {
      |history| != 0
    }

    /** Empty the list shown and delete the stored key, leaving every other key as it was. */
    method ClearHistory(storage: Storage)
      modifies this, storage
      ensures history == [] && isClient == old(isClient)
      ensures storage.entries == Cleared(old(storage.entries))
    {
      history := [];
      storage.RemoveItem(HistoryKey);
    }

    /**
     * The dialog's confirm action, reachable only after the enabled trigger
     * opened the dialog, that is from a non-empty list.
     */
    method ConfirmClear(storage: Storage)
      requires ClearTriggerEnabled()
      modifies this, storage
      ensures history == [] && !ClearTriggerEnabled() && isClient == old(isClient)
      ensures storage.entries == Cleared(old(storage.entries))
    {
      ClearHistory(storage);
    }
  }

  /**
   * Clearing with confirmation and then mounting a fresh panel over the same
   * store shows an empty list, whatever the parser does, and a second clear
   * changes nothing.
   */
  method ClearThenRemount(panel: Panel, storage: Storage, parse: Parser) returns (reloaded: Panel)
    requires panel.ClearTriggerEnabled()
    modifies panel, storage
    ensures reloaded.history == [] && reloaded.isClient
    ensures HistoryKey !in storage.entries
    ensures storage.entries == Cleared(old(storage.entries))
  {
    panel.ConfirmClear(storage);
    ghost var afterFirst := storage.entries;
    panel.ClearHistory(storage);
    ClearRemovesOnlyHistory(old(storage.entries));
    assert storage.entries == afterFirst;
    reloaded := new Panel();
    reloaded.Mount(storage, parse);
  }
}
