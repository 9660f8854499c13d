/**
 * The home page: the uploader and the history panel are mounted side by
 * side over one store, each keeping its own list.
 */
module Page {
  import opened Wrappers
  import opened LocalStorage
  import opened History
  import opened Detection
  import opened ImageUploader
  import opened HistoryPanel

  /**
   * Clearing from the panel empties only the panel's list and the stored key.
   * The uploader still holds the cleared records, and its next completed run
   * writes them back under "imageHistory" behind the new one.
   */
  method ClearThenDetect(storage: Storage, parse: Parser, serialize: Serializer,
                         stored: string, oldItem: HistoryItem, file: File, draws: seq<Rect>)
      returns (u: Uploader, p: Panel)
    requires HistoryKey in storage.entries && storage.entries[HistoryKey] == stored
    requires stored != "" && parse(stored) == Some([oldItem])
    requires file.dataUrl != ""
    requires |draws| == 5
    modifies storage
    ensures p.history == []
    ensures |u.history| == 2 && u.history[1] == oldItem
    ensures HistoryKey in storage.entries && storage.entries[HistoryKey] == serialize(u.history)
  {
    // First commit: both components read the stored string; the uploader's
    // save effect writes only once its loaded list has been rendered.
    u := new Uploader();
    u.LoadSavedHistory(storage, parse);
    p := new Panel();
    p.Mount(storage, parse);
    u.SaveHistory(storage, serialize);
    p.ConfirmClear(storage);
    u.ProcessFile(file);
    var captured := u.DetectText();
    u.CompleteDetection(captured.value, 100, 100, 0, draws, 80, "rendered", 1, 1, storage, serialize);
  }
}
