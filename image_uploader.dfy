/**
 * The upload-and-detect component: its state fields, its event handlers and
 * its two persistence effects against the key-value store.
 */
module ImageUploader {
  import opened Wrappers
  import opened LocalStorage
  import opened History
  import opened Viewport
  import opened Detection
  import Mime

  /** JavaScript truthiness of a nullable string: neither `null` nor "". */
  function IsTruthy(image: Option<string>): (r: bool)
    ensures r ==> image.Some? && |image.value| > 0
    ensures image.Some? && |image.value| > 0 ==> r
  {
    image.Some? && image.value != ""
  }

  /** A picked or dropped file: its MIME type and what `readAsDataURL` yields for it. */
  datatype File = File(mimeType: string, dataUrl: string)

  /** The component's state fields, as one value. */
  datatype UploaderState = UploaderState(
    originalImage: Option<string>,
    processedImage: Option<string>,
    isProcessing: bool,
    zoomLevel: int,
    isPanning: bool,
    textStats: Option<TextStats>,
    history: seq<HistoryItem>,
    fullscreenImage: Option<string>)

  class Uploader {
    var originalImage: Option<string>
    var processedImage: Option<string>
    var isProcessing: bool
    var zoomLevel: int
    var isPanning: bool
    var textStats: Option<TextStats>
    var history: seq<HistoryItem>
    var fullscreenImage: Option<string>

    function State(): UploaderState
      reads this
    {
      UploaderState(originalImage, processedImage, isProcessing, zoomLevel,
                    isPanning, textStats, history, fullscreenImage)
    }

    /** Zoom never leaves the slider's 50..200 range. */
    ghost predicate Valid()
      reads this
    {
      InZoomRange(zoomLevel)
    }

    /** The initial `useState` values. */
    constructor ()
      ensures Valid()
      ensures State() == UploaderState(None, None, false, DefaultZoom, false, None, [], None)
    {
      originalImage, processedImage := None, None;
      isProcessing := false;
      zoomLevel := DefaultZoom;
      isPanning := false;
      textStats := None;
      history := [];
      fullscreenImage := None;
    }

    // -------------------------------------------------------------------------
    // Persistence effects

    /** The mount effect: read "imageHistory" and adopt the parsed list, if any. */
    method LoadSavedHistory(storage: Storage, parse: Parser)
      requires Valid()
      modifies this
      ensures Valid()
      ensures State() == old(State()).(history := Loaded(Lookup(storage.entries, HistoryKey), parse, old(history)))
    {
      var saved := storage.GetItem(HistoryKey);
      history := Loaded(saved, parse, history);
    }

    /** The effect that runs whenever `history` changes: write it back unless it is empty. */
    method SaveHistory(storage: Storage, serialize: Serializer)
      modifies storage
      ensures storage.entries == Saved(old(storage.entries), serialize, history)
    {
      if |history| > 0 {
        storage.SetItem(HistoryKey, serialize(history));
      }
    }

    /** Mounting runs the load effect, then the save effect on the list it produced. */
    method Mount(storage: Storage, parse: Parser, serialize: Serializer)
      requires Valid()
      modifies this, storage
      ensures Valid()
      ensures State() == old(State()).(history := Loaded(Lookup(old(storage.entries), HistoryKey), parse, old(history)))
      ensures storage.entries == Saved(old(storage.entries), serialize, history)
    {
      LoadSavedHistory(storage, parse);
      SaveHistory(storage, serialize);
    }

    // -------------------------------------------------------------------------
    // Image ingestion

    /** The reader's `onload`: the new original replaces any processed image and stats, zoom resets. */
    method ProcessFile(file: File)
      requires Valid()
      modifies this
      ensures Valid()
      ensures State() == old(State()).(originalImage := Some(file.dataUrl), processedImage := None,
                                       textStats := None, zoomLevel := DefaultZoom)
    {
      originalImage := Some(file.dataUrl);
      processedImage := None;
      textStats := None;
      zoomLevel := DefaultZoom;
    }

    /** The file picker: its first file, if any, is processed whatever its type. */
    method HandleFileChange(files: seq<File>)
      requires Valid()
      modifies this
      ensures Valid()
      ensures |files| == 0 ==> State() == old(State())
      ensures |files| > 0 ==>
                State() == old(State()).(originalImage := Some(files[0].dataUrl), processedImage := None,
                                         textStats := None, zoomLevel := DefaultZoom)
    {
      if |files| > 0 {
        ProcessFile(files[0]);
      }
    }

    /** A drop: the first file is processed only if its MIME type passes the image filter. */
    method HandleDrop(files: seq<File>)
      requires Valid()
      modifies this
      ensures Valid()
      ensures (|files| == 0 || !Mime.Accepted(files[0].mimeType)) ==> State() == old(State())
      ensures |files| > 0 && Mime.Accepted(files[0].mimeType) ==>
                State() == old(State()).(originalImage := Some(files[0].dataUrl), processedImage := None,
                                         textStats := None, zoomLevel := DefaultZoom)
    {
      if |files| > 0 && Mime.Accepted(files[0].mimeType) {
        ProcessFile(files[0]);
      }
    }

    // -------------------------------------------------------------------------
    // Detection

    /**
     * The trigger: when there is no original image (`null`, or the falsy
     * empty string) nothing happens; otherwise the component enters
     * processing and the pending completion captures the original image as
     * it is now.
     */
    method DetectText() returns (captured: Option<string>)
      requires Valid()
      modifies this
      ensures Valid()
      ensures captured == (if IsTruthy(old(originalImage)) then old(originalImage) else None)
      ensures !IsTruthy(old(originalImage)) ==> State() == old(State())
      ensures IsTruthy(old(originalImage)) ==> State() == old(State()).(isProcessing := true)
    {
      captured := None;
      if originalImage.Some? && originalImage.value != "" {
        captured := originalImage;
        isProcessing := true;
      }
    }

    /**
     * The completion after the image has loaded, given the captured `source`,
     * the decoded size, the random draws, the canvas output `rendered` and
     * the two clock readings. The new item goes to the front of a history
     * capped at ten, which is then saved.
     */
    method CompleteDetection(source: string, width: nat, height: nat,
                             countDraw: int, draws: seq<Rect>, confidence: int,
                             rendered: string, idClock: nat, timestamp: nat,
                             storage: Storage, serialize: Serializer)
      requires Valid()
      requires width > 0 && height > 0
      requires 0 <= countDraw <= 5 && |draws| == NumAreas(countDraw)
      requires 70 <= confidence <= 95
      modifies this, storage
      ensures Valid()
      ensures var stats := ComputeStats(NumAreas(countDraw), TotalArea(draws), width * height, confidence);
              var item := HistoryItem(DecimalString(idClock), source, rendered, timestamp, stats);
              State() == old(State()).(processedImage := Some(rendered), textStats := Some(stats),
                                       history := Push(item, old(history)), isProcessing := false)
      ensures 1 <= |history| <= Capacity
      ensures storage.entries == old(storage.entries)[HistoryKey := serialize(history)]
    {
      var numAreas := NumAreas(countDraw);
      var textAreas, totalTextArea := GenerateTextAreas(numAreas, draws);
      processedImage := Some(rendered);
      var stats := ComputeStats(numAreas, totalTextArea, width * height, confidence);
      textStats := Some(stats);
      var item := HistoryItem(DecimalString(idClock), source, rendered, timestamp, stats);
      history := Push(item, history);
      isProcessing := false;
      SaveHistory(storage, serialize);
    }

    // -------------------------------------------------------------------------
    // Viewport handlers

    method ZoomOut()
      requires Valid()
      modifies this
      ensures Valid()
      ensures State() == old(State()).(zoomLevel := ZoomedOut(old(zoomLevel)))
    {
      zoomLevel := ZoomedOut(zoomLevel);
    }

    method ZoomIn()
      requires Valid()
      modifies this
      ensures Valid()
      ensures State() == old(State()).(zoomLevel := ZoomedIn(old(zoomLevel)))
    {
      zoomLevel := ZoomedIn(zoomLevel);
    }

    method ResetZoom()
      requires Valid()
      modifies this
      ensures Valid()
      ensures State() == old(State()).(zoomLevel := DefaultZoom)
    {
      zoomLevel := DefaultZoom;
    }

    /** The slider reports `[value]` with value inside its own 50..200 bounds. */
    method HandleZoomChange(value: seq<int>)
      requires Valid()
      requires |value| > 0 && InZoomRange(value[0])
      modifies this
      ensures Valid()
      ensures State() == old(State()).(zoomLevel := value[0])
    {
      zoomLevel := value[0];
    }

    method TogglePan()
      requires Valid()
      modifies this
      ensures Valid()
      ensures State() == old(State()).(isPanning := !old(isPanning))
    {
      isPanning := !isPanning;
    }

    method ToggleFullscreen(image: string)
      requires Valid()
      modifies this
      ensures Valid()
      ensures State() == old(State()).(fullscreenImage := ToggledFullscreen(old(fullscreenImage), image))
    {
      fullscreenImage := ToggledFullscreen(fullscreenImage, image);
    }

    /** The close button of the fullscreen overlay. */
    method CloseFullscreen()
      requires Valid()
      modifies this
      ensures Valid()
      ensures State() == old(State()).(fullscreenImage := None)
    {
      fullscreenImage := None;
    }
  }

  /**
   * A session: mount over a store that holds no history, load an image and
   * detect twice. The history holds both runs, newest first, the store holds
   * that list, and toggling fullscreen twice on the result closes it again.
   */
  method Session(storage: Storage, parse: Parser, serialize: Serializer, file: File,
                 draws1: seq<Rect>, draws2: seq<Rect>) returns (u: Uploader)
    requires HistoryKey !in storage.entries
    requires file.dataUrl != ""
    requires |draws1| == 5 && |draws2| == 10
    modifies storage
    ensures |u.history| == 2
    ensures u.history[0].processedImage == "second" && u.history[1].processedImage == "first"
    ensures u.history[0].originalImage == file.dataUrl == u.history[1].originalImage
    ensures u.history[0].stats.areasDetected == 10 && u.history[1].stats.areasDetected == 5
    ensures HistoryKey in storage.entries && storage.entries[HistoryKey] == serialize(u.history)
    ensures u.fullscreenImage == None && u.zoomLevel == DefaultZoom
  {
    u := new Uploader();
    u.Mount(storage, parse, serialize);
    u.ProcessFile(file);
    var captured := u.DetectText();
    u.CompleteDetection(captured.value, 100, 100, 0, draws1, 80, "first", 1, 1, storage, serialize);
    captured := u.DetectText();
    u.CompleteDetection(captured.value, 100, 100, 5, draws2, 90, "second", 2, 2, storage, serialize);
    u.ToggleFullscreen("second");
    u.ToggleFullscreen("second");
  }

  /**
   * The completion is not cancelled when a new image arrives while it is
   * pending: it still stores the image captured at the trigger, and its
   * processed image and stats replace the reset ones of the newer image.
   */
  method StaleCompletion(storage: Storage, serialize: Serializer, first: File, second: File,
                         draws: seq<Rect>) returns (u: Uploader)
    requires first.dataUrl != ""
    requires |draws| == 5
    modifies storage
    ensures u.originalImage == Some(second.dataUrl)
    ensures u.processedImage == Some("rendered") && u.textStats.Some?
    ensures |u.history| == 1 && u.history[0].originalImage == first.dataUrl
  {
    u := new Uploader();
    u.ProcessFile(first);
    var captured := u.DetectText();
    u.ProcessFile(second);
    u.CompleteDetection(captured.value, 100, 100, 0, draws, 80, "rendered", 1, 1, storage, serialize);
  }
}
