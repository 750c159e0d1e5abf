/**
 * The demo page of the front end: a session that holds the chosen file,
 * its preview, the run state, the last result, an error message and an
 * image viewer, updated by the page's event handlers; and the four result
 * cards rendered from that state.
 *
 * `handleProcess` awaits the back-end call, so it is split into the part
 * before the call (`BeginRun`) and the part after it (`CompleteRun`),
 * which receives the call's outcome.  The browser's object URL for the
 * preview is passed in by the caller; the ghost field `unrevokedPreviews`
 * records every object URL handed out, none of which is ever revoked.
 */
module Demo {
  import opened Wrappers
  import ProcessApi

  /** A file picked in the browser's file chooser. */
  datatype File = File(name: string, mimeType: string, bytes: seq<bv8>)

  /**
   * The `images` object of a reply: stage key to path.  A key that is
   * absent stands for a stage whose value is missing or `null`.
   */
  type Images = map<string, string>

  /** How the awaited back-end call ended. */
  datatype RunOutcome =
    | Succeeded(images: Option<Images>)   // `data.images`; `None` when the reply has none
    | Failed                              // any exception: network, HTTP status or decoding

  /** The notice shown when a run fails. */
  const ProcessingError: string := "An error occurred while processing the pipeline."

  // ---------------------------------------------------------------------
  // Rendering the result cards
  // ---------------------------------------------------------------------

  /** What the picture area of a card shows. */
  datatype CardView =
    | Placeholder           // "Awaiting processing..."
    | Picture(src: string)  // the image at `src`; clicking opens the viewer on `src`

  datatype Card = Card(step: string, title: string, view: CardView)

  /** `result?.[key]`: the stage value, if the result and the key are there. */
  function StageValue(result: Option<Images>, key: string): Option<string>
  {
    if result.Some? && key in result.value then Some(result.value[key]) else None
  }

  /** JavaScript truthiness of a stage value: present and not the empty string. */
  predicate Truthy(v: Option<string>)
  {
    v.Some? && v.value != ""
  }

  /** `ResultCard`: a picture at `apiBase + imageSrc` when `imageSrc` is truthy, else the placeholder. */
  function ResultCard(step: string, title: string, imageSrc: Option<string>, apiBase: string): (c: Card)
    ensures c.step == step && c.title == title
    ensures c.view.Placeholder? <==> !Truthy(imageSrc)
    ensures c.view.Picture? ==> imageSrc.Some? && c.view.src == apiBase + imageSrc.value
  {
    Card(step, title, if Truthy(imageSrc) then Picture(apiBase + imageSrc.value) else Placeholder)
  }

  /**
   * The four cards, in the order ROI, mask, skeleton, track: each shows
   * the placeholder exactly when its stage value is falsy, and otherwise
   * the base URL followed by the stage's path.
   */
  function Cards(result: Option<Images>, apiBase: string): (cs: seq<Card>)
    ensures |cs| == |ProcessApi.StageKeys| == 4
    ensures forall i :: 0 <= i < |cs| ==> cs[i].step == [('1' as int + i) as char]
    ensures forall i :: 0 <= i < |cs| ==>
      (cs[i].view.Placeholder? <==> !Truthy(StageValue(result, ProcessApi.StageKeys[i])))
    ensures forall i :: 0 <= i < |cs| && cs[i].view.Picture? ==>
      StageValue(result, ProcessApi.StageKeys[i]).Some? && cs[i].view.src == apiBase + StageValue(result, ProcessApi.StageKeys[i]).value
  {
    [ ResultCard("1", "ROI Detection (YOLO)", StageValue(result, "roi"), apiBase),
      ResultCard("2", "Segmentation (U-Net)", StageValue(result, "mask"), apiBase),
      ResultCard("3", "Skeleton Extraction", StageValue(result, "skeleton"), apiBase),
      ResultCard("4", "Final Weld Trajectory", StageValue(result, "track"), apiBase) ]
  }

  /**
   * A reply with ROI and mask paths and no skeleton or track renders two
   * pictures followed by two placeholders.
   */
  lemma PartialResultCards(apiBase: string)
    ensures var cs := Cards(Some(map["roi" := "/a.png", "mask" := "/b.png"]), apiBase);
      && cs[0].view == Picture(apiBase + "/a.png")
      && cs[1].view == Picture(apiBase + "/b.png")
      && cs[2].view == Placeholder && cs[3].view == Placeholder
  {
  }

  /** Before any result, every card is a placeholder. */
  lemma NoResultAllPlaceholders(apiBase: string)
    ensures forall c :: c in Cards(None, apiBase) ==> c.view == Placeholder
  {
  }

  /**
   * After the back end's reply for a job, every card shows the image the
   * back end serves for that stage, under the base URL.
   */
  lemma CardsShowProcessedImages(jobId: string, apiBase: string)
    ensures var cs := Cards(Some(ProcessApi.ImagePaths(jobId)), apiBase);
      forall i :: 0 <= i < |cs| ==>
        cs[i].view == Picture(apiBase + ProcessApi.ImagePaths(jobId)[ProcessApi.StageKeys[i]])
  {
    var cs := Cards(Some(ProcessApi.ImagePaths(jobId)), apiBase);
    forall i | 0 <= i < |cs|
      ensures cs[i].view == Picture(apiBase + ProcessApi.ImagePaths(jobId)[ProcessApi.StageKeys[i]])
    {
      assert ProcessApi.StageKeys[i] in ProcessApi.ImagePaths(jobId);
    }
  }

  // ---------------------------------------------------------------------
  // The session
  // ---------------------------------------------------------------------

  /** The run button: not rendered, clickable, or disabled with a spinner. */
  datatype RunButton = Hidden | Ready | Busy

  class WeldDemo {
    /** `API_BASE_URL`, fixed when the page is built. */
    const apiBase: string

    var selectedFile: Option<File>
    var preview: Option<string>
    var loading: bool
    var result: Option<Images>
    var error: string
    var modalOpen: bool
    var modalImage: string

    /** Object URLs created for previews and not revoked. */
    ghost var unrevokedPreviews: seq<string>
    /** Back-end calls started and not yet completed. */
    ghost var inFlight: nat

    /** The spinner is shown exactly while one call is in flight, and never more than one is. */
    ghost predicate Valid()
      reads this
    {
      inFlight <= 1 && (loading <==> inFlight == 1)
    }

    constructor (apiBase: string)
      ensures Valid()
      ensures this.apiBase == apiBase
      ensures selectedFile == None && preview == None && !loading && result == None
      ensures error == "" && !modalOpen && modalImage == ""
      ensures unrevokedPreviews == [] && inFlight == 0
    {
      this.apiBase := apiBase;
      selectedFile, preview, loading, result := None, None, false, None;
      error, modalOpen, modalImage := "", false, "";
      unrevokedPreviews, inFlight := [], 0;
    }

    /** The run button is rendered only with a file, and disabled while loading. */
    function Button(): (b: RunButton)
      reads this
      ensures b == Hidden <==> selectedFile.None?
      ensures b == Busy <==> selectedFile.Some? && loading
    {
      if selectedFile.None? then Hidden else if loading then Busy else Ready
    }

    /** The button can be clicked: it is rendered and not disabled. */
    predicate RunEnabled(): (e: bool)
      reads this
      ensures e <==> selectedFile.Some? && !loading
    {
      Button() == Ready
    }

    /** The cards the page currently renders. */
    function CardsShown(): seq<Card>
      reads this
    {
      Cards(result, apiBase)
    }

    /**
     * `handleFileChange`: with a file, select it, show a preview at the
     * new object URL, clear the result and the error; with none, change
     * nothing.  The previous preview's URL is not revoked.
     */
    method HandleFileChange(files: seq<File>, objectUrl: string)
      modifies this
      ensures |files| == 0 ==> unchanged(this)
      ensures |files| > 0 ==>
        && selectedFile == Some(files[0]) && preview == Some(objectUrl)
        && result == None && error == ""
        && loading == old(loading) && inFlight == old(inFlight)
        && modalOpen == old(modalOpen) && modalImage == old(modalImage)
        && unrevokedPreviews == old(unrevokedPreviews) + [objectUrl]
      ensures old(Valid()) ==> Valid()
    {
      if |files| > 0 {
        var file := files[0];
        selectedFile := Some(file);
        preview := Some(objectUrl);
        unrevokedPreviews := unrevokedPreviews + [objectUrl];
        result := None;
        error := "";
      }
    }

    /**
     * `handleProcess` up to the awaited call: with no file, nothing
     * happens; otherwise loading starts, the error is cleared and the
     * selected file is submitted.  The result is left as it was.
     */
    method BeginRun() returns (submitted: Option<File>)
      modifies this
      ensures submitted == old(selectedFile)
      ensures submitted.None? ==> unchanged(this)
      ensures submitted.Some? ==>
        && loading && error == "" && inFlight == old(inFlight) + 1
        && selectedFile == old(selectedFile) && preview == old(preview) && result == old(result)
        && modalOpen == old(modalOpen) && modalImage == old(modalImage)
        && unrevokedPreviews == old(unrevokedPreviews)
    {
      if selectedFile.None? {
        return None;
      }
      loading := true;
      error := "";
      inFlight := inFlight + 1;
      submitted := selectedFile;
    }

    /**
     * `handleProcess` after the awaited call: on success the result
     * becomes the reply's images; on failure the fixed message is shown and
     * the old result stays.  Either way loading ends and the file stays
     * selected, so the run can be retried.
     */
    method CompleteRun(outcome: RunOutcome)
      requires inFlight > 0
      modifies this
      ensures !loading && inFlight == old(inFlight) - 1
      ensures outcome.Succeeded? ==> result == outcome.images && error == old(error)
      ensures outcome.Failed? ==> result == old(result) && error == ProcessingError && error != ""
      ensures selectedFile == old(selectedFile) && preview == old(preview)
      ensures modalOpen == old(modalOpen) && modalImage == old(modalImage)
      ensures unrevokedPreviews == old(unrevokedPreviews)
      ensures old(Valid()) ==> Valid()
      ensures old(Valid()) && selectedFile.Some? ==> RunEnabled()
    {
      match outcome {
        case Succeeded(images) =>
          result := images;
        case Failed =>
          error := ProcessingError;
      }
      loading := false;
      inFlight := inFlight - 1;
    }

    /**
     * A click on the run button: it runs `handleProcess` only when the
     * button is rendered and enabled, so no second call starts while one
     * is in flight.
     */
    method PressRun() returns (submitted: Option<File>)
      requires Valid()
      modifies this
      ensures Valid()
      ensures submitted.Some? <==> old(RunEnabled())
      ensures old(loading) ==> submitted.None?
      ensures submitted.None? ==> unchanged(this)
      ensures submitted.Some? ==>
        && submitted == old(selectedFile) && loading && inFlight == 1 && !RunEnabled()
        && error == "" && result == old(result)
        && selectedFile == old(selectedFile) && preview == old(preview)
        && modalOpen == old(modalOpen) && modalImage == old(modalImage)
        && unrevokedPreviews == old(unrevokedPreviews)
    {
      if RunEnabled() {
        submitted := BeginRun();
      } else {
        submitted := None;
      }
    }

    /** `handleOpenModal`: open the viewer on `src`; the session is untouched. */
    method HandleOpenModal(src: string)
      modifies this
      ensures modalOpen && modalImage == src
      ensures selectedFile == old(selectedFile) && preview == old(preview) && loading == old(loading)
      ensures result == old(result) && error == old(error)
      ensures unrevokedPreviews == old(unrevokedPreviews) && inFlight == old(inFlight)
    {
      modalImage := src;
      modalOpen := true;
    }

    /** `handleCloseModal`: close the viewer and forget its image; the session is untouched. */
    method HandleCloseModal()
      modifies this
      ensures !modalOpen && modalImage == ""
      ensures selectedFile == old(selectedFile) && preview == old(preview) && loading == old(loading)
      ensures result == old(result) && error == old(error)
      ensures unrevokedPreviews == old(unrevokedPreviews) && inFlight == old(inFlight)
    {
      modalOpen := false;
      modalImage := "";
    }

    /**
     * A click on the picture area of card `i`: a picture opens the viewer
     * on the very address it displays; a placeholder does nothing.
     */
    method ClickCard(i: nat)
      requires i < 4
      modifies this
      ensures old(CardsShown()[i].view).Picture? ==>
        modalOpen && modalImage == old(CardsShown()[i].view.src)
      ensures old(CardsShown()[i].view).Placeholder? ==> unchanged(this)
      ensures selectedFile == old(selectedFile) && preview == old(preview) && loading == old(loading)
      ensures result == old(result) && error == old(error)
      ensures unrevokedPreviews == old(unrevokedPreviews) && inFlight == old(inFlight)
      ensures old(Valid()) ==> Valid()
    {
      var view := CardsShown()[i].view;
      if view.Picture? {
        HandleOpenModal(view.src);
      }
    }
  }
}
