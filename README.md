# Weld inspection demo: session, ROI choice and process endpoint

This project is a Dafny model of the logic of a weld-inspection web system.
A browser page uploads a weld image. A Flask back end stores the image,
runs a pipeline (detection, segmentation, skeleton and track) and returns
the paths of four result images, which the page shows as four cards.
The project models three parts and proves properties about them:

- **The demo page session** (`weld_demo.dfy`, module `Demo`). The class
  `WeldDemo` holds the page's seven state variables: `selectedFile`,
  `preview`, `loading`, `result`, `error`, `modalOpen` and `modalImage`.
  Its methods are the handlers that change them. `handleProcess` awaits the
  back-end call, so it is split in two:
  - `BeginRun` is the part before the call;
  - `CompleteRun` is the part after it and receives the call's outcome, a
    success carrying `data.images` or a failure.

  `PressRun` is a click on the run button. The button only runs the
  handler when it is shown (a file is selected) and enabled (not loading).
  The ghost counter `inFlight` and the invariant `Valid()` show that the
  spinner is on exactly while one call is in flight, and that there is
  never more than one. The result cards are pure functions of `result` and
  the base URL. There are exactly four, in the order roi, mask, skeleton,
  track. Each card is a placeholder or shows base URL + path, and a click
  on a card opens the viewer on that same address.
- **The ROI choice of the detection step** (`yolo_detect.dfy`, module
  `YoloDetect`).
  - `Postprocess` is the threshold-and-argmax scan of the detector's
    predictions. It keeps the first prediction with the strictly highest
    confidence among those at or above 0.25. It then converts that box
    from centre/size to corners and scales it to the original image, with
    Python's `int()` as truncation toward zero.
  - `DetectRoi` clamps the box to the image. It falls back to the whole
    image when there is no box or the crop is empty, and otherwise it
    writes the crop, the annotated image and the box file. The crop uses
    Python's slicing rules, so a negative right or bottom edge counts from
    the end of the image. `NegativeEdgeWrapsAround` shows that a box lying
    entirely left of the image yields a non-empty crop, and that its box
    file records the negative edge.
- **The `/api/process` endpoint** (`process_api.dfy`, module
  `ProcessApi`).
  - A request without a `file` part gets `{"error": "no file"}` with
    status 400, and nothing is saved or started.
  - Any other request saves the upload as `<job_id>.jpg` and starts the
    pipeline, queued or inline. The reply holds `job_id` and an `images`
    object with exactly the four stage paths
    `/api/image/<job_id>_<stage>.png`.
  - These paths are the `/api/image/` route followed by the names under
    which the pipeline writes its files (module `Outputs`, `outputs.dfy`).
    The paths are injective in the job and the stage.
  - The paths are returned whether or not the files get written. When
    detection falls back to the whole image, no annotated image is written
    (`AnnotatedOnlyForCrop`). The skeleton step draws the track only on
    the annotated image, so such a job's `track` path names a file that
    never exists, and its card still shows a picture.

`wrappers.dfy` holds the `Option` and `Result` types.

Behaviour worth noting, modelled as the code does it:
- Starting a run does not clear the previous result. The result is
  replaced only by a successful completion, or cleared by a new file
  choice.
- A failure keeps the old result.
- A completion that arrives after a new file was chosen still installs
  its images, which belong to the previous file.
- Preview object URLs are never revoked. `unrevokedPreviews` only grows.
- There is no sample-catalog selection, and there is no separate state for
  a submitted job.
- The process reply has no `status` field.
- `handleProcess` itself does not check `loading`. Only the disabled
  button prevents a second run, which is why `PressRun` holds that
  guarantee and `BeginRun` does not.

Inputs that come from outside the modelled code are parameters:
- the object URL the browser creates for the preview;
- the outcome of the awaited back-end call;
- the job identifier (`uuid4().hex`);
- the queue mode;
- whether an inline pipeline run raises;
- the detector's predictions;
- the image size, or the failure to read the image;
- the output and upload directories.

## Model

| member | source | states |
|---|---|---|
| `Demo.WeldDemo.constructor` | frontend/src/components/WeldDemo.jsx:13-19 | the session starts with no file, no preview, not loading, no result, no error and the viewer closed |
| `Demo.WeldDemo.HandleFileChange` | frontend/src/components/WeldDemo.jsx:21-29 | picking a file selects it, shows the new preview, clears the result to null and the error to ''; an event without a file changes nothing; loading and the viewer are untouched; the old preview URL is not revoked |
| `Demo.WeldDemo.BeginRun` | frontend/src/components/WeldDemo.jsx:31-35 | with no file nothing changes and nothing is submitted; otherwise the selected file is submitted, loading becomes true and the error ''; file, preview and result are untouched |
| `Demo.WeldDemo.CompleteRun` | frontend/src/components/WeldDemo.jsx:40-48 | loading ends false and the file stays selected; success installs the reply's images and keeps the error; failure sets the fixed non-empty message and keeps the old result; afterwards a retry is enabled |
| `Demo.WeldDemo.Button` | frontend/src/components/WeldDemo.jsx:131-139 | the run button is hidden if and only if no file is selected, and busy (disabled, with a spinner) if and only if a file is selected and a run is loading |
| `Demo.WeldDemo.RunEnabled` | frontend/src/components/WeldDemo.jsx:131-139 | the button can be clicked if and only if a file is selected and nothing is loading |
| `Demo.WeldDemo.PressRun` | frontend/src/components/WeldDemo.jsx:131-139 | a click submits exactly when the button is shown and enabled (file selected, not loading); a click while loading submits nothing; after a submission the button is disabled and exactly one call is in flight, and the file, preview, result, viewer and preview list are as before, so a failed run can be retried |
| `Demo.WeldDemo.HandleOpenModal` | frontend/src/components/WeldDemo.jsx:51-54 | the viewer opens on the given address; file, preview, loading, result and error are untouched |
| `Demo.WeldDemo.HandleCloseModal` | frontend/src/components/WeldDemo.jsx:56-59 | the viewer closes and its image becomes ''; file, preview, loading, result and error are untouched |
| `Demo.WeldDemo.ClickCard` | frontend/src/components/WeldDemo.jsx:86-101 | clicking a card that shows a picture opens the viewer on the very address the card displays; clicking a placeholder changes nothing; the session state, the calls in flight and the preview list are untouched, so `Valid()` is kept |
| `Demo.ResultCard` | frontend/src/components/WeldDemo.jsx:61-105 | a card keeps its step and title; it is a placeholder if and only if its image source is falsy, and otherwise shows base URL + source |
| `Demo.Cards` | frontend/src/components/WeldDemo.jsx:154-157 | exactly four cards, steps 1 to 4, keyed roi, mask, skeleton, track; a card is a placeholder if and only if its stage value is falsy, and otherwise shows base URL + path |
| `Demo.PartialResultCards` | frontend/src/components/WeldDemo.jsx:86-101 | a result with roi and mask paths and no skeleton or track gives two pictures followed by two placeholders |
| `Demo.NoResultAllPlaceholders` | frontend/src/components/WeldDemo.jsx:154-157 | with a null result every card is a placeholder |
| `Demo.CardsShowProcessedImages` | frontend/src/components/WeldDemo.jsx:154-157 | after the reply for a job, card i shows base URL + the path the back end returned for the i-th stage key |
| `YoloDetect.ArgMax` | backend/pipeline/run_yolo_detect.py:46-47 | the class chosen is the first index holding the largest score |
| `YoloDetect.Postprocess` | backend/pipeline/run_yolo_detect.py:33-72 | returns None if and only if no prediction reaches the threshold; otherwise returns the scaled corners of the best prediction: kept, with no kept one scoring higher, and with every earlier kept one scoring strictly lower |
| `YoloDetect.BestUnique` | backend/pipeline/run_yolo_detect.py:52-54 | the best prediction is unique: on ties the earliest wins |
| `YoloDetect.BestExists` | backend/pipeline/run_yolo_detect.py:42-57 | a best prediction exists if and only if some prediction is kept |
| `YoloDetect.ThresholdInclusive` | backend/pipeline/run_yolo_detect.py:49-50 | a prediction scoring exactly 0.25 is kept, and alone it is chosen |
| `YoloDetect.Trunc` | backend/pipeline/run_yolo_detect.py:68-71 | `int()` truncates toward zero: the result is the integer part, with the sign of the input |
| `YoloDetect.ToCorners` | backend/pipeline/run_yolo_detect.py:59-72 | the box of a prediction: centre minus and plus half the size, each scaled by the original size over 512 and truncated by `int()`; its properties are the two lemmas below |
| `YoloDetect.CornersOrdered` | backend/pipeline/run_yolo_detect.py:60-72 | for a box of non-negative width and height, x1 <= x2 and y1 <= y2 after halving, scaling by ow/512 and oh/512 and truncating |
| `YoloDetect.CornersWithinImage` | backend/pipeline/run_yolo_detect.py:60-72 | a box inside the 512 x 512 network frame has all its scaled corners inside the original image |
| `YoloDetect.Clamp` | backend/pipeline/run_yolo_detect.py:98-101 | after clamping 0 <= x1, 0 <= y1, x2 <= w and y2 <= h, and the clamped box covers exactly the pixels of the box that lie in the image |
| `YoloDetect.InFrameBoxUnclamped` | backend/pipeline/run_yolo_detect.py:98-101 | clamping leaves the box of a prediction inside the network frame unchanged |
| `YoloDetect.WriteOutputs` | backend/pipeline/run_yolo_detect.py:90-116 | clamping the corners in place and branching on the fallbacks returns exactly `RoiOutcome`: the ROI path and the file writes whose properties the lemmas below state |
| `YoloDetect.DetectRoi` | backend/pipeline/run_yolo_detect.py:78-116 | an unreadable image raises "Cannot read input image"; otherwise the outcome is that of the whole image when nothing is kept, and that of the best prediction's box otherwise |
| `YoloDetect.FallbackWritesOnlyWholeImage` | backend/pipeline/run_yolo_detect.py:94-106 | the ROI file is OUTPUT_DIR/<job_id>_roi.png; it holds the whole image if and only if there is no box or the crop is empty, and then no other file is written |
| `YoloDetect.AnnotatedOnlyForCrop` | backend/pipeline/run_yolo_detect.py:94-114 | a file is written at OUTPUT_DIR/<job_id>_annotated.png if and only if there is a box whose clamped crop is non-empty; the two fallbacks leave nothing there |
| `YoloDetect.BboxFileRecordsClampedBox` | backend/pipeline/run_yolo_detect.py:108-114 | a non-empty crop also writes <job_id>_annotated.png with the clamped rectangle and <job_id>_bbox.json recording exactly the clamped [x1, y1, x2, y2] |
| `YoloDetect.CropIsClampedBox` | backend/pipeline/run_yolo_detect.py:103-104 | when the clamped right and bottom edges are not negative, the crop is empty if and only if the clamped box is, and otherwise it is exactly the clamped box |
| `YoloDetect.NegativeEdgeWrapsAround` | backend/pipeline/run_yolo_detect.py:100-104 | a box entirely left of the image still yields a non-empty crop of all but the last -x2 columns, and the box file records the negative edge |
| `Outputs.OutputNameInjective` | backend/pipeline/run_yolo_detect.py:90-92 | the output files of one job are pairwise distinct, and different jobs never share a file name |
| `Outputs.JoinedOutputsDistinct` | backend/pipeline/run_yolo_detect.py:90-92 | two different artefacts of one job are written at different paths of the same output directory |
| `ProcessApi.Process` | backend/app.py:27-59 | without a `file` part the reply is 400 {"error": "no file"} and nothing is saved or started; otherwise the upload is saved at UPLOAD_DIR/<job_id>.jpg, the pipeline gets that path and job_id, and any 200 reply carries the success body |
| `ProcessApi.ImagePaths` | backend/app.py:53-58 | the `images` object: each stage key mapped to /api/image/<job_id>_<stage>.png; its properties are the lemmas below |
| `ProcessApi.SuccessBodyShape` | backend/app.py:51-59 | the success body holds job_id and images, and images has exactly the keys roi, mask, skeleton and track |
| `ProcessApi.ImagePathsNameOutputs` | backend/app.py:54-57 | each returned path is /api/image/ followed by the file name the pipeline writes for that stage |
| `ProcessApi.ImagePathsInjective` | backend/app.py:54-57 | the four paths of a job are pairwise distinct, and distinct job ids give disjoint path sets |
| `ProcessApi.ResponseIndependentOfMode` | backend/app.py:38-59 | queued and (returning) inline runs give the same reply; in queue mode the reply comes back whatever the pipeline later does |

## Left out

- Browser and React mechanics are not modelled: `URL.createObjectURL`,
  re-rendering, and the scheduling of the awaited call. The object URL and
  the call's outcome are parameters. The unused `FormData` built in
  `handleProcess` has no effect and is left out.
- `Demo.WeldDemo.CompleteRun` requires a started call. A completion is
  modelled as the continuation of an earlier `BeginRun`.
- The HTTP client wrapper is reduced to its outcome, success with
  `data.images` or failure. `getWeldResult` calls a route the back end does
  not serve, and the page never calls it.
- A stage value in the `images` object is a string, or absent for
  `null`/`undefined`. Other JSON values are not modelled.
- The detector itself is not modelled: preprocessing, the ONNX session and
  tensor numerics. Its predictions are an input.
- Image reading and writing are recorded as file writes, not performed.
  An image is known only by its height and width.
- Floats are modelled as reals, so NaN, infinities and float32 rounding
  are not covered.
- `YoloDetect.Postprocess` requires every prediction to have at least one
  class score, because `np.argmax` raises on an empty row.
- The skeleton step writes `<job_id>_track.png` only when
  `<job_id>_annotated.png` exists. That step is not modelled beyond its
  file names, so the model does not say when the track file exists. It
  proves only that the detection fallbacks write no annotated image.
- Segmentation (CLAHE, thresholding, morphology) and skeleton/track
  extraction (PCA, binning, drawing) are foreign numeric code. Only the
  names of the files they write are modelled.
- The queue is not modelled: Redis/RQ, the worker, Flask routing, the
  request-size limit, and serving images from the output directory. Queue
  mode is a parameter. It is imported from a configuration module that
  does not define it, and that import failure is not modelled.
- Saving the upload is not modelled as an operation that can fail.
- Sample-catalog selection and preview release are not modelled, because
  no code for them exists.
- Static presentation components are not modelled: the report page, the
  header, the app shell and the dropdown menu.
