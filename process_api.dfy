/**
 * The `/api/process` endpoint of the back-end: it accepts one uploaded
 * image, stores it under a fresh job identifier, starts the pipeline
 * (queued or inline) and answers with the job identifier and the four
 * image paths the front end will display.  The job identifier
 * (`uuid4().hex`), the queue mode and whether an inline pipeline run
 * raises are parameters; saving the file and running the pipeline are
 * recorded as effects rather than performed.
 */
module ProcessApi {
  import opened Wrappers
  import opened Outputs

  /** The JSON values the endpoint produces. */
  datatype Json = JString(s: string) | JObject(fields: map<string, Json>)

  /** One uploaded multipart part. */
  datatype Upload = Upload(filename: string, bytes: seq<bv8>)

  /** The multipart parts of a request, by field name (`request.files`). */
  datatype Request = Request(files: map<string, Upload>)

  /** A reply produced by the handler, or the 500 Flask sends when the handler raises. */
  datatype Response = Reply(status: int, body: Json) | InternalServerError

  /** What the handler does with the pipeline. */
  datatype PipelineCall =
    | NotStarted
    | Enqueued(inputPath: string, jobId: string, jobTimeout: int)
    | RanInline(inputPath: string, jobId: string)

  datatype SavedUpload = SavedUpload(path: string, upload: Upload)

  /** The response together with the effects the handler performed. */
  datatype Handled = Handled(response: Response, saved: Option<SavedUpload>, pipeline: PipelineCall)

  /** Seconds a queued job may run. */
  const JobTimeout: int := 300

  /** The four stage keys of the `images` object, in the order they are written. */
  const StageKeys: seq<string> := ["roi", "mask", "skeleton", "track"]

  /** The body of the 400 reply to a request without a `file` part. */
  const NoFileBody: Json := JObject(map["error" := JString("no file")])

  /** The `images` object of a successful reply, as string paths. */
  function ImagePaths(jobId: string): map<string, string>
  {
    map[
      "roi" := "/api/image/" + jobId + "_roi.png",
      "mask" := "/api/image/" + jobId + "_mask.png",
      "skeleton" := "/api/image/" + jobId + "_skeleton.png",
      "track" := "/api/image/" + jobId + "_track.png"]
  }

  /** A map of strings as a JSON object. */
  function JsonObjectOf(m: map<string, string>): Json
  {
    JObject(map k | k in m :: JString(m[k]))
  }

  /** The JSON body of a successful reply. */
  function SuccessBody(jobId: string): Json
  {
    JObject(map["job_id" := JString(jobId), "images" := JsonObjectOf(ImagePaths(jobId))])
  }

  /** Where the upload of a job is saved. */
  function UploadPath(uploadDir: string, jobId: string): string
  {
    Join(uploadDir, jobId + ".jpg")
  }

  /**
   * The handler: reject a request without a `file` part; otherwise save
   * the upload as `<job_id>.jpg`, enqueue or run the pipeline and reply
   * with the job identifier and the image paths.
   */
  function Process(req: Request, jobId: string, uploadDir: string, useQueue: bool, pipelineRaises: bool): (h: Handled)
    ensures "file" !in req.files <==> h.response == Reply(400, NoFileBody)
    ensures "file" !in req.files ==> h.saved.None? && h.pipeline.NotStarted?
    ensures "file" in req.files ==> h.saved == Some(SavedUpload(UploadPath(uploadDir, jobId), req.files["file"]))
    ensures "file" in req.files ==> !h.pipeline.NotStarted? && h.pipeline.inputPath == UploadPath(uploadDir, jobId) && h.pipeline.jobId == jobId
    ensures h.response.Reply? && h.response.status == 200 ==> h.response.body == SuccessBody(jobId)
  {
    if "file" !in req.files then
      Handled(Reply(400, NoFileBody), None, NotStarted)
    else
      var f := req.files["file"];
      var inputPath := UploadPath(uploadDir, jobId);
      var saved := Some(SavedUpload(inputPath, f));
      if useQueue then
        Handled(Reply(200, SuccessBody(jobId)), saved, Enqueued(inputPath, jobId, JobTimeout))
      else if pipelineRaises then
        Handled(InternalServerError, saved, RanInline(inputPath, jobId))
      else
        Handled(Reply(200, SuccessBody(jobId)), saved, RanInline(inputPath, jobId))
  }

  /**
   * A successful body holds `job_id` and `images`, and `images` has
   * exactly the four stage keys, each mapped to a string path.
   */
  lemma SuccessBodyShape(jobId: string)
    ensures SuccessBody(jobId).fields.Keys == {"job_id", "images"}
    ensures SuccessBody(jobId).fields["job_id"] == JString(jobId)
    ensures var images := SuccessBody(jobId).fields["images"];
      images.JObject? && images.fields.Keys == {"roi", "mask", "skeleton", "track"}
      && forall k :: k in images.fields ==> images.fields[k] == JString(ImagePaths(jobId)[k])
  {
    var m := ImagePaths(jobId);
    assert m.Keys == {"roi", "mask", "skeleton", "track"};
  }

  /** The artefact whose file an `images` key points at. */
  function ArtefactOf(key: string): Artefact
    requires key in StageKeys
  {
    if key == "roi" then Roi
    else if key == "mask" then Mask
    else if key == "skeleton" then Skeleton
    else Track
  }

  /**
   * Every returned path is `/api/image/` followed by the name under which
   * the pipeline writes that stage's file, which is where the image route
   * looks it up.  The path is returned whether or not the file is written:
   * after a detection fallback no annotated image exists, so no track file
   * is written either.
   */
  lemma ImagePathsNameOutputs(jobId: string)
    ensures ImagePaths(jobId).Keys == set k | k in StageKeys
    ensures forall k :: k in StageKeys ==>
      ImagePaths(jobId)[k] == "/api/image/" + OutputName(jobId, ArtefactOf(k))
  {
    var m := ImagePaths(jobId);
    assert m.Keys == set k | k in StageKeys;
  }

  /**
   * Paths are injective in the job and the stage: the four paths of one
   * job are pairwise distinct, and two different jobs share no path.
   */
  lemma ImagePathsInjective(j1: string, k1: string, j2: string, k2: string)
    requires k1 in StageKeys && k2 in StageKeys
    requires ImagePaths(j1)[k1] == ImagePaths(j2)[k2]
    ensures j1 == j2 && k1 == k2
  {
    ImagePathsNameOutputs(j1);
    ImagePathsNameOutputs(j2);
    PrefixCancel("/api/image/", OutputName(j1, ArtefactOf(k1)), OutputName(j2, ArtefactOf(k2)));
    OutputNameInjective(j1, ArtefactOf(k1), j2, ArtefactOf(k2));
  }

  /**
   * The reply does not depend on how the pipeline is run: queued or
   * inline (when the inline run returns), the same body comes back.  In
   * queue mode it comes back whatever the pipeline later does, so the
   * paths are returned before the files exist.
   */
  lemma ResponseIndependentOfMode(req: Request, jobId: string, uploadDir: string, raises: bool)
    requires "file" in req.files
    ensures Process(req, jobId, uploadDir, true, raises).response == Reply(200, SuccessBody(jobId))
    ensures Process(req, jobId, uploadDir, false, false).response == Reply(200, SuccessBody(jobId))
    ensures Process(req, jobId, uploadDir, true, raises).pipeline == Enqueued(UploadPath(uploadDir, jobId), jobId, JobTimeout)
  {
  }
}
