/**
 * The application controller: five state cells (selected file, preview URL,
 * prediction result, loading flag, error message) and the event handlers that
 * set them in order. The one network exchange is an input of the predict
 * handler; every request the controller posts is recorded in a ghost log.
 */
module App {
  import opened Wrappers
  import opened JsonValues
  import opened Api

  const InvalidFileMessage: string := "Please upload a valid image file."
  const NoFileMessage: string := "Please upload an image first."

  /** A chosen file: its declared media type and its bytes. */
  datatype File = File(mediaType: string, content: seq<bv8>)

  /** `file.type.startsWith("image/")`. */
  predicate IsImageType(mediaType: string)
    ensures IsImageType(mediaType) <==> |mediaType| >= 6 && mediaType[..6] == "image/"
  {
    "image/" <= mediaType
  }

  /** `event.target.files?.[0]`: the first chosen file, if the list exists and is not empty. */
  function FirstFile(files: Option<seq<File>>): (f: Option<File>)
    ensures f.Some? <==> files.Some? && files.value != []
    ensures f.Some? ==> f.value == files.value[0]
  {
    if files.Some? && |files.value| > 0 then Some(files.value[0]) else None
  }

  datatype FormData = FormData(entries: seq<(string, File)>)

  /** A request as `fetch` receives it: the HTTP method, URL and multipart body. */
  datatype Request = Request(verb: string, url: string, body: FormData)

  /** `buildForm`: a form with the single field `image`. */
  function BuildForm(file: File): (form: FormData)
    ensures |form.entries| == 1 && form.entries[0].0 == "image" && form.entries[0].1 == file
  {
    FormData([("image", file)])
  }

  /** The POST that predicting with `file` sends to the endpoint. */
  function PredictionRequest(file: File): (r: Request)
    ensures r.verb == "POST" && r.url == ApiUrl && r.body.entries == [("image", file)]
  {
    Request("POST", ApiUrl, BuildForm(file))
  }

  /** A reference made by `URL.createObjectURL`: a new object for every call, tied to the blob it shows. */
  class ObjectUrl {
    const blob: File

    constructor (blob: File)
      ensures this.blob == blob
    {
      this.blob := blob;
    }
  }

  class Controller {
    var selectedFile: Option<File>
    var previewUrl: ObjectUrl?
    var result: Option<Prediction>
    var loading: bool
    var error: string
    /** Every request posted so far, oldest first. */
    ghost var requests: seq<Request>

    /**
     * The state between two events: no request is in flight, the preview shows
     * exactly the selected file, and a stored result, which only an accepted
     * payload can produce, comes with a selected file and no error message.
     */
    ghost predicate Valid()
      reads this
    {
      && !loading
      && (previewUrl != null <==> selectedFile.Some?)
      && (previewUrl != null ==> previewUrl.blob == selectedFile.value)
      && (result.Some? ==> selectedFile.Some? && error == "" && result.value.gender in Genders)
    }

    constructor ()
      ensures Valid()
      ensures selectedFile == None && previewUrl == null && result == None
      ensures !loading && error == "" && requests == []
    {
      selectedFile := None;
      previewUrl := null;
      result := None;
      loading := false;
      error := "";
      requests := [];
    }

    /** The Predict button is enabled (`disabled={loading || !selectedFile}` is false). */
    predicate PredictEnabled()
      reads this
      ensures PredictEnabled() <==> !loading && selectedFile.Some?
    {
      !(loading || selectedFile.None?)
    }

    /** `clearFileState`: forget the file, its preview and any result. */
    method ClearFileState()
      modifies this
      ensures selectedFile == None && previewUrl == null && result == None
      ensures loading == old(loading) && error == old(error) && requests == old(requests)
    {
      selectedFile := None;
      previewUrl := null;
      result := None;
    }

    /** `updateFileState`: clear the error and the result, store the file and a new preview reference. */
    method UpdateFileState(file: File)
      modifies this
      ensures error == "" && result == None && selectedFile == Some(file)
      ensures previewUrl != null && fresh(previewUrl) && previewUrl.blob == file
      ensures loading == old(loading) && requests == old(requests)
    {
      error := "";
      result := None;
      selectedFile := Some(file);
      previewUrl := new ObjectUrl(file);
    }

    /** `handleFileChange`: the user picked the list `files` (`None` when the input has no list). */
    method HandleFileChange(files: Option<seq<File>>)
      requires Valid()
      modifies this
      ensures Valid()
      ensures PredictEnabled() <==> selectedFile.Some?
      ensures loading == old(loading) && requests == old(requests)
      ensures FirstFile(files).None? ==>
        && selectedFile == None && previewUrl == null && result == None
        && error == old(error)
      ensures FirstFile(files).Some? && !IsImageType(FirstFile(files).value.mediaType) ==>
        && selectedFile == None && previewUrl == null && result == None
        && error == InvalidFileMessage
      ensures FirstFile(files).Some? && IsImageType(FirstFile(files).value.mediaType) ==>
        && selectedFile == FirstFile(files) && result == None && error == ""
        && previewUrl != null && fresh(previewUrl) && previewUrl.blob == FirstFile(files).value
    {
      var file := FirstFile(files);
      if file.None? {
        ClearFileState();
      } else if !IsImageType(file.value.mediaType) {
        error := InvalidFileMessage;
        ClearFileState();
      } else {
        UpdateFileState(file.value);
      }
    }

    /**
     * `getPredictionResponse`: post the form and check the status. On a
     * rejection or a non-ok status it shows the error's message and rethrows.
     */
    method GetPredictionResponse(file: File, outcome: FetchOutcome) returns (r: Result<HttpResponse>)
      requires loading
      modifies this
      ensures requests == old(requests) + [PredictionRequest(file)]
      ensures selectedFile == old(selectedFile) && previewUrl == old(previewUrl)
      ensures result == old(result) && loading == old(loading)
      ensures outcome.TransportFailure? ==> r == Thrown(outcome.message) && error == outcome.message
      ensures outcome.Received? && !IsOkStatus(outcome.response.status) ==>
        && r == Thrown(ServerErrorMessage(outcome.response.status))
        && error == ServerErrorMessage(outcome.response.status)
      ensures outcome.Received? && IsOkStatus(outcome.response.status) ==>
        r == Ok(outcome.response) && error == old(error)
    {
      var form := BuildForm(file);
      requests := requests + [Request("POST", ApiUrl, form)];
      match outcome
      case TransportFailure(m) =>
        error := m;
        r := Thrown(m);
      case Received(response) =>
        var checked := CheckResponseOk(response);
        if checked.Throw? {
          error := checked.message;
          r := Thrown(checked.message);
        } else {
          r := Ok(response);
        }
    }

    /**
     * `postAndUpdateResult`: obtain the response, parse and validate the body,
     * and store the prediction; any thrown error's message becomes the error.
     */
    method PostAndUpdateResult(file: File, outcome: FetchOutcome)
      requires loading
      modifies this
      ensures requests == old(requests) + [PredictionRequest(file)]
      ensures selectedFile == old(selectedFile) && previewUrl == old(previewUrl) && loading == old(loading)
      ensures Expected(outcome).Ok? ==> result == Some(Expected(outcome).value) && error == old(error)
      ensures Expected(outcome).Thrown? ==> result == old(result) && error == Expected(outcome).message
    {
      var response := GetPredictionResponse(file, outcome);
      if response.Thrown? {
        error := response.message;
        return;
      }
      match response.value.body
      case Unparsable(m) =>
        error := m;
      case Parsed(data) =>
        var checked := ThrowIfDataInvalid(data);
        if checked.Throw? {
          error := checked.message;
        } else {
          result := Some(ToPrediction(data));
        }
    }

    /**
     * `handlePredictClick`: without a selected file, show the prompt and do nothing
     * else; otherwise clear the error and the result, set the loading flag for
     * the duration of one request, and clear it when the request has ended.
     */
    method HandlePredict(outcome: FetchOutcome)
      requires Valid()
      modifies this
      ensures Valid()
      ensures PredictEnabled() <==> selectedFile.Some?
      ensures selectedFile == old(selectedFile) && previewUrl == old(previewUrl) && !loading
      ensures old(selectedFile).None? ==>
        && error == NoFileMessage && result == old(result) && requests == old(requests)
      ensures old(selectedFile).Some? ==>
        requests == old(requests) + [PredictionRequest(old(selectedFile).value)]
      ensures old(selectedFile).Some? && Expected(outcome).Ok? ==>
        result == Some(Expected(outcome).value) && error == ""
      ensures old(selectedFile).Some? && Expected(outcome).Thrown? ==>
        result == None && error == Expected(outcome).message
    {
      if selectedFile.None? {
        error := NoFileMessage;
        return;
      }
      loading := true;
      error := "";
      result := None;
      PostAndUpdateResult(selectedFile.value, outcome);
      loading := false;
      if Expected(outcome).Ok? {
        ExpectedSuccessValue(outcome);
      }
    }
  }
}
