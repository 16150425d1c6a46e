/**
 * The ballot batch page of src/pages/upload.jsx.
 *
 * The page keeps the chosen files (`images`), one preview URL per file
 * (`previews`), the processed ballot fields keyed by the file's index
 * (`data`) and a `loading` flag; its handlers overwrite these state fields,
 * modelled by the class `UploadPage`. The two requests are abstracted into
 * their outcomes, and `URL.createObjectURL` into a function parameter.
 */
module Upload {
  import opened Options

  /** The form-data field every image is sent under. */
  const BallotField := "ballots"
  const SubmittedAlert := "Votes submitted successfully."
  const FailedAlert := "Submission failed."

  datatype File = File(name: string, bytes: seq<bv8>)

  const ProcessLabel := "Process Ballots"
  const ProcessingLabel := "Processing..."

  /** The process button as rendered: whether it can be clicked, and its text. */
  datatype ProcessButton = ProcessButton(enabled: bool, text: string)

  /** Which of the page's buttons are rendered. */
  datatype PageView = PageView(processButton: Option<ProcessButton>, submitShown: bool)

  /** One entry of the `FormData` body. */
  datatype FormPart = FormPart(field: string, file: File)

  /** The fields of one ballot (`reg_id`, `vote_id`, `id_letter`, ...). */
  type Fields = map<string, string>

  /** Ballot fields keyed by the decimal index of the file they came from. */
  type BallotData = map<string, Fields>

  /** How the processing request ended: the parsed response body, or an
      exception (network failure, or a body that is not JSON). A non-2xx
      status with a JSON body still yields `Parsed`: the code does not look
      at the status. */
  datatype UploadOutcome = Parsed(result: BallotData) | UploadThrew

  /** How the submission request ended. */
  datatype SubmitOutcome = Accepted | Rejected | SubmitThrew

  /** The body `images.forEach(file => formData.append("ballots", file))`
      builds: every image, in order, under the same field name. */
  method BallotForm(images: seq<File>) returns (parts: seq<FormPart>)
    ensures |parts| == |images|
    ensures forall i :: 0 <= i < |images| ==> parts[i] == FormPart(BallotField, images[i])
  {
    parts := [];
    var i := 0;
    while i < |images|
      invariant 0 <= i <= |images|
      invariant |parts| == i
      invariant forall j :: 0 <= j < i ==> parts[j] == FormPart(BallotField, images[j])
    {
      parts := parts + [FormPart(BallotField, images[i])];
      i := i + 1;
    }
  }

  /** `{...prev, [index]: {...prev[index], [field]: value}}`: sets one field
      of one ballot. The other fields of that ballot and every other ballot
      keep their values; a ballot not yet present starts from no fields. */
  function SetBallotField(data: BallotData, index: string, field: string, value: string): (r: BallotData)
    ensures r.Keys == data.Keys + {index}
    ensures field in r[index] && r[index][field] == value
    ensures r[index].Keys == (if index in data then data[index].Keys else {}) + {field}
    ensures forall f :: f in r[index] && f != field ==> index in data && r[index][f] == data[index][f]
    ensures forall k :: k in data && k != index ==> r[k] == data[k]
  {
    data[index := BallotAt(data, index)[field := value]]
  }

  /** The fields of one ballot, none when absent (`{...undefined}` is `{}`). */
  function BallotAt(data: BallotData, index: string): Fields
  {
    if index in data then data[index] else map[]
  }

  /** Edits of two different fields, or of two different ballots, can be
      made in either order. */
  lemma SetBallotFieldCommutes(data: BallotData, i1: string, f1: string, v1: string,
                               i2: string, f2: string, v2: string)
    requires i1 != i2 || f1 != f2
    ensures SetBallotField(SetBallotField(data, i1, f1, v1), i2, f2, v2)
         == SetBallotField(SetBallotField(data, i2, f2, v2), i1, f1, v1)
  {
    if i1 != i2 {
      var p1, p2 := BallotAt(data, i1)[f1 := v1], BallotAt(data, i2)[f2 := v2];
      assert SetBallotField(data, i1, f1, v1) == data[i1 := p1];
      assert SetBallotField(data, i2, f2, v2) == data[i2 := p2];
      assert BallotAt(data[i1 := p1], i2) == BallotAt(data, i2);
      assert BallotAt(data[i2 := p2], i1) == BallotAt(data, i1);
      assert data[i1 := p1][i2 := p2] == data[i2 := p2][i1 := p1];
    } else {
      var e := BallotAt(data, i1);
      assert e[f1 := v1][f2 := v2] == e[f2 := v2][f1 := v1];
    }
  }

  /** A second edit of the same field overrides the first. */
  lemma SetBallotFieldLastWins(data: BallotData, index: string, field: string, v1: string, v2: string)
    ensures SetBallotField(SetBallotField(data, index, field, v1), index, field, v2)
         == SetBallotField(data, index, field, v2)
  {
    var e := BallotAt(data, index);
    assert e[field := v1][field := v2] == e[field := v2];
  }

  /** The page's state fields. */
  class UploadPage {
    var images: seq<File>
    var previews: seq<string>
    var data: BallotData
    var loading: bool

    constructor ()
      ensures images == [] && previews == [] && data == map[] && !loading
    {
      images, previews, data, loading := [], [], map[], false;
    }

    /** The buttons the page renders: the process button, present iff
        there is a preview and disabled and relabelled while loading, and
        the submit button, present iff some ballot has fields. */
    function Render(): (v: PageView)
      reads this
      ensures v.processButton.Some? <==> |previews| > 0
      ensures v.processButton.Some? ==>
        (v.processButton.value.enabled <==> !loading) &&
        v.processButton.value.text == (if loading then ProcessingLabel else ProcessLabel)
      ensures v.submitShown <==> exists k :: k in data
    {
      var submit := if |data| > 0 then (var k :| k in data; true) else (assert data == map[]; false);
      PageView(if |previews| > 0 then Some(ProcessButton(!loading, if loading then ProcessingLabel else ProcessLabel)) else None,
               submit)
    }

    /** A new selection replaces the files, in order, and their previews,
        one per file; the processed data and the flag are left alone (data
        of an earlier batch stays keyed by index). */
    method HandleFiles(files: seq<File>, objectUrl: File -> string)
      modifies this
      ensures images == files
      ensures |previews| == |images|
      ensures forall i :: 0 <= i < |images| ==> previews[i] == objectUrl(images[i])
      ensures data == old(data) && loading == old(loading)
      ensures Render().processButton.Some? <==> files != []
    {
      images := files;
      previews := seq(|files|, i requires 0 <= i < |files| => objectUrl(files[i]));
    }

    /** `handleUpload` up to its request: sets `loading` and returns the
        form body that is posted to the processing endpoint. */
    method StartUpload() returns (parts: seq<FormPart>)
      modifies this
      ensures loading
      ensures images == old(images) && previews == old(previews) && data == old(data)
      ensures |parts| == |images|
      ensures forall i :: 0 <= i < |images| ==> parts[i] == FormPart(BallotField, images[i])
    {
      loading := true;
      parts := BallotForm(images);
    }

    /** `handleUpload` after its request: a parsed body replaces the data,
        an exception leaves it; on every path `loading` ends false. */
    method FinishUpload(outcome: UploadOutcome)
      modifies this
      ensures !loading
      ensures data == if outcome.Parsed? then outcome.result else old(data)
      ensures images == old(images) && previews == old(previews)
    {
      if outcome.Parsed? {
        data := outcome.result;
      }
      loading := false;
    }

    /** `handleChange`: a point update of one field of one ballot. */
    method HandleChange(index: string, field: string, value: string)
      modifies this
      ensures data == SetBallotField(old(data), index, field, value)
      ensures images == old(images) && previews == old(previews) && loading == old(loading)
    {
      data := SetBallotField(data, index, field, value);
    }

    /** `handleSubmit` as written: on an accepted submission the success
        alert is shown, then the call to the undefined `setImages` throws
        and is caught, so nothing is cleared; a rejected submission shows
        the failure alert; an exception shows nothing. The state never
        changes. `body` is what is posted, the current `data`; `alert` is
        the message shown, if any. */
    method SubmitAsWritten(outcome: SubmitOutcome) returns (body: BallotData, alert: Option<string>)
      ensures body == data
      ensures alert == match outcome
        case Accepted => Some(SubmittedAlert)
        case Rejected => Some(FailedAlert)
        case SubmitThrew => None
    {
      body := data;
      match outcome {
        case Accepted =>
          alert := Some(SubmittedAlert);
          // `setImages([])` raises a ReferenceError here; the catch swallows it
        case Rejected =>
          alert := Some(FailedAlert);
        case SubmitThrew =>
          alert := None;
      }
    }

    /** `handleSubmit` as intended: an accepted submission clears the
        files, their previews and the data, which hides both buttons; a
        rejected one or an exception keeps everything for a retry. `body`
        is what is posted: the current `data`. */
    method Submit(outcome: SubmitOutcome) returns (body: BallotData, alert: Option<string>)
      modifies this
      ensures alert == match outcome
        case Accepted => Some(SubmittedAlert)
        case Rejected => Some(FailedAlert)
        case SubmitThrew => None
      ensures outcome.Accepted? ==> images == [] && previews == [] && data == map[]
      ensures body == old(data)
      ensures outcome.Accepted? ==> Render() == PageView(None, false)
      ensures !outcome.Accepted? ==> images == old(images) && previews == old(previews) && data == old(data)
      ensures loading == old(loading)
    {
      body := data;
      match outcome {
        case Accepted =>
          alert := Some(SubmittedAlert);
          images, previews, data := [], [], map[];
        case Rejected =>
          alert := Some(FailedAlert);
        case SubmitThrew =>
          alert := None;
      }
    }
  }

  /** The as-written submission keeps the batch: one file processed into
      one ballot, the backend accepts, the success alert appears, and yet
      the file, its preview and its fields are all still there, with both
      buttons still shown. */
  method AcceptedSubmitKeepsBatch() returns (alert: Option<string>, stillShown: bool)
    ensures alert == Some(SubmittedAlert)
    ensures stillShown
  {
    var page := new UploadPage();
    page.HandleFiles([File("ballot.jpg", [])], f => "blob:ballot");
    var parts := page.StartUpload();
    page.FinishUpload(Parsed(map["0" := map["reg_id" := "7"]]));
    var body;
    body, alert := page.SubmitAsWritten(Accepted);
    var view := page.Render();
    stillShown := view.processButton.Some? && view.submitShown && |page.images| == 1;
  }
}
