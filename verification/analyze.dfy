/** The analyze screen: a guarded handler that shows a spinner while the
    photo is analysed, and the panel that renders the result. */
module Analysis {
  import opened Types
  import opened Text
  import opened Upload

  /** The parsed body of `POST /analyze`. The client does not look at the
      status code: an error body has no `match` and no `reason`, so it reads
      as a non-match without a reason. */
  datatype AnalysisResult = Matched(profile: Profile) | NotMatched(reason: Option<string>)

  /** What the request came back with: a parsed body, or a thrown error. */
  datatype AnalyzeReply = AnalyzeResponded(result: AnalysisResult) | AnalyzeThrew(message: string)

  const NoMatchFallback: string := "El rostro no corresponde a ningún perfil."
  const WantedText: string := "¡ALERTA: REQUISITORIADO!"
  const ClearText: string := "SIN REQUISITORIA"

  /** The result panel, lines 49 to 66. */
  datatype ResultPanel =
    | MatchPanel(photoUrl: string, name: string, code: string, flagText: string)
    | NoMatchPanel(text: string)

  function Panel(result: AnalysisResult): (p: ResultPanel)
    ensures p.MatchPanel? <==> result.Matched?
    ensures result.Matched? ==>
      && p.photoUrl == result.profile.photo_url
      && p.code == result.profile.codigo_estudiante
      && p.name == result.profile.nombre + " " + result.profile.apellidos
      && p.flagText == (if result.profile.requisitoriado then WantedText else ClearText)
    ensures result.NotMatched? ==> p.text != ""
    ensures result.NotMatched? ==>
      (p.text == NoMatchFallback || (result.reason == Some(p.text)))
    ensures result.NotMatched? && result.reason.Some? && result.reason.value != "" ==>
      p.text == result.reason.value
  {
    match result
    case Matched(profile) =>
      MatchPanel(profile.photo_url, profile.nombre + " " + profile.apellidos, profile.codigo_estudiante,
                 if profile.requisitoriado then WantedText else ClearText)
    case NotMatched(reason) => NoMatchPanel(OrElse(reason, NoMatchFallback))
  }

  /** What the screen renders: a spinner while loading; otherwise the form,
      whose button is enabled only with an image, and the panel when there
      is a result. */
  datatype AnalyzeView =
    | Spinner
    | AnalyzeForm(analyzeEnabled: bool, panel: Option<ResultPanel>)

  function View(image: Option<string>, result: Option<AnalysisResult>, loading: bool): (v: AnalyzeView)
    ensures v.Spinner? <==> loading
    ensures v.AnalyzeForm? ==> (v.analyzeEnabled <==> image.Some?)
    ensures v.AnalyzeForm? ==> (v.panel.Some? <==> result.Some?)
    ensures v.AnalyzeForm? && result.Some? ==> v.panel == Some(Panel(result.value))
  {
    if loading then Spinner
    else AnalyzeForm(image.Some?, if result.Some? then Some(Panel(result.value)) else None)
  }

  /** The single-part body: the photo under its timestamped name, from
      which the timestamp and the file name can be read back. */
  function AnalyzeRequest(now: nat, uri: string): (r: HttpRequest)
    ensures r.PostMultipart? && r.path == "/analyze" && |r.parts| == 1
    ensures r.parts[0].FilePart? && r.parts[0].name == "photo" && r.parts[0].uri == uri
    ensures AllDigits(BeforeFirstDash(r.parts[0].filename))
    ensures DecimalValue(BeforeFirstDash(r.parts[0].filename)) == now
    ensures AfterFirstDash(r.parts[0].filename) == UploadFilename(uri)
  {
    UniqueFilenameRoundTrip(now, uri);
    PostMultipart("/analyze", [FilePart("photo", uri, "image/jpeg", UniqueFilename(now, uri))])
  }

  class AnalyzeScreen {
    var image: Option<string>
    var analysisResult: Option<AnalysisResult>
    var loading: bool
    var alerts: seq<Alert>
    var sent: seq<HttpRequest>

    function Rendered(): AnalyzeView
      reads this
    {
      View(image, analysisResult, loading)
    }

    constructor ()
      ensures image == None && analysisResult == None && !loading
      ensures alerts == [] && sent == []
    {
      image := None;
      analysisResult := None;
      loading := false;
      alerts := [];
      sent := [];
    }

    method PickImage(uri: string)
      modifies this
      ensures image == Some(uri)
      ensures analysisResult == old(analysisResult) && loading == old(loading)
      ensures alerts == old(alerts) && sent == old(sent)
    {
      image := Some(uri);
    }

    /** The part of `handleAnalyze` before the `await`: without an image it
        returns at once; otherwise it shows the spinner, clears the previous
        result and sends the photo. */
    method StartAnalyze(now: nat) returns (started: bool)
      modifies this
      ensures started <==> image.Some?
      ensures image == old(image) && alerts == old(alerts)
      ensures !started ==>
        analysisResult == old(analysisResult) && loading == old(loading) && sent == old(sent)
      ensures started ==>
        loading && analysisResult == None && sent == old(sent) + [AnalyzeRequest(now, image.value)]
      ensures started ==> Rendered() == Spinner
    {
      if image.None? {
        return false;
      }
      loading := true;
      analysisResult := None;
      sent := sent + [AnalyzeRequest(now, image.value)];
      started := true;
    }

    /** The part after the `await`: store the parsed result or alert, and in
        every case hide the spinner. */
    method FinishAnalyze(reply: AnalyzeReply)
      modifies this
      ensures !loading
      ensures image == old(image) && sent == old(sent)
      ensures reply.AnalyzeResponded? ==>
        analysisResult == Some(reply.result) && alerts == old(alerts)
      ensures reply.AnalyzeThrew? ==>
        analysisResult == old(analysisResult) && alerts == old(alerts) + [ConnectionAlert(reply.message)]
    {
      match reply {
        case AnalyzeResponded(result) =>
          analysisResult := Some(result);
        case AnalyzeThrew(message) =>
          alerts := alerts + [ConnectionAlert(message)];
      }
      loading := false;
    }

    /** `handleAnalyze` as a whole. */
    method HandleAnalyze(now: nat, reply: AnalyzeReply)
      modifies this
      ensures image == old(image)
      ensures image.None? ==>
        analysisResult == old(analysisResult) && loading == old(loading)
        && alerts == old(alerts) && sent == old(sent)
      ensures image.Some? ==> !loading && sent == old(sent) + [AnalyzeRequest(now, image.value)]
      ensures image.Some? && reply.AnalyzeResponded? ==> analysisResult == Some(reply.result) && alerts == old(alerts)
      ensures image.Some? && reply.AnalyzeThrew? ==>
        analysisResult == None && alerts == old(alerts) + [ConnectionAlert(reply.message)]
    {
      var started := StartAnalyze(now);
      if started {
        FinishAnalyze(reply);
      }
    }
  }
}
