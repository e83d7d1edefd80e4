/** `POST /api/transcription`: checks the upload and the server credential,
    forwards the file with a fixed model name to the transcription service,
    and relays its answer or maps the failure to a status and an error body.
    The awaited form, the environment variable and the outcome of the
    upstream call are inputs. */
module Route {
  import opened Media
  import Text

  /** A multipart form field value: an uploaded file or plain text. */
  datatype FormValue = FileValue(file: File) | TextValue(text: string)

  type FormFields = seq<(string, FormValue)>

  /** The incoming request body once `request.formData()` settles. */
  datatype Request =
    | Unreadable                   // formData() rejects
    | Form(fields: FormFields)

  /** What the upstream `fetch` produced. `text` and `json` are the results of
      reading the body with `response.text()` and `response.json()` (None
      where reading rejects); the route reads at most one of them. */
  datatype Upstream =
    | FetchFailed
    | Replied(status: nat, text: Option<string>, json: Option<Json>)

  /** What the route sends back: `NextResponse.json(body, { status })`. */
  datatype Response = Response(status: nat, body: Json)

  /** The call the route makes to the transcription service. */
  datatype UpstreamRequest =
    UpstreamRequest(url: string, httpMethod: string, authorization: string, form: FormFields)

  const TranscriptionUrl: string := "https://api.groq.com/openai/v1/audio/transcriptions"
  const ModelName: string := "whisper-large-v3"
  const NoFileError: string := "No audio file provided"
  const NoKeyError: string := "Groq API key is not configured"
  const FailureError: string := "Failed to process transcription request"
  const UpstreamErrorPrefix: string := "Groq API error: "

  /** `formData.get(name)`: the value of the first field with that name. */
  function Get(fields: FormFields, name: string): (r: Option<FormValue>)
    ensures r.None? <==> forall i :: 0 <= i < |fields| ==> fields[i].0 != name
    ensures r.Some? ==>
      exists i :: (0 <= i < |fields| && fields[i] == (name, r.value)
        && forall j :: 0 <= j < i ==> fields[j].0 != name)
  {
    if fields == [] then None
    else if fields[0].0 == name then Some(fields[0].1)
    else
      var r := Get(fields[1..], name);
      assert forall i :: 1 <= i < |fields| ==> fields[i] == fields[1..][i - 1];
      if r.Some? then
        ghost var i :| 0 <= i < |fields[1..]| && fields[1..][i] == (name, r.value)
          && forall j :: 0 <= j < i ==> fields[1..][j].0 != name;
        assert fields[i + 1] == (name, r.value);
        r
      else
        r
  }

  /** `!audioFile` is false: a field is there and is not the empty string. */
  predicate FilePresent(v: Option<FormValue>)
  {
    v.Some? && v.value != TextValue("")
  }

  /** `!groqApiKey` is false: the variable is set and not empty. */
  predicate KeyPresent(key: Option<string>)
  {
    key.Some? && key.value != ""
  }

  function ErrorBody(message: string): Json
  {
    JObject(map["error" := JString(message)])
  }

  /** The form sent upstream: the uploaded value, then the model name. */
  function UpstreamForm(file: FormValue): FormFields
  {
    [("file", file), ("model", TextValue(ModelName))]
  }

  /** The upstream call the route makes, or None when it returns before it. */
  function Forward(request: Request, key: Option<string>): Option<UpstreamRequest>
  {
    match request
    case Unreadable => None
    case Form(fields) =>
      var file := Get(fields, "file");
      if !FilePresent(file) || !KeyPresent(key) then None
      else Some(UpstreamRequest(TranscriptionUrl, "POST", "Bearer " + key.value, UpstreamForm(file.value)))
  }

  /** `2xx` is `response.ok`. */
  predicate Ok(status: nat)
  {
    200 <= status <= 299
  }

  /** A status `NextResponse.json(body, { status })` accepts: one in
      200..599 that may carry a body. Any other status makes it throw
      (a RangeError outside 200..599, a TypeError for 204, 205 and 304). */
  predicate RelayableStatus(status: nat)
  {
    200 <= status <= 599 && status !in {204, 205, 304}
  }

  /** The route's result. Every rejected await and every throwing call
      inside the `try` lands in the `catch` and gives the generic 500. */
  function Post(request: Request, key: Option<string>, upstream: Upstream): Response
  {
    match request
    case Unreadable => Response(500, ErrorBody(FailureError))
    case Form(fields) =>
      if !FilePresent(Get(fields, "file")) then Response(400, ErrorBody(NoFileError))
      else if !KeyPresent(key) then Response(500, ErrorBody(NoKeyError))
      else
        match upstream
        case FetchFailed => Response(500, ErrorBody(FailureError))
        case Replied(status, text, json) =>
          if !Ok(status) then
            if text.None? || !RelayableStatus(status) then Response(500, ErrorBody(FailureError))
            else
              Response(status, JObject(map[
                "error" := JString(UpstreamErrorPrefix + Text.Decimal(status)),
                "details" := JString(text.value)]))
          else if json.None? then Response(500, ErrorBody(FailureError))
          else Response(200, json.value)
  }

  /** A missing file gives 400 before the credential is looked at, and
      nothing is sent upstream. */
  lemma MissingFileIs400(fields: FormFields, key: Option<string>, upstream: Upstream)
    requires !FilePresent(Get(fields, "file"))
    ensures Post(Form(fields), key, upstream) == Response(400, ErrorBody(NoFileError))
    ensures Forward(Form(fields), key).None?
  {
  }

  /** A file without a credential gives 500 and nothing is sent upstream. */
  lemma MissingKeyIs500(fields: FormFields, key: Option<string>, upstream: Upstream)
    requires FilePresent(Get(fields, "file")) && !KeyPresent(key)
    ensures Post(Form(fields), key, upstream) == Response(500, ErrorBody(NoKeyError))
    ensures Forward(Form(fields), key).None?
  {
  }

  /** When the route returns early, the upstream outcome plays no part. */
  lemma EarlyReturnIgnoresUpstream(request: Request, key: Option<string>, u1: Upstream, u2: Upstream)
    requires Forward(request, key).None?
    ensures Post(request, key, u1) == Post(request, key, u2)
  {
  }

  /** The forwarded call carries exactly the uploaded file and the model name,
      with the credential as a bearer token. */
  lemma ForwardCarriesFile(fields: FormFields, key: Option<string>)
    requires FilePresent(Get(fields, "file")) && KeyPresent(key)
    ensures var f := Forward(Form(fields), key);
      && f.Some? && f.value.url == TranscriptionUrl && f.value.httpMethod == "POST"
      && f.value.authorization == "Bearer " + key.value
      && f.value.form == [("file", Get(fields, "file").value), ("model", TextValue(ModelName))]
  {
  }

  /** An upstream failure with a status the response may carry is relayed
      with that status; the message
      names that status in decimal, so it can be read back, and `details`
      is the upstream body. */
  lemma UpstreamErrorRelayed(fields: FormFields, key: Option<string>, status: nat, text: string, json: Option<Json>)
    requires FilePresent(Get(fields, "file")) && KeyPresent(key) && !Ok(status) && RelayableStatus(status)
    ensures var r := Post(Form(fields), key, Replied(status, Some(text), json));
      && r.status == status
      && r.body.JObject? && "error" in r.body.fields && "details" in r.body.fields
      && r.body.fields["details"] == JString(text)
      && r.body.fields["error"].JString?
      && var m := r.body.fields["error"].s;
         |m| > |UpstreamErrorPrefix| && m[..|UpstreamErrorPrefix|] == UpstreamErrorPrefix
         && (forall k :: |UpstreamErrorPrefix| <= k < |m| ==> '0' <= m[k] <= '9')
         && Text.ParseDecimal(m[|UpstreamErrorPrefix|..]) == status
  {
    var m := UpstreamErrorPrefix + Text.Decimal(status);
    assert m[|UpstreamErrorPrefix|..] == Text.Decimal(status);
    Text.DecimalRoundTrip(status);
  }

  /** A successful upstream answer is returned unchanged with status 200. */
  lemma SuccessRelayed(fields: FormFields, key: Option<string>, status: nat, text: Option<string>, json: Json)
    requires FilePresent(Get(fields, "file")) && KeyPresent(key) && Ok(status)
    ensures Post(Form(fields), key, Replied(status, text, Some(json))) == Response(200, json)
  {
  }

  /** Status 200 comes only from a successful upstream answer passed through;
      every other status is an error status and carries an error message. */
  lemma StatusMeaning(request: Request, key: Option<string>, upstream: Upstream)
    ensures var r := Post(request, key, upstream);
      if r.status == 200 then
        Forward(request, key).Some? && upstream.Replied? && Ok(upstream.status)
        && upstream.json == Some(r.body)
      else
        !Ok(r.status) && r.body.JObject? && "error" in r.body.fields && r.body.fields["error"].JString?
  {
  }

  /** Every rejected or throwing step inside the `try` ends in the generic
      500: an unreadable form, a failed fetch, an unreadable upstream body,
      or an upstream error status the response cannot carry. */
  lemma FailuresAre500(request: Request, key: Option<string>, upstream: Upstream)
    requires Forward(request, key).Some? || request.Unreadable?
    requires request.Unreadable? || upstream.FetchFailed?
      || (upstream.Replied? && Ok(upstream.status) && upstream.json.None?)
      || (upstream.Replied? && !Ok(upstream.status) && upstream.text.None?)
      || (upstream.Replied? && !Ok(upstream.status) && !RelayableStatus(upstream.status))
    ensures Post(request, key, upstream) == Response(500, ErrorBody(FailureError))
  {
  }

  /** A "Not Modified" or out-of-range upstream status is not relayed: the
      route answers with the generic 500 instead. */
  lemma UnrelayableStatusIs500(fields: FormFields, key: Option<string>, text: string)
    requires FilePresent(Get(fields, "file")) && KeyPresent(key)
    ensures Post(Form(fields), key, Replied(304, Some(text), None)) == Response(500, ErrorBody(FailureError))
    ensures Post(Form(fields), key, Replied(103, Some(text), None)) == Response(500, ErrorBody(FailureError))
    ensures Post(Form(fields), key, Replied(999, Some(text), None)) == Response(500, ErrorBody(FailureError))
    ensures Post(Form(fields), key, Replied(404, Some(text), None)).status == 404
  {
  }
}
