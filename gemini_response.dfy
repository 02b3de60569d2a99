/** How `generateWithAlternativeAPI` (services/geminiService.ts) turns the
    proxy's reply into an image or an error. */
module GeminiResponse {
  import opened Wrappers
  import opened JsString
  import opened JobTypes

  /** The parts of a parsed JSON reply the client looks at; `serialized` is
      what `JSON.stringify` gives back for it. */
  datatype JsonBody = JsonBody(success: bool, output: Option<seq<string>>, serialized: string)

  /** The reply as the client can read it: the status, the `content-type`
      header, and what each read of the body settles with. `text` is the
      body as text (`response.text()`, or the clone's), `json` the parsed
      JSON (`response.json()`, Err when reading or parsing rejects), `size`
      the size of `response.blob()`, and `dataUrl` the data URL `FileReader`
      makes of the blob (None when the reader fails). */
  datatype Reply = Reply(status: nat, contentType: Option<string>, text: Result<string>,
                         json: Result<JsonBody>, size: Result<nat>, dataUrl: Option<string>)

  /** `response.ok`. */
  predicate IsOk(status: nat) {
    200 <= status <= 299
  }

  /** `response.headers.get('content-type') || ''`. */
  function ContentTypeOf(r: Reply): string {
    if Truthy(r.contentType) then r.contentType.value else ""
  }

  const JsonType: string := "application/json"
  const MinImageSize: nat := 1000
  const QuoteLength: nat := 200
  const ReaderFailure: string := "Failed to convert image to base64"
  const StatusPrefix: string := "Alternative API returned "

  function StatusHead(status: nat): string {
    StatusPrefix + NatToString(status) + ": "
  }

  function StatusError(status: nat, text: string): string {
    StatusHead(status) + Take(text, QuoteLength)
  }

  function NoOutputError(serialized: string): string {
    "API returned success=true but no output image found. Response: " + serialized
  }

  function TooSmallError(size: nat, text: string): string {
    "API returned invalid response (too small: " + NatToString(size) + " bytes). Response: "
      + Take(text, QuoteLength)
  }

  /** `success` is truthy and `output` is a non-empty array. */
  predicate HasOutput(b: JsonBody) {
    b.success && b.output.Some? && |b.output.value| > 0
  }

  predicate IsJsonReply(r: Reply) {
    Includes(ContentTypeOf(r), JsonType)
  }

  /** `base64String.split(',')[1] || base64String`. */
  function DataUrlPayload(s: string): string {
    var pieces := Split(s, ',');
    if |pieces| >= 2 && pieces[1] != "" then pieces[1] else s
  }

  /** The value the promise resolves with, or the message it rejects with.
      A read of the body that rejects passes its error on unchanged. */
  function Outcome(r: Reply): Result<string> {
    if !IsOk(r.status) then
      match r.text
      case Err(m) => Err(m)
      case Ok(t) => Err(StatusError(r.status, t))
    else if IsJsonReply(r) then
      match r.json
      case Err(m) => Err(m)
      case Ok(b) => if HasOutput(b) then Ok(b.output.value[0]) else Err(NoOutputError(b.serialized))
    else
      match r.size
      case Err(m) => Err(m)
      case Ok(n) =>
        if n < MinImageSize then
          match r.text
          case Err(m) => Err(m)
          case Ok(t) => Err(TooSmallError(n, t))
        else
          match r.dataUrl
          case None => Err(ReaderFailure)
          case Some(u) => Ok(DataUrlPayload(u))
  }

  /** What the fetch to the proxy settles with: a rejected fetch passes its
      error on, and a reply is classified by `Outcome`. */
  function Settled(f: Result<Reply>): Result<string> {
    match f
    case Err(m) => Err(m)
    case Ok(r) => Outcome(r)
  }

  /** A status outside 200..299 always fails, whatever the body: the message
      is the status line followed by the first 200 characters of the body. */
  lemma ErrorStatusFails(r: Reply)
    requires !IsOk(r.status)
    ensures Outcome(r).Err?
    ensures r.text.Err? ==> Outcome(r).message == r.text.message
    ensures r.text.Ok? ==> Outcome(r).message == StatusHead(r.status) + Take(r.text.value, QuoteLength)
    ensures r.text.Ok? ==> var tail := Outcome(r).message[|StatusHead(r.status)|..];
      StartsWith(r.text.value, tail) && |tail| == if |r.text.value| < QuoteLength then |r.text.value| else QuoteLength
  {
  }

  /** A JSON reply yields the first URL of `output` exactly when it reports
      success with a non-empty output; neither the blob nor the text plays a
      part. */
  lemma JsonReplyOutcome(r: Reply)
    requires IsOk(r.status) && IsJsonReply(r)
    ensures Outcome(r).Ok? <==> r.json.Ok? && HasOutput(r.json.value)
    ensures Outcome(r).Ok? ==> Outcome(r).value == r.json.value.output.value[0]
    ensures r.json.Ok? && !HasOutput(r.json.value) ==>
      Outcome(r) == Err(NoOutputError(r.json.value.serialized))
    ensures r.json.Err? ==> Outcome(r) == Err(r.json.message)
    ensures forall n: Result<nat> :: Outcome(r.(size := n)) == Outcome(r)
    ensures forall t: Result<string> :: Outcome(r.(text := t)) == Outcome(r)
  {
  }

  /** A reply that is neither an error nor JSON must carry at least 1000
      bytes; below that it fails whatever the reader would give. */
  lemma ImageReplyOutcome(r: Reply)
    requires IsOk(r.status) && !IsJsonReply(r)
    ensures Outcome(r).Ok? <==> r.size.Ok? && r.size.value >= MinImageSize && r.dataUrl.Some?
    ensures r.size.Err? ==> Outcome(r) == Err(r.size.message)
    ensures r.size.Ok? && r.size.value < MinImageSize ==>
      Outcome(r) == (if r.text.Ok? then Err(TooSmallError(r.size.value, r.text.value)) else Err(r.text.message))
    ensures r.size.Ok? && r.size.value >= MinImageSize && r.dataUrl.None? ==> Outcome(r) == Err(ReaderFailure)
    ensures Outcome(r).Ok? ==> Outcome(r).value == DataUrlPayload(r.dataUrl.value)
  {
  }

  /** The data URL `FileReader` builds: the blob's type and its base64 encoding. */
  function DataUrl(mimeType: string, data: string): string {
    "data:" + mimeType + ";base64," + data
  }

  /** The payload of a data URL is recovered when neither part holds a comma. */
  lemma DataUrlPayloadRoundTrip(mimeType: string, data: string)
    requires ',' !in mimeType && ',' !in data && data != ""
    ensures DataUrlPayload(DataUrl(mimeType, data)) == data
  {
    var head := "data:" + mimeType + ";base64";
    assert ',' !in head by {
      assert head == "data:" + (mimeType + ";base64");
      assert ',' !in "data:" && ',' !in ";base64";
    }
    assert DataUrl(mimeType, data) == head + [','] + data;
    SplitFirst(head, ',', data);
    SplitWhole(data, ',');
  }

  /** A body that is not a data URL at all is passed through unchanged. */
  lemma NoCommaPassesThrough(s: string)
    requires ',' !in s
    ensures DataUrlPayload(s) == s
  {
    SplitWhole(s, ',');
  }
}
