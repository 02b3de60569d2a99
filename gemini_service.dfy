/** `generateWithAlternativeAPI` and `generateHiringPost`
    (services/geminiService.ts): the multipart request sent to the proxy
    and the value the call resolves with. The browser's `atob` and the round
    trip through the proxy are parameters of the model. */
module GeminiService {
  import opened Wrappers
  import opened JsString
  import opened JobTypes
  import opened GeminiPrompt
  import opened GeminiImage
  import opened GeminiResponse

  datatype FormValue = Text(text: string) | File(bytes: seq<Byte>, mimeType: string, fileName: string)
  datatype FormEntry = FormEntry(name: string, value: FormValue)

  /** The `FormData` the request body is built in, entry by entry. */
  class FormData {
    var entries: seq<FormEntry>

    constructor()
      ensures entries == []
    {
      entries := [];
    }

    method Append(name: string, value: FormValue)
      modifies this
      ensures entries == old(entries) + [FormEntry(name, value)]
    {
      entries := entries + [FormEntry(name, value)];
    }
  }

  /** Every character lies in U+0020..U+007E. */
  predicate PrintableAscii(t: string) {
    forall k :: 0 <= k < |t| ==> ' ' <= t[k] <= '~'
  }

  /** The `type` a `Blob` keeps, as the File API constructor sets it: the
      given type in ASCII lower case, or empty when any character is not
      printable ASCII. */
  function BlobType(t: string): string {
    if PrintableAscii(t) then Lower(t) else ""
  }

  /** The type a `Blob` keeps is already normalised: constructing again
      with it changes nothing. */
  lemma BlobTypeIdempotent(t: string)
    ensures BlobType(BlobType(t)) == BlobType(t)
  {
    if PrintableAscii(t) {
      var l := Lower(t);
      forall k | 0 <= k < |l|
        ensures ' ' <= l[k] <= '~' && LowerChar(l[k]) == l[k]
      {
        assert l[k] == LowerChar(t[k]);
      }
      assert Lower(l) == l;
    }
  }

  /** A printable type without capitals is kept as it is, one with capitals
      is lowered, and any other is dropped. */
  lemma BlobTypeCases(t: string)
    ensures PrintableAscii(t) && (forall k :: 0 <= k < |t| ==> !('A' <= t[k] <= 'Z')) ==> BlobType(t) == t
    ensures PrintableAscii(t) ==> |BlobType(t)| == |t| && forall k :: 0 <= k < |t| ==> !('A' <= BlobType(t)[k] <= 'Z')
    ensures !PrintableAscii(t) ==> BlobType(t) == ""
  {
    if PrintableAscii(t) && (forall k :: 0 <= k < |t| ==> !('A' <= t[k] <= 'Z')) {
      assert Lower(t) == t;
    }
  }

  /** The placeholder's `image/png` passes through unchanged. */
  lemma PngBlobType()
    ensures BlobType(PngType) == PngType
  {
    PngPrintable();
    PngLowerCase();
    BlobTypeCases(PngType);
  }

  lemma PngPrintable()
    ensures PrintableAscii(PngType)
  {
  }

  lemma PngLowerCase()
    ensures forall k :: 0 <= k < |PngType| ==> !('A' <= PngType[k] <= 'Z')
  {
  }

  const ProcessFailure: string := "Failed to process image for alternative API: "

  /** The `image` entry, or the wrapped message of what went wrong on the way. */
  function ImageEntry(image: string, fileName: string, atob: string -> Result<seq<Latin1>>): Result<FormEntry> {
    match Base64ToPart(image)
    case Err(m) => Err(ProcessFailure + m)
    case Ok(part) =>
      match atob(part.data)
      case Err(m) => Err(ProcessFailure + m)
      case Ok(binary) => Ok(FormEntry("image", File(Latin1Bytes(binary), BlobType(part.mimeType), fileName)))
  }

  /** The four entries of the request, in the order they are appended.
      `sub_type` is appended as the number 2, which `FormData` turns into text. */
  function UploadEntries(prompt: string, referenceImage: Option<string>, logo: Option<string>,
                         aspectRatio: string, atob: string -> Result<seq<Latin1>>): Result<seq<FormEntry>>
  {
    match ImageEntry(ImageToUse(referenceImage, logo, aspectRatio), UploadFileName(referenceImage, logo), atob)
    case Err(m) => Err(m)
    case Ok(image) =>
      Ok([image,
          FormEntry("prompt", Text(ApiPrompt(prompt, referenceImage, logo))),
          FormEntry("sub_type", Text("2")),
          FormEntry("aspect_ratio", Text(AspectToken(aspectRatio)))])
  }

  /** What the call resolves with (Ok) or rejects with (Err), given how the
      proxy answers each request. */
  function AlternativeApi(prompt: string, referenceImage: Option<string>, logo: Option<string>,
                          aspectRatio: string, atob: string -> Result<seq<Latin1>>,
                          send: seq<FormEntry> -> Result<Reply>): Result<string>
  {
    match UploadEntries(prompt, referenceImage, logo, aspectRatio, atob)
    case Err(m) => Err(m)
    case Ok(entries) => Settled(send(entries))
  }

  /** A rejected fetch to the proxy rejects the call with the same error,
      and a reply that arrives is classified by what it holds. */
  lemma FetchSettles(prompt: string, referenceImage: Option<string>, logo: Option<string>,
                     aspectRatio: string, atob: string -> Result<seq<Latin1>>,
                     send: seq<FormEntry> -> Result<Reply>)
    requires UploadEntries(prompt, referenceImage, logo, aspectRatio, atob).Ok?
    ensures var f := send(UploadEntries(prompt, referenceImage, logo, aspectRatio, atob).value);
      (f.Err? ==> AlternativeApi(prompt, referenceImage, logo, aspectRatio, atob, send) == Err(f.message))
      && (f.Ok? ==> AlternativeApi(prompt, referenceImage, logo, aspectRatio, atob, send) == Outcome(f.value))
  {
  }

  /** The request goes out only when the image could be prepared. */
  function Sent(u: Result<seq<FormEntry>>): Option<seq<FormEntry>> {
    if u.Ok? then Some(u.value) else None
  }

  /** `generateWithAlternativeAPI`: `sent` is the body posted to the proxy,
      if any. */
  method GenerateWithAlternativeApi(prompt: string, referenceImage: Option<string>, logo: Option<string>,
                                    aspectRatio: string, atob: string -> Result<seq<Latin1>>,
                                    send: seq<FormEntry> -> Result<Reply>)
    returns (sent: Option<seq<FormEntry>>, r: Result<string>)
    ensures sent == Sent(UploadEntries(prompt, referenceImage, logo, aspectRatio, atob))
    ensures r == AlternativeApi(prompt, referenceImage, logo, aspectRatio, atob, send)
  {
    var form := new FormData();
    var apiAspectRatio := MapAspectRatio(aspectRatio);
    var imageToUse := ChooseImage(referenceImage, logo, aspectRatio);
    var fileName := if Truthy(referenceImage) then "reference.jpg"
                    else if Truthy(logo) then "logo.jpg" else "placeholder.png";
    assert fileName == UploadFileName(referenceImage, logo);
    var image := PrepareImage(imageToUse, fileName, atob);
    if image.Err? {
      return None, Err(image.message);
    }
    var apiPrompt := FramePrompt(prompt, referenceImage, logo);
    FillForm(form, image.value, apiPrompt, apiAspectRatio);
    sent := Some(form.entries);
    r := Settled(send(form.entries));
  }

  /** The four `formData.append` calls, in order. */
  method FillForm(form: FormData, image: FormEntry, apiPrompt: string, apiAspectRatio: string)
    modifies form
    requires form.entries == []
    ensures form.entries == [image, FormEntry("prompt", Text(apiPrompt)),
                             FormEntry("sub_type", Text("2")), FormEntry("aspect_ratio", Text(apiAspectRatio))]
  {
    form.Append(image.name, image.value);
    form.Append("prompt", Text(apiPrompt));
    form.Append("sub_type", Text("2"));
    form.Append("aspect_ratio", Text(apiAspectRatio));
  }

  /** `referenceImage || logo`, or the placeholder when both are falsy. */
  method ChooseImage(referenceImage: Option<string>, logo: Option<string>, aspectRatio: string)
    returns (imageToUse: string)
    ensures imageToUse == ImageToUse(referenceImage, logo, aspectRatio)
  {
    var chosen := if Truthy(referenceImage) then referenceImage else logo;
    if Truthy(chosen) {
      imageToUse := chosen.value;
    } else {
      imageToUse := PlaceholderImage(aspectRatio);
    }
  }

  /** The framing of `apiPrompt` by whether the placeholder is in use. */
  method FramePrompt(prompt: string, referenceImage: Option<string>, logo: Option<string>)
    returns (apiPrompt: string)
    ensures apiPrompt == ApiPrompt(prompt, referenceImage, logo)
  {
    apiPrompt := prompt;
    var isPlaceholder := !Truthy(referenceImage) && !Truthy(logo);
    if isPlaceholder {
      apiPrompt := ScratchFraming + prompt;
    } else {
      apiPrompt := TransformFraming + prompt;
    }
  }

  /** The inner `try` block: parse the data URL, decode its payload and
      copy the bytes, wrapping any failure's message. */
  method PrepareImage(image: string, fileName: string, atob: string -> Result<seq<Latin1>>)
    returns (entry: Result<FormEntry>)
    ensures entry == ImageEntry(image, fileName, atob)
  {
    var part := Base64ToPart(image);
    if part.Err? {
      return Err(ProcessFailure + part.message);
    }
    var binary := atob(part.value.data);
    if binary.Err? {
      return Err(ProcessFailure + binary.message);
    }
    var bytes := DecodeToBytes(binary.value);
    entry := Ok(FormEntry("image", File(bytes, BlobType(part.value.mimeType), fileName)));
  }

  /** A request always has the same four fields, in the same order, with the
      decoded bytes of the chosen image under its own MIME type. */
  lemma UploadShape(prompt: string, referenceImage: Option<string>, logo: Option<string>,
                    aspectRatio: string, atob: string -> Result<seq<Latin1>>)
    requires UploadEntries(prompt, referenceImage, logo, aspectRatio, atob).Ok?
    ensures var es := UploadEntries(prompt, referenceImage, logo, aspectRatio, atob).value;
      var part := Base64ToPart(ImageToUse(referenceImage, logo, aspectRatio));
      |es| == 4
      && es[0].name == "image" && es[1].name == "prompt"
      && es[2].name == "sub_type" && es[3].name == "aspect_ratio"
      && part.Ok? && atob(part.value.data).Ok?
      && es[0].value == File(Latin1Bytes(atob(part.value.data).value), BlobType(part.value.mimeType),
                             UploadFileName(referenceImage, logo))
      && BytesLatin1(es[0].value.bytes) == atob(part.value.data).value
  {
    var part := Base64ToPart(ImageToUse(referenceImage, logo, aspectRatio));
    Latin1RoundTrip(atob(part.value.data).value);
  }

  /** The request fails before anything is sent exactly when the chosen
      image is not a data URL or its payload does not decode, and the
      message then says so. */
  lemma UploadFailure(prompt: string, referenceImage: Option<string>, logo: Option<string>,
                      aspectRatio: string, atob: string -> Result<seq<Latin1>>)
    ensures var u := UploadEntries(prompt, referenceImage, logo, aspectRatio, atob);
      var part := Base64ToPart(ImageToUse(referenceImage, logo, aspectRatio));
      (u.Err? <==> part.Err? || atob(part.value.data).Err?)
      && (part.Err? ==> u == Err(ProcessFailure + InvalidFormat))
      && (u.Err? ==> StartsWith(u.message, ProcessFailure))
  {
  }

  /** With neither a reference image nor a logo, the placeholder is sent as
      `placeholder.png` with the "from scratch" framing; only `atob` can
      still make the request fail. */
  lemma PlaceholderUpload(prompt: string, aspectRatio: string, atob: string -> Result<seq<Latin1>>)
    requires atob(MinimalPng).Ok?
    ensures UploadEntries(prompt, None, None, aspectRatio, atob)
      == Ok([FormEntry("image", File(Latin1Bytes(atob(MinimalPng).value), PngType, "placeholder.png")),
             FormEntry("prompt", Text(ScratchFraming + prompt)),
             FormEntry("sub_type", Text("2")),
             FormEntry("aspect_ratio", Text(AspectToken(aspectRatio)))])
  {
    PlaceholderParses(aspectRatio);
    PngBlobType();
  }

  /** An unsupported ratio reaches the API as `match_input_image`. */
  lemma AspectEntry(prompt: string, referenceImage: Option<string>, logo: Option<string>,
                    aspectRatio: string, atob: string -> Result<seq<Latin1>>)
    requires UploadEntries(prompt, referenceImage, logo, aspectRatio, atob).Ok?
    ensures var es := UploadEntries(prompt, referenceImage, logo, aspectRatio, atob).value;
      (aspectRatio in AspectRatios ==> es[3].value == Text(aspectRatio))
      && (aspectRatio !in AspectRatios ==> es[3].value == Text(MatchInputImage))
  {
  }

  /** `generateHiringPost`: the prompt for the chosen mode, the aspect ratio
      with its default, then the alternative API. */
  method GenerateHiringPost(details: JobDetails, logo: Option<string>, referenceImage: Option<string>,
                            mode: InputMode, userPrompt: string,
                            atob: string -> Result<seq<Latin1>>, send: seq<FormEntry> -> Result<Reply>)
    returns (sent: Option<seq<FormEntry>>, r: Result<string>)
    ensures sent == Sent(UploadEntries(Instruction(details, mode, userPrompt), referenceImage, logo,
                                       EffectiveAspectRatio(details.aspectRatio), atob))
    ensures r == HiringPost(details, logo, referenceImage, mode, userPrompt, atob, send)
  {
    var aspectRatio := EffectiveAspectRatio(details.aspectRatio);
    var prompt := BuildPrompt(details, mode, userPrompt);
    sent, r := GenerateWithAlternativeApi(prompt, referenceImage, logo, aspectRatio, atob, send);
  }

  function HiringPost(details: JobDetails, logo: Option<string>, referenceImage: Option<string>,
                      mode: InputMode, userPrompt: string,
                      atob: string -> Result<seq<Latin1>>, send: seq<FormEntry> -> Result<Reply>): Result<string>
  {
    AlternativeApi(Instruction(details, mode, userPrompt), referenceImage, logo,
                   EffectiveAspectRatio(details.aspectRatio), atob, send)
  }

  /** In prompt mode the user's text is sent verbatim after the framing,
      and the form fields play no part in the request. */
  lemma PromptModeIgnoresForm(details: JobDetails, other: JobDetails, logo: Option<string>,
                              referenceImage: Option<string>, userPrompt: string,
                              atob: string -> Result<seq<Latin1>>)
    requires details.aspectRatio == other.aspectRatio
    ensures UploadEntries(Instruction(details, Prompt, userPrompt), referenceImage, logo,
                          EffectiveAspectRatio(details.aspectRatio), atob)
         == UploadEntries(Instruction(other, Prompt, userPrompt), referenceImage, logo,
                          EffectiveAspectRatio(other.aspectRatio), atob)
    ensures var u := UploadEntries(Instruction(details, Prompt, userPrompt), referenceImage, logo,
                                   EffectiveAspectRatio(details.aspectRatio), atob);
      u.Ok? ==> u.value[1].value.text == (if UsesPlaceholder(referenceImage, logo)
                                          then ScratchFraming else TransformFraming) + userPrompt
  {
  }
}
