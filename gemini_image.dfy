/** How `generateWithAlternativeAPI` (services/geminiService.ts) prepares the
    upload: the aspect-ratio token, the image it sends and its file name,
    the framing of the prompt, and the decoding of a data URL into bytes. */
module GeminiImage {
  import opened Wrappers
  import opened JsString
  import opened JobTypes

  /** A data URL split into its MIME type and its base64 payload. */
  datatype Part = Part(mimeType: string, data: string)

  const Marker: string := ";base64,"
  const InvalidFormat: string := "Invalid base64 string format"

  /** The code points the regular expression's `.` does not match. */
  predicate DotMatchesAll(s: string) {
    '\n' !in s && '\r' !in s && '\U{2028}' !in s && '\U{2029}' !in s
  }

  predicate MarkerAt(r: string, i: int) {
    0 <= i && i + |Marker| <= |r| && r[i..i + |Marker|] == Marker
  }

  /** The largest `i` in `1..j` where the marker starts, or -1. */
  function LastMarker(r: string, j: int): (i: int)
    ensures i == -1 || (1 <= i <= j && MarkerAt(r, i))
    ensures forall k :: i < k <= j && 1 <= k ==> !MarkerAt(r, k)
    decreases j
  {
    if j < 1 then -1 else if MarkerAt(r, j) then j else LastMarker(r, j - 1)
  }

  /** `base64String.match(/^data:(.+);base64,(.+)$/)`: both groups non-empty
      and free of line terminators; the greedy first group ends at the last
      marker that still leaves a non-empty second group. */
  function Base64ToPart(s: string): (r: Result<Part>)
    ensures r.Err? ==> r.message == InvalidFormat
    ensures r.Ok? ==> s == "data:" + r.value.mimeType + Marker + r.value.data
    ensures r.Ok? ==> r.value.mimeType != "" && r.value.data != ""
    ensures r.Ok? ==> DotMatchesAll(r.value.mimeType) && DotMatchesAll(r.value.data)
  {
    if !StartsWith(s, "data:") then Err(InvalidFormat)
    else
      var rest := s[5..];
      if !DotMatchesAll(rest) then Err(InvalidFormat)
      else
        var i := LastMarker(rest, |rest| - |Marker| - 1);
        if i < 1 then Err(InvalidFormat)
        else
          assert rest == rest[..i] + Marker + rest[i + |Marker|..];
          assert s == "data:" + rest;
          Ok(Part(rest[..i], rest[i + |Marker|..]))
  }

  /** Every string of the form the pattern describes is accepted, and
      when the payload holds no marker the split is exactly the one built. */
  lemma Base64ToPartAccepts(m: string, d: string)
    requires m != "" && d != ""
    requires DotMatchesAll(m) && DotMatchesAll(d)
    ensures Base64ToPart("data:" + m + Marker + d).Ok?
    ensures !Includes(d, Marker) ==> Base64ToPart("data:" + m + Marker + d) == Ok(Part(m, d))
  {
    var s := "data:" + m + Marker + d;
    var rest := m + Marker + d;
    assert s[..5] == "data:";
    assert s[5..] == rest;
    assert DotMatchesAll(rest) by {
      assert DotMatchesAll(Marker);
    }
    assert MarkerAt(rest, |m|) by {
      assert rest[|m|..|m| + |Marker|] == Marker;
    }
    var i := LastMarker(rest, |rest| - |Marker| - 1);
    assert i >= |m|;
    if !Includes(d, Marker) {
      if i > |m| {
        MarkerInPayload(m, d, i);
      }
      assert rest[..|m|] == m;
      assert rest[|m| + |Marker|..] == d;
    }
  }

  /** A marker after the first one lies wholly inside the payload: it cannot
      start inside the first one, whose only ';' is its first character. */
  lemma MarkerInPayload(m: string, d: string, i: int)
    requires |m| < i && MarkerAt(m + Marker + d, i)
    ensures Includes(d, Marker)
  {
    var rest := m + Marker + d;
    assert rest[i] == ';';
    if i < |m| + |Marker| {
      assert false;
    }
    var j := i - |m| - |Marker|;
    assert d[j..j + |Marker|] == rest[i..i + |Marker|];
    assert OccursAt(d, Marker, j);
  }

  /** Every marker starts with a ';'. */
  lemma NoSemicolonNoMarker(d: string)
    requires ';' !in d
    ensures !Includes(d, Marker)
  {
    forall j | 0 <= j <= |d| - |Marker|
      ensures !OccursAt(d, Marker, j)
    {
      assert d[j] in d;
    }
  }

  /** The greedy first group: a ';' in the payload does not move the split. */
  lemma SemicolonInPayload()
    ensures Base64ToPart("data:a;base64,b;c") == Ok(Part("a", "b;c"))
  {
    assert "data:a;base64,b;c" == "data:" + "a" + Marker + "b;c";
    Base64ToPartAccepts("a", "b;c");
  }

  // ---- The placeholder ----

  /** A 1x1 transparent PNG, base64-encoded (written in short pieces so the
      verifier can see what characters it holds). */
  const MinimalPng: string := Png1 + Png2 + Png3 + Png4 + Png5
  const Png1: string := "iVBORw0KGgoAAAANSUhE"
  const Png2: string := "UgAAAAEAAAABCAYAAAAf"
  const Png3: string := "FcSJAAAADUlEQVR42mNk"
  const Png4: string := "+M9QDwADhgGAWjR9awAA"
  const Png5: string := "AABJRU5ErkJggg=="

  /** `createPlaceholderImage`: the aspect ratio it is given plays no part. */
  function PlaceholderImage(aspectRatio: string): string {
    "data:" + PngType + Marker + MinimalPng
  }

  const PngType: string := "image/png"

  /** The payload is plain base64 text: no line terminator and no ';'. */
  lemma MinimalPngPlain()
    ensures DotMatchesAll(MinimalPng) && ';' !in MinimalPng
  {
    PngPiecesPlain();
    PlainAppend(Png1, Png2);
    PlainAppend(Png1 + Png2, Png3);
    PlainAppend(Png1 + Png2 + Png3, Png4);
    PlainAppend(Png1 + Png2 + Png3 + Png4, Png5);
    assert Plain(MinimalPng);
  }

  predicate PlainChar(c: char) {
    c != '\n' && c != '\r' && c != '\U{2028}' && c != '\U{2029}' && c != ';'
  }

  /** Every character is matched by `.` and none is a ';'. */
  predicate Plain(s: string) {
    forall i :: 0 <= i < |s| ==> PlainChar(s[i])
  }

  lemma PlainAppend(a: string, b: string)
    requires Plain(a) && Plain(b)
    ensures Plain(a + b)
  {
    forall i | 0 <= i < |a + b|
      ensures PlainChar((a + b)[i])
    {
      if i < |a| {
        assert (a + b)[i] == a[i];
      } else {
        assert (a + b)[i] == b[i - |a|];
      }
    }
  }

  lemma PngPiecesPlain()
    ensures Plain(Png1) && Plain(Png2) && Plain(Png3) && Plain(Png4) && Plain(Png5)
  {
  }

  /** The placeholder parses as a PNG whose payload is the fixed pixel. */
  lemma PlaceholderParses(aspectRatio: string)
    ensures Base64ToPart(PlaceholderImage(aspectRatio)) == Ok(Part(PngType, MinimalPng))
  {
    MinimalPngPlain();
    NoSemicolonNoMarker(MinimalPng);
    assert DotMatchesAll(PngType);
    Base64ToPartAccepts(PngType, MinimalPng);
  }

  // ---- Choice of image, its file name and the framing of the prompt ----

  /** Neither a reference image nor a logo was supplied. */
  predicate UsesPlaceholder(referenceImage: Option<string>, logo: Option<string>) {
    !Truthy(referenceImage) && !Truthy(logo)
  }

  /** `referenceImage || logo`, replaced by the placeholder when falsy. */
  function ImageToUse(referenceImage: Option<string>, logo: Option<string>, aspectRatio: string): string {
    if Truthy(referenceImage) then referenceImage.value
    else if Truthy(logo) then logo.value
    else PlaceholderImage(aspectRatio)
  }

  function UploadFileName(referenceImage: Option<string>, logo: Option<string>): string {
    if Truthy(referenceImage) then "reference.jpg"
    else if Truthy(logo) then "logo.jpg"
    else "placeholder.png"
  }

  const ScratchFraming: string := "Create a professional hiring post image from scratch with the following design: "
  const TransformFraming: string := "Transform this image into a professional hiring post design. "

  function ApiPrompt(prompt: string, referenceImage: Option<string>, logo: Option<string>): string {
    if UsesPlaceholder(referenceImage, logo) then ScratchFraming + prompt else TransformFraming + prompt
  }

  /** Image, file name and framing all follow one priority: the reference
      image, then the logo, then the placeholder with "from scratch" framing. */
  lemma ImageChoiceAgrees(prompt: string, referenceImage: Option<string>, logo: Option<string>, aspectRatio: string)
    ensures Truthy(referenceImage) ==>
      ImageToUse(referenceImage, logo, aspectRatio) == referenceImage.value
      && UploadFileName(referenceImage, logo) == "reference.jpg"
      && ApiPrompt(prompt, referenceImage, logo) == TransformFraming + prompt
    ensures !Truthy(referenceImage) && Truthy(logo) ==>
      ImageToUse(referenceImage, logo, aspectRatio) == logo.value
      && UploadFileName(referenceImage, logo) == "logo.jpg"
      && ApiPrompt(prompt, referenceImage, logo) == TransformFraming + prompt
    ensures UsesPlaceholder(referenceImage, logo) ==>
      ImageToUse(referenceImage, logo, aspectRatio) == PlaceholderImage(aspectRatio)
      && UploadFileName(referenceImage, logo) == "placeholder.png"
      && ApiPrompt(prompt, referenceImage, logo) == ScratchFraming + prompt
  {
  }

  // ---- Aspect ratio ----

  /** `details.aspectRatio || '1:1'`. */
  function EffectiveAspectRatio(aspectRatio: Option<string>): (r: string)
    ensures !Truthy(aspectRatio) ==> r == "1:1"
    ensures Truthy(aspectRatio) ==> r == aspectRatio.value
  {
    if Truthy(aspectRatio) then aspectRatio.value else "1:1"
  }

  const MatchInputImage: string := "match_input_image"

  /** The chain of `if`s that sets `apiAspectRatio`. */
  method MapAspectRatio(aspectRatio: string) returns (token: string)
    ensures aspectRatio in AspectRatios ==> token == aspectRatio
    ensures aspectRatio !in AspectRatios ==> token == MatchInputImage
  {
    token := MatchInputImage;
    if aspectRatio == "1:1" {
      token := "1:1";
    } else if aspectRatio == "9:16" {
      token := "9:16";
    } else if aspectRatio == "16:9" {
      token := "16:9";
    } else if aspectRatio == "3:4" {
      token := "3:4";
    }
  }

  function AspectToken(aspectRatio: string): string {
    if aspectRatio in AspectRatios then aspectRatio else MatchInputImage
  }

  // ---- Bytes of the decoded payload ----

  /** `atob` yields a "binary string": every code unit is below 256. */
  type Latin1 = c: char | c as int < 256 witness 'A'

  type Byte = x: int | 0 <= x < 256

  /** The bytes a binary string stands for. */
  function Latin1Bytes(binary: seq<Latin1>): (bytes: seq<Byte>)
    ensures |bytes| == |binary|
  {
    seq(|binary|, i requires 0 <= i < |binary| => binary[i] as int)
  }

  /** The characters a byte sequence stands for. */
  function BytesLatin1(bytes: seq<Byte>): (binary: seq<Latin1>)
    ensures |binary| == |bytes|
  {
    seq(|bytes|, i requires 0 <= i < |bytes| => bytes[i] as char)
  }

  /** No information is lost turning a binary string into bytes. */
  lemma Latin1RoundTrip(binary: seq<Latin1>)
    ensures BytesLatin1(Latin1Bytes(binary)) == binary
  {
  }

  /** `new Uint8Array(numbers)`: every number reduced modulo 256. */
  function ToUint8Array(numbers: seq<int>): (bytes: seq<Byte>)
    ensures |bytes| == |numbers|
  {
    seq(|numbers|, i requires 0 <= i < |numbers| => numbers[i] % 256)
  }

  /** The `charCodeAt` loop and the typed array built from it. */
  method DecodeToBytes(binary: seq<Latin1>) returns (bytes: seq<Byte>)
    ensures bytes == Latin1Bytes(binary)
  {
    var byteNumbers := new int[|binary|];
    for i := 0 to |binary|
      invariant forall k :: 0 <= k < i ==> byteNumbers[k] == binary[k] as int
    {
      byteNumbers[i] := binary[i] as int;
    }
    bytes := ToUint8Array(byteNumbers[..]);
  }
}
