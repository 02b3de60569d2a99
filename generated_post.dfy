/** The result panel (components/GeneratedPost.tsx): whether the service's
    string is a URL or a bare base64 payload, and the `<img src>` built
    from it. */
module GeneratedPost {
  import opened Wrappers
  import opened JsString
  import opened GeminiImage
  import opened GeminiResponse

  const PngDataPrefix: string := "data:image/png;base64,"

  /** Both download branches save under this name. */
  const DownloadName: string := "hiring-post.png"

  predicate IsUrl(imageData: string) {
    StartsWith(imageData, "http")
  }

  function ImageSrc(imageData: string): (src: string)
    ensures IsUrl(imageData) ==> src == imageData
    ensures !IsUrl(imageData) ==> src == PngDataPrefix + imageData
  {
    if IsUrl(imageData) then imageData else PngDataPrefix + imageData
  }

  /** The image data always ends the source. */
  lemma ImageDataIsSuffix(imageData: string)
    ensures |imageData| <= |ImageSrc(imageData)|
    ensures ImageSrc(imageData)[|ImageSrc(imageData)| - |imageData|..] == imageData
  {
  }

  /** Only the first four characters decide: any string that starts with
      `http` (`https://…` and `httpX…` alike) is taken as a URL. */
  lemma UrlByPrefix(a: string, b: string)
    requires |a| >= 4 && |b| >= 4 && a[..4] == b[..4]
    ensures IsUrl(a) <==> IsUrl(b)
  {
  }

  lemma HttpPrefixIsUrl(tail: string)
    ensures IsUrl("http" + tail)
    ensures ImageSrc("http" + tail) == "http" + tail
  {
    assert ("http" + tail)[..4] == "http";
  }

  /** A bare payload becomes a PNG data URL that the service's own parser
      reads back as the same payload. */
  lemma PayloadSrcParses(payload: string)
    requires !IsUrl(payload) && payload != ""
    requires DotMatchesAll(payload) && !Includes(payload, Marker)
    ensures Base64ToPart(ImageSrc(payload)) == Ok(Part(PngType, payload))
  {
    assert ImageSrc(payload) == "data:" + PngType + Marker + payload;
    assert DotMatchesAll(PngType);
    Base64ToPartAccepts(PngType, payload);
  }

  /** The payload the service cut out of a `FileReader` data URL is shown
      under a PNG data URL carrying that same payload. */
  lemma ReaderPayloadShown(mimeType: string, data: string)
    requires ',' !in mimeType && ',' !in data && data != "" && !IsUrl(data)
    ensures ImageSrc(DataUrlPayload(DataUrl(mimeType, data))) == PngDataPrefix + data
  {
    DataUrlPayloadRoundTrip(mimeType, data);
  }
}
