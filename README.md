# hiring-ai, modelled in Dafny

hiring-ai is a browser app that makes "we're hiring" post images. The user fills in a job
form, or writes a free prompt, and may add a logo or a reference image. The service
layer then:

- builds a text prompt;
- turns the chosen image, or a built-in placeholder PNG, into a multipart upload;
- posts the upload to a serverless proxy;
- reads the reply as either an image URL (JSON) or a raw image that it re-encodes as base64.

The proxy forwards the POST to an external image API and relays the answer.

This project models four parts of the app and proves properties of them:

- **Service layer** (`services/geminiService.ts`), in four Dafny modules:
  - `GeminiKeys`: the cached API-key list and its parsing, and the key-index bound.
  - `GeminiPrompt`: the prompt builder.
  - `GeminiImage`: the data-URL parser, the placeholder, the choice of image, file name and framing, the aspect-ratio mapping and the byte-copy loop.
  - `GeminiResponse`: how the reply is classified.

  `GeminiService` composes these into `generateWithAlternativeAPI` and `generateHiringPost`.
- **Proxy** (`api/generate.js`), module `Proxy`:
  - the POST-only gate;
  - the hop-by-hop header filter;
  - the forced `X-Platform: imageeditor` header;
  - the relay of status, body, `Content-Type` and `Content-Disposition`;
  - the 500 error envelope.
- **Page state** (`App.tsx`), module `App`:
  - a class holding the eight state slots;
  - the form setters, the begin and settle halves of a generation, and start-over;
  - what the page shows in each state.
- **Result panel** (`components/GeneratedPost.tsx`), module `GeneratedPost`: whether the result is a URL or a bare base64 payload, and the `<img src>` built from it.

`JsString` models the JavaScript string built-ins the code relies on: `trim`, `split`,
`join`, `startsWith`, `includes`, `substring`, `toLowerCase` and number formatting.
`JobTypes` holds the job record from `types.ts`. `Wrappers` holds `Option` and `Result`.

Modelling conventions:

- **Strings.** A JavaScript value that may be missing, the empty string or `null` is an `Option<string>`. Truthiness is `Some(s)` with `s != ""`.
- **Exceptions.** A thrown error becomes `Err(message)`, carrying the exact message the code builds.
- **External effects.** These are parameters of the model:
  - the browser's `atob`;
  - the proxy's reply as the client reads it (status, content type, text, parsed JSON, blob size and `FileReader` result);
  - the upstream `fetch` in the proxy.
- **Stateful code.** Where the source mutates state, the model does too:
  - the key cache, `FormData`, the `Headers` object and the Node response object are classes whose methods update their fields;
  - the `charCodeAt` loop and the header `forEach` are loops with invariants.

  Each such method is tied to a specification function, and the lemmas are stated about those functions.

## Model

| member | source | states |
|---|---|---|
| `GeminiKeys.KeyStore.GetAPIKeys` | services/geminiService.ts:9-36 | A non-empty cached list is returned and kept as it is. Otherwise the key text is `API_KEY` if truthy, else `GEMINI_API_KEY`. Text that is missing, `"undefined"`, `"null"`, empty or all white space fails with the exact "GEMINI_API_KEY is not set…" message and the cache stays untouched. Otherwise the cache becomes the comma-split, trimmed, non-empty pieces and is returned. Every cached key is non-empty, trimmed and comma-free. |
| `GeminiKeys.KeyStore.GetAI` | services/geminiService.ts:38-42 | An index at or past the number of keys fails with `All API keys exhausted. Tried N key(s).`, where N is the count in decimal. Otherwise it yields the key at that index, which is clean. A rejected key text fails with the setup message and leaves the cache empty, so the next call reads the environment again. |
| `GeminiKeys.KeyText` | services/geminiService.ts:12 | The key text is `API_KEY` when that is non-empty, and `GEMINI_API_KEY` otherwise; `GetAPIKeys` states its use. |
| `GeminiKeys.Rejected` | services/geminiService.ts:14 | The guard: the text is absent, empty, `undefined`, `null` or nothing but white space. `GetAPIKeys` throws exactly then. |
| `GeminiKeys.ParseKeys` | services/geminiService.ts:19 | Split at commas, trim each piece and drop the empty ones. `ParsedKeysClean` and `ParseJoinRoundTrip` state its properties. |
| `GeminiKeys.ParsedKeysClean` | services/geminiService.ts:19 | Every key parsed from any text is non-empty, has no surrounding white space and holds no comma. |
| `GeminiKeys.ParseJoinRoundTrip` | services/geminiService.ts:19 | Joining any non-empty list of clean keys with `,` and parsing the result gives back the same list. |
| `JsString.Trim` | services/geminiService.ts:14 | The result has no leading or trailing ECMAScript white space and is a contiguous slice of the input with only white space cut from either end. |
| `JsString.TrimEmptyIffBlank` | services/geminiService.ts:14 | `trim() === ''` holds exactly when every character is white space. |
| `JsString.TrimIdempotent` | services/geminiService.ts:19 | Trimming twice is trimming once. |
| `JsString.JoinSplit` | services/geminiService.ts:19 | Joining the pieces of `split(sep)` with `sep` restores the string. |
| `JsString.SplitJoin` | services/geminiService.ts:19 | Splitting a join of separator-free pieces restores the pieces. |
| `JsString.SplitPiecesSeparatorFree` | services/geminiService.ts:19 | No piece of a split contains the separator. |
| `JsString.NatToStringRoundTrip` | services/geminiService.ts:41 | The decimal text of a count reads back as that count. |
| `GeminiPrompt.BuildPrompt` | services/geminiService.ts:79-117 | In prompt mode the prompt is the user's text, unchanged. In form mode it is the form instruction: the header line, one line per present field, the contact line, a blank line, then the closing directive. |
| `GeminiPrompt.Instruction` | services/geminiService.ts:79-117 | The user's text in prompt mode and the form instruction in form mode; `BuildPrompt` is proved equal to it. |
| `GeminiPrompt.FormInstruction` | services/geminiService.ts:84-116 | The header line, the body lines each ended by a line break, a line break and the closing line. `FormInstructionLines`, `FieldLineIffPresent`, `ContactLineIffPresent` and `ClosingLineColours` state its properties. |
| `GeminiPrompt.BuildFormPrompt` | services/geminiService.ts:84-116 | The step-by-step `+=` construction yields exactly the form instruction. |
| `GeminiPrompt.AppendFieldLines` | services/geminiService.ts:86-107 | The seven `if` blocks append, in the fixed order Job Title, Company, Location, Department, Experience Required, Responsibilities, Required Skills, one `Label: value\n` line per non-empty field. |
| `GeminiPrompt.AppendField` | services/geminiService.ts:87-89 | One field step appends `Label: value` and a line break. It leaves the prompt unchanged exactly when the value is empty. |
| `GeminiPrompt.Chain` | services/geminiService.ts:86-107 | Any run of field steps, one per field, appends the lines of the non-empty fields in order, each ended by a line break. |
| `GeminiPrompt.AppendContact` | services/geminiService.ts:108-110 | Appends the contact line, and only when email or mobile is non-empty. |
| `GeminiPrompt.AppendBody` | services/geminiService.ts:86-110 | The field steps followed by the contact step append the body lines, each ended by a line break. |
| `GeminiPrompt.AppendClosing` | services/geminiService.ts:112-116 | Appends a line break and the "WE'RE HIRING" directive, then the colour sentence. |
| `GeminiPrompt.AppendColours` | services/geminiService.ts:114-116 | Appends the colour sentence, which is empty unless both colours are non-empty. |
| `GeminiPrompt.FormInstructionLines` | services/geminiService.ts:84-116 | When no field value holds a line break, splitting the form prompt at `\n` gives the header line, the body lines, an empty line and the closing line. |
| `GeminiPrompt.FieldLineIffPresent` | services/geminiService.ts:86-107 | For each of the seven labels, the body holds the line `Label: value` when the field is non-empty and no line with that label when it is empty. |
| `GeminiPrompt.ContactLineIffPresent` | services/geminiService.ts:108-110 | There is a contact line exactly when email or mobile is non-empty. It lists only the non-empty ones, joined by the separator space, vertical bar, space. |
| `GeminiPrompt.ClosingLineColours` | services/geminiService.ts:112-116 | The closing directive is always present. The colour sentence `Use colors: primary P, secondary S.` follows it exactly when both colours are non-empty. |
| `GeminiPrompt.OnlyTitle` | services/geminiService.ts:84-116 | A form with only a job title gives exactly the header line, the title line, a blank line and the directive. |
| `GeminiImage.LastMarker` | services/geminiService.ts:54 | Returns the last position of `;base64,` that leaves room for a non-empty payload, or -1 when there is none. |
| `GeminiImage.Base64ToPart` | services/geminiService.ts:53-62 | On success the input is `data:` + MIME type + `;base64,` + payload, with both parts non-empty and free of line terminators. Failure carries `Invalid base64 string format`. |
| `GeminiImage.Base64ToPartAccepts` | services/geminiService.ts:54-61 | Every string of the form the pattern describes is accepted. When the payload does not include `;base64,`, the split is exactly the MIME type and payload it was built from. |
| `GeminiImage.SemicolonInPayload` | services/geminiService.ts:53-62 | `data:a;base64,b;c` splits into the type `a` and the payload `b;c`: the greedy first group stops at the last marker, and a lone `;` in the payload does not move it. |
| `GeminiImage.PlaceholderParses` | services/geminiService.ts:65-70 | For every aspect ratio, the placeholder parses as MIME type `image/png` with the fixed 1x1 PNG payload. |
| `GeminiImage.PlaceholderImage` | services/geminiService.ts:65-70 | A PNG data URL carrying the fixed 1x1 pixel, whatever the aspect ratio; `PlaceholderParses` states what the parser reads back. |
| `GeminiImage.ImageToUse` | services/geminiService.ts:148-154 | The reference image if non-empty, else the logo if non-empty, else the placeholder; `ImageChoiceAgrees` states the priority. |
| `GeminiImage.UsesPlaceholder` | services/geminiService.ts:177 | `isPlaceholder`: neither a reference image nor a logo is non-empty. `ImageChoiceAgrees` ties it to the image and the framing. |
| `GeminiImage.UploadFileName` | services/geminiService.ts:166 | `reference.jpg`, `logo.jpg` or `placeholder.png`, in the same priority as the image; `ImageChoiceAgrees` states it. |
| `GeminiImage.ApiPrompt` | services/geminiService.ts:174-185 | The "from scratch" framing when neither image is given and the "transform this image" framing otherwise, followed by the prompt. |
| `GeminiImage.ImageChoiceAgrees` | services/geminiService.ts:148-185 | The image, the file name and the framing all follow one priority. A reference image gives itself, `reference.jpg` and "Transform…". Otherwise a logo gives itself, `logo.jpg` and "Transform…". Otherwise the placeholder gives `placeholder.png` and "…from scratch…". |
| `GeminiImage.EffectiveAspectRatio` | services/geminiService.ts:76 | A falsy aspect ratio becomes `1:1`; any other value is kept. |
| `GeminiImage.MapAspectRatio` | services/geminiService.ts:135-145 | The four supported ratios map to themselves and anything else maps to `match_input_image`. |
| `GeminiImage.AspectToken` | services/geminiService.ts:135-145 | A supported ratio stands for itself and anything else for `match_input_image`; `MapAspectRatio` is proved equal to it. |
| `GeminiImage.DecodeToBytes` | services/geminiService.ts:159-164 | The `charCodeAt` loop over the binary string, then `Uint8Array`, gives exactly the code of each character in order. |
| `GeminiImage.Latin1RoundTrip` | services/geminiService.ts:159-164 | The byte copy loses nothing: mapping the bytes back to characters gives the binary string. |
| `GeminiResponse.ErrorStatusFails` | services/geminiService.ts:212-216 | A status outside 200..299 always fails. The message is `Alternative API returned <status>: ` followed by the first 200 characters of the body text, or the error of the rejected `text()` read. |
| `GeminiResponse.IsOk` | services/geminiService.ts:212 | `response.ok`: the status lies in 200..299. |
| `GeminiResponse.ContentTypeOf` | services/geminiService.ts:205 | The `content-type` header of the reply when it is non-empty, else the empty string. |
| `GeminiResponse.IsJsonReply` | services/geminiService.ts:219 | The content type includes `application/json`. |
| `GeminiResponse.HasOutput` | services/geminiService.ts:223 | `success` is truthy and `output` is an array with at least one element. |
| `GeminiResponse.StatusError` | services/geminiService.ts:215 | `Alternative API returned <status>: ` followed by the first 200 characters of the body. |
| `GeminiResponse.NoOutputError` | services/geminiService.ts:230 | The "no output image found" message followed by the serialised reply. |
| `GeminiResponse.TooSmallError` | services/geminiService.ts:244 | The "too small: N bytes" message, with the size in decimal, followed by the first 200 characters of the text. |
| `GeminiResponse.Outcome` | services/geminiService.ts:205-262 | The classification of a reply: status error, JSON output, too-small body or the reader's payload. A rejected read of the body passes its error on. `ErrorStatusFails`, `JsonReplyOutcome` and `ImageReplyOutcome` state each branch. |
| `GeminiResponse.Settled` | services/geminiService.ts:199-202 | A rejected fetch to the proxy rejects the call with the same error, and a reply is classified by `Outcome`. |
| `GeminiResponse.JsonReplyOutcome` | services/geminiService.ts:219-232 | A JSON reply succeeds exactly when it parsed, `success` is truthy and `output` is a non-empty array. It then yields `output[0]`, and otherwise the "no output image found" message with the serialized reply. A rejected `json()` passes its error on. Neither the blob nor the text plays a part. |
| `GeminiResponse.ImageReplyOutcome` | services/geminiService.ts:236-262 | A non-JSON reply succeeds exactly when it has at least 1000 bytes and `FileReader` produces a data URL; the value is then that URL's payload. A smaller reply fails with the "too small: N bytes" message quoting the clone's text. A reader failure gives `Failed to convert image to base64`. A rejected `blob()` or `text()` passes its error on. |
| `GeminiResponse.DataUrlPayloadRoundTrip` | services/geminiService.ts:253 | `split(',')[1]` on a data URL whose parts hold no comma gives back the base64 payload. |
| `GeminiResponse.DataUrlPayload` | services/geminiService.ts:253 | The piece after the first comma when that piece is non-empty, and the whole string otherwise; `DataUrlPayloadRoundTrip` and `NoCommaPassesThrough` state its properties. |
| `GeminiResponse.NoCommaPassesThrough` | services/geminiService.ts:253 | A string with no comma is returned unchanged. |
| `GeminiService.FormData.Append` | services/geminiService.ts:167 | Appending adds one entry at the end and keeps the earlier ones. |
| `GeminiService.ImageEntry` | services/geminiService.ts:156-170 | The `image` file entry decoded from the chosen data URL, or the prefixed message of the parse or decode failure; `PrepareImage` is proved equal to it. |
| `GeminiService.UploadEntries` | services/geminiService.ts:133-190 | The four form entries of a request, or the failure to prepare the image; `UploadShape`, `UploadFailure` and `PlaceholderUpload` state its properties. |
| `GeminiService.AlternativeApi` | services/geminiService.ts:124-267 | What the call settles with: the preparation failure, the fetch failure, or the classification of the reply; `FetchSettles` and `GenerateWithAlternativeApi` state it. |
| `GeminiService.ChooseImage` | services/geminiService.ts:148-154 | The image sent is the reference image if non-empty, else the logo if non-empty, else the placeholder for the aspect ratio. |
| `GeminiService.BlobType` | services/geminiService.ts:165 | The type `new Blob(..., { type })` keeps: the MIME type in ASCII lower case, or empty when it holds a character outside U+0020..U+007E. |
| `GeminiService.PrintableAscii` | services/geminiService.ts:165 | Every character of the type lies in U+0020..U+007E, the condition under which the Blob keeps it. |
| `GeminiService.BlobTypeCases` | services/geminiService.ts:165 | A printable type without capitals is kept as is. A printable type comes out with no capitals and the same length. Any other type becomes empty. |
| `GeminiService.BlobTypeIdempotent` | services/geminiService.ts:165 | Normalising a type the Blob already keeps changes nothing. |
| `GeminiService.PngBlobType` | services/geminiService.ts:65-70 | The placeholder's `image/png` passes through the Blob unchanged. |
| `GeminiService.PrepareImage` | services/geminiService.ts:156-170 | Parses the data URL, decodes the payload and copies the bytes into an `image` file entry with the MIME type as the Blob keeps it, and with the file name. A failure in either step becomes `Failed to process image for alternative API: <message>`. |
| `GeminiService.FramePrompt` | services/geminiService.ts:174-185 | The prompt field is the "from scratch" framing when neither image is given, and the "transform this image" framing otherwise, followed by the prompt. |
| `GeminiService.FillForm` | services/geminiService.ts:167-190 | The form holds exactly the `image`, `prompt`, `sub_type` (`2`) and `aspect_ratio` entries, in that order. |
| `GeminiService.GenerateWithAlternativeApi` | services/geminiService.ts:124-267 | What is posted is exactly the upload the inputs determine, and nothing is posted when the image cannot be prepared. The result is the classification of the reply to that upload. |
| `GeminiService.FetchSettles` | services/geminiService.ts:199-267 | Once the request is prepared, a rejected fetch rejects the call with that error and a received reply is classified by `Outcome`. |
| `GeminiService.UploadShape` | services/geminiService.ts:156-190 | A request has four fields in the order `image`, `prompt`, `sub_type`, `aspect_ratio`. The image part is the decoding of the chosen image's payload under its MIME type as the Blob constructor normalises it, with its file name, and mapping its bytes back gives the decoded text. |
| `GeminiService.UploadFailure` | services/geminiService.ts:156-170 | Preparing the request fails exactly when the chosen image does not parse or its payload does not decode. The message then starts with the fixed prefix, and is `…: Invalid base64 string format` for a parse failure. |
| `GeminiService.PlaceholderUpload` | services/geminiService.ts:150-190 | With neither reference image nor logo, the request carries the decoded placeholder as `image/png` named `placeholder.png`, the "from scratch" prompt, `sub_type` `2` and the mapped ratio. |
| `GeminiService.AspectEntry` | services/geminiService.ts:190 | The `aspect_ratio` field is the ratio itself when supported and `match_input_image` otherwise. |
| `GeminiService.GenerateHiringPost` | services/geminiService.ts:72-121 | Builds the prompt for the mode and defaults the aspect ratio to `1:1`, then makes exactly the alternative-API call on them. |
| `GeminiService.HiringPost` | services/geminiService.ts:72-121 | What `generateHiringPost` settles with: the alternative-API outcome for the mode's instruction and the aspect ratio defaulted to `1:1`. `GenerateHiringPost`, `HandleGeneration`, `Submit` and `Regenerate` are stated in terms of it. |
| `GeminiService.PromptModeIgnoresForm` | services/geminiService.ts:81-82 | In prompt mode the form fields do not affect the request beyond the aspect ratio, and the prompt field is the framing followed by the user's text. |
| `Proxy.OutgoingHeaders.Append` | api/generate.js:22 | Adds one header at the end. |
| `Proxy.DropHopByHop` | api/generate.js:19-24 | The incoming headers whose lower-cased name is not `host`, `connection`, `content-length`, `transfer-encoding` or `content-encoding`, in order; `DropHopByHopMembers` and `DropHopByHopKeeps` state it. |
| `Proxy.IsHopByHop` | api/generate.js:21 | The lower-cased name is one of `host`, `connection`, `content-length`, `transfer-encoding` and `content-encoding`. |
| `Proxy.SetFirst` | api/generate.js:27 | `Headers.set`: the first header with the name takes the value and later ones go, or the header is appended; `SetFirstNamed` and `SetFirstKeepsOthers` state it. |
| `Proxy.ForwardHeaders` | api/generate.js:18-27 | The filtered headers with `X-Platform: imageeditor` set; `ForwardedHeaders` states what they hold. |
| `Proxy.OutgoingHeaders.Set` | api/generate.js:27 | The first header with the name, compared case-insensitively, takes the value and later ones with that name are removed. With none, the header is appended. |
| `Proxy.BuildHeaders` | api/generate.js:18-27 | The `forEach`/`append` loop and the `set` give exactly the filtered incoming headers with `X-Platform` forced. |
| `Proxy.DropHopByHopAppend` | api/generate.js:19-24 | The filter distributes over concatenation, so forwarded headers keep their original order. |
| `Proxy.DropHopByHopMembers` | api/generate.js:21 | A header is kept exactly when it came in and its lower-cased name is not one of the five hop-by-hop names. |
| `Proxy.DropHopByHopKeeps` | api/generate.js:19-24 | Headers without a hop-by-hop name pass through unchanged. |
| `Proxy.SetFirstNamed` | api/generate.js:27 | After `set`, exactly one header carries the name, with the new value. |
| `Proxy.SetFirstKeepsOthers` | api/generate.js:27 | `set` leaves every header of another name as it was, in order. |
| `Proxy.ForwardedHeaders` | api/generate.js:18-27 | No hop-by-hop header goes upstream. `X-Platform` appears exactly once, as `imageeditor`, whatever came in. Every other forwarded header is what the filter kept. |
| `Proxy.NodeSetGet` | api/generate.js:43-45 | After `setHeader`, that name reads back as the new value and every other name reads as before. |
| `Proxy.NodeSet` | api/generate.js:43-45 | Node's `setHeader`: the header with the name is replaced where it stands, or appended; `NodeSetGet` states it. |
| `Proxy.NodeGet` | api/generate.js:43-45 | Node's `getHeader`: the value of the first header with the name, case-insensitively, or none; `NodeSetGet` relates it to `NodeSet`. |
| `Proxy.HeaderGet` | api/generate.js:43-45 | `headers.get`: the values of every header with the name, case-insensitively, joined by a comma and a space, or null when there is none. |
| `Proxy.ContentTypeFor` | api/generate.js:43 | The upstream content type when it is non-empty, and `application/json` otherwise; `RelayHeadersGet` states it. |
| `Proxy.RelayHeaders` | api/generate.js:43-46 | Content-Type always set, and Content-Disposition set only when the upstream one is non-empty; `RelayHeadersGet` states it. |
| `Proxy.ServerResponse.SetHeader` | api/generate.js:9 | Replaces or appends the header and leaves status and body alone. |
| `Proxy.ServerResponse.Status` | api/generate.js:48 | Sets the status and leaves headers and body alone. |
| `Proxy.ServerResponse.Finish` | api/generate.js:10 | Writes the body and leaves status and headers alone. |
| `Proxy.Handle` | api/generate.js:7-58 | The upstream call is made only for POST, with the target URL, the forwarded headers and the request body. The response left behind is the specified one. |
| `Proxy.UpstreamFor` | api/generate.js:8-37 | Only a POST makes an upstream call: to the fixed target, as POST, with the forwarded headers and the request body. |
| `Proxy.Respond` | api/generate.js:7-58 | The finished response: 405 with `Allow: POST`, the 500 envelope, or the relayed status, headers and bytes; `WrongMethod`, `UpstreamFailure` and `UpstreamRelayed` state each case. |
| `Proxy.WrongMethod` | api/generate.js:8-11 | A method other than POST makes no upstream call and answers 405 with `Allow: POST` and body `Method <m> Not Allowed`. |
| `Proxy.UpstreamFailure` | api/generate.js:50-56 | A thrown error answers 500 with `{success: false, message: 'Internal Proxy Error', error: <message>}`. |
| `Proxy.RelayHeadersGet` | api/generate.js:43-46 | `Content-Type` is the upstream's if non-empty, else `application/json`. `Content-Disposition` is the upstream's exactly when that is non-empty, and is otherwise left as it was. |
| `Proxy.UpstreamRelayed` | api/generate.js:40-48 | The upstream status and body bytes are relayed unchanged, together with the two relayed headers. |
| `App.AppState.constructor` | App.tsx:13-34 | A fresh page: the initial job record with aspect ratio `1:1`, form mode, empty prompt, no images, no result, no error, not loading. |
| `App.AppState.SetJobDetails` | App.tsx:98 | Replaces the job record and nothing else, keeping the panels consistent. |
| `App.AppState.SetMode` | App.tsx:100 | Replaces the mode and nothing else, keeping the panels consistent. |
| `App.AppState.SetUserPrompt` | App.tsx:102 | Replaces the prompt and nothing else, keeping the panels consistent. |
| `App.AppState.SetLogo` | App.tsx:104 | Replaces the logo and nothing else, keeping the panels consistent. |
| `App.AppState.SetReferenceImage` | App.tsx:106 | Replaces the reference image and nothing else, keeping the panels consistent. |
| `App.AppState.BeginGeneration` | App.tsx:40-45 | Sets loading, clears error and result, and hands the current record, logo, reference image, mode, prompt and flag to the service. The inputs are unchanged. Only the loader and the form show. |
| `App.AppState.Settle` | App.tsx:44-62 | Success stores exactly the returned string. Failure stores exactly `Failed to generate hiring post image. Please try again.` and leaves the result empty. Either way loading ends. |
| `App.AppState.HandleGeneration` | App.tsx:36-63 | A whole generation against the service model ends not loading, with the result or the fixed error as the service's outcome decides. |
| `App.AppState.Submit` | App.tsx:65 | Generates from the current inputs with `isRegeneration` false. It ends not loading, with the result or the fixed error as the service's outcome decides. The inputs are unchanged. |
| `App.AppState.Regenerate` | App.tsx:66 | Generates from the same inputs as submit; only `isRegeneration`, here true, differs. It ends not loading, with the result or the fixed error as the service's outcome decides. The inputs are unchanged. |
| `App.AppState.StartOver` | App.tsx:68-89 | Clears result, error, logo and reference image, empties the prompt, selects form mode, restores the initial record and leaves `isLoading` as it was. The panels stay consistent. From a settled state the form and the empty-state panel show. |
| `App.OnePanel` | App.tsx:112-131 | In every state the handlers can produce, exactly one of the loader, the error, the result and the empty-state panel is shown. |
| `App.LoaderVisible` | App.tsx:112 | `{isLoading && <Loader />}`: the loader shows while loading. |
| `App.ErrorVisible` | App.tsx:113 | `{error && ...}`: the error panel shows for a non-empty message. |
| `App.ResultVisible` | App.tsx:119 | `{generatedImage && ...}`: the result shows for a non-empty image. |
| `App.EmptyStateVisible` | App.tsx:131 | The empty-state panel shows when not loading, with no error and no result. |
| `App.FormVisible` | App.tsx:109 | `JobForm` renders only while `hasResult={!!generatedImage}` is false. |
| `App.Consistent` | App.tsx:36-89 | The slot combinations the handlers produce: nothing else set while loading, and never an error and a result together. `OnePanel` shows exactly one panel is visible in each. |
| `App.FormOrResult` | App.tsx:109 | The form is shown exactly when there is no result. |
| `App.SettledPanels` | App.tsx:119 | A settled generation shows the result for a non-empty string and the fixed error on failure. An empty string shows the empty state. |
| `GeneratedPost.ImageSrc` | components/GeneratedPost.tsx:18-19 | A string starting with `http` is the source unchanged. Any other is prefixed with `data:image/png;base64,`. |
| `GeneratedPost.IsUrl` | components/GeneratedPost.tsx:18 | `imageData.startsWith('http')`; `UrlByPrefix` and `HttpPrefixIsUrl` state its properties. |
| `GeneratedPost.ImageDataIsSuffix` | components/GeneratedPost.tsx:19 | The image data always ends the computed source. |
| `GeneratedPost.UrlByPrefix` | components/GeneratedPost.tsx:18 | The URL decision depends only on the first four characters. |
| `GeneratedPost.HttpPrefixIsUrl` | components/GeneratedPost.tsx:18 | Every string of the form `http…`, such as `https://…` or `httpX…`, is treated as a URL and shown as is. |
| `GeneratedPost.PayloadSrcParses` | components/GeneratedPost.tsx:19 | The source built for a bare payload is a data URL that the service's parser reads back as `image/png` with that payload. |
| `GeneratedPost.ReaderPayloadShown` | components/GeneratedPost.tsx:19 | The payload cut from a `FileReader` data URL is shown under a PNG data URL with that same payload. |

## Left out

- Network, browser and runtime services:
  - The `fetch` to the proxy and to the image API, `atob` and `FileReader` are parameters of the model, and the JSON parse of the reply is a field of it.
  - A rejected fetch and a rejected read of the body are modelled as `Err` values carrying the error's message.
  - The model does not relate the reply's text, JSON, size and data URL to one another.
  - `JSON.stringify` of the reply is an opaque field (`serialized`).
  - `output[0]` is taken to be a string.
- The `GoogleGenAI` client object that `getAI` caches, and the `currentKeyIndex` bookkeeping, are left out. `GeminiKeys.KeyStore.GetAI` returns the selected key instead.
- `GeminiKeys.KeyStore.GetAI`: the index is a `nat`. A negative index, which JavaScript would let through to `keys[-1]`, is not modelled.
- The debug telemetry `fetch` calls and the `console` logging are left out, because they are side effects only.
- `isRegeneration` only feeds telemetry in the service, so `GeminiService.GenerateHiringPost` has no such parameter.
- The download handler of the result panel is DOM and network work. It is left out; both of its branches use the file name constant `DownloadName`.
- Rendering is left out: `JobForm` beyond its setters and its `hasResult` check, `Header`, `Loader` and the icons. Also left out is `vite.config.ts`, the dev-server configuration.
- Concurrency is left out. The page is modelled as a sequence of events. Overlapping generations and cancellation are not modelled.
- `HandleGeneration` runs the begin and settle halves back to back. Events between them are possible in the page, through `BeginGeneration` and `Settle` separately.
- `JsString.Lower` folds ASCII letters only. JavaScript's full Unicode `toLowerCase` in the hop-by-hop check is not modelled. Fetch's header-name comparison is ASCII-only, as modelled.
- Strings are sequences of code points. UTF-16 code units, which `substring(0, 200)` and `charCodeAt` count, are not distinguished.
- Headers are modelled as a list of (name, value) pairs, as the Fetch standard defines them, with these simplifications:
  - value normalisation and name validation by `Headers.append` are left out;
  - Node's array-valued incoming headers are left out;
  - the combining of duplicates by the runtime's header store is left out.
- `Allow` is set to the one-element array `['POST']`, which Node sends as the single value `POST`.
- Status codes Node would refuse are not modelled, and neither is the `Content-Type` that `res.json` adds to the 500 reply.
- The bytes of a request body are not interpreted. `Blob`s are modelled as their bytes with the type the constructor keeps (`GeminiService.BlobType`).
- `GeminiService.ImageEntry`: the multipart encoding of the form is not modelled. In particular, a part whose Blob type is empty goes out as `application/octet-stream`, and that is not modelled.
