/** The session state of the page component (App.tsx): eight state slots,
    the generation and start-over handlers that update them, and what the
    page shows for each state. */
module App {
  import opened Wrappers
  import opened JobTypes
  import opened GeminiImage
  import opened GeminiResponse
  import opened GeminiService

  // Written as short literals, which lets the verifier see its characters.
  const FailureMessage: string := "Failed to generate " + "hiring post image. " + "Please try again."

  /** The arguments one generation hands to `generateHiringPost`. */
  datatype GenerationCall = GenerationCall(details: JobDetails, logo: Option<string>,
                                           referenceImage: Option<string>, mode: InputMode,
                                           userPrompt: string, isRegeneration: bool)

  // ---- What the page shows, as functions of the state ----

  /** `JobForm` renders nothing once there is a result. */
  predicate FormVisible(generatedImage: Option<string>) {
    !Truthy(generatedImage)
  }

  predicate LoaderVisible(isLoading: bool) {
    isLoading
  }

  predicate ErrorVisible(error: Option<string>) {
    Truthy(error)
  }

  predicate ResultVisible(generatedImage: Option<string>) {
    Truthy(generatedImage)
  }

  predicate EmptyStateVisible(isLoading: bool, error: Option<string>, generatedImage: Option<string>) {
    !isLoading && !Truthy(error) && !Truthy(generatedImage)
  }

  /** The combinations of slots the handlers can produce: nothing else is
      set while loading, and an error and a result never stand together. */
  predicate Consistent(isLoading: bool, error: Option<string>, generatedImage: Option<string>) {
    (isLoading ==> error == None && generatedImage == None)
    && (error == None || generatedImage == None)
  }

  /** In every consistent state the right-hand column shows exactly one of
      the loader, the error, the result and the empty-state panel. */
  lemma OnePanel(isLoading: bool, error: Option<string>, generatedImage: Option<string>)
    requires Consistent(isLoading, error, generatedImage)
    ensures var shown := [LoaderVisible(isLoading), ErrorVisible(error),
                          ResultVisible(generatedImage), EmptyStateVisible(isLoading, error, generatedImage)];
      exists k :: 0 <= k < 4 && shown[k] && forall j :: 0 <= j < 4 && j != k ==> !shown[j]
  {
    var shown := [LoaderVisible(isLoading), ErrorVisible(error),
                  ResultVisible(generatedImage), EmptyStateVisible(isLoading, error, generatedImage)];
    var k := if isLoading then 0 else if Truthy(error) then 1 else if Truthy(generatedImage) then 2 else 3;
    assert shown[k];
  }

  /** The form and the result are never shown together, and one of them
      always is. */
  lemma FormOrResult(generatedImage: Option<string>)
    ensures FormVisible(generatedImage) <==> !ResultVisible(generatedImage)
  {
  }

  class AppState {
    var jobDetails: JobDetails
    var mode: InputMode
    var userPrompt: string
    var logo: Option<string>
    var referenceImage: Option<string>
    var generatedImage: Option<string>
    var isLoading: bool
    var error: Option<string>

    predicate Valid()
      reads this
    {
      Consistent(isLoading, error, generatedImage)
    }

    /** The state of a fresh page, which start-over restores except for
        `isLoading`. */
    predicate Cleared()
      reads this
    {
      jobDetails == InitialDetails && mode == Form && userPrompt == ""
      && logo == None && referenceImage == None && generatedImage == None && error == None
    }

    constructor()
      ensures Cleared() && !isLoading && Valid()
    {
      jobDetails := InitialDetails;
      mode := Form;
      userPrompt := "";
      logo := None;
      referenceImage := None;
      generatedImage := None;
      isLoading := false;
      error := None;
    }

    // ---- The setters `JobForm` receives ----

    method SetJobDetails(d: JobDetails)
      modifies this
      requires Valid()
      ensures Valid()
      ensures jobDetails == d
      ensures mode == old(mode) && userPrompt == old(userPrompt) && logo == old(logo)
      ensures referenceImage == old(referenceImage) && generatedImage == old(generatedImage)
      ensures isLoading == old(isLoading) && error == old(error)
    {
      jobDetails := d;
    }

    method SetMode(m: InputMode)
      modifies this
      requires Valid()
      ensures Valid()
      ensures mode == m
      ensures jobDetails == old(jobDetails) && userPrompt == old(userPrompt) && logo == old(logo)
      ensures referenceImage == old(referenceImage) && generatedImage == old(generatedImage)
      ensures isLoading == old(isLoading) && error == old(error)
    {
      mode := m;
    }

    method SetUserPrompt(p: string)
      modifies this
      requires Valid()
      ensures Valid()
      ensures userPrompt == p
      ensures jobDetails == old(jobDetails) && mode == old(mode) && logo == old(logo)
      ensures referenceImage == old(referenceImage) && generatedImage == old(generatedImage)
      ensures isLoading == old(isLoading) && error == old(error)
    {
      userPrompt := p;
    }

    method SetLogo(l: Option<string>)
      modifies this
      requires Valid()
      ensures Valid()
      ensures logo == l
      ensures jobDetails == old(jobDetails) && mode == old(mode) && userPrompt == old(userPrompt)
      ensures referenceImage == old(referenceImage) && generatedImage == old(generatedImage)
      ensures isLoading == old(isLoading) && error == old(error)
    {
      logo := l;
    }

    method SetReferenceImage(r: Option<string>)
      modifies this
      requires Valid()
      ensures Valid()
      ensures referenceImage == r
      ensures jobDetails == old(jobDetails) && mode == old(mode) && userPrompt == old(userPrompt)
      ensures logo == old(logo) && generatedImage == old(generatedImage)
      ensures isLoading == old(isLoading) && error == old(error)
    {
      referenceImage := r;
    }

    // ---- `handleGeneration`, split at its `await` ----

    /** The three setters before the `await`; `call` is what is handed to
        the service. */
    method BeginGeneration(isRegeneration: bool) returns (call: GenerationCall)
      modifies this
      ensures isLoading && error == None && generatedImage == None
      ensures jobDetails == old(jobDetails) && mode == old(mode) && userPrompt == old(userPrompt)
      ensures logo == old(logo) && referenceImage == old(referenceImage)
      ensures call == GenerationCall(jobDetails, logo, referenceImage, mode, userPrompt, isRegeneration)
      ensures Valid()
      ensures LoaderVisible(isLoading) && FormVisible(generatedImage)
      ensures !ErrorVisible(error) && !ResultVisible(generatedImage)
        && !EmptyStateVisible(isLoading, error, generatedImage)
    {
      isLoading := true;
      error := None;
      generatedImage := None;
      call := GenerationCall(jobDetails, logo, referenceImage, mode, userPrompt, isRegeneration);
    }

    /** After the `await`: the `try` stores the image, the `catch` the fixed
        message, and the `finally` clears `isLoading`. */
    method Settle(outcome: Result<string>)
      modifies this
      requires Valid() && isLoading
      ensures !isLoading
      ensures outcome.Ok? ==> generatedImage == Some(outcome.value) && error == None
      ensures outcome.Err? ==> error == Some(FailureMessage) && generatedImage == None
      ensures jobDetails == old(jobDetails) && mode == old(mode) && userPrompt == old(userPrompt)
      ensures logo == old(logo) && referenceImage == old(referenceImage)
      ensures Valid()
    {
      if outcome.Ok? {
        generatedImage := Some(outcome.value);
      } else {
        error := Some(FailureMessage);
      }
      isLoading := false;
    }

    /** One whole generation with no other event in between, against the
        service model. */
    method HandleGeneration(isRegeneration: bool, atob: string -> Result<seq<Latin1>>,
                            send: seq<FormEntry> -> Result<Reply>)
      returns (call: GenerationCall)
      modifies this
      ensures call == GenerationCall(old(jobDetails), old(logo), old(referenceImage), old(mode),
                                     old(userPrompt), isRegeneration)
      ensures var r := HiringPost(call.details, call.logo, call.referenceImage, call.mode, call.userPrompt,
                                  atob, send);
        !isLoading
        && generatedImage == (if r.Ok? then Some(r.value) else None)
        && error == (if r.Ok? then None else Some(FailureMessage))
      ensures jobDetails == old(jobDetails) && mode == old(mode) && userPrompt == old(userPrompt)
      ensures logo == old(logo) && referenceImage == old(referenceImage)
      ensures Valid()
    {
      call := BeginGeneration(isRegeneration);
      var _, r := GenerateHiringPost(call.details, call.logo, call.referenceImage, call.mode,
                                     call.userPrompt, atob, send);
      Settle(r);
    }

    method Submit(atob: string -> Result<seq<Latin1>>, send: seq<FormEntry> -> Result<Reply>)
      returns (call: GenerationCall)
      modifies this
      ensures call == GenerationCall(old(jobDetails), old(logo), old(referenceImage), old(mode),
                                     old(userPrompt), false)
      ensures var r := HiringPost(call.details, call.logo, call.referenceImage, call.mode, call.userPrompt,
                                  atob, send);
        !isLoading
        && generatedImage == (if r.Ok? then Some(r.value) else None)
        && error == (if r.Ok? then None else Some(FailureMessage))
      ensures jobDetails == old(jobDetails) && mode == old(mode) && userPrompt == old(userPrompt)
      ensures logo == old(logo) && referenceImage == old(referenceImage)
      ensures Valid()
    {
      call := HandleGeneration(false, atob, send);
    }

    method Regenerate(atob: string -> Result<seq<Latin1>>, send: seq<FormEntry> -> Result<Reply>)
      returns (call: GenerationCall)
      modifies this
      ensures call == GenerationCall(old(jobDetails), old(logo), old(referenceImage), old(mode),
                                     old(userPrompt), true)
      ensures var r := HiringPost(call.details, call.logo, call.referenceImage, call.mode, call.userPrompt,
                                  atob, send);
        !isLoading
        && generatedImage == (if r.Ok? then Some(r.value) else None)
        && error == (if r.Ok? then None else Some(FailureMessage))
      ensures jobDetails == old(jobDetails) && mode == old(mode) && userPrompt == old(userPrompt)
      ensures logo == old(logo) && referenceImage == old(referenceImage)
      ensures Valid()
    {
      call := HandleGeneration(true, atob, send);
    }

    /** `handleStartOver`: everything back to the fresh page, except that
        `isLoading` is left as it was. */
    method StartOver()
      modifies this
      ensures Cleared()
      ensures isLoading == old(isLoading)
      ensures Valid()
      ensures !old(isLoading) ==> FormVisible(generatedImage) && EmptyStateVisible(isLoading, error, generatedImage)
    {
      generatedImage := None;
      error := None;
      logo := None;
      referenceImage := None;
      userPrompt := "";
      mode := Form;
      jobDetails := InitialDetails;
    }
  }

  /** A settled generation shows the result when the service resolved with
      a non-empty string, and otherwise the fixed error, never both. */
  lemma SettledPanels(r: Result<string>)
    ensures var image := if r.Ok? then Some(r.value) else None;
      var error := if r.Ok? then None else Some(FailureMessage);
      Consistent(false, error, image)
      && (r.Ok? && r.value != "" ==> ResultVisible(image) && !FormVisible(image) && !ErrorVisible(error))
      && (r.Err? ==> ErrorVisible(error) && FormVisible(image) && !ResultVisible(image))
      && (r.Ok? && r.value == "" ==> EmptyStateVisible(false, error, image) && FormVisible(image))
  {
    assert |FailureMessage| > 0;
  }
}
