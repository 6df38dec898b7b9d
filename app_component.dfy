/**
 * The campaign orchestrator (`AppComponent`): the prompt, the generation flags, the
 * current campaign and image, the image size label and the chat panel's visibility.
 * Each awaited call is a step of its own, so that the in-flight flags and the gate
 * they feed are observable: `BeginGenerateAll` / `CompleteCampaign` / `CompleteImage`
 * for a generation, `BeginRegenerateImage` / `CompleteImage` for a manual image
 * request; `GenerateAll` and `RegenerateImage` run those steps in sequence.
 */
module App {
  import opened Wrappers
  import opened Text
  import opened AI

  /** A prompt must be longer than this many UTF-16 code units to be generated from. */
  const MinPromptLength: nat := 10
  const DefaultImageSize: string := "1K"
  /** The blocking notification shown when campaign generation fails. */
  const CampaignFailureAlert: string := "Failed to generate campaign. Please try again."

  /**
   * `canGenerate`: the prompt is longer than ten UTF-16 code units and no generation
   * is in flight. In characters: more than ten always suffice, five or fewer never do.
   */
  function CanGenerate(prompt: string, loading: bool): (r: bool)
    ensures r ==> !loading && |prompt| > MinPromptLength / 2
    ensures !loading && |prompt| > MinPromptLength ==> r
  {
    Utf16Length(prompt) > MinPromptLength && !loading
  }

  /** On prompts without surrogate pairs the gate is exactly "more than ten characters, not loading". */
  lemma CanGenerateOnBmp(prompt: string, loading: bool)
    requires IsBmp(prompt)
    ensures CanGenerate(prompt, loading) <==> |prompt| > MinPromptLength && !loading
  {
    Utf16LengthIsLengthIffBmp(prompt);
  }

  /** Which awaited call, if any, a component is suspended on. */
  datatype InFlight =
    | Idle
    | AwaitingCampaign     // generateAll, in generateCampaign
    | AwaitingFirstImage   // generateAll, in the regenerateImage it triggers
    | AwaitingImage        // a regenerateImage the user asked for

  class AppComponent {
    var prompt: string
    var loading: bool
    var campaign: Option<EmailCampaign>
    var currentImage: Option<string>
    var imageSize: string
    var isChatOpen: bool
    var imageLoading: bool
    ghost var inFlight: InFlight

    /**
     * `loading` covers exactly a generation (both its calls), `imageLoading` exactly
     * an image call; while a campaign is awaited nothing stale is shown; an image is
     * only ever shown beside a campaign, and it is always a JPEG data URI.
     */
    ghost predicate Valid()
      reads this
    {
      (loading <==> inFlight.AwaitingCampaign? || inFlight.AwaitingFirstImage?) &&
      (imageLoading <==> inFlight.AwaitingFirstImage? || inFlight.AwaitingImage?) &&
      (inFlight.AwaitingCampaign? ==> campaign.None? && currentImage.None?) &&
      (inFlight.AwaitingFirstImage? ==> campaign.Some? && currentImage.None?) &&
      (inFlight.AwaitingImage? ==> campaign.Some?) &&
      (currentImage.Some? ==> campaign.Some? && IsJpegDataUri(currentImage.value))
    }

    constructor ()
      ensures Valid() && inFlight == Idle
      ensures prompt == "" && !loading && campaign == None && currentImage == None
      ensures imageSize == DefaultImageSize && !isChatOpen && !imageLoading
    {
      prompt := "";
      loading := false;
      campaign := None;
      currentImage := None;
      imageSize := DefaultImageSize;
      isChatOpen := false;
      imageLoading := false;
      inFlight := Idle;
    }

    /** The prompt field's two-way binding. */
    method SetPrompt(text: string)
      requires Valid()
      modifies this`prompt
      ensures Valid() && prompt == text
    {
      prompt := text;
    }

    /** The size selector's binding; it does not request a new image by itself. */
    method SetImageSize(size: string)
      requires Valid()
      modifies this`imageSize
      ensures Valid() && imageSize == size
    {
      imageSize := size;
    }

    /**
     * `generateAll` up to the awaited campaign call. When `canGenerate` is false it
     * does nothing and issues nothing. Otherwise it sets `loading`, clears the old
     * campaign and image, and requests a campaign for the current prompt.
     */
    method BeginGenerateAll() returns (request: Option<CampaignRequest>)
      requires Valid() && !inFlight.AwaitingImage?
      modifies this`loading, this`campaign, this`currentImage, this`inFlight
      ensures Valid()
      ensures request.Some? <==> CanGenerate(old(prompt), old(loading))
      ensures request.None? ==>
        loading == old(loading) && campaign == old(campaign) &&
        currentImage == old(currentImage) && inFlight == old(inFlight)
      ensures request.Some? ==>
        request.value == CampaignRequestFor(prompt) &&
        loading && campaign == None && currentImage == None && inFlight == AwaitingCampaign
    {
      if !CanGenerate(prompt, loading) {
        return None;
      }
      loading := true;
      campaign := None;
      currentImage := None;
      inFlight := AwaitingCampaign;
      request := Some(CampaignRequestFor(prompt));
    }

    /**
     * `generateAll` once the campaign call settles. A campaign is stored and an image
     * is requested at once from its visual prompt and the current size label, with
     * `loading` still set. A failure raises the alert, leaves no campaign and no
     * image, and clears `loading`.
     */
    method CompleteCampaign(response: Outcome<Option<EmailCampaign>>)
      returns (imageRequest: Option<ImageRequest>, alert: Option<string>)
      requires Valid() && inFlight.AwaitingCampaign?
      modifies this`loading, this`campaign, this`imageLoading, this`inFlight
      ensures Valid()
      ensures CampaignResult(response).Ok? ==>
        var c := CampaignResult(response).value;
        campaign == Some(c) && currentImage == None &&
        imageRequest == Some(ImageRequestFor(c.visualPrompt, imageSize)) && alert == None &&
        loading && imageLoading && inFlight == AwaitingFirstImage
      ensures CampaignResult(response).Err? ==>
        campaign == None && currentImage == None &&
        imageRequest == None && alert == Some(CampaignFailureAlert) &&
        !loading && !imageLoading && inFlight == Idle
    {
      match CampaignResult(response)
      case Ok(c) =>
        campaign := Some(c);
        imageLoading := true;
        inFlight := AwaitingFirstImage;
        imageRequest, alert := Some(ImageRequestFor(c.visualPrompt, imageSize)), None;
      case Err(_) =>
        loading := false;
        inFlight := Idle;
        imageRequest, alert := None, Some(CampaignFailureAlert);
    }

    /**
     * `regenerateImage` up to the awaited image call: nothing happens without a
     * campaign; otherwise `imageLoading` is set and an image is requested from the
     * campaign's visual prompt and the current size label.
     */
    method BeginRegenerateImage() returns (request: Option<ImageRequest>)
      requires Valid() && !imageLoading
      modifies this`imageLoading, this`inFlight
      ensures Valid()
      ensures request.Some? <==> campaign.Some?
      ensures request.None? ==> imageLoading == old(imageLoading) && inFlight == old(inFlight)
      ensures request.Some? ==>
        request.value == ImageRequestFor(campaign.value.visualPrompt, imageSize) &&
        imageLoading && inFlight == AwaitingImage
    {
      if campaign.None? {
        return None;
      }
      imageLoading := true;
      inFlight := AwaitingImage;
      request := Some(ImageRequestFor(campaign.value.visualPrompt, imageSize));
    }

    /**
     * The end of `regenerateImage`, whether the user or `generateAll` asked for it:
     * a returned image replaces the current one, a failure is swallowed and keeps the
     * current one, and `imageLoading` is cleared either way. When it ends a
     * generation, `loading` is cleared too.
     */
    method CompleteImage(response: Outcome<seq<string>>)
      requires Valid() && imageLoading
      modifies this`currentImage, this`imageLoading, this`loading, this`inFlight
      ensures Valid() && !imageLoading && !loading && inFlight == Idle
      ensures ImageResult(response).Ok? ==> currentImage == Some(ImageResult(response).value)
      ensures ImageResult(response).Err? ==> currentImage == old(currentImage)
    {
      if ImageResult(response).Ok? {
        currentImage := Some(ImageResult(response).value);
      }
      imageLoading := false;
      loading := false;
      inFlight := Idle;
    }

    /**
     * `generateAll` as a whole, with the outcomes of its campaign call and of the image
     * call that follows a successful one. Rejected by `canGenerate`, it changes
     * nothing and issues nothing. Otherwise it ends with no flag set; on success the
     * campaign is stored and the image is the generated one, if any; on failure the
     * alert is raised and there is neither campaign nor image.
     */
    method GenerateAll(campaignResponse: Outcome<Option<EmailCampaign>>, imageResponse: Outcome<seq<string>>)
      returns (campaignRequest: Option<CampaignRequest>, imageRequest: Option<ImageRequest>, alert: Option<string>)
      requires Valid() && !inFlight.AwaitingImage?
      modifies this`loading, this`campaign, this`currentImage, this`imageLoading, this`inFlight
      ensures Valid()
      ensures campaignRequest.Some? <==> CanGenerate(old(prompt), old(loading))
      ensures campaignRequest.None? ==>
        loading == old(loading) && campaign == old(campaign) && currentImage == old(currentImage) &&
        imageLoading == old(imageLoading) && inFlight == old(inFlight) &&
        imageRequest == None && alert == None
      ensures campaignRequest.Some? ==>
        campaignRequest.value == CampaignRequestFor(prompt) &&
        !loading && !imageLoading && inFlight == Idle
      ensures campaignRequest.Some? && CampaignResult(campaignResponse).Ok? ==>
        var c := CampaignResult(campaignResponse).value;
        campaign == Some(c) && alert == None &&
        imageRequest == Some(ImageRequestFor(c.visualPrompt, imageSize)) &&
        currentImage == (if ImageResult(imageResponse).Ok? then Some(ImageResult(imageResponse).value) else None)
      ensures campaignRequest.Some? && CampaignResult(campaignResponse).Err? ==>
        campaign == None && currentImage == None && imageRequest == None &&
        alert == Some(CampaignFailureAlert)
    {
      imageRequest, alert := None, None;
      campaignRequest := BeginGenerateAll();
      if campaignRequest.Some? {
        imageRequest, alert := CompleteCampaign(campaignResponse);
        if imageRequest.Some? {
          CompleteImage(imageResponse);
        }
      }
    }

    /**
     * `regenerateImage` as a whole, with the outcome of its image call: nothing
     * happens without a campaign; otherwise the new image, if one was returned,
     * replaces the current one, and `imageLoading` ends cleared.
     */
    method RegenerateImage(response: Outcome<seq<string>>) returns (request: Option<ImageRequest>)
      requires Valid() && !imageLoading
      modifies this`currentImage, this`imageLoading, this`loading, this`inFlight
      ensures Valid() && !imageLoading
      ensures request.Some? <==> campaign.Some?
      ensures request.None? ==> currentImage == old(currentImage) && inFlight == old(inFlight) && loading == old(loading)
      ensures request.Some? ==>
        request.value == ImageRequestFor(campaign.value.visualPrompt, imageSize) &&
        currentImage == (if ImageResult(response).Ok? then Some(ImageResult(response).value) else old(currentImage))
    {
      request := BeginRegenerateImage();
      if request.Some? {
        CompleteImage(response);
      }
    }

    /** Opens or closes the chat panel; nothing else changes. */
    method ToggleChat()
      requires Valid()
      modifies this`isChatOpen
      ensures Valid() && isChatOpen == !old(isChatOpen)
    {
      isChatOpen := !isChatOpen;
    }
  }
}
