/**
 * The remote generation client (`AIService`). Every call into the generative
 * service is abstracted to its outcome, supplied by the caller; what is modelled
 * is the fixed request text and configuration the client builds, the way it turns
 * a response into a campaign, an image data URI or an error, and the lazily
 * created chat session.
 */
module AI {
  import opened Wrappers

  /** One generated email campaign, replaced wholesale by each generation. */
  datatype EmailCampaign = EmailCampaign(
    subjectLines: seq<string>,
    body: string,
    targetAudience: string,
    tone: string,
    visualPrompt: string)

  /** The failures a client operation throws to its caller. */
  datatype AIError =
    | RemoteServiceError                  // the remote call itself rejected
    | GenerationParseError(message: string) // the campaign text was not JSON
    | NoGeneratedImage                    // the image response held no first image

  const TextModel: string := "gemini-2.5-flash"
  const ImageModel: string := "imagen-4.0-generate-001"
  const CampaignRequestPrefix: string := "Generate a complete email marketing campaign based on this prompt: "
  const ParseFailureMessage: string := "Could not parse AI response."
  const ImagePromptQualifiers: string := ", high resolution, professional photography, marketing style, "
  const ImageMimeType: string := "image/jpeg"
  const ImageAspectRatio: string := "16:9"
  const DataUriPrefix: string := "data:image/jpeg;base64,"
  const SystemInstruction: string := "You are an expert marketing consultant for Nano Banana Pro. Help users optimize their email campaigns."

  // ---------------------------------------------------------------------------
  // generateCampaign

  /** The structured-generation request; the response schema is not modelled. */
  datatype CampaignRequest = CampaignRequest(model: string, contents: string, responseMimeType: string)

  function CampaignRequestFor(prompt: string): CampaignRequest {
    CampaignRequest(TextModel, CampaignRequestPrefix + prompt, "application/json")
  }

  /** Recovers the user prompt from request contents, if they carry the fixed prefix. */
  function PromptOfCampaignContents(contents: string): Option<string> {
    if |CampaignRequestPrefix| <= |contents| && contents[..|CampaignRequestPrefix|] == CampaignRequestPrefix
    then Some(contents[|CampaignRequestPrefix|..])
    else None
  }

  /**
   * The campaign request always goes to the text model as JSON, and its contents are
   * the fixed prefix followed by the prompt, which is recovered from them exactly.
   */
  lemma CampaignRequestRoundTrip(prompt: string, contents: string)
    ensures CampaignRequestFor(prompt).model == TextModel
    ensures CampaignRequestFor(prompt).responseMimeType == "application/json"
    ensures PromptOfCampaignContents(contents) == Some(prompt) <==> CampaignRequestFor(prompt).contents == contents
  {}

  /**
   * What `generateCampaign` returns or throws, given the outcome of the remote call:
   * `Failure` when the call rejected, `Success(None)` when the response text is not
   * valid JSON, `Success(Some(c))` when it parsed to the campaign `c`.
   */
  function CampaignResult(response: Outcome<Option<EmailCampaign>>): (r: Result<EmailCampaign, AIError>)
    ensures r.Ok? <==> response.Success? && response.value.Some?
    ensures r.Ok? ==> r.value == response.value.value
    ensures response.Failure? ==> r == Err(RemoteServiceError)
    ensures response == Success(None) ==> r == Err(GenerationParseError(ParseFailureMessage))
  {
    match response
    case Failure => Err(RemoteServiceError)
    case Success(None) => Err(GenerationParseError(ParseFailureMessage))
    case Success(Some(c)) => Ok(c)
  }

  // ---------------------------------------------------------------------------
  // generateImage

  /** The image-generation request. */
  datatype ImageRequest = ImageRequest(
    model: string,
    prompt: string,
    numberOfImages: nat,
    outputMimeType: string,
    aspectRatio: string)

  function ImagePrompt(visualPrompt: string, size: string): string {
    visualPrompt + ImagePromptQualifiers + size
  }

  function ImageRequestFor(visualPrompt: string, size: string): ImageRequest {
    ImageRequest(ImageModel, ImagePrompt(visualPrompt, size), 1, ImageMimeType, ImageAspectRatio)
  }

  /** Recovers the size label from an image prompt built for `visualPrompt`. */
  function SizeOfImagePrompt(visualPrompt: string, prompt: string): Option<string> {
    var head := visualPrompt + ImagePromptQualifiers;
    if |head| <= |prompt| && prompt[..|head|] == head then Some(prompt[|head|..]) else None
  }

  /**
   * The image prompt is the visual prompt, the fixed qualifiers and the size label,
   * in that order: the label is recovered from it exactly.
   */
  lemma ImagePromptRoundTrip(visualPrompt: string, size: string, prompt: string)
    ensures SizeOfImagePrompt(visualPrompt, prompt) == Some(size) <==> ImagePrompt(visualPrompt, size) == prompt
  {}

  /**
   * The size label reaches the request only through the prompt text: whatever the
   * label, one JPEG image at 16:9 is asked of the image model, and two labels give
   * the same request exactly when they are the same label.
   */
  lemma SizeOnlyReachesPrompt(visualPrompt: string, size1: string, size2: string)
    ensures var r := ImageRequestFor(visualPrompt, size1);
      r.model == ImageModel && r.numberOfImages == 1 &&
      r.outputMimeType == ImageMimeType && r.aspectRatio == ImageAspectRatio
    ensures ImageRequestFor(visualPrompt, size2) == ImageRequestFor(visualPrompt, size1).(prompt := ImagePrompt(visualPrompt, size2))
    ensures ImageRequestFor(visualPrompt, size1) == ImageRequestFor(visualPrompt, size2) <==> size1 == size2
  {
    var p1 := ImagePrompt(visualPrompt, size1);
    ImagePromptRoundTrip(visualPrompt, size1, p1);
    ImagePromptRoundTrip(visualPrompt, size2, p1);
  }

  function DataUri(imageBytes: string): string {
    DataUriPrefix + imageBytes
  }

  /** The base64 payload of a JPEG data URI, if `uri` is one. */
  function BytesOfDataUri(uri: string): Option<string> {
    if |DataUriPrefix| <= |uri| && uri[..|DataUriPrefix|] == DataUriPrefix
    then Some(uri[|DataUriPrefix|..])
    else None
  }

  predicate IsJpegDataUri(uri: string) {
    BytesOfDataUri(uri).Some?
  }

  /** Encoding image bytes as a data URI and reading them back are inverse. */
  lemma DataUriRoundTrip(imageBytes: string, uri: string)
    ensures BytesOfDataUri(uri) == Some(imageBytes) <==> DataUri(imageBytes) == uri
  {}

  /**
   * What `generateImage` returns or throws, given the outcome of the remote call: on
   * success the response's generated images, as their base64 bytes. Reading the
   * first image of an empty list throws.
   */
  function ImageResult(response: Outcome<seq<string>>): (r: Result<string, AIError>)
    ensures r.Ok? <==> response.Success? && response.value != []
    ensures r.Ok? ==> IsJpegDataUri(r.value) && BytesOfDataUri(r.value) == Some(response.value[0])
    ensures response.Failure? ==> r == Err(RemoteServiceError)
  {
    match response
    case Failure => Err(RemoteServiceError)
    case Success(images) =>
      if images == [] then Err(NoGeneratedImage)
      else
        DataUriRoundTrip(images[0], DataUri(images[0]));
        Ok(DataUri(images[0]))
  }

  // ---------------------------------------------------------------------------
  // getChat

  /**
   * A chat session handle. `handle` is the identity the remote SDK gives a new
   * session; the model and system instruction are fixed when it is created.
   */
  datatype ChatSession = ChatSession(handle: nat, model: string, systemInstruction: string)

  /** One message sent within a chat session. */
  datatype ChatRequest = ChatRequest(session: ChatSession, message: string)

  function NewChatSession(handle: nat): ChatSession {
    ChatSession(handle, TextModel, SystemInstruction)
  }

  class AIService {
    /** The lazily created chat session; once set it is never replaced. */
    var chatInstance: Option<ChatSession>

    constructor ()
      ensures chatInstance == None
    {
      chatInstance := None;
    }

    /**
     * Returns the service's chat session, creating it (with identity `handle`, the
     * one the SDK would assign) only when none exists yet.
     */
    method GetChat(handle: nat) returns (chat: ChatSession)
      modifies this
      ensures chatInstance == Some(chat)
      ensures old(chatInstance).Some? ==> chat == old(chatInstance).value
      ensures old(chatInstance).None? ==> chat == NewChatSession(handle)
    {
      if chatInstance.None? {
        chatInstance := Some(NewChatSession(handle));
      }
      chat := chatInstance.value;
    }
  }

  /**
   * Two `getChat` calls on one service return the same session, whatever identity
   * the SDK would have given a session created by the second.
   */
  method GetChatTwice(service: AIService, handle1: nat, handle2: nat) returns (first: ChatSession, second: ChatSession)
    modifies service
    ensures first == second
    ensures service.chatInstance == Some(first)
    ensures old(service.chatInstance).Some? ==> first == old(service.chatInstance).value
  {
    first := service.GetChat(handle1);
    second := service.GetChat(handle2);
  }
}
