/**
 * The service layer over the image-generation SDK.
 *
 * The SDK itself is opaque: each of its calls is a parameter that maps the
 * client and the request to either a response or the error it throws, and
 * the environment key `process.env.API_KEY` is a parameter too.
 */
module GeminiService {
  import opened Wrappers
  import opened Utf16Text

  /** A thrown JavaScript error, of which only `message` is observed. */
  datatype Error = Error(message: Text)

  /** A client bound to the API key it was created with. */
  datatype Client = Client(apiKey: Text)

  /** The text-generation request used as a liveness probe. */
  datatype ContentRequest = ContentRequest(model: Text, contents: Text)

  /** The image-generation request with its `config`. */
  datatype ImagesRequest = ImagesRequest(
    model: Text,
    prompt: Text,
    numberOfImages: nat,
    outputMimeType: Text,
    aspectRatio: Text)

  /** One element of `generatedImages`, reduced to `image.imageBytes` (base64 text). */
  datatype GeneratedImage = GeneratedImage(imageBytes: Text)

  /** The image response; `generatedImages` may be absent. */
  datatype ImagesResponse = ImagesResponse(generatedImages: Option<seq<GeneratedImage>>)

  /** `ai.models.generateContent`: the response is awaited and discarded. */
  type ContentCall = (Client, ContentRequest) -> Result<(), Error>

  /** `ai.models.generateImages`. */
  type ImagesCall = (Client, ImagesRequest) -> Result<ImagesResponse, Error>

  // Long literals are built from short pieces, each of which keeps InBmp provable.
  const KeyNotFoundMessage: Text :=
    Bmp("API key not found. ") + Bmp("Please provide a key ") + Bmp("manually or select ") +
    Bmp("one via AI Studio.")

  /** JavaScript truthiness of an optional string: present and not empty. */
  predicate Truthy(key: Option<Text>) {
    key.Some? && key.value != []
  }

  /**
   * `getClient`: `apiKey || process.env.API_KEY`, and an error when the
   * chosen value is falsy.
   */
  function GetClient(apiKey: Option<Text>, envKey: Option<Text>): (r: Result<Client, Error>)
    ensures Truthy(apiKey) ==> r == Ok(Client(apiKey.value))
    ensures !Truthy(apiKey) && Truthy(envKey) ==> r == Ok(Client(envKey.value))
    ensures r.Err? <==> !Truthy(apiKey) && !Truthy(envKey)
    ensures r.Err? ==> r.error == Error(KeyNotFoundMessage)
    ensures r.Ok? ==> r.value.apiKey != []
  {
    var keyToUse := if Truthy(apiKey) then apiKey else envKey;
    if !Truthy(keyToUse) then Err(Error(KeyNotFoundMessage)) else Ok(Client(keyToUse.value))
  }

  const ProbeRequest: ContentRequest := ContentRequest(Bmp("gemini-2.5-flash"), Bmp("hello"))

  /**
   * `testApiKey`: true when a client can be made and the probe call
   * succeeds; otherwise the original error is passed on unchanged.
   */
  function TestApiKey(apiKey: Option<Text>, envKey: Option<Text>, generateContent: ContentCall)
    : (r: Result<bool, Error>)
    ensures r.Ok? ==> r.value
    ensures !Truthy(apiKey) && !Truthy(envKey) ==> r == Err(Error(KeyNotFoundMessage))
    ensures GetClient(apiKey, envKey).Ok? ==>
      var probe := generateContent(GetClient(apiKey, envKey).value, ProbeRequest);
      (r.Ok? <==> probe.Ok?) && (probe.Err? ==> r.error == probe.error)
  {
    match GetClient(apiKey, envKey)
    case Err(e) => Err(e)
    case Ok(ai) =>
      match generateContent(ai, ProbeRequest)
      case Err(e) => Err(e)
      case Ok(_) => Ok(true)
  }

  // Built from short pieces, as KeyNotFoundMessage is.
  const WallpaperSuffix: Text :=
    Bmp(", phone wallpaper") + Bmp(", vertical") + Bmp(", high detail") + Bmp(", cinematic lighting")

  /** The prompt sent to the image model: the user's prompt, then the fixed style suffix. */
  function WallpaperPrompt(prompt: Text): (r: Text)
    ensures |r| == |prompt| + |WallpaperSuffix|
    ensures r[..|prompt|] == prompt && r[|prompt|..] == WallpaperSuffix
  {
    prompt + WallpaperSuffix
  }

  /** The user's prompt inside a sent prompt, when the sent prompt ends with the suffix. */
  function UserPrompt(sent: Text): (r: Option<Text>)
    ensures r.Some? <==> |sent| >= |WallpaperSuffix| && sent[|sent| - |WallpaperSuffix|..] == WallpaperSuffix
    ensures r.Some? ==> WallpaperPrompt(r.value) == sent
  {
    if |sent| >= |WallpaperSuffix| && sent[|sent| - |WallpaperSuffix|..] == WallpaperSuffix
    then Some(sent[..|sent| - |WallpaperSuffix|])
    else None
  }

  /** The user's prompt is recovered from what is sent: no two prompts are sent alike. */
  lemma WallpaperPromptRoundTrip(prompt: Text)
    ensures UserPrompt(WallpaperPrompt(prompt)) == Some(prompt)
  {
    var sent := WallpaperPrompt(prompt);
    assert sent[..|sent| - |WallpaperSuffix|] == prompt;
  }

  /** Four 9:16 JPEG images from the Imagen model, for the augmented prompt. */
  function WallpaperRequest(prompt: Text): (r: ImagesRequest)
    ensures r.model == Bmp("imagen-4.0-generate-001")
    ensures r.numberOfImages == 4 && r.outputMimeType == Bmp("image/jpeg") && r.aspectRatio == Bmp("9:16")
    ensures UserPrompt(r.prompt) == Some(prompt)
  {
    WallpaperPromptRoundTrip(prompt);
    ImagesRequest(
      Bmp("imagen-4.0-generate-001"),
      WallpaperPrompt(prompt),
      4,
      Bmp("image/jpeg"),
      Bmp("9:16"))
  }

  const DataUrlPrefix: Text := Bmp("data:image/jpeg;base64,")

  /** `data:image/jpeg;base64,${bytes}`. */
  function DataUrl(bytes: Text): (r: Text)
    ensures |r| == |DataUrlPrefix| + |bytes|
    ensures r[..|DataUrlPrefix|] == DataUrlPrefix && r[|DataUrlPrefix|..] == bytes
  {
    DataUrlPrefix + bytes
  }

  /** The base64 payload of a JPEG data URL, when the text is one. */
  function ImageBytes(url: Text): (r: Option<Text>)
    ensures r.Some? <==> |url| >= |DataUrlPrefix| && url[..|DataUrlPrefix|] == DataUrlPrefix
    ensures r.Some? ==> DataUrl(r.value) == url
  {
    if |url| >= |DataUrlPrefix| && url[..|DataUrlPrefix|] == DataUrlPrefix
    then Some(url[|DataUrlPrefix|..])
    else None
  }

  /** `generatedImages.map(img => data URL of img.image.imageBytes)`. */
  function DataUrls(images: seq<GeneratedImage>): (r: seq<Text>)
    ensures |r| == |images|
    ensures forall i :: 0 <= i < |images| ==> ImageBytes(r[i]) == Some(images[i].imageBytes)
  {
    if images == [] then []
    else
      [DataUrl(images[0].imageBytes)] + DataUrls(images[1..])
  }

  /** The number of images a response carries (none when the field is absent). */
  function ImageCount(response: ImagesResponse): nat {
    if response.generatedImages.Some? then |response.generatedImages.value| else 0
  }

  /**
   * The URL list built from a response: one data URL per generated image,
   * and the empty list rather than an error when there are none.
   */
  function ResponseUrls(response: ImagesResponse): (r: seq<Text>)
    ensures |r| == ImageCount(response)
    ensures forall i :: 0 <= i < |r| ==>
      ImageBytes(r[i]) == Some(response.generatedImages.value[i].imageBytes)
  {
    if response.generatedImages.Some? && |response.generatedImages.value| > 0
    then DataUrls(response.generatedImages.value)
    else []
  }

  /**
   * `generateWallpapers`: make a client (its error propagates), ask the SDK
   * for the wallpaper request, and turn the response into data URLs; an
   * error thrown by the SDK propagates unchanged.
   */
  function GenerateWallpapers(prompt: Text, apiKey: Option<Text>, envKey: Option<Text>, generateImages: ImagesCall)
    : (r: Result<seq<Text>, Error>)
    ensures !Truthy(apiKey) && !Truthy(envKey) ==> r == Err(Error(KeyNotFoundMessage))
    ensures GetClient(apiKey, envKey).Ok? ==>
      var reply := generateImages(GetClient(apiKey, envKey).value, WallpaperRequest(prompt));
      (reply.Err? ==> r == Err(reply.error)) &&
      (reply.Ok? ==>
         r.Ok? && |r.value| == ImageCount(reply.value) &&
         forall i :: 0 <= i < |r.value| ==>
           ImageBytes(r.value[i]) == Some(reply.value.generatedImages.value[i].imageBytes))
  {
    match GetClient(apiKey, envKey)
    case Err(e) => Err(e)
    case Ok(ai) =>
      match generateImages(ai, WallpaperRequest(prompt))
      case Err(e) => Err(e)
      case Ok(response) => Ok(ResponseUrls(response))
  }
}
