/**
 * The App component: its five pieces of state and the handlers that change
 * them. Each handler is one atomic step; the asynchronous generation is a
 * start step followed by one of two completion steps.
 */
module App {
  import opened Wrappers
  import opened Utf16Text
  import opened Types
  import GeminiService
  import FullScreenModal

  const InitialPrompt: Text := Bmp("비오는 서정적인 도시 풍경")

  /** Shown when the caught error has no message. */
  const UnknownErrorMessage: Text := Bmp("알 수 없는 오류가 발생했습니다.")

  /** `${Date.now()}-${index}`, with the clock reading passed in. */
  function ImageId(stamp: nat, index: nat): (r: Text)
    ensures |r| == |Decimal(stamp)| + 1 + |Decimal(index)|
    ensures forall k :: 0 <= k < |r| ==> (r[k] == Hyphen <==> k == |Decimal(stamp)|)
    ensures r[..|Decimal(stamp)|] == Decimal(stamp) && r[|Decimal(stamp)| + 1..] == Decimal(index)
  {
    var r := Decimal(stamp) + [Hyphen] + Decimal(index);
    assert !IsDigit(Hyphen);
    r
  }

  /**
   * An id splits uniquely at its hyphen, since digits hold none: two ids
   * are equal exactly when their readings and their indexes are.
   */
  lemma ImageIdInjective(s1: nat, i1: nat, s2: nat, i2: nat)
    ensures ImageId(s1, i1) == ImageId(s2, i2) <==> s1 == s2 && i1 == i2
  {
    var a, b := Decimal(s1), Decimal(i1);
    var c, d := Decimal(s2), Decimal(i2);
    if ImageId(s1, i1) == ImageId(s2, i2) {
      var id := ImageId(s1, i1);
      // Both prefixes are digits and the hyphen follows each of them, so they end at the same place.
      assert forall k :: 0 <= k < |a| ==> id[k] == a[k] && IsDigit(id[k]);
      assert forall k :: 0 <= k < |c| ==> id[k] == c[k] && IsDigit(id[k]);
      assert id[|a|] == Hyphen && id[|c|] == Hyphen && !IsDigit(Hyphen);
      assert |a| == |c|;
      assert a == id[..|a|] == c;
      assert b == id[|a| + 1..] == d;
      DecimalInjective(s1, s2);
      DecimalInjective(i1, i2);
    }
  }

  /** The ids of a list of images are pairwise distinct (they key the grid). */
  predicate DistinctIds(images: seq<ImageResult>) {
    forall i, j :: 0 <= i < j < |images| ==> images[i].id != images[j].id
  }

  /**
   * `imageUrls.map((url, index) => ...)`: one image per URL, carrying the
   * prompt of the call; `now(index)` is the clock reading taken in the
   * callback for that index.
   */
  function NewImages(urls: seq<Text>, prompt: Text, now: nat -> nat): (r: seq<ImageResult>)
    ensures |r| == |urls|
    ensures forall i :: 0 <= i < |r| ==> r[i].url == urls[i] && r[i].prompt == prompt
    ensures forall i :: 0 <= i < |r| ==> r[i].id == ImageId(now(i), i)
    ensures DistinctIds(r)
  {
    var r := seq(|urls|, i requires 0 <= i < |urls| => ImageResult(ImageId(now(i), i), urls[i], prompt));
    forall i, j | 0 <= i < j < |r|
      ensures r[i].id != r[j].id
    {
      ImageIdInjective(now(i), i, now(j), j);
    }
    r
  }

  /** `err.message || default`: never empty, and the error's own message when it has one. */
  function ErrorMessage(e: GeminiService.Error): (r: Text)
    ensures r != []
    ensures e.message != [] ==> r == e.message
    ensures e.message == [] ==> r == UnknownErrorMessage
  {
    if e.message != [] then e.message else UnknownErrorMessage
  }

  /** The state held by the component through `useState`. */
  class AppState {
    var prompt: Text
    var images: seq<ImageResult>
    var isLoading: bool
    var error: Option<Text>
    var selectedImage: Option<ImageResult>

    /**
     * What the handlers keep true: a request in flight has cleared the
     * images and the error, a shown error is never empty and comes with no
     * images, and the images are keyed by distinct ids.
     */
    ghost predicate Valid()
      reads this
    {
      (isLoading ==> images == [] && error.None?) &&
      (error.Some? ==> images == [] && error.value != []) &&
      DistinctIds(images)
    }

    constructor ()
      ensures Valid()
      ensures prompt == InitialPrompt && images == [] && !isLoading
      ensures error.None? && selectedImage.None?
    {
      prompt := InitialPrompt;
      images := [];
      isLoading := false;
      error := None;
      selectedImage := None;
    }

    /** The textarea's `onChange`: the prompt becomes the edited text. */
    method HandlePromptChange(value: Text)
      requires Valid()
      modifies this
      ensures Valid()
      ensures prompt == value
      ensures images == old(images) && isLoading == old(isLoading)
      ensures error == old(error) && selectedImage == old(selectedImage)
    {
      prompt := value;
    }

    /**
     * The guarded start of `handleGenerate`. With an empty prompt or a
     * request in flight nothing changes; otherwise the request starts with
     * the loading flag set, the error cleared and the images emptied.
     */
    method Begin() returns (started: bool)
      requires Valid()
      modifies this
      ensures Valid()
      ensures started <==> old(prompt) != [] && !old(isLoading)
      ensures !started ==>
        prompt == old(prompt) && images == old(images) && isLoading == old(isLoading) &&
        error == old(error) && selectedImage == old(selectedImage)
      ensures started ==>
        isLoading && error.None? && images == [] &&
        prompt == old(prompt) && selectedImage == old(selectedImage)
    {
      if prompt == [] || isLoading {
        return false;
      }
      isLoading := true;
      error := None;
      images := [];
      return true;
    }

    /**
     * The successful completion of a started request: one image per URL,
     * carrying the prompt the request was made with, and loading ends.
     */
    method CompleteWithUrls(callPrompt: Text, urls: seq<Text>, now: nat -> nat)
      requires Valid() && isLoading
      modifies this
      ensures Valid()
      ensures !isLoading && error.None?
      ensures |images| == |urls|
      ensures forall i :: 0 <= i < |images| ==> images[i].url == urls[i] && images[i].prompt == callPrompt
      ensures images == NewImages(urls, callPrompt, now)
      ensures prompt == old(prompt) && selectedImage == old(selectedImage)
    {
      images := NewImages(urls, callPrompt, now);
      isLoading := false;
    }

    /**
     * The failed completion of a started request: the error's message (or
     * the default one) is shown, the images stay empty, and loading ends.
     */
    method CompleteWithError(e: GeminiService.Error)
      requires Valid() && isLoading
      modifies this
      ensures Valid()
      ensures !isLoading && images == []
      ensures error == Some(ErrorMessage(e))
      ensures prompt == old(prompt) && selectedImage == old(selectedImage)
    {
      error := Some(ErrorMessage(e));
      isLoading := false;
    }

    /**
     * `handleGenerate` as one step: the guard, then `generateWallpapers`
     * with the current prompt and no manual key, then the completion that
     * matches its outcome.
     */
    method HandleGenerate(envKey: Option<Text>, generateImages: GeminiService.ImagesCall, now: nat -> nat)
      requires Valid()
      modifies this
      ensures Valid()
      ensures old(prompt) == [] || old(isLoading) ==>
        prompt == old(prompt) && images == old(images) && isLoading == old(isLoading) &&
        error == old(error) && selectedImage == old(selectedImage)
      ensures old(prompt) != [] && !old(isLoading) ==>
        var outcome := GeminiService.GenerateWallpapers(old(prompt), None, envKey, generateImages);
        !isLoading && prompt == old(prompt) && selectedImage == old(selectedImage) &&
        (outcome.Ok? ==>
           error.None? && images == NewImages(outcome.value, old(prompt), now) && |images| == |outcome.value| &&
           forall i :: 0 <= i < |images| ==> images[i].url == outcome.value[i] && images[i].prompt == old(prompt)) &&
        (outcome.Err? ==> images == [] && error == Some(ErrorMessage(outcome.error)))
    {
      var started := Begin();
      if started {
        var callPrompt := prompt;
        var outcome := GeminiService.GenerateWallpapers(callPrompt, None, envKey, generateImages);
        match outcome
        case Ok(urls) => CompleteWithUrls(callPrompt, urls, now);
        case Err(e) => CompleteWithError(e);
      }
    }

    /** `handleImageClick`: the clicked image is shown in the modal. */
    method HandleImageClick(image: ImageResult)
      requires Valid()
      modifies this
      ensures Valid()
      ensures selectedImage == Some(image)
      ensures prompt == old(prompt) && images == old(images)
      ensures isLoading == old(isLoading) && error == old(error)
    {
      selectedImage := Some(image);
    }

    /** `handleCloseModal`: the modal is closed. */
    method HandleCloseModal()
      requires Valid()
      modifies this
      ensures Valid()
      ensures selectedImage.None?
      ensures prompt == old(prompt) && images == old(images)
      ensures isLoading == old(isLoading) && error == old(error)
    {
      selectedImage := None;
    }

    /** `handleRemix`: the prompt becomes the remixed one and the modal closes. */
    method HandleRemix(remixPrompt: Text)
      requires Valid()
      modifies this
      ensures Valid()
      ensures prompt == remixPrompt && selectedImage.None?
      ensures images == old(images) && isLoading == old(isLoading) && error == old(error)
    {
      prompt := remixPrompt;
      selectedImage := None;
    }

    /**
     * The modal's remix button wired to `handleRemix`: with an image shown,
     * its stored prompt becomes the prompt and the modal closes; with none,
     * there is no button and nothing changes.
     */
    method RemixFromModal()
      requires Valid()
      modifies this
      ensures Valid()
      ensures old(selectedImage).Some? ==> prompt == old(selectedImage).value.prompt && selectedImage.None?
      ensures old(selectedImage).None? ==> prompt == old(prompt) && selectedImage.None?
      ensures images == old(images) && isLoading == old(isLoading) && error == old(error)
    {
      var remix := FullScreenModal.RemixPrompt(selectedImage);
      if remix.Some? {
        HandleRemix(remix.value);
      }
    }
  }
}
